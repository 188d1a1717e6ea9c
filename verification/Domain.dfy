/** Vocabulary shared by every component: lifecycle, health, outcomes and rows' time stamps. */
module Domain {

  /** Milliseconds since the epoch. */
  type Time = int

  /** A JavaScript string as its UTF-16 code units. */
  type CodeUnit = x: int | 0 <= x < 0x1_0000

  type CodeUnits = seq<CodeUnit>

  datatype Option<+T> = None | Some(value: T)

  datatype Result<+T, +E> = Ok(value: T) | Err(error: E)

  datatype Lifecycle = Active | Paused | Deleted

  datatype Health = Pending | Up | Suspect | Down | Recovering

  datatype CheckSource = Scheduled | Manual | Test

  datatype CheckOutcome = Success | TargetFailure | PlatformError | Inconclusive

  datatype CheckErrorType =
    | DnsError
    | ConnectTimeout
    | ConnectionRefused
    | TlsError
    | TtfbTimeout
    | RequestTimeout
    | RedirectError
    | HttpStatusMismatch
    | ContentMismatch
    | ResponseLimitExceeded
    | NetworkError
    | PlatformFault

  datatype ClosureReason = Recovered | ByPause | ByDelete | ByConfigChange

  const MAX_SAFE_INTEGER: int := 9_007_199_254_740_991

  predicate IsSafeInteger(x: int) {
    -MAX_SAFE_INTEGER <= x <= MAX_SAFE_INTEGER
  }
}
