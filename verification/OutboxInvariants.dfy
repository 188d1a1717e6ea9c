/** What every reachable state of the notification outbox satisfies. */
module OutboxInvariants {
  import opened Domain
  import opened Outbox

  // ---- shape of the tables ----------------------------------------------

  ghost predicate RowShape(S: Outbox, k: Key, r: Row) {
    && r.attempts <= r.maxAttempts
    && match k
       case First(i, c) =>
         r.event.Down? && i in S.incidents && r.monitor == Some(S.incidents[i].monitor)
       case Closing(i, c) =>
         && (r.event.Recovery? || r.event.ResolvedSummary?)
         && i in S.incidents && S.incidents[i].status.IncidentResolved?
         && First(i, c) in S.rows && S.rows[First(i, c)].allowsRecovery && r.monitor == S.rows[First(i, c)].monitor
       case Network(_, _) => r.event.NetworkRecovery? && r.monitor.None?
  }

  ghost predicate ShapeOk(S: Outbox) {
    forall k :: k in S.rows ==> RowShape(S, k, S.rows[k])
  }

  // ---- attempts ---------------------------------------------------------

  /** Deliveries of a row are numbered 1 to its attempt count. */
  ghost predicate NumberedOk(S: Outbox) {
    forall a :: a in S.deliveries <==> a.key in S.rows && 1 <= a.number <= S.rows[a.key].attempts
  }

  /** Only the newest delivery of a row can be running. */
  ghost predicate NewestOk(S: Outbox) {
    forall a :: a in S.deliveries && S.deliveries[a].Attempting? ==>
      a.key in S.rows && a.number == S.rows[a.key].attempts
  }

  /** A send whose outcome is not stored belongs to a delivery that is not confirmed. */
  ghost predicate FlightOk(S: Outbox) {
    forall a :: a in S.inFlight ==> a in S.deliveries && !S.deliveries[a].Succeeded?
  }

  /** A confirmed delivery leaves its row sent, unless an administrator canceled it. */
  ghost predicate SuccessOk(S: Outbox) {
    forall a :: a in S.deliveries && S.deliveries[a].Succeeded? ==>
      a.key in S.rows && (S.rows[a.key].status.Sent? || S.rows[a.key].status.Canceled?)
  }

  ghost predicate Confirmed(S: Outbox, k: Key) {
    exists n :: Attempt(k, n) in S.deliveries && S.deliveries[Attempt(k, n)].Succeeded?
  }

  ghost predicate SentOk(S: Outbox) {
    forall k :: k in S.rows && S.rows[k].status.Sent? ==> Confirmed(S, k)
  }

  ghost predicate Accounting(S: Outbox) {
    NumberedOk(S) && NewestOk(S) && FlightOk(S) && SuccessOk(S) && SentOk(S)
  }

  // ---- order ------------------------------------------------------------

  ghost predicate DownSent(S: Outbox, k: Key) {
    k.Closing? && First(k.incident, k.channel) in S.rows && S.rows[First(k.incident, k.channel)].status.Sent?
  }

  /** A recovery leaves the waiting state only behind a sent DOWN. */
  ghost predicate OrderOk(S: Outbox) {
    && (forall k :: IsRecovery(S, k) && (S.rows[k].attempts > 0 || !(S.rows[k].status.Pending? || S.rows[k].status.Canceled?))
          ==> DownSent(S, k))
    && (forall p :: p in S.cleared ==> p.key in S.rows && (IsRecovery(S, p.key) ==> DownSent(S, p.key)))
  }

  ghost predicate ReasonRow(S: Outbox, k: Key)
    requires k in S.rows
  {
    var r := S.rows[k];
    && (r.reason.DownNotDelivered? ==> IsRecovery(S, k) && r.status.Canceled? && r.attempts == 0 && r.reactivations == 0)
    && r.reactivations <= 1
    && (r.reactivations == 1 ==> IsRecovery(S, k) && DownSent(S, k))
  }

  ghost predicate ReasonOk(S: Outbox) {
    forall k :: k in S.rows ==> ReasonRow(S, k)
  }

  // ---- closing messages -------------------------------------------------

  /** A DOWN row that asks for a closing message and that no administrator has touched. */
  ghost predicate Watched(S: Outbox, k: Key) {
    k in S.rows && k.First? && S.rows[k].allowsRecovery && !S.rows[k].disturbed
  }

  ghost predicate KeptRow(S: Outbox, k: Key) {
    Watched(S, k) ==> S.rows[k].monitor.Some? && ChannelOn(S, k.channel) && RecoveryBound(S, S.rows[k].monitor.value, k.channel)
  }

  ghost predicate KeptOk(S: Outbox) {
    forall k :: KeptRow(S, k)
  }

  datatype Case = WaitingCase | DeliveredCase | UndeliveredCase | SummaryCase

  function CaseOf(s: Status): Case {
    match s
    case Sent => DeliveredCase
    case Failed => UndeliveredCase
    case Canceled => SummaryCase
    case _ => WaitingCase
  }

  /** The closing-message table: what stands beside a DOWN row once its incident is resolved. */
  ghost predicate Settled(rows: map<Key, Row>, k: Key)
    requires k in rows && k.First?
  {
    var d, q := rows[k], Closing(k.incident, k.channel);
    match CaseOf(d.status)
    case WaitingCase =>
      q in rows && rows[q].event.Recovery? && rows[q].status.Pending? && rows[q].attempts == 0
    case DeliveredCase =>
      q in rows && rows[q].event.Recovery? && !rows[q].reason.DownNotDelivered?
    case UndeliveredCase =>
      q in rows ==> rows[q].event.Recovery? && rows[q].status.Canceled? && rows[q].reason.DownNotDelivered?
    case SummaryCase =>
      d.attempts == 0 && q in rows && rows[q].event.ResolvedSummary?
  }

  ghost predicate TableRow(S: Outbox, k: Key) {
    Watched(S, k) ==>
      && k.incident in S.incidents
      && match S.incidents[k.incident].status
         case IncidentOpen => !S.rows[k].status.Canceled?
         case IncidentResolved => Settled(S.rows, k)
         case IncidentCanceled => false
  }

  ghost predicate TableOk(S: Outbox) {
    forall k :: TableRow(S, k)
  }

  ghost predicate Inv(S: Outbox) {
    ShapeOk(S) && Accounting(S) && OrderOk(S) && ReasonOk(S) && KeptOk(S) && TableOk(S)
  }
}
