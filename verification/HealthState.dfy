/** The health state machine of packages/domain: one transition, and what a whole history of them means. */
module HealthState {
  import opened Domain

  datatype MonitorState = MonitorState(
    lifecycle: Lifecycle,
    health: Health,
    failures: int,
    successes: int,
    streakStartedAt: Option<Time>,
    streakFirstError: Option<CheckErrorType>,
    configVersion: int)

  datatype CheckInput = CheckInput(
    source: CheckSource,
    outcome: CheckOutcome,
    configVersion: int,
    checkedAt: Time,
    error: Option<CheckErrorType>,
    failureThreshold: int,
    recoveryThreshold: int)

  datatype IgnoredReason = LifecycleNotActive | NonScheduledSource | StaleConfigVersion | NonTargetOutcome

  datatype IncidentEffect =
    | NoEffect
    | OpenIncident(firstFailureAt: Time, detectedAt: Time,
                   firstError: Option<CheckErrorType>, lastError: Option<CheckErrorType>)
    | UpdateIncident(error: Option<CheckErrorType>)
    | ResolveIncident(resolvedAt: Time)
    | CancelIncident(canceledAt: Time, reason: ClosureReason)

  datatype Transition = Transition(
    ignored: Option<IgnoredReason>,
    previous: Health,
    state: MonitorState,
    effect: IncidentEffect)
  {
    predicate Applied() { ignored.None? }
    predicate HealthChanged() { previous != state.health }
  }

  datatype StateError =
    | BadConfigVersion | BadCounters
    | BadFailureThreshold | BadRecoveryThreshold | BadResultVersion
    | DeletedIsFinal | BadNextVersion

  // ---- validation -------------------------------------------------------

  predicate ValidState(s: MonitorState) {
    && IsSafeInteger(s.configVersion) && s.configVersion >= 1
    && IsSafeInteger(s.failures) && s.failures >= 0
    && IsSafeInteger(s.successes) && s.successes >= 0
  }

  function StateFault(s: MonitorState): Option<StateError> {
    if !IsSafeInteger(s.configVersion) || s.configVersion < 1 then Some(BadConfigVersion)
    else if !ValidState(s) then Some(BadCounters)
    else None
  }

  predicate ValidInput(i: CheckInput) {
    && IsSafeInteger(i.failureThreshold) && i.failureThreshold >= 1
    && IsSafeInteger(i.recoveryThreshold) && i.recoveryThreshold >= 1
    && IsSafeInteger(i.configVersion) && i.configVersion >= 1
  }

  function InputFault(i: CheckInput): Option<StateError> {
    if !IsSafeInteger(i.failureThreshold) || i.failureThreshold < 1 then Some(BadFailureThreshold)
    else if !IsSafeInteger(i.recoveryThreshold) || i.recoveryThreshold < 1 then Some(BadRecoveryThreshold)
    else if !ValidInput(i) then Some(BadResultVersion)
    else None
  }

  // ---- one check result -------------------------------------------------

  predicate HasIncident(h: Health) {
    h.Down? || h.Recovering?
  }

  predicate TargetOutcome(o: CheckOutcome) {
    o.Success? || o.TargetFailure?
  }

  function OnSuccess(s: MonitorState, i: CheckInput): (MonitorState, IncidentEffect) {
    var successes := s.successes + 1;
    var recovered := HasIncident(s.health) && successes >= i.recoveryThreshold;
    (s.(health := if HasIncident(s.health) && !recovered then Recovering else Up,
        failures := 0,
        successes := successes,
        streakStartedAt := None,
        streakFirstError := None),
     if recovered then ResolveIncident(i.checkedAt) else NoEffect)
  }

  function OnFailure(s: MonitorState, i: CheckInput): (MonitorState, IncidentEffect) {
    var failures := s.failures + 1;
    var startedAt := if s.failures > 0 && s.streakStartedAt.Some? then s.streakStartedAt.value else i.checkedAt;
    var firstError := if s.failures > 0 then s.streakFirstError else i.error;
    var entersDown := HasIncident(s.health) || failures >= i.failureThreshold;
    (s.(health := if entersDown then Down else Suspect,
        failures := failures,
        successes := 0,
        streakStartedAt := Some(startedAt),
        streakFirstError := firstError),
     if HasIncident(s.health) then UpdateIncident(i.error)
     else if entersDown then OpenIncident(startedAt, i.checkedAt, firstError, i.error)
     else NoEffect)
  }

  function Advance(s: MonitorState, i: CheckInput): (MonitorState, IncidentEffect) {
    if i.outcome.Success? then OnSuccess(s, i) else OnFailure(s, i)
  }

  function WhyIgnored(s: MonitorState, i: CheckInput): Option<IgnoredReason> {
    if !s.lifecycle.Active? then Some(LifecycleNotActive)
    else if !i.source.Scheduled? then Some(NonScheduledSource)
    else if i.configVersion != s.configVersion then Some(StaleConfigVersion)
    else if !TargetOutcome(i.outcome) then Some(NonTargetOutcome)
    else None
  }

  function ApplyCheckResult(s: MonitorState, i: CheckInput): Result<Transition, StateError> {
    if StateFault(s).Some? then Err(StateFault(s).value)
    else if InputFault(i).Some? then Err(InputFault(i).value)
    else if WhyIgnored(s, i).Some? then Ok(Transition(WhyIgnored(s, i), s.health, s, NoEffect))
    else
      var (next, effect) := Advance(s, i);
      Ok(Transition(None, s.health, next, effect))
  }

  // ---- administrative changes -------------------------------------------

  function Cleared(s: MonitorState): MonitorState {
    s.(health := Pending, failures := 0, successes := 0, streakStartedAt := None, streakFirstError := None)
  }

  function TransitionLifecycle(s: MonitorState, target: Lifecycle, at: Time)
    : Result<(MonitorState, IncidentEffect), StateError>
  {
    if StateFault(s).Some? then Err(StateFault(s).value)
    else if s.lifecycle.Deleted? && !target.Deleted? then Err(DeletedIsFinal)
    else if s.lifecycle == target then Ok((s, NoEffect))
    else
      Ok((Cleared(s).(lifecycle := target),
          if HasIncident(s.health) && !target.Active?
          then CancelIncident(at, if target.Deleted? then ByDelete else ByPause)
          else NoEffect))
  }

  function ResetForConfigChange(s: MonitorState, at: Time, nextVersion: int)
    : Result<(MonitorState, IncidentEffect), StateError>
  {
    if StateFault(s).Some? then Err(StateFault(s).value)
    else if !IsSafeInteger(nextVersion) || nextVersion <= s.configVersion then Err(BadNextVersion)
    else
      Ok((Cleared(s).(configVersion := nextVersion),
          if HasIncident(s.health) then CancelIncident(at, ByConfigChange) else NoEffect))
  }

  // ---- a whole history --------------------------------------------------

  /** Folds the results of a history, oldest first, over a state. */
  function Replay(s: MonitorState, h: seq<CheckInput>): MonitorState {
    if h == [] then s else Advance(Replay(s, h[..|h| - 1]), h[|h| - 1]).0
  }

  /** The effect of the newest result of a history. */
  function LastEffect(s: MonitorState, h: seq<CheckInput>): IncidentEffect
    requires h != []
  {
    Advance(Replay(s, h[..|h| - 1]), h[|h| - 1]).1
  }

  /** A history one configuration can produce: only target outcomes, one pair of thresholds. */
  ghost predicate EpochHistory(h: seq<CheckInput>, F: int, R: int) {
    && F >= 1 && R >= 1
    && forall k :: 0 <= k < |h| ==>
         TargetOutcome(h[k].outcome) && h[k].failureThreshold == F && h[k].recoveryThreshold == R
  }

  ghost predicate Fresh(s: MonitorState) {
    s.health.Pending? && s.failures == 0 && s.successes == 0
    && s.streakStartedAt.None? && s.streakFirstError.None?
  }

  ghost predicate AllFail(h: seq<CheckInput>, lo: int, hi: int) {
    0 <= lo <= hi <= |h| && forall k :: lo <= k < hi ==> h[k].outcome.TargetFailure?
  }

  ghost predicate AllSucceed(h: seq<CheckInput>, lo: int, hi: int) {
    0 <= lo <= hi <= |h| && forall k :: lo <= k < hi ==> h[k].outcome.Success?
  }

  /** R consecutive successes start at position k. */
  ghost predicate RecoveryAt(h: seq<CheckInput>, k: int, R: int) {
    AllSucceed(h, k, k + R)
  }

  /** No R consecutive successes lie wholly at or after position j. */
  ghost predicate NoRecoveryAfter(h: seq<CheckInput>, j: int, R: int) {
    forall k :: j <= k ==> !RecoveryAt(h, k, R)
  }

  /** F consecutive failures end at j, and nothing after j recovered from them. */
  ghost predicate Unrecovered(h: seq<CheckInput>, j: int, F: int, R: int) {
    AllFail(h, j - F, j) && NoRecoveryAfter(h, j, R)
  }

  /** The window condition: some failure window has no recovery window after it. */
  ghost predicate InIncident(h: seq<CheckInput>, F: int, R: int) {
    exists j :: Unrecovered(h, j, F, R)
  }

  function TrailingFailures(h: seq<CheckInput>): (n: nat)
    ensures n <= |h|
    ensures AllFail(h, |h| - n, |h|)
    ensures n < |h| ==> !h[|h| - n - 1].outcome.TargetFailure?
  {
    if h == [] || !h[|h| - 1].outcome.TargetFailure? then 0
    else TrailingFailures(h[..|h| - 1]) + 1
  }

  function TrailingSuccesses(h: seq<CheckInput>): (n: nat)
    ensures n <= |h|
    ensures AllSucceed(h, |h| - n, |h|)
    ensures n < |h| ==> !h[|h| - n - 1].outcome.Success?
  {
    if h == [] || !h[|h| - 1].outcome.Success? then 0
    else TrailingSuccesses(h[..|h| - 1]) + 1
  }

  /** Recovery windows of an extended history that end before its last element are windows of the original. */
  lemma RecoveryExtends(h: seq<CheckInput>, x: CheckInput, k: int, R: int)
    requires R >= 1
    ensures RecoveryAt(h, k, R) ==> RecoveryAt(h + [x], k, R)
    ensures RecoveryAt(h + [x], k, R) && k + R <= |h| ==> RecoveryAt(h, k, R)
    ensures RecoveryAt(h + [x], k, R) && k + R > |h| ==>
              x.outcome.Success? && k + R == |h| + 1 && TrailingSuccesses(h + [x]) >= R
  {
    var g := h + [x];
    assert g[|h|] == x;
    assert forall i :: 0 <= i < |h| ==> g[i] == h[i];
    var n := TrailingSuccesses(g);
    assert n < |g| ==> !g[|g| - n - 1].outcome.Success?;
  }

  /** A failure window that ends inside the original history is one of the original. */
  lemma FailureExtends(h: seq<CheckInput>, x: CheckInput, j: int, F: int)
    requires F >= 1
    ensures AllFail(h, j - F, j) ==> AllFail(h + [x], j - F, j)
    ensures AllFail(h + [x], j - F, j) && j <= |h| ==> AllFail(h, j - F, j)
    ensures AllFail(h + [x], j - F, j) && j > |h| ==>
              x.outcome.TargetFailure? && j == |h| + 1 && TrailingFailures(h + [x]) >= F
  {
    var g := h + [x];
    assert g[|h|] == x;
    assert forall i :: 0 <= i < |h| ==> g[i] == h[i];
    var n := TrailingFailures(g);
    assert n < |g| ==> !g[|g| - n - 1].outcome.TargetFailure?;
  }

  lemma UnrecoveredExtends(h: seq<CheckInput>, x: CheckInput, j: int, F: int, R: int)
    requires F >= 1 && R >= 1 && j <= |h| && TargetOutcome(x.outcome)
    ensures Unrecovered(h + [x], j, F, R) ==> Unrecovered(h, j, F, R)
    ensures Unrecovered(h, j, F, R) && (x.outcome.TargetFailure? || TrailingSuccesses(h + [x]) < R)
            ==> Unrecovered(h + [x], j, F, R)
  {
    FailureExtends(h, x, j, F);
    forall k ensures RecoveryAt(h, k, R) ==> RecoveryAt(h + [x], k, R) { RecoveryExtends(h, x, k, R); }
    forall k ensures RecoveryAt(h + [x], k, R) && k + R <= |h| ==> RecoveryAt(h, k, R) { RecoveryExtends(h, x, k, R); }
    forall k ensures RecoveryAt(h + [x], k, R) && k + R > |h| ==> x.outcome.Success? && TrailingSuccesses(h + [x]) >= R {
      RecoveryExtends(h, x, k, R);
    }
  }

  /** A failure keeps an open incident, and opens one when it completes F in a row. */
  lemma IncidentAfterFailure(h: seq<CheckInput>, x: CheckInput, F: int, R: int)
    requires EpochHistory(h + [x], F, R) && x.outcome.TargetFailure?
    ensures InIncident(h + [x], F, R) <==> InIncident(h, F, R) || TrailingFailures(h + [x]) >= F
  {
    var g := h + [x];
    if InIncident(h, F, R) {
      var j :| Unrecovered(h, j, F, R);
      UnrecoveredExtends(h, x, j, F, R);
    }
    if TrailingFailures(g) >= F {
      assert Unrecovered(g, |g|, F, R);
    }
    if InIncident(g, F, R) {
      var j :| Unrecovered(g, j, F, R);
      FailureExtends(h, x, j, F);
      if j <= |h| { UnrecoveredExtends(h, x, j, F, R); }
    }
  }

  /** A success keeps an open incident unless it completes R in a row, and never opens one. */
  lemma IncidentAfterSuccess(h: seq<CheckInput>, x: CheckInput, F: int, R: int)
    requires EpochHistory(h + [x], F, R) && x.outcome.Success?
    ensures InIncident(h + [x], F, R) <==> InIncident(h, F, R) && TrailingSuccesses(h + [x]) < R
  {
    var g := h + [x];
    if InIncident(g, F, R) {
      var j :| Unrecovered(g, j, F, R);
      FailureExtends(h, x, j, F);
      UnrecoveredExtends(h, x, j, F, R);
      assert g[j - 1].outcome.TargetFailure?;
      assert TrailingSuccesses(g) >= R ==> RecoveryAt(g, |g| - R, R);
    }
    if InIncident(h, F, R) && TrailingSuccesses(g) < R {
      var j :| Unrecovered(h, j, F, R);
      UnrecoveredExtends(h, x, j, F, R);
    }
  }

  /** What the stored state says about the history, in terms of the history alone. */
  ghost predicate Describes(s: MonitorState, h: seq<CheckInput>, F: int, R: int) {
    var f := TrailingFailures(h);
    && s.failures == f
    && s.successes == TrailingSuccesses(h)
    && s.streakStartedAt == (if f > 0 then Some(h[|h| - f].checkedAt) else None)
    && s.streakFirstError == (if f > 0 then h[|h| - f].error else None)
    && s.health == (if h == [] then Pending
                    else if InIncident(h, F, R)
                    then (if h[|h| - 1].outcome.Success? then Recovering else Down)
                    else (if h[|h| - 1].outcome.Success? then Up else Suspect))
  }

  /** Window characterisation: every stored health field is a property of the windows of the history. */
  lemma {:induction false} WindowCharacterisation(s: MonitorState, h: seq<CheckInput>, F: int, R: int)
    requires Fresh(s) && EpochHistory(h, F, R)
    ensures Describes(Replay(s, h), h, F, R)
    ensures HasIncident(Replay(s, h).health) <==> InIncident(h, F, R)
  {
    if h == [] {
      assert !InIncident(h, F, R);
    } else {
      var g, x := h[..|h| - 1], h[|h| - 1];
      assert h == g + [x];
      WindowCharacterisation(s, g, F, R);
      if x.outcome.Success? {
        IncidentAfterSuccess(g, x, F, R);
      } else {
        IncidentAfterFailure(g, x, F, R);
      }
    }
  }

  lemma TrailingOpens(h: seq<CheckInput>, F: int, R: int)
    requires EpochHistory(h, F, R) && TrailingFailures(h) >= F
    ensures InIncident(h, F, R)
  {
    assert Unrecovered(h, |h|, F, R);
  }

  /** The effect of the last check of h, in terms of the windows of h alone. */
  ghost predicate EffectFits(e: IncidentEffect, h: seq<CheckInput>, F: int, R: int)
    requires EpochHistory(h, F, R) && h != []
  {
    var before, after, x := InIncident(h[..|h| - 1], F, R), InIncident(h, F, R), h[|h| - 1];
    && (e.OpenIncident? <==> !before && after)
    && (e.ResolveIncident? <==> before && !after)
    && (e.UpdateIncident? <==> before && x.outcome.TargetFailure?)
    && !e.CancelIncident?
    && (e.OpenIncident? ==>
          && TrailingFailures(h) == F
          && e.firstFailureAt == h[|h| - F].checkedAt
          && e.firstError == h[|h| - F].error
          && e.detectedAt == x.checkedAt && e.lastError == x.error)
    && (e.UpdateIncident? ==> e.error == x.error)
    && (e.ResolveIncident? ==> TrailingSuccesses(h) >= R && e.resolvedAt == x.checkedAt)
  }

  lemma EffectAfterSuccess(s: MonitorState, h: seq<CheckInput>, F: int, R: int)
    requires Fresh(s) && EpochHistory(h, F, R) && h != [] && h[|h| - 1].outcome.Success?
    ensures EffectFits(LastEffect(s, h), h, F, R)
  {
    var g, x := h[..|h| - 1], h[|h| - 1];
    assert h == g + [x];
    WindowCharacterisation(s, g, F, R);
    IncidentAfterSuccess(g, x, F, R);
  }

  lemma FailureInIncident(s: MonitorState, g: seq<CheckInput>, x: CheckInput, F: int, R: int)
    requires Describes(s, g, F, R) && HasIncident(s.health) && EpochHistory(g + [x], F, R) && x.outcome.TargetFailure?
    requires InIncident(g, F, R) && InIncident(g + [x], F, R) && (g + [x])[..|g|] == g
    ensures EffectFits(Advance(s, x).1, g + [x], F, R)
  {}

  lemma FailureOutside(s: MonitorState, g: seq<CheckInput>, x: CheckInput, F: int, R: int)
    requires Describes(s, g, F, R) && !HasIncident(s.health) && EpochHistory(g + [x], F, R) && x.outcome.TargetFailure?
    requires !InIncident(g, F, R) && TrailingFailures(g) < F && (g + [x])[..|g|] == g
    requires InIncident(g + [x], F, R) <==> TrailingFailures(g + [x]) >= F
    ensures EffectFits(Advance(s, x).1, g + [x], F, R)
  {
    assert (g + [x])[|g|] == x;
    assert TrailingFailures(g + [x]) == TrailingFailures(g) + 1;
  }

  lemma EffectAfterFailure(s: MonitorState, h: seq<CheckInput>, F: int, R: int)
    requires Fresh(s) && EpochHistory(h, F, R) && h != [] && h[|h| - 1].outcome.TargetFailure?
    ensures EffectFits(LastEffect(s, h), h, F, R)
  {
    var g, x := h[..|h| - 1], h[|h| - 1];
    assert h == g + [x];
    WindowCharacterisation(s, g, F, R);
    IncidentAfterFailure(g, x, F, R);
    if InIncident(g, F, R) {
      FailureInIncident(Replay(s, g), g, x, F, R);
    } else {
      if TrailingFailures(g) >= F { TrailingOpens(g, F, R); }
      FailureOutside(Replay(s, g), g, x, F, R);
    }
  }

  /**
   * When an incident opens, exactly F failures trail, and the effect names the first of them;
   * resolve and update are emitted exactly when the window condition is left, or kept by a failure.
   */
  lemma EffectsFollowWindows(s: MonitorState, h: seq<CheckInput>, F: int, R: int)
    requires Fresh(s) && EpochHistory(h, F, R) && h != []
    ensures EffectFits(LastEffect(s, h), h, F, R)
  {
    if h[|h| - 1].outcome.Success? {
      EffectAfterSuccess(s, h, F, R);
    } else {
      EffectAfterFailure(s, h, F, R);
    }
  }

  /** Results that are not target outcomes, come from elsewhere or carry another version move nothing. */
  lemma IgnoredKeepsState(s: MonitorState, i: CheckInput)
    requires ApplyCheckResult(s, i).Ok?
    ensures var t := ApplyCheckResult(s, i).value;
            && (t.Applied() <==> s.lifecycle.Active? && i.source.Scheduled?
                                 && i.configVersion == s.configVersion && TargetOutcome(i.outcome))
            && (!t.Applied() ==> t.state == s && t.effect == NoEffect && !t.HealthChanged())
            && (t.Applied() ==> t.state == Replay(s, [i]) && t.effect == LastEffect(s, [i]))
  {
    assert [i][..0] == [];
    assert Replay(s, []) == s;
  }

  // ---- what is refused ----------------------------------------------------

  predicate PositiveSafe(x: int) { 1 <= x <= 9_007_199_254_740_991 }

  predicate NaturalSafe(x: int) { 0 <= x <= 9_007_199_254_740_991 }

  /** A state that no call refuses. */
  predicate Sound(s: MonitorState) { PositiveSafe(s.configVersion) && NaturalSafe(s.failures) && NaturalSafe(s.successes) }

  /** A result is refused iff a version or threshold is no positive safe integer, or a counter no natural one. */
  lemma RefusedIff(s: MonitorState, i: CheckInput)
    ensures ApplyCheckResult(s, i).Ok? <==>
              Sound(s) && PositiveSafe(i.failureThreshold) && PositiveSafe(i.recoveryThreshold) && PositiveSafe(i.configVersion)
  {}

  /**
   * A deleted monitor stays deleted, a change to the lifecycle it already has does nothing, and every other change forgets
   * what is known about the target and cancels an incident unless the monitor becomes active. A version only goes up.
   */
  lemma LifecycleDecides(s: MonitorState, target: Lifecycle, at: Time, nextVersion: int)
    ensures var t, u := TransitionLifecycle(s, target, at), ResetForConfigChange(s, at, nextVersion);
            && (t.Ok? <==> Sound(s) && (s.lifecycle.Deleted? ==> target.Deleted?))
            && (t.Ok? ==>
                  && t.value.0.lifecycle == target && t.value.0.configVersion == s.configVersion
                  && (target == s.lifecycle ==> t.value == (s, NoEffect))
                  && (target != s.lifecycle ==>
                        && Fresh(t.value.0)
                        && t.value.1 == if !s.health.Down? && !s.health.Recovering? then NoEffect
                                        else if target.Paused? then CancelIncident(at, ByPause)
                                        else if target.Deleted? then CancelIncident(at, ByDelete)
                                        else NoEffect))
            && (u.Ok? <==> Sound(s) && PositiveSafe(nextVersion) && nextVersion > s.configVersion)
            && (u.Ok? ==>
                  && Fresh(u.value.0) && u.value.0.lifecycle == s.lifecycle && u.value.0.configVersion == nextVersion
                  && u.value.1 == if s.health.Down? || s.health.Recovering? then CancelIncident(at, ByConfigChange) else NoEffect)
  {}
}
