/** What the columns of an incident tell about the results of its monitor, over every run. */
module CheckIncidents {
  import opened Domain
  import opened HealthState
  import opened Scheduling
  import opened CheckLedger
  import opened CheckInvariants
  import opened CheckPreservation
  import opened CheckTheorems

  // ---- the counted results ------------------------------------------------

  /** The verdicts about the target that count for a monitor, as the checks store them, oldest first. */
  function TargetResults(checks: seq<Check>, m: MonitorId, epoch: nat): seq<CheckResult> {
    if checks == [] then []
    else
      var last := |checks| - 1;
      var rest := TargetResults(checks[..last], m, epoch);
      if Counts(checks[last], last, m, epoch) && TargetOutcome(checks[last].result.value.outcome)
      then rest + [checks[last].result.value] else rest
  }

  /** The inputs of a history carry the outcome, the end of the request and the error of these results. */
  ghost predicate Carries(h: seq<CheckInput>, rs: seq<CheckResult>) {
    && |h| == |rs|
    && forall k :: 0 <= k < |h| ==>
         h[k].outcome == rs[k].outcome && h[k].checkedAt == rs[k].finishedAt && h[k].error == rs[k].error
  }

  lemma {:induction false} HistoryCarries(checks: seq<Check>, m: MonitorId, epoch: nat, config: Config)
    ensures Carries(TargetOnly(History(checks, m, epoch, config)), TargetResults(checks, m, epoch))
  {
    if checks != [] {
      var last := |checks| - 1;
      HistoryCarries(checks[..last], m, epoch, config);
      if Counts(checks[last], last, m, epoch) {
        var rest := History(checks[..last], m, epoch, config);
        var x := InputOf(checks[last].result.value, checks[last].configVersion, config);
        assert (rest + [x])[..|rest|] == rest;
      }
    }
  }

  // ---- what an open incident tells ----------------------------------------

  /** The p-th result opened an incident that no later result has ended: it completed F consecutive failures. */
  ghost predicate OpenedBy(h: seq<CheckInput>, p: int, F: int, R: int) {
    && F >= 1 && AllFail(h, p - F, p)
    && !InIncident(h[..p - 1], F, R)
    && forall q :: p <= q <= |h| ==> InIncident(h[..q], F, R)
  }

  /** The k-th result is the newest failure. */
  ghost predicate NewestFailure(h: seq<CheckInput>, k: int) {
    0 <= k < |h| && h[k].outcome.TargetFailure? && AllSucceed(h, k + 1, |h|)
  }

  /** The incident names the first and the last of the failures that opened it, and the newest failure since. */
  ghost predicate TellsOf(i: Incident, h: seq<CheckInput>, p: int, k: int, F: int, R: int) {
    && OpenedBy(h, p, F, R) && NewestFailure(h, k) && p - 1 <= k
    && i.firstFailureAt == h[p - F].checkedAt && i.firstError == h[p - F].error
    && i.detectedAt == h[p - 1].checkedAt
    && i.lastError == h[k].error
  }

  ghost predicate Told(i: Incident, h: seq<CheckInput>, F: int, R: int) {
    exists p, k :: TellsOf(i, h, p, k, F, R)
  }

  ghost predicate IncidentTold(L: Ledger, i: Incident) {
    && i.monitor in L.monitors
    && var mon := L.monitors[i.monitor];
       i.configVersion == mon.state.configVersion
       && Told(i, TargetHistory(L, i.monitor), mon.config.failureThreshold, mon.config.recoveryThreshold)
  }

  ghost predicate IncidentsTold(L: Ledger) {
    forall i :: 0 <= i < |L.incidents| && L.incidents[i].status.IncidentOpen? ==> IncidentTold(L, L.incidents[i])
  }

  // ---- one more result ----------------------------------------------------

  lemma PrefixOfSnoc(h: seq<CheckInput>, x: CheckInput)
    ensures forall q :: 0 <= q <= |h| ==> (h + [x])[..q] == h[..q]
    ensures (h + [x])[..|h| + 1] == h + [x] && h[..|h|] == h
  {
    forall q | 0 <= q <= |h| ensures (h + [x])[..q] == h[..q] {}
  }

  /** A result that leaves the incident open keeps the failures that opened it. */
  lemma OpenedStays(h: seq<CheckInput>, x: CheckInput, p: int, F: int, R: int)
    requires OpenedBy(h, p, F, R) && InIncident(h + [x], F, R)
    ensures OpenedBy(h + [x], p, F, R)
  {
    PrefixOfSnoc(h, x);
  }

  lemma FailureTold(i: Incident, h: seq<CheckInput>, x: CheckInput, F: int, R: int)
    requires Told(i, h, F, R) && x.outcome.TargetFailure? && InIncident(h + [x], F, R)
    ensures Told(i.(lastError := x.error), h + [x], F, R)
  {
    var p, k :| TellsOf(i, h, p, k, F, R);
    OpenedStays(h, x, p, F, R);
    assert TellsOf(i.(lastError := x.error), h + [x], p, |h|, F, R);
  }

  lemma SuccessTold(i: Incident, h: seq<CheckInput>, x: CheckInput, F: int, R: int)
    requires Told(i, h, F, R) && x.outcome.Success? && InIncident(h + [x], F, R)
    ensures Told(i, h + [x], F, R)
  {
    var p, k :| TellsOf(i, h, p, k, F, R);
    OpenedStays(h, x, p, F, R);
    assert TellsOf(i, h + [x], p, k, F, R);
  }

  /** The incident that a result opens. */
  function Opening(m: MonitorId, version: int, first: CheckInput, last: CheckInput): Incident {
    Incident(m, version, IncidentOpen, first.checkedAt, last.checkedAt, None, None, first.error, last.error, None)
  }

  lemma OpeningTold(m: MonitorId, version: int, h: seq<CheckInput>, x: CheckInput, F: int, R: int)
    requires EpochHistory(h + [x], F, R) && !InIncident(h, F, R) && InIncident(h + [x], F, R)
    requires TrailingFailures(h + [x]) == F
    ensures F <= |h| + 1 && Told(Opening(m, version, (h + [x])[|h| + 1 - F], x), h + [x], F, R)
  {
    var g := h + [x];
    PrefixOfSnoc(h, x);
    assert g[|h|] == x;
    assert AllFail(g, |g| - F, |g|);
    assert OpenedBy(g, |g|, F, R);
    assert NewestFailure(g, |h|);
    assert TellsOf(Opening(m, version, g[|g| - F], x), g, |g|, |h|, F, R);
  }

  /** What one target result does to the incident table of its monitor, told from the history alone. */
  ghost predicate TableFollows(before: seq<Incident>, after: seq<Incident>, m: MonitorId, version: int,
                               h: seq<CheckInput>, x: CheckInput, F: int, R: int) {
    if !InIncident(h, F, R) && InIncident(h + [x], F, R)
    then 1 <= F <= |h| + 1 && TrailingFailures(h + [x]) == F
         && after == before + [Opening(m, version, (h + [x])[|h| + 1 - F], x)]
    else
      && |after| == |before|
      && forall k :: 0 <= k < |before| ==>
           after[k] == if !(before[k].monitor == m && before[k].status.IncidentOpen?) then before[k]
                       else if x.outcome.TargetFailure? then before[k].(lastError := x.error)
                       else if InIncident(h + [x], F, R) then before[k]
                       else before[k].(status := IncidentResolved, resolvedAt := Some(x.checkedAt), closure := Some(Recovered))
  }

  lemma EffectOpens(incidents: seq<Incident>, m: MonitorId, version: int, h: seq<CheckInput>, x: CheckInput, e: IncidentEffect,
                    F: int, R: int)
    requires EpochHistory(h + [x], F, R) && EffectFits(e, h + [x], F, R)
    requires !HasOpen(incidents, m) && !InIncident(h, F, R) && InIncident(h + [x], F, R)
    ensures TableFollows(incidents, ApplyIncidentEffect(incidents, m, version, e), m, version, h, x, F, R)
  {
    PrefixOfSnoc(h, x);
    assert (h + [x])[|h|] == x;
  }

  lemma EffectMoves(incidents: seq<Incident>, m: MonitorId, version: int, h: seq<CheckInput>, x: CheckInput, e: IncidentEffect,
                    F: int, R: int)
    requires EpochHistory(h + [x], F, R) && EffectFits(e, h + [x], F, R)
    requires OneOpen(incidents) && HasOpen(incidents, m) && InIncident(h, F, R)
    ensures TableFollows(incidents, ApplyIncidentEffect(incidents, m, version, e), m, version, h, x, F, R)
  {
    PrefixOfSnoc(h, x);
    assert (h + [x])[|h|] == x;
    OpenIsFound(incidents, m);
  }

  lemma EffectFollows(incidents: seq<Incident>, m: MonitorId, version: int, h: seq<CheckInput>, x: CheckInput, e: IncidentEffect,
                      F: int, R: int)
    requires EpochHistory(h + [x], F, R) && EffectFits(e, h + [x], F, R)
    requires OneOpen(incidents) && (HasOpen(incidents, m) <==> InIncident(h, F, R))
    ensures TableFollows(incidents, ApplyIncidentEffect(incidents, m, version, e), m, version, h, x, F, R)
  {
    if InIncident(h, F, R) {
      EffectMoves(incidents, m, version, h, x, e, F, R);
    } else if InIncident(h + [x], F, R) {
      EffectOpens(incidents, m, version, h, x, e, F, R);
    } else {
      PrefixOfSnoc(h, x);
    }
  }

  /** A transition of the domain, as the effect of the newest result of a history. */
  lemma TransitionFits(mon: Monitor, h: seq<CheckInput>, x: CheckInput, t: Transition)
    requires mon.state == Replay(Cleared(mon.state), h) && ApplyCheckResult(mon.state, x) == Ok(t) && t.Applied()
    requires EpochHistory(h + [x], mon.config.failureThreshold, mon.config.recoveryThreshold)
    ensures EffectFits(t.effect, h + [x], mon.config.failureThreshold, mon.config.recoveryThreshold)
  {
    PrefixOfSnoc(h, x);
    assert t.effect == LastEffect(Cleared(mon.state), h + [x]);
    EffectsFollowWindows(Cleared(mon.state), h + [x], mon.config.failureThreshold, mon.config.recoveryThreshold);
  }

  // ---- histories across a step --------------------------------------------

  /** A row of m counts, and with the same result, in both or in neither. */
  ghost predicate CountsAlike(a: Check, b: Check, m: MonitorId) {
    && b.monitor == a.monitor
    && (a.monitor == m ==>
          && (b.status.CheckCompleted? <==> a.status.CheckCompleted?)
          && (a.status.CheckCompleted? ==> b.result == a.result && b.configVersion == a.configVersion))
  }

  /** No result of m began or ceased to count. */
  ghost predicate NothingCounted(a: seq<Check>, b: seq<Check>, m: MonitorId) {
    && |a| <= |b|
    && (forall i :: 0 <= i < |a| ==> CountsAlike(a[i], b[i], m))
    && forall i :: |a| <= i < |b| ==> !b[i].status.CheckCompleted?
  }

  lemma {:induction false} UncountedTail(a: seq<Check>, n: nat, m: MonitorId, epoch: nat, config: Config)
    requires n <= |a| && forall i :: n <= i < |a| ==> !a[i].status.CheckCompleted?
    ensures History(a, m, epoch, config) == History(a[..n], m, epoch, config)
  {
    if n < |a| {
      UncountedTail(a[..|a| - 1], n, m, epoch, config);
      assert a[..|a| - 1][..n] == a[..n];
    } else {
      assert a[..n] == a;
    }
  }

  lemma HistoryStays(L: Ledger, T: Ledger, m: MonitorId)
    requires m in L.monitors && m in T.monitors && NothingCounted(L.checks, T.checks, m)
    requires T.monitors[m].epoch == L.monitors[m].epoch && T.monitors[m].config == L.monitors[m].config
    ensures TargetHistory(T, m) == TargetHistory(L, m)
  {
    var mon := L.monitors[m];
    UncountedTail(T.checks, |L.checks|, m, mon.epoch, mon.config);
    HistoryDependsOnCounted(L.checks, T.checks[..|L.checks|], m, mon.epoch, mon.config);
  }

  /** The monitor's version, configuration and history are the same in both. */
  ghost predicate SameStory(L: Ledger, T: Ledger, m: MonitorId) {
    && m in L.monitors && m in T.monitors
    && T.monitors[m].config == L.monitors[m].config && T.monitors[m].state.configVersion == L.monitors[m].state.configVersion
    && TargetHistory(T, m) == TargetHistory(L, m)
  }

  /** Neither the monitor's state nor what counts for it changed. */
  ghost predicate Quiet(L: Ledger, T: Ledger, m: MonitorId) {
    && m in L.monitors && m in T.monitors && NothingCounted(L.checks, T.checks, m)
    && T.monitors[m].epoch == L.monitors[m].epoch && T.monitors[m].config == L.monitors[m].config
    && T.monitors[m].state == L.monitors[m].state
  }

  lemma QuietTellsTheSame(L: Ledger, T: Ledger, m: MonitorId)
    requires Quiet(L, T, m)
    ensures SameStory(L, T, m)
  {
    HistoryStays(L, T, m);
  }

  lemma SameStoryStaysTold(L: Ledger, T: Ledger, i: Incident)
    requires IncidentTold(L, i) && SameStory(L, T, i.monitor)
    ensures IncidentTold(T, i)
  {}

  // ---- steps that store no result -----------------------------------------

  lemma AdministrationIsQuiet(L: Ledger, s: Step, m: MonitorId)
    requires Administers(s) && m in L.monitors && s.m != m
    ensures Quiet(L, Perform(L, s), m)
  {}

  lemma GuardIsQuiet(L: Ledger, s: Step, m: MonitorId)
    requires Guards(s) && m in L.monitors
    ensures Quiet(L, Perform(L, s), m) && Perform(L, s).incidents == L.incidents
  {
    if s.DoOutageEnds? && CanEnd(L, s.o, s.at) { OutageEndsPulls(L, s.o, s.at, s.online); }
    if s.DoSummarize? && CanSummarize(L, s.o, s.at) { SummaryPullsSome(L, s.o, s.at); }
  }

  lemma WorkIsQuiet(L: Ledger, s: Step, m: MonitorId)
    requires Works(s) && !s.DoWorkerFinish? && m in L.monitors
    ensures Quiet(L, Perform(L, s), m) && Perform(L, s).incidents == L.incidents
  {
    if s.DoWorkerClaim? { var _, _ := WorkerClaimCases(L, s.w, s.leaseMs); }
  }

  lemma CreationIsQuiet(L: Ledger, due: seq<MonitorId>, asOf: Time, m: MonitorId)
    requires m in L.monitors
    ensures Quiet(L, CreateDueChecks(L, due, asOf), m) && CreateDueChecks(L, due, asOf).incidents == L.incidents
  {
    CreateDueChecksAppends(L, due, asOf);
    CreatedRowsArePending(L, due, asOf);
  }

  lemma {:induction false} AllCreatedArePending(L: Ledger, due: seq<MonitorId>, asOf: Time)
    ensures var T := CreateAll(L, due, asOf);
            |T.checks| >= |L.checks| && forall i :: |L.checks| <= i < |T.checks| ==> T.checks[i].status.CheckPending?
  {
    if due != [] { AllCreatedArePending(L, due[..|due| - 1], asOf); }
  }

  lemma CreatedRowsArePending(L: Ledger, due: seq<MonitorId>, asOf: Time)
    ensures var T := CreateDueChecks(L, due, asOf);
            |T.checks| >= |L.checks| && forall i :: |L.checks| <= i < |T.checks| ==> T.checks[i].status.CheckPending?
  {
    AllCreatedArePending(L, due, asOf);
  }

  lemma DispatchIsQuiet(L: Ledger, s: Step, m: MonitorId)
    requires (s.DoDispatchClaim? || s.DoMarkEnqueued? || s.DoReleaseClaim?) && m in L.monitors
    ensures Quiet(L, Perform(L, s), m) && Perform(L, s).incidents == L.incidents
  {}

  // ---- a result that counts -----------------------------------------------

  lemma CompletedIsQuietElsewhere(L: Ledger, id: CheckId, r: CheckResult, t: Transition, n: MonitorId)
    requires id < |L.checks| && L.checks[id].monitor in L.monitors && n in L.monitors && n != L.checks[id].monitor
    ensures Quiet(L, Completed(L, id, r, t), n)
  {}

  lemma NewestOfMonitor(L: Ledger, id: CheckId)
    requires Core(L) && id < |L.checks| && IsActive(L.checks[id]) && L.checks[id].monitor in L.monitors
    ensures forall i :: id < i < |L.checks| ==> L.checks[i].monitor != L.checks[id].monitor
    ensures L.monitors[L.checks[id].monitor].epoch <= id
  {
    assert RowOk(L.checks[id], id, L.monitors, L.clock);
  }

  lemma TargetOnlySnoc(h: seq<CheckInput>, x: CheckInput)
    ensures TargetOnly(h + [x]) == TargetOnly(h) + if TargetOutcome(x.outcome) then [x] else []
  {
    assert (h + [x])[..|h|] == h;
  }

  /** The history of the check's own monitor gets the result at its end, if it says something about the target. */
  lemma CompletedExtends(L: Ledger, id: CheckId, r: CheckResult, t: Transition)
    requires Core(L) && id < |L.checks| && IsActive(L.checks[id]) && L.checks[id].monitor in L.monitors
    ensures var C, m := Completed(L, id, r, t), L.checks[id].monitor;
            && m in C.monitors && C.monitors[m].config == L.monitors[m].config
            && TargetHistory(C, m) == TargetHistory(L, m)
                 + if TargetOutcome(r.outcome) then [InputOf(r, L.checks[id].configVersion, L.monitors[m].config)] else []
  {
    var C, m := Completed(L, id, r, t), L.checks[id].monitor;
    var mon := L.monitors[m];
    NewestOfMonitor(L, id);
    HistoryGrows(L.checks, C.checks, id, m, mon.epoch, mon.config);
    TargetOnlySnoc(HistoryOf(L, m), InputOf(r, L.checks[id].configVersion, mon.config));
  }

  lemma SnocIsEpochHistory(h: seq<CheckInput>, x: CheckInput, F: int, R: int)
    requires EpochHistory(h, F, R) && TargetOutcome(x.outcome) && x.failureThreshold == F && x.recoveryThreshold == R
    ensures EpochHistory(h + [x], F, R)
  {}

  lemma OpenIffInIncident(L: Ledger, m: MonitorId)
    requires Inv(L) && m in L.monitors
    ensures var mon := L.monitors[m];
            HasOpen(L.incidents, m) <==> InIncident(TargetHistory(L, m), mon.config.failureThreshold, mon.config.recoveryThreshold)
  {
    HealthOfState(L, m);
    var mon := L.monitors[m];
    WindowCharacterisation(Cleared(mon.state), TargetHistory(L, m), mon.config.failureThreshold, mon.config.recoveryThreshold);
  }

  /** The table after a check of m completed with r. */
  ghost predicate ResultFollows(L: Ledger, T: Ledger, m: MonitorId, r: CheckResult, version: int) {
    && m in L.monitors && m in T.monitors && T.monitors[m].config == L.monitors[m].config
    && T.monitors[m].state.configVersion == L.monitors[m].state.configVersion
    && var h, c := TargetHistory(L, m), L.monitors[m].config;
       var x := InputOf(r, version, c);
       if !TargetOutcome(r.outcome) then TargetHistory(T, m) == h && T.incidents == L.incidents
       else
         && EpochHistory(h + [x], c.failureThreshold, c.recoveryThreshold)
         && TargetHistory(T, m) == h + [x]
         && TableFollows(L.incidents, T.incidents, m, L.monitors[m].state.configVersion, h, x,
                         c.failureThreshold, c.recoveryThreshold)
  }

  lemma CompletedFollows(L: Ledger, id: CheckId, r: CheckResult, t: Transition)
    requires Inv(L) && id < |L.checks| && IsActive(L.checks[id]) && L.checks[id].monitor in L.monitors
    requires var mon := L.monitors[L.checks[id].monitor];
             Steps(mon.state, InputOf(r, L.checks[id].configVersion, mon.config), t)
    ensures ResultFollows(L, Completed(L, id, r, t), L.checks[id].monitor, r, L.checks[id].configVersion)
  {
    var m := L.checks[id].monitor;
    var mon, h := L.monitors[m], TargetHistory(L, m);
    var x := InputOf(r, L.checks[id].configVersion, mon.config);
    assert RowOk(L.checks[id], id, L.monitors, L.clock);
    CompletedExtends(L, id, r, t);
    HealthOfState(L, m);
    OpenIffInIncident(L, m);
    if TargetOutcome(r.outcome) {
      SnocIsEpochHistory(h, x, mon.config.failureThreshold, mon.config.recoveryThreshold);
      TransitionFits(mon, h, x, t);
      EffectFollows(L.incidents, m, mon.state.configVersion, h, x, t.effect,
                    mon.config.failureThreshold, mon.config.recoveryThreshold);
    }
  }

  /** The open incidents of the monitor itself stay told. */
  lemma RowStaysTold(L: Ledger, T: Ledger, m: MonitorId, r: CheckResult, version: int, k: nat)
    requires ResultFollows(L, T, m, r, version) && IncidentsTold(L)
    requires k < |T.incidents| && T.incidents[k].monitor == m && T.incidents[k].status.IncidentOpen?
    ensures IncidentTold(T, T.incidents[k])
  {
    var h, c := TargetHistory(L, m), L.monitors[m].config;
    var x := InputOf(r, version, c);
    if k < |L.incidents| {
      assert IncidentTold(L, L.incidents[k]);
      if TargetOutcome(r.outcome) {
        OldRowTold(L.incidents, T.incidents, m, L.monitors[m].state.configVersion, h, x, c.failureThreshold, c.recoveryThreshold, k);
      }
    } else {
      OpeningTold(m, L.monitors[m].state.configVersion, h, x, c.failureThreshold, c.recoveryThreshold);
    }
  }

  lemma OldRowTold(before: seq<Incident>, after: seq<Incident>, m: MonitorId, version: int, h: seq<CheckInput>, x: CheckInput,
                   F: int, R: int, k: nat)
    requires TableFollows(before, after, m, version, h, x, F, R) && TargetOutcome(x.outcome) && EpochHistory(h + [x], F, R)
    requires k < |before| && k < |after| && after[k].monitor == m && after[k].status.IncidentOpen? && Told(before[k], h, F, R)
    ensures Told(after[k], h + [x], F, R)
  {
    ToldIsOpen(before[k], h, F, R);
    if x.outcome.TargetFailure? {
      StaysOpen(h, x, F, R);
      FailureTold(before[k], h, x, F, R);
    } else {
      SuccessTold(before[k], h, x, F, R);
    }
  }

  lemma ToldIsOpen(i: Incident, h: seq<CheckInput>, F: int, R: int)
    requires Told(i, h, F, R)
    ensures InIncident(h, F, R)
  {
    var p, k :| TellsOf(i, h, p, k, F, R);
    assert h[..|h|] == h;
  }

  lemma StaysOpen(h: seq<CheckInput>, x: CheckInput, F: int, R: int)
    requires EpochHistory(h + [x], F, R) && InIncident(h, F, R) && x.outcome.TargetFailure?
    ensures InIncident(h + [x], F, R)
  {
    IncidentAfterFailure(h, x, F, R);
  }

  // ---- every step ---------------------------------------------------------

  /** The reason that a change of a monitor gives for closing its incident. */
  function Reason(s: Step): ClosureReason {
    if s.DoPause? then ByPause else if s.DoRemove? then ByDelete else ByConfigChange
  }

  predicate CancelsIncidents(s: Step) { s.DoPause? || s.DoRemove? || s.DoUpdateMonitor? }

  /** The worker of the step holds an active check of m, whose result it stores. */
  predicate StoresResult(L: Ledger, s: Step, m: MonitorId) {
    && s.DoWorkerFinish? && s.w in L.workers && L.workers[s.w].Holding? && L.workers[s.w].check < |L.checks|
    && L.checks[L.workers[s.w].check].monitor == m && IsActive(L.checks[L.workers[s.w].check])
  }

  /** Everything that can become of incident row b of a ledger with the next step. */
  ghost predicate RowFollows(L: Ledger, T: Ledger, s: Step, b: Incident, a: Incident) {
    || a == b
    || (&& b.status.IncidentOpen? && StoresResult(L, s, b.monitor) && s.result.outcome.TargetFailure?
        && a == b.(lastError := s.result.error))
    || (&& b.status.IncidentOpen? && StoresResult(L, s, b.monitor) && s.result.outcome.Success?
        && b.monitor in T.monitors
        && !InIncident(TargetHistory(T, b.monitor), T.monitors[b.monitor].config.failureThreshold,
                       T.monitors[b.monitor].config.recoveryThreshold)
        && a == b.(status := IncidentResolved, resolvedAt := Some(s.result.finishedAt), closure := Some(Recovered)))
    || (&& b.status.IncidentOpen? && CancelsIncidents(s) && s.m == b.monitor
        && a == b.(status := IncidentCanceled, canceledAt := Some(L.clock), closure := Some(Reason(s))))
  }

  ghost predicate IncidentsFollow(L: Ledger, T: Ledger, s: Step) {
    && |L.incidents| <= |T.incidents| <= |L.incidents| + 1
    && (forall k :: 0 <= k < |L.incidents| ==> RowFollows(L, T, s, L.incidents[k], T.incidents[k]))
    && (|T.incidents| > |L.incidents| ==>
          T.incidents[|L.incidents|].status.IncidentOpen? && StoresResult(L, s, T.incidents[|L.incidents|].monitor))
  }

  lemma AdministrationFollows(L: Ledger, s: Step)
    requires Administers(s)
    ensures IncidentsFollow(L, Perform(L, s), s)
  {}

  /** What administration leaves open belongs to monitors it did not touch. */
  lemma AdministrationKeepsTold(L: Ledger, s: Step)
    requires Inv(L) && Administers(s) && IncidentsTold(L)
    ensures IncidentsTold(Perform(L, s))
  {
    var T := Perform(L, s);
    AdministrationFollows(L, s);
    forall k | 0 <= k < |T.incidents| && T.incidents[k].status.IncidentOpen? ensures IncidentTold(T, T.incidents[k]) {
      assert RowFollows(L, T, s, L.incidents[k], T.incidents[k]);
      assert IncidentTold(L, L.incidents[k]);
      if T != L {
        NotOfChangedMonitor(L, s, k);
        AdministrationIsQuiet(L, s, L.incidents[k].monitor);
        QuietTellsTheSame(L, T, L.incidents[k].monitor);
        SameStoryStaysTold(L, T, L.incidents[k]);
      }
    }
  }

  lemma NotOfChangedMonitor(L: Ledger, s: Step, k: nat)
    requires Inv(L) && Administers(s) && Perform(L, s) != L
    requires k < |L.incidents| && L.incidents[k].status.IncidentOpen?
    requires k < |Perform(L, s).incidents| && Perform(L, s).incidents[k].status.IncidentOpen?
    ensures L.incidents[k].monitor != s.m
  {
    if CancelsIncidents(s) {
      NoneLeftOpen(L, s, k);
    } else {
      NoneWasOpen(L, s, k);
    }
  }

  lemma NoneLeftOpen(L: Ledger, s: Step, k: nat)
    requires CancelsIncidents(s) && Perform(L, s) != L
    requires k < |L.incidents| && k < |Perform(L, s).incidents| && Perform(L, s).incidents[k].status.IncidentOpen?
    ensures L.incidents[k].monitor != s.m
  {}

  lemma NoneWasOpen(L: Ledger, s: Step, k: nat)
    requires MonitorsOk(L) && IncidentsOk(L) && Agreement(L) && (s.DoCreateMonitor? || s.DoResume?) && Perform(L, s) != L
    requires k < |L.incidents| && L.incidents[k].status.IncidentOpen?
    ensures L.incidents[k].monitor != s.m
  {
    assert IncidentOk(L.incidents[k], L.monitors, L.clock);
    if s.DoResume? && L.incidents[k].monitor == s.m {
      assert MonitorOk(L.monitors[s.m], |L.checks|);
      assert HasOpen(L.incidents, s.m);
    }
  }

  lemma OthersKeepTold(L: Ledger, s: Step)
    requires !Administers(s) && !s.DoWorkerFinish? && IncidentsTold(L)
    ensures IncidentsTold(Perform(L, s)) && Perform(L, s).incidents == L.incidents
  {
    forall m | m in L.monitors ensures SameStory(L, Perform(L, s), m) { OthersTellTheSame(L, s, m); }
    OthersKeepIncidents(L, s);
    forall k | 0 <= k < |L.incidents| && L.incidents[k].status.IncidentOpen? ensures IncidentTold(Perform(L, s), L.incidents[k]) {
      SameStoryStaysTold(L, Perform(L, s), L.incidents[k]);
    }
  }

  lemma OthersTellTheSame(L: Ledger, s: Step, m: MonitorId)
    requires !Administers(s) && !s.DoWorkerFinish? && m in L.monitors
    ensures SameStory(L, Perform(L, s), m)
  {
    if Guards(s) {
      GuardIsQuiet(L, s, m);
    } else if Works(s) {
      WorkIsQuiet(L, s, m);
    } else if s.DoCreateDue? {
      CreationIsQuiet(L, s.due, s.asOf, m);
    } else {
      DispatchIsQuiet(L, s, m);
    }
    QuietTellsTheSame(L, Perform(L, s), m);
  }

  lemma OthersKeepIncidents(L: Ledger, s: Step)
    requires !Administers(s) && !s.DoWorkerFinish?
    ensures Perform(L, s).incidents == L.incidents
  {
    if s.DoWorkerClaim? { var _, _ := WorkerClaimCases(L, s.w, s.leaseMs); }
    if s.DoCreateDue? { CreateDueChecksAppends(L, s.due, s.asOf); }
  }

  /** A ledger that differs in what no incident tells about. */
  lemma SidesKeepTold(L: Ledger, T: Ledger)
    requires IncidentsTold(L) && T == L.(workers := T.workers, observations := T.observations)
    ensures IncidentsTold(T)
  {
    forall k | 0 <= k < |T.incidents| && T.incidents[k].status.IncidentOpen? ensures IncidentTold(T, T.incidents[k]) {
      assert IncidentTold(L, L.incidents[k]);
    }
  }

  lemma CompletedKeepsTold(L: Ledger, id: CheckId, r: CheckResult, t: Transition)
    requires Inv(L) && IncidentsTold(L) && id < |L.checks| && IsActive(L.checks[id]) && L.checks[id].monitor in L.monitors
    requires var mon := L.monitors[L.checks[id].monitor];
             Steps(mon.state, InputOf(r, L.checks[id].configVersion, mon.config), t)
    ensures IncidentsTold(Completed(L, id, r, t))
  {
    var C, m := Completed(L, id, r, t), L.checks[id].monitor;
    CompletedFollows(L, id, r, t);
    forall k | 0 <= k < |C.incidents| && C.incidents[k].status.IncidentOpen? ensures IncidentTold(C, C.incidents[k]) {
      if C.incidents[k].monitor == m {
        RowStaysTold(L, C, m, r, L.checks[id].configVersion, k);
      } else {
        assert IncidentTold(L, L.incidents[k]);
        CompletedIsQuietElsewhere(L, id, r, t, C.incidents[k].monitor);
        QuietTellsTheSame(L, C, C.incidents[k].monitor);
        SameStoryStaysTold(L, C, C.incidents[k]);
      }
    }
  }

  lemma LateResultTells(L: Ledger, id: CheckId, r: CheckResult)
    requires IncidentsTold(L) && id < |L.checks| && L.checks[id].status.CheckCanceled?
    ensures IncidentsTold(L.(checks := L.checks[id := L.checks[id].(result := Some(r))]))
  {
    var T := L.(checks := L.checks[id := L.checks[id].(result := Some(r))]);
    forall k | 0 <= k < |T.incidents| && T.incidents[k].status.IncidentOpen? ensures IncidentTold(T, T.incidents[k]) {
      assert IncidentTold(L, L.incidents[k]);
      QuietTellsTheSame(L, T, L.incidents[k].monitor);
    }
  }

  lemma PersistKeepsTold(L: Ledger, id: CheckId, r: CheckResult)
    requires Inv(L) && IncidentsTold(L)
    ensures IncidentsTold(Persist(L, id, r))
  {
    if Persist(L, id, r) != L {
      PersistCases(L, id, r);
      if L.checks[id].status.CheckCanceled? {
        LateResultTells(L, id, r);
      } else {
        var mon := L.monitors[L.checks[id].monitor];
        CompletedKeepsTold(L, id, r, ApplyCheckResult(mon.state, InputOf(r, L.checks[id].configVersion, mon.config)).value);
      }
    }
  }

  lemma FinishKeepsTold(L: Ledger, w: WorkerId, r: CheckResult)
    requires Inv(L) && IncidentsTold(L)
    ensures IncidentsTold(WorkerFinish(L, w, r))
  {
    FinishCases(L, w, r);
    if CanFinish(L, w, r) {
      PersistKeepsTold(L, L.workers[w].check, r);
      SidesKeepTold(Persist(L, L.workers[w].check, r), WorkerFinish(L, w, r));
    }
  }

  lemma StepKeepsTold(L: Ledger, s: Step)
    requires Inv(L) && IncidentsTold(L)
    ensures IncidentsTold(Perform(L, s))
  {
    if Administers(s) {
      AdministrationKeepsTold(L, s);
    } else if s.DoWorkerFinish? {
      FinishKeepsTold(L, s.w, s.result);
    } else {
      OthersKeepTold(L, s);
    }
  }

  lemma {:induction false} AllAreTold(clock: Time, events: seq<Event>)
    ensures IncidentsTold(Run(EmptyLedger(clock), events))
  {
    if events != [] {
      var before, e := Run(EmptyLedger(clock), events[..|events| - 1]), events[|events| - 1];
      AllAreTold(clock, events[..|events| - 1]);
      Reachable(clock, events[..|events| - 1]);
      if e.now > before.clock {
        TickKeeps(before, e.now);
        TickKeepsTold(before, e.now);
        StepKeepsTold(before.(clock := e.now), e.step);
      }
    }
  }

  lemma TickKeepsTold(L: Ledger, now: Time)
    requires IncidentsTold(L)
    ensures IncidentsTold(L.(clock := now))
  {
    forall k | 0 <= k < |L.incidents| && L.incidents[k].status.IncidentOpen?
      ensures IncidentTold(L.(clock := now), L.incidents[k])
    {
      assert IncidentTold(L, L.incidents[k]);
    }
  }

  // ---- the promises -------------------------------------------------------

  /** The columns of an incident that the p-th of the results rs opened, the k-th being the newest failure. */
  ghost predicate Columns(i: Incident, h: seq<CheckInput>, rs: seq<CheckResult>, p: int, k: int, F: int, R: int) {
    && Carries(h, rs) && OpenedBy(h, p, F, R) && NewestFailure(h, k) && p - 1 <= k
    && i.firstFailureAt == rs[p - F].finishedAt && i.firstError == rs[p - F].error
    && i.detectedAt == rs[p - 1].finishedAt
    && i.lastError == rs[k].error
  }

  /**
   * What an open incident says, in every run. Its monitor's counted results contain the F consecutive failures that
   * opened it and that nothing has ended since. It names the time and the error of the first of them, the time of the
   * last of them as its detection, and the error of the newest failure.
   */
  lemma {:induction false} OpenIncidentsTell(clock: Time, events: seq<Event>, n: nat)
    requires var L := Run(EmptyLedger(clock), events); n < |L.incidents| && L.incidents[n].status.IncidentOpen?
    ensures var L := Run(EmptyLedger(clock), events);
            var i := L.incidents[n];
            && i.monitor in L.monitors
            && var mon := L.monitors[i.monitor];
               && i.configVersion == mon.state.configVersion
               && exists p, k :: Columns(i, TargetHistory(L, i.monitor), TargetResults(L.checks, i.monitor, mon.epoch),
                                         p, k, mon.config.failureThreshold, mon.config.recoveryThreshold)
  {
    AllAreTold(clock, events);
    var L := Run(EmptyLedger(clock), events);
    var i := L.incidents[n];
    assert IncidentTold(L, i);
    var mon := L.monitors[i.monitor];
    HistoryCarries(L.checks, i.monitor, mon.epoch, mon.config);
    var p, k :| TellsOf(i, TargetHistory(L, i.monitor), p, k, mon.config.failureThreshold, mon.config.recoveryThreshold);
    assert Columns(i, TargetHistory(L, i.monitor), TargetResults(L.checks, i.monitor, mon.epoch),
                   p, k, mon.config.failureThreshold, mon.config.recoveryThreshold);
  }

  // ---- how a row changes --------------------------------------------------

  lemma CompletedRowFollows(L: Ledger, id: CheckId, r: CheckResult, t: Transition, s: Step, T: Ledger)
    requires Inv(L) && id < |L.checks| && IsActive(L.checks[id]) && L.checks[id].monitor in L.monitors
    requires var mon := L.monitors[L.checks[id].monitor];
             Steps(mon.state, InputOf(r, L.checks[id].configVersion, mon.config), t)
    requires T == Completed(L, id, r, t).(workers := T.workers, observations := T.observations)
    requires StoresResult(L, s, L.checks[id].monitor) && s.result == r
    ensures IncidentsFollow(L, T, s)
  {
    CompletedFollows(L, id, r, t);
  }

  lemma FinishFollows(L: Ledger, w: WorkerId, r: CheckResult)
    requires Inv(L)
    ensures IncidentsFollow(L, WorkerFinish(L, w, r), DoWorkerFinish(w, r))
  {
    FinishCases(L, w, r);
    if CanFinish(L, w, r) && Persist(L, L.workers[w].check, r) != L {
      var id := L.workers[w].check;
      PersistCases(L, id, r);
      if IsActive(L.checks[id]) {
        var mon := L.monitors[L.checks[id].monitor];
        CompletedRowFollows(L, id, r, ApplyCheckResult(mon.state, InputOf(r, L.checks[id].configVersion, mon.config)).value,
                            DoWorkerFinish(w, r), WorkerFinish(L, w, r));
      }
    }
  }

  lemma StepFollows(L: Ledger, s: Step)
    requires Inv(L)
    ensures IncidentsFollow(L, Perform(L, s), s)
  {
    if Administers(s) {
      AdministrationFollows(L, s);
    } else if s.DoWorkerFinish? {
      FinishFollows(L, s.w, s.result);
    } else {
      OthersKeepIncidents(L, s);
    }
  }

  /**
   * How the incident table changes, in every run. A row appears, open, only with the result of an active check of its
   * monitor. An open row changes only its last error, to that of a failure; or it is resolved by the success after which
   * its monitor's results no longer contain an unrecovered window, at the end of that request; or a pause, removal or
   * configuration change of its own monitor cancels it at that moment. In each case its other columns stay. A closed row
   * never changes.
   */
  lemma {:induction false} IncidentRowsFollow(clock: Time, events: seq<Event>, e: Event)
    requires e.now > Run(EmptyLedger(clock), events).clock
    ensures var L := Run(EmptyLedger(clock), events);
            IncidentsFollow(L.(clock := e.now), Apply(L, e), e.step)
  {
    var L := Run(EmptyLedger(clock), events);
    Reachable(clock, events);
    TickKeeps(L, e.now);
    StepFollows(L.(clock := e.now), e.step);
  }
}
