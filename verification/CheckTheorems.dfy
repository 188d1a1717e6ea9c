/** The promises of the check pipeline, stated over every run. */
module CheckTheorems {
  import opened Domain
  import opened HealthState
  import opened Scheduling
  import opened CheckLedger
  import opened CheckInvariants
  import opened CheckPreservation

  // ---- health is a function of the counted results ----------------------

  /** The results of a history that say something about the target. */
  function TargetOnly(h: seq<CheckInput>): (t: seq<CheckInput>)
    ensures forall k :: 0 <= k < |t| ==> TargetOutcome(t[k].outcome) && t[k] in h
  {
    if h == [] then []
    else
      var rest := TargetOnly(h[..|h| - 1]);
      if TargetOutcome(h[|h| - 1].outcome) then rest + [h[|h| - 1]] else rest
  }

  /** Folding applyCheckResult over a clean history is folding its transitions over the target outcomes. */
  lemma {:induction false} SequentialIsReplay(s: MonitorState, h: seq<CheckInput>)
    requires Clean(s, h) && s.lifecycle.Active?
    requires forall k :: 0 <= k < |h| ==> h[k].source.Scheduled? && h[k].configVersion == s.configVersion
    ensures Sequential(s, h) == Replay(s, TargetOnly(h))
  {
    if h != [] {
      var g, x := h[..|h| - 1], h[|h| - 1];
      SequentialIsReplay(s, g);
      SequentialKeepsIdentity(s, g);
      if TargetOutcome(x.outcome) {
        assert (TargetOnly(g) + [x])[..|TargetOnly(g)|] == TargetOnly(g);
      }
    }
  }

  lemma {:induction false} HistoryEntries(checks: seq<Check>, m: MonitorId, epoch: nat, config: Config, version: int)
    requires forall i :: 0 <= i < |checks| && Counts(checks[i], i, m, epoch) ==> checks[i].configVersion == version
    ensures forall k :: 0 <= k < |History(checks, m, epoch, config)| ==>
              var x := History(checks, m, epoch, config)[k];
              x.source.Scheduled? && x.configVersion == version
              && x.failureThreshold == config.failureThreshold && x.recoveryThreshold == config.recoveryThreshold
  {
    if checks != [] { HistoryEntries(checks[..|checks| - 1], m, epoch, config, version); }
  }

  /** The sequence of target results a monitor's health is about. */
  function TargetHistory(L: Ledger, m: MonitorId): seq<CheckInput>
    requires m in L.monitors
  {
    TargetOnly(HistoryOf(L, m))
  }

  lemma HealthOfState(L: Ledger, m: MonitorId)
    requires Inv(L) && m in L.monitors
    ensures var mon := L.monitors[m];
            var F, R := mon.config.failureThreshold, mon.config.recoveryThreshold;
            && EpochHistory(TargetHistory(L, m), F, R)
            && Describes(mon.state, TargetHistory(L, m), F, R)
            && mon.state == Replay(Cleared(mon.state), TargetHistory(L, m))
  {
    var mon := L.monitors[m];
    var h := HistoryOf(L, m);
    assert MonitorOk(mon, |L.checks|);
    assert Explained(mon.state, h);
    forall i | 0 <= i < |L.checks| && Counts(L.checks[i], i, m, mon.epoch)
      ensures L.checks[i].configVersion == mon.state.configVersion
    {
      assert RowOk(L.checks[i], i, L.monitors, L.clock);
    }
    HistoryEntries(L.checks, m, mon.epoch, mon.config, mon.state.configVersion);
    if !Live(mon) {
      forall i | 0 <= i < |L.checks| ensures !Counts(L.checks[i], i, m, mon.epoch) {
        assert RowOk(L.checks[i], i, L.monitors, L.clock);
      }
      EmptyHistory(L.checks, m, mon.epoch, mon.config);
    } else {
      SequentialIsReplay(Cleared(mon.state), h);
    }
    WindowCharacterisation(Cleared(mon.state), TargetHistory(L, m), mon.config.failureThreshold, mon.config.recoveryThreshold);
  }

  /**
   * Sequential refinement. However ticks, dispatchers, late or overlapping workers and administrators
   * interleave, a monitor's health is the fold of applyCheckResult over the results of its own distinct
   * checks created since its last reset, in creation order, and it is described by the windows of that history.
   */
  lemma {:induction false} SequentialRefinement(clock: Time, events: seq<Event>, m: MonitorId)
    requires m in Run(EmptyLedger(clock), events).monitors
    ensures var L := Run(EmptyLedger(clock), events);
            var mon := L.monitors[m];
            && Explained(mon.state, HistoryOf(L, m))
            && Describes(mon.state, TargetHistory(L, m), mon.config.failureThreshold, mon.config.recoveryThreshold)
  {
    Reachable(clock, events);
    HealthOfState(Run(EmptyLedger(clock), events), m);
  }

  function OpenCount(incidents: seq<Incident>, m: MonitorId): nat {
    if incidents == [] then 0
    else OpenCount(incidents[..|incidents| - 1], m)
         + (if incidents[|incidents| - 1].monitor == m && incidents[|incidents| - 1].status.IncidentOpen? then 1 else 0)
  }

  lemma {:induction false} OpenCountIsOne(incidents: seq<Incident>, m: MonitorId)
    requires OneOpen(incidents)
    ensures OpenCount(incidents, m) == if HasOpen(incidents, m) then 1 else 0
  {
    if incidents != [] {
      var rest := incidents[..|incidents| - 1];
      OpenCountIsOne(rest, m);
      if HasOpen(rest, m) {
        var i :| 0 <= i < |rest| && rest[i].monitor == m && rest[i].status.IncidentOpen?;
        assert incidents[i] == rest[i];
      }
      if HasOpen(incidents, m) && !(incidents[|rest|].monitor == m && incidents[|rest|].status.IncidentOpen?) {
        var i :| 0 <= i < |incidents| && incidents[i].monitor == m && incidents[i].status.IncidentOpen?;
        assert rest[i] == incidents[i];
      }
    }
  }

  /**
   * In every reachable state a monitor has exactly one open incident when its counted results contain F
   * consecutive failures not followed by R consecutive successes, and none otherwise; its health says the same.
   */
  lemma {:induction false} IncidentsFollowResults(clock: Time, events: seq<Event>, m: MonitorId)
    requires m in Run(EmptyLedger(clock), events).monitors
    ensures var L := Run(EmptyLedger(clock), events);
            var mon := L.monitors[m];
            && OpenCount(L.incidents, m) <= 1
            && (OpenCount(L.incidents, m) == 1 <==> HasIncident(mon.state.health))
            && (OpenCount(L.incidents, m) == 1
                <==> InIncident(TargetHistory(L, m), mon.config.failureThreshold, mon.config.recoveryThreshold))
  {
    var L := Run(EmptyLedger(clock), events);
    Reachable(clock, events);
    HealthOfState(L, m);
    OpenCountIsOne(L.incidents, m);
    var mon := L.monitors[m];
    WindowCharacterisation(Cleared(mon.state), TargetHistory(L, m), mon.config.failureThreshold, mon.config.recoveryThreshold);
  }

  /** The table constraints on incidents hold in every reachable state, so no transaction is refused by them. */
  lemma {:induction false} IncidentConstraintsHold(clock: Time, events: seq<Event>, k: nat)
    requires k < |Run(EmptyLedger(clock), events).incidents|
    ensures var L := Run(EmptyLedger(clock), events);
            var i := L.incidents[k];
            && i.firstFailureAt <= i.detectedAt <= L.clock
            && (i.status.IncidentOpen? <==> i.closure.None?)
            && (i.status.IncidentResolved? <==> i.closure == Some(Recovered))
            && (i.status.IncidentResolved? <==> i.resolvedAt.Some?)
            && (i.status.IncidentCanceled? <==> i.canceledAt.Some?)
            && (i.resolvedAt.Some? ==> i.detectedAt <= i.resolvedAt.value)
            && (i.canceledAt.Some? ==> i.detectedAt <= i.canceledAt.value)
  {
    Reachable(clock, events);
    var L := Run(EmptyLedger(clock), events);
    assert IncidentOk(L.incidents[k], L.monitors, L.clock);
  }

  // ---- administration refines the domain functions ----------------------

  function AfterAdmin(incidents: seq<Incident>, m: MonitorId, e: IncidentEffect): seq<Incident> {
    if e.CancelIncident? then CancelIncidents(incidents, m, e.canceledAt, e.reason) else incidents
  }

  lemma CancelsOnlyOpen(incidents: seq<Incident>, m: MonitorId, at: Time, reason: ClosureReason)
    requires !HasOpen(incidents, m)
    ensures CancelIncidents(incidents, m, at, reason) == incidents
  {
  }

  /** Pause and removal write by hand exactly what transitionLifecycle says, and cancel exactly when it says so. */
  lemma LifecycleWritesRefine(L: Ledger, m: MonitorId)
    requires Inv(L) && Found(L, m)
    ensures var s := L.monitors[m].state;
            && TransitionLifecycle(s, Paused, L.clock).Ok? && TransitionLifecycle(s, Deleted, L.clock).Ok?
            && (var t := TransitionLifecycle(s, Paused, L.clock).value;
                Pause(L, m).monitors[m].state == t.0 && Pause(L, m).incidents == AfterAdmin(L.incidents, m, t.1))
            && (var t := TransitionLifecycle(s, Deleted, L.clock).value;
                Remove(L, m).monitors[m].state == t.0 && Remove(L, m).incidents == AfterAdmin(L.incidents, m, t.1))
  {
    assert MonitorOk(L.monitors[m], |L.checks|);
    if !HasIncident(L.monitors[m].state.health) {
      CancelsOnlyOpen(L.incidents, m, L.clock, ByPause);
      CancelsOnlyOpen(L.incidents, m, L.clock, ByDelete);
    }
  }

  lemma ResumeWritesRefine(L: Ledger, m: MonitorId, jitter: nat)
    requires Inv(L) && Found(L, m)
    ensures var t := TransitionLifecycle(L.monitors[m].state, Lifecycle.Active, L.clock);
            t.Ok? && Resume(L, m, jitter).monitors[m].state == t.value.0
            && Resume(L, m, jitter).incidents == AfterAdmin(L.incidents, m, t.value.1)
  {
    assert MonitorOk(L.monitors[m], |L.checks|);
  }

  /** A change of any monitored field writes exactly what resetForConfigChange says. */
  lemma UpdateWritesRefine(L: Ledger, m: MonitorId, c: Config, jitter: nat)
    requires Inv(L) && Found(L, m) && ValidConfig(c)
    requires L.monitors[m].state.configVersion < MAX_DB_INTEGER
    ensures c == L.monitors[m].config ==> UpdateMonitor(L, m, c, jitter) == L
    ensures c != L.monitors[m].config ==>
              var s := L.monitors[m].state;
              var t := ResetForConfigChange(s, L.clock, s.configVersion + 1);
              && t.Ok? && UpdateMonitor(L, m, c, jitter).monitors[m].state == t.value.0
              && UpdateMonitor(L, m, c, jitter).incidents == AfterAdmin(L.incidents, m, t.value.1)
              && UpdateMonitor(L, m, c, jitter).monitors[m].config == c
  {
    assert MonitorOk(L.monitors[m], |L.checks|);
    if !HasIncident(L.monitors[m].state.health) {
      CancelsOnlyOpen(L.incidents, m, L.clock, ByConfigChange);
    }
  }

  // ---- results that come too late ---------------------------------------

  /** Rows are never lost, and the epoch of a monitor never goes back. */
  ghost predicate Grows(L: Ledger, T: Ledger, m: MonitorId)
    requires m in L.monitors
  {
    && m in T.monitors && L.monitors[m].epoch <= T.monitors[m].epoch
    && |L.checks| <= |T.checks|
    && forall i :: 0 <= i < |L.checks| ==> T.checks[i].monitor == L.checks[i].monitor
  }

  lemma AdministrationGrows(L: Ledger, s: Step, m: MonitorId)
    requires Administers(s) && m in L.monitors && L.monitors[m].epoch <= |L.checks|
    ensures Grows(L, Perform(L, s), m)
  {}

  lemma WorkGrows(L: Ledger, s: Step, m: MonitorId)
    requires Works(s) && m in L.monitors
    ensures Grows(L, Perform(L, s), m)
  {
    if s.DoWorkerClaim? { var _, _ := WorkerClaimCases(L, s.w, s.leaseMs); }
  }

  lemma PerformGrows(L: Ledger, s: Step, m: MonitorId)
    requires m in L.monitors && L.monitors[m].epoch <= |L.checks|
    ensures Grows(L, Perform(L, s), m)
  {
    if Administers(s) {
      AdministrationGrows(L, s, m);
    } else if Works(s) {
      WorkGrows(L, s, m);
    } else if s.DoCreateDue? {
      CreateDueChecksAppends(L, s.due, s.asOf);
    }
  }

  lemma {:induction false} RunGrows(L: Ledger, events: seq<Event>, m: MonitorId)
    requires Inv(L) && m in L.monitors
    ensures Grows(L, Run(L, events), m)
  {
    if events != [] {
      var before, e := Run(L, events[..|events| - 1]), events[|events| - 1];
      RunGrows(L, events[..|events| - 1], m);
      RunKeeps(L, events[..|events| - 1]);
      assert MonitorOk(before.monitors[m], |before.checks|);
      if e.now > before.clock { PerformGrows(before.(clock := e.now), e.step, m); }
    }
  }

  /** A check older than its monitor's epoch never counts: storing its result changes no other table. */
  lemma OlderThanEpochNeverCounts(L: Ledger, m: MonitorId, id: CheckId, events: seq<Event>, r: CheckResult)
    requires Inv(L) && m in L.monitors && id < |L.checks| && L.checks[id].monitor == m
    requires id < L.monitors[m].epoch
    ensures var T := Run(L, events);
            && id < |T.checks| && !IsActive(T.checks[id])
            && StoreResult(T, id, r) == T.(checks := StoreResult(T, id, r).checks)
  {
    var T := Run(L, events);
    RunGrows(L, events, m);
    RunKeeps(L, events);
    assert RowOk(T.checks[id], id, T.monitors, T.clock);
    if Persist(T, id, r) != T { PersistCases(T, id, r); }
  }

  /** Pause, resumption, removal and an update of a monitor. */
  predicate Resets(s: Step, m: MonitorId) {
    (s.DoPause? || s.DoResume? || s.DoRemove? || s.DoUpdateMonitor?) && s.m == m
  }

  /** Each effective reset moves the epoch past every existing row. */
  lemma ResetsMoveEpoch(L: Ledger, m: MonitorId, s: Step)
    requires m in L.monitors && Resets(s, m) && Perform(L, s) != L
    ensures m in Perform(L, s).monitors && Perform(L, s).monitors[m].epoch == |L.checks| == |Perform(L, s).checks|
    ensures forall i :: 0 <= i < |L.checks| ==> Perform(L, s).checks[i].monitor == L.checks[i].monitor
  {
  }

  /**
   * A check in flight across a reset never counts. Whenever a pause, resumption, removal or configuration change
   * takes effect, no check that exists at that moment ever moves the monitor or an incident, whatever happens
   * afterwards and even when the configuration version stays the same.
   */
  lemma {:induction false} InFlightAcrossResetNeverCounts(L: Ledger, m: MonitorId, s: Step, id: CheckId, events: seq<Event>, r: CheckResult)
    requires Inv(L) && m in L.monitors && Resets(s, m) && Perform(L, s) != L
    requires id < |L.checks| && L.checks[id].monitor == m
    ensures var T := Run(Perform(L, s), events);
            && id < |T.checks| && !IsActive(T.checks[id])
            && StoreResult(T, id, r) == T.(checks := StoreResult(T, id, r).checks)
  {
    PerformKeeps(L, s);
    ResetsMoveEpoch(L, m, s);
    OlderThanEpochNeverCounts(Perform(L, s), m, id, events, r);
  }

  lemma StoredHasResult(L: Ledger, id: CheckId, r: CheckResult)
    requires StoreResult(L, id, r) != L
    ensures var T := StoreResult(L, id, r); id < |T.checks| && T.checks[id].result.Some?
  {
    assert Persist(L, id, r) == L ==> StoreResult(L, id, r) == L;
  }

  lemma ResultIsFinal(L: Ledger, id: CheckId, r: CheckResult)
    requires id < |L.checks| && L.checks[id].result.Some?
    ensures StoreResult(L, id, r) == L
  {}

  /** Storing a result a second time changes nothing at all. */
  lemma SecondResultIsDuplicate(L: Ledger, id: CheckId, first: CheckResult, second: CheckResult)
    requires Inv(L) && id < |L.checks|
    ensures StoreResult(L, id, first) != L ==>
              StoreResult(StoreResult(L, id, first), id, second) == StoreResult(L, id, first)
  {
    if StoreResult(L, id, first) != L {
      StoredHasResult(L, id, first);
      ResultIsFinal(StoreResult(L, id, first), id, second);
    }
  }

  // ---- leases -----------------------------------------------------------

  /** The row stays with its lease holder, or has ended. */
  ghost predicate StillHeld(T: Ledger, id: CheckId, lease: Lease) {
    && id < |T.checks|
    && ( || (T.checks[id].status.CheckRunning? && T.checks[id].lease == Some(lease) && T.checks[id].completedAt.None?)
         || !IsActive(T.checks[id]))
  }

  lemma PerformRespectsLease(L: Ledger, s: Step, id: CheckId, lease: Lease)
    requires StillHeld(L, id, lease) && L.clock <= lease.until
    ensures StillHeld(Perform(L, s), id, lease)
  {
    if s.DoWorkerClaim? { var _, _ := WorkerClaimCases(L, s.w, s.leaseMs); }
    if s.DoCreateDue? { CreateDueChecksAppends(L, s.due, s.asOf); }
    if s.DoWorkerFinish? { FinishEndsOnly(L, s.w, s.result, id); }
  }

  lemma FinishEndsOnly(L: Ledger, w: WorkerId, r: CheckResult, id: CheckId)
    requires id < |L.checks|
    ensures var T := WorkerFinish(L, w, r);
            |T.checks| == |L.checks| && (T.checks[id] == L.checks[id] || !IsActive(T.checks[id]))
  {
  }

  /**
   * Lease exclusion: from a running row with a lease, through any run that ends no later than the lease,
   * every state keeps the row with that holder or finds it ended, so no claim of it can succeed.
   */
  lemma {:induction false} LeaseExclusion(L: Ledger, id: CheckId, lease: Lease, events: seq<Event>)
    requires Inv(L) && id < |L.checks| && L.checks[id].status.CheckRunning? && L.checks[id].lease == Some(lease)
    requires Run(L, events).clock <= lease.until
    ensures StillHeld(Run(L, events), id, lease)
    ensures var T := Run(L, events);
            !Claimable(T.checks[id], T.clock) && forall asOf :: asOf <= T.clock ==> !Dispatchable(T.checks[id], asOf)
  {
    if events == [] {
      assert RowOk(L.checks[id], id, L.monitors, L.clock);
    } else {
      var before, e := Run(L, events[..|events| - 1]), events[|events| - 1];
      ClockGrows(before, e);
      LeaseExclusion(L, id, lease, events[..|events| - 1]);
      if e.now > before.clock { PerformRespectsLease(before.(clock := e.now), e.step, id, lease); }
    }
  }

  lemma ClockGrows(L: Ledger, e: Event)
    ensures L.clock <= Apply(L, e).clock
    ensures e.now > L.clock ==> Apply(L, e).clock == e.now
  {
    StepKeepsClock(L.(clock := e.now), e.step);
  }

  lemma StepKeepsClock(L: Ledger, s: Step)
    ensures Perform(L, s).clock == L.clock
  {
    if Works(s) {
      WorkKeepsClock(L, s);
    } else if Administers(s) {
      AdministrationKeepsClock(L, s);
    } else if s.DoCreateDue? {
      CreateDueChecksAppends(L, s.due, s.asOf);
    }
  }

  lemma WorkKeepsClock(L: Ledger, s: Step)
    requires Works(s)
    ensures Perform(L, s).clock == L.clock
  {}

  lemma AdministrationKeepsClock(L: Ledger, s: Step)
    requires Administers(s)
    ensures Perform(L, s).clock == L.clock
  {}

  /** A monitor never has two active checks, and what blocks an active check is only an unexpired lease. */
  lemma {:induction false} OneActiveCheck(clock: Time, events: seq<Event>, i: nat, j: nat)
    requires var L := Run(EmptyLedger(clock), events);
             i < |L.checks| && j < |L.checks| && L.checks[i].monitor == L.checks[j].monitor
             && IsActive(L.checks[i]) && IsActive(L.checks[j])
    ensures i == j
    ensures var c := Run(EmptyLedger(clock), events).checks[i];
            && c.result.None? && c.completedAt.None?
            && (c.status.CheckEnqueued? || c.status.CheckRunning? ==> c.lease.Some?)
            && forall asOf :: (c.lease.Some? ==> c.lease.value.until < asOf) ==> Dispatchable(c, asOf)
  {
    Reachable(clock, events);
    var L := Run(EmptyLedger(clock), events);
    assert RowOk(L.checks[i], i, L.monitors, L.clock);
    assert Serial(L.checks);
  }

  /** The five steps that take an active check from any state to its result. */
  function RescueSteps(id: CheckId, version: int, w: WorkerId, owner: Owner, t: Time, leaseMs: nat, r: CheckResult): seq<Event> {
    [Event(t, DoDispatchClaim(id, owner, t, t + leaseMs)),
     Event(t + 1, DoMarkEnqueued(id, owner, t + leaseMs)),
     Event(t + 2, DoWorkerRead(w, id, version)),
     Event(t + 3, DoWorkerClaim(w, leaseMs)),
     Event(t + 4, DoWorkerFinish(w, r))]
  }

  lemma RunFive(L: Ledger, e: seq<Event>)
    requires |e| == 5
    ensures Run(L, e) == Apply(Apply(Apply(Apply(Apply(L, e[0]), e[1]), e[2]), e[3]), e[4])
  {
    assert e[..4][..3] == e[..3];
    assert e[..3][..2] == e[..2];
    assert e[..2][..1] == e[..1];
    assert e[..1][..0] == [];
    assert Run(L, e[..1]) == Apply(L, e[0]);
    assert Run(L, e[..2]) == Apply(Run(L, e[..1]), e[1]);
    assert Run(L, e[..3]) == Apply(Run(L, e[..2]), e[2]);
    assert Run(L, e[..4]) == Apply(Run(L, e[..3]), e[3]);
  }

  /** An active row of a reachable state, without the rest of the invariant. */
  ghost predicate Rescuable(L: Ledger, id: CheckId, t: Time) {
    && id < |L.checks| && IsActive(L.checks[id]) && t > L.clock
    && L.checks[id].result.None? && L.checks[id].completedAt.None?
    && (L.checks[id].status.CheckPending? || L.checks[id].lease.Some?)
    && (L.checks[id].lease.Some? ==> L.checks[id].lease.value.until < t)
    && L.checks[id].monitor in L.monitors
    && StillValid(L.checks[id], L.monitors[L.checks[id].monitor])
  }

  /** Dispatching and enqueueing an active row whose lease has passed. */
  lemma RescueDispatch(L: Ledger, id: CheckId, owner: Owner, t: Time, leaseMs: nat)
    requires Rescuable(L, id, t)
    ensures var A := Apply(L, Event(t, DoDispatchClaim(id, owner, t, t + leaseMs)));
            var B := Apply(A, Event(t + 1, DoMarkEnqueued(id, owner, t + leaseMs)));
            && B.clock == t + 1 && B.monitors == L.monitors && B.workers == L.workers && |B.checks| == |L.checks|
            && B.checks[id] == L.checks[id].(status := CheckEnqueued, lease := Some(Lease(owner, t + leaseMs)),
                                             attempts := L.checks[id].attempts + 1)
  {
  }

  /** Reading and claiming an enqueued row that is still valid. */
  lemma RescueClaim(B: Ledger, id: CheckId, w: WorkerId, leaseMs: nat)
    requires id < |B.checks| && w !in B.workers && B.checks[id].monitor in B.monitors
    requires B.checks[id].status.CheckEnqueued? && B.checks[id].completedAt.None? && B.checks[id].result.None?
    requires StillValid(B.checks[id], B.monitors[B.checks[id].monitor])
    ensures var C := Apply(B, Event(B.clock + 1, DoWorkerRead(w, id, B.checks[id].configVersion)));
            var D := Apply(C, Event(B.clock + 2, DoWorkerClaim(w, leaseMs)));
            && D.clock == B.clock + 2 && D.monitors == B.monitors && |D.checks| == |B.checks|
            && D.checks[id] == B.checks[id].(status := CheckRunning, lease := Some(Lease(w, B.clock + 2 + leaseMs)))
            && D.workers == B.workers[w := Holding(id, B.clock + 2)]
  {
  }

  /** Whether the counters a result leads to fit their columns; otherwise its transaction is refused. */
  predicate Storable(mon: Monitor, version: int, r: CheckResult) {
    var t := ApplyCheckResult(mon.state, InputOf(r, version, mon.config));
    t.Ok? && FitsColumns(t.value.state)
  }

  /** A result is refused only when the counter it raises is at the limit of its column. */
  lemma StorableIff(L: Ledger, m: MonitorId, r: CheckResult)
    requires Inv(L) && m in L.monitors && Live(L.monitors[m])
    ensures var s := L.monitors[m].state;
            Storable(L.monitors[m], s.configVersion, r)
            <==> (r.outcome.Success? ==> s.successes < 2_147_483_647) && (r.outcome.TargetFailure? ==> s.failures < 2_147_483_647)
  {
    assert MonitorOk(L.monitors[m], |L.checks|);
  }

  ghost predicate Done(T: Ledger, id: CheckId, r: CheckResult) {
    id < |T.checks| && T.checks[id].status.CheckCompleted? && T.checks[id].result == Some(r) && T.checks[id].lease.None?
  }

  lemma RescueFinish(E: Ledger, id: CheckId, w: WorkerId, r: CheckResult)
    requires id < |E.checks| && E.checks[id].monitor in E.monitors && E.checks[id].status.CheckRunning?
    requires E.checks[id].result.None? && w in E.workers && E.workers[w].Holding? && E.workers[w].check == id
    requires E.workers[w].claimedAt <= r.finishedAt <= E.clock
    requires StillValid(E.checks[id], E.monitors[E.checks[id].monitor])
    ensures Done(WorkerFinish(E, w, r), id, r)
            <==> Storable(E.monitors[E.checks[id].monitor], E.checks[id].configVersion, r)
  {
  }

  /** From an active row whose lease has passed to a worker that holds it. */
  lemma RescueToWorker(L: Ledger, id: CheckId, w: WorkerId, owner: Owner, t: Time, leaseMs: nat)
    requires Rescuable(L, id, t) && w !in L.workers
    ensures var B := Apply(Apply(L, Event(t, DoDispatchClaim(id, owner, t, t + leaseMs))), Event(t + 1, DoMarkEnqueued(id, owner, t + leaseMs)));
            var D := Apply(Apply(B, Event(t + 2, DoWorkerRead(w, id, L.checks[id].configVersion))), Event(t + 3, DoWorkerClaim(w, leaseMs)));
            && D.clock == t + 3 && D.monitors == L.monitors && |D.checks| == |L.checks|
            && D.checks[id].monitor == L.checks[id].monitor && D.checks[id].configVersion == L.checks[id].configVersion
            && D.checks[id].status.CheckRunning? && D.checks[id].result.None?
            && w in D.workers && D.workers[w] == Holding(id, t + 3)
  {
    RescueDispatch(L, id, owner, t, leaseMs);
    var B := Apply(Apply(L, Event(t, DoDispatchClaim(id, owner, t, t + leaseMs))), Event(t + 1, DoMarkEnqueued(id, owner, t + leaseMs)));
    RescueClaim(B, id, w, leaseMs);
  }

  lemma FinishEvent(D: Ledger, w: WorkerId, r: CheckResult, t: Time)
    requires t > D.clock
    ensures Apply(D, Event(t, DoWorkerFinish(w, r))) == WorkerFinish(D.(clock := t), w, r)
  {}

  lemma RescueRun(L: Ledger, id: CheckId, w: WorkerId, owner: Owner, t: Time, leaseMs: nat, r: CheckResult)
    requires Rescuable(L, id, t) && w !in L.workers && t + 3 <= r.finishedAt <= t + 4
    ensures Done(Run(L, RescueSteps(id, L.checks[id].configVersion, w, owner, t, leaseMs, r)), id, r)
            <==> Storable(L.monitors[L.checks[id].monitor], L.checks[id].configVersion, r)
  {
    var e := RescueSteps(id, L.checks[id].configVersion, w, owner, t, leaseMs, r);
    RunFive(L, e);
    RescueToWorker(L, id, w, owner, t, leaseMs);
    var D := Apply(Apply(Apply(Apply(L, e[0]), e[1]), e[2]), e[3]);
    FinishEvent(D, w, r, t + 4);
    RescueFinish(D.(clock := t + 4), id, w, r);
  }

  /**
   * No stranding: an active check of any reachable state, whatever crashed or was lost before, completes
   * once its lease has passed and one dispatcher and one worker run; nothing else has to happen first.
   */
  lemma {:induction false} NothingIsStranded(L: Ledger, id: CheckId, w: WorkerId, owner: Owner, t: Time, leaseMs: nat, r: CheckResult)
    requires Inv(L) && id < |L.checks| && IsActive(L.checks[id]) && w !in L.workers && t > L.clock
    requires L.checks[id].lease.Some? ==> L.checks[id].lease.value.until < t
    requires t + 3 <= r.finishedAt <= t + 4
    ensures L.checks[id].monitor in L.monitors
    ensures Done(Run(L, RescueSteps(id, L.checks[id].configVersion, w, owner, t, leaseMs, r)), id, r)
            <==> Storable(L.monitors[L.checks[id].monitor], L.checks[id].configVersion, r)
  {
    assert RowOk(L.checks[id], id, L.monitors, L.clock);
    RescueRun(L, id, w, owner, t, leaseMs, r);
  }
}
