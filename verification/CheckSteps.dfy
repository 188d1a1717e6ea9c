/** What each transaction of the check pipeline does, told from the columns of the rows before it. */
module CheckSteps {
  import opened Domain
  import opened HealthState
  import opened Scheduling
  import opened CheckLedger
  import opened CheckInvariants
  import opened CheckPreservation
  import opened CheckSchedule

  // ---- administration -----------------------------------------------------

  /** Nothing is known about the target yet. */
  ghost predicate Unknown(s: MonitorState, lifecycle: Lifecycle, version: int) {
    && s.lifecycle == lifecycle && s.configVersion == version && s.health.Pending?
    && s.failures == 0 && s.successes == 0 && s.streakStartedAt.None? && s.streakFirstError.None?
  }

  /** The first check lies jitter behind the first multiple of the interval after `now`. */
  ghost predicate StartsIn(mon: Monitor, now: Time, jitter: nat) {
    && mon.nextCheckAt.Some?
    && var bucket, I := mon.nextCheckAt.value - jitter, mon.config.intervalSec * 1_000;
       I > 0 && bucket % I == 0 && now < bucket <= now + I
  }

  ghost predicate OtherMonitorsStay(L: Ledger, T: Ledger, m: MonitorId) {
    && m in T.monitors && T.monitors.Keys == L.monitors.Keys + {m}
    && forall n :: n in L.monitors && n != m ==> T.monitors[n] == L.monitors[n]
  }

  lemma FirstCheckStarts(now: Time, I: int)
    requires I > 0
    ensures NextBucket(now, I) % I == 0 && now < NextBucket(now, I) <= now + I
  {
    NextBucketIsFuture(now, I);
    MultipleOfGrid(I, NextBucket(now, I));
  }

  lemma MultipleOfGrid(I: int, t: Time)
    requires I > 0 && OnGrid(0, I, t)
    ensures t % I == 0
  {}

  /** A new monitor is active under version 1 and starts in the next bucket. */
  lemma CreationStarts(L: Ledger, m: MonitorId, c: Config, jitter: nat)
    requires m !in L.monitors && ValidConfig(c)
    ensures var T := CreateMonitor(L, m, c, jitter);
            && T == L.(monitors := T.monitors) && OtherMonitorsStay(L, T, m)
            && var mon := T.monitors[m];
               Unknown(mon.state, Lifecycle.Active, 1) && mon.config == c && mon.deletedAt.None? && StartsIn(mon, L.clock, jitter)
  {
    FirstCheckStarts(L.clock, Interval(c));
  }

  /** A paused monitor has no next check and starts afresh when it is resumed, under the version it had. */
  lemma PauseStopsResumeStarts(L: Ledger, m: MonitorId, jitter: nat)
    requires MonitorsOk(L) && m in L.monitors && L.monitors[m].deletedAt.None?
    ensures var before := L.monitors[m];
            && (!before.state.lifecycle.Paused? ==>
                  var T := Pause(L, m);
                  && OtherMonitorsStay(L, T, m)
                  && Unknown(T.monitors[m].state, Paused, before.state.configVersion)
                  && T.monitors[m].config == before.config && T.monitors[m].deletedAt.None? && T.monitors[m].nextCheckAt.None?)
            && (before.state.lifecycle.Paused? ==> Pause(L, m) == L)
            && (before.state.lifecycle.Paused? ==>
                  var T := Resume(L, m, jitter);
                  && T == L.(monitors := T.monitors) && OtherMonitorsStay(L, T, m)
                  && Unknown(T.monitors[m].state, Lifecycle.Active, before.state.configVersion)
                  && T.monitors[m].config == before.config && T.monitors[m].deletedAt.None?
                  && StartsIn(T.monitors[m], L.clock, jitter))
            && (before.state.lifecycle.Active? ==> Resume(L, m, jitter) == L)
  {
    assert MonitorOk(L.monitors[m], |L.checks|);
    FirstCheckStarts(L.clock, Interval(L.monitors[m].config));
  }

  /** A removed monitor is gone for good: it has no next check, and none of the other changes finds it. */
  lemma RemovalIsFinal(L: Ledger, m: MonitorId, c: Config, jitter: nat)
    requires m in L.monitors && L.monitors[m].deletedAt.None?
    ensures var T := Remove(L, m);
            && OtherMonitorsStay(L, T, m)
            && Unknown(T.monitors[m].state, Deleted, L.monitors[m].state.configVersion)
            && T.monitors[m].deletedAt == Some(L.clock) && T.monitors[m].nextCheckAt.None?
            && T.monitors[m].config == L.monitors[m].config
            && Pause(T, m) == T && Resume(T, m, jitter) == T && UpdateMonitor(T, m, c, jitter) == T && Remove(T, m) == T
            && CreateMonitor(T, m, c, jitter) == T
  {}

  /** A change of a monitored field starts a new version; an active monitor starts in the next bucket of its new interval. */
  lemma ChangeStartsVersion(L: Ledger, m: MonitorId, c: Config, jitter: nat)
    requires m in L.monitors && L.monitors[m].deletedAt.None? && ValidConfig(c) && c != L.monitors[m].config
    requires L.monitors[m].state.configVersion < MAX_DB_INTEGER
    ensures var before, T := L.monitors[m], UpdateMonitor(L, m, c, jitter);
            && OtherMonitorsStay(L, T, m)
            && Unknown(T.monitors[m].state, before.state.lifecycle, before.state.configVersion + 1)
            && T.monitors[m].config == c && T.monitors[m].deletedAt.None?
            && if before.state.lifecycle.Active? then StartsIn(T.monitors[m], L.clock, jitter) else T.monitors[m].nextCheckAt.None?
  {
    FirstCheckStarts(L.clock, Interval(c));
  }

  // ---- dispatch -----------------------------------------------------------

  /** A dispatcher may claim the check at asOf: it is waiting for nobody, or whoever held it let the lease pass. */
  ghost predicate IsLoose(c: Check, asOf: Time) {
    && IsActive(c) && c.completedAt.None?
    && (c.lease.None? ==> c.status.CheckPending?)
    && (c.lease.Some? ==> c.lease.value.until < asOf)
  }

  ghost predicate OthersStay(before: seq<Check>, after: seq<Check>, id: CheckId) {
    && |after| == |before|
    && forall i :: 0 <= i < |before| && i != id ==> after[i] == before[i]
  }

  /** A loose check is claimed: it is PENDING under the dispatcher's lease, and one more dispatch is counted. */
  lemma ClaimingHolds(L: Ledger, id: CheckId, owner: Owner, asOf: Time, leaseUntil: Time)
    requires asOf <= L.clock
    ensures var T := DispatchClaim(L, id, owner, asOf, leaseUntil);
            && T == L.(checks := T.checks)
            && if id < |L.checks| && IsLoose(L.checks[id], asOf)
               then OthersStay(L.checks, T.checks, id)
                    && T.checks[id] == L.checks[id].(status := CheckPending, lease := Some(Lease(owner, leaseUntil)),
                                                     attempts := L.checks[id].attempts + 1)
               else T == L
  {}

  /** The check is PENDING under a lease of the dispatcher. */
  ghost predicate HeldBy(c: Check, owner: Owner) {
    c.status.CheckPending? && c.completedAt.None? && c.lease.Some? && c.lease.value.owner == owner
  }

  /** Only its holder hands a check on: to the queue under a new lease, or back to whoever comes next. */
  lemma HolderHandsOn(L: Ledger, id: CheckId, owner: Owner, leaseUntil: Time)
    ensures var Q, F := MarkEnqueued(L, id, owner, leaseUntil), ReleaseClaim(L, id, owner);
            && Q == L.(checks := Q.checks) && F == L.(checks := F.checks)
            && if id < |L.checks| && HeldBy(L.checks[id], owner)
               then OthersStay(L.checks, Q.checks, id) && OthersStay(L.checks, F.checks, id)
                    && Q.checks[id] == L.checks[id].(status := CheckEnqueued, lease := Some(Lease(owner, leaseUntil)))
                    && F.checks[id] == L.checks[id].(lease := None)
               else Q == L && F == L
  {}

  // ---- observations -------------------------------------------------------

  /** The observation waits for a verdict on this monitor and version, and its outage was over when the request began. */
  ghost predicate IsSettledBy(L: Ledger, k: Withheld, c: Check, r: CheckResult)
    requires k in L.observations
  {
    && k.monitor == c.monitor && L.observations[k].configVersion == c.configVersion && L.observations[k].recheckedAt.None?
    && k.outage in L.outages && L.outages[k.outage].recoveredAt.Some? && L.outages[k.outage].recoveredAt.value <= r.startedAt
  }

  /** What the result of a check that still counts does to the observations. */
  ghost predicate ObservationsFollow(L: Ledger, T: Ledger, c: Check, r: CheckResult) {
    && (r.outcome.Inconclusive? && r.outage.Some? ==>
          var k := Withheld(r.outage.value, c.monitor);
          && T.observations.Keys == L.observations.Keys + {k}
          && T.observations[k] == (if k in L.observations then L.observations[k] else Observation(c.configVersion, None))
          && forall j :: j in L.observations && j != k ==> T.observations[j] == L.observations[j])
    && (r.outcome.Success? || r.outcome.TargetFailure? ==>
          && T.observations.Keys == L.observations.Keys
          && forall k :: k in L.observations ==>
               T.observations[k] == if IsSettledBy(L, k, c, r) then Observation(c.configVersion, Some(r.finishedAt)) else L.observations[k])
    && (!r.outcome.Success? && !r.outcome.TargetFailure? && !(r.outcome.Inconclusive? && r.outage.Some?) ==>
          T.observations == L.observations)
  }

  /**
   * A withheld verdict is noted once for its outage; a verdict settles exactly the observations that waited for it.
   * A result that counts for nothing, or that is refused, leaves them alone.
   */
  lemma ResultsSettleObservations(L: Ledger, id: CheckId, r: CheckResult)
    requires Inv(L) && id < |L.checks|
    ensures var T := StoreResult(L, id, r);
            if IsActive(L.checks[id]) && T != L then ObservationsFollow(L, T, L.checks[id], r) else T.observations == L.observations
  {
    ActiveIsValid(L, id);
    assert RowOk(L.checks[id], id, L.monitors, L.clock);
    if Persist(L, id, r) != L { PersistCases(L, id, r); }
  }

  // ---- the network guard --------------------------------------------------

  /** The monitor is watched, and a verdict on it was withheld during the outage and has not been made up for. */
  ghost predicate IsMissing(L: Ledger, o: OutageId, m: MonitorId)
    requires m in L.monitors
  {
    && L.monitors[m].state.lifecycle.Active? && L.monitors[m].deletedAt.None?
    && Withheld(o, m) in L.observations && L.observations[Withheld(o, m)].recheckedAt.None?
  }

  /** Asked for a check at `at`; apart from its schedule the monitor stays. */
  ghost predicate AskedAt(b: Monitor, a: Monitor, at: Time) {
    a.nextCheckAt == Some(at) && a.state == b.state && a.config == b.config && a.deletedAt == b.deletedAt && a.epoch == b.epoch
  }

  ghost predicate IsOver(L: Ledger, o: OutageId, at: Time) {
    o in L.outages && L.outages[o].recoveredAt.None? && !L.outages[o].closed && L.outages[o].startedAt <= at <= L.clock
  }

  /** An outage is noted once, as open since the start of the probe. */
  lemma OutageIsNoted(L: Ledger, o: OutageId, at: Time)
    ensures var T := OutageStarts(L, o, at);
            if o in L.outages || at > L.clock then T == L else T == L.(outages := L.outages[o := Outage(at, None, false)])
  {}

  /** When an outage ends, exactly the monitors it kept a verdict from are asked for a check at once. */
  lemma EndAsksMissing(L: Ledger, o: OutageId, at: Time, online: bool)
    ensures var T := OutageEnds(L, o, at, online);
            if !IsOver(L, o, at) then T == L
            else
              && T == L.(outages := T.outages, monitors := T.monitors) && T.monitors.Keys == L.monitors.Keys
              && T.outages == L.outages[o := Outage(L.outages[o].startedAt, if online then Some(at) else None, !online)]
              && forall m :: m in L.monitors ==>
                   if IsMissing(L, o, m) then AskedAt(L.monitors[m], T.monitors[m], at) else T.monitors[m] == L.monitors[m]
  {}

  /** The outage still waits for a check of the monitor's present version. */
  ghost predicate IsWaitedFor(L: Ledger, o: OutageId, m: MonitorId)
    requires m in L.monitors
  {
    IsMissing(L, o, m) && L.observations[Withheld(o, m)].configVersion == L.monitors[m].state.configVersion
  }

  /**
   * The summary pass asks again for the checks it waits for that are not yet due, and closes the outage when there are none
   * or two minutes have passed since the recovery.
   */
  lemma SummaryWaits(L: Ledger, o: OutageId, at: Time)
    requires o in L.outages && L.outages[o].recoveredAt.Some? && !L.outages[o].closed && at <= L.clock
    ensures var T := Summarize(L, o, at);
            && T == L.(outages := T.outages, monitors := T.monitors) && T.monitors.Keys == L.monitors.Keys
            && T.outages.Keys == L.outages.Keys && (forall p :: p in L.outages && p != o ==> T.outages[p] == L.outages[p])
            && T.outages[o].startedAt == L.outages[o].startedAt && T.outages[o].recoveredAt == L.outages[o].recoveredAt
            && (T.outages[o].closed <==> at >= L.outages[o].recoveredAt.value + 120_000
                                         || forall m :: m in L.monitors ==> !IsWaitedFor(L, o, m))
            && forall m :: m in L.monitors ==>
                 if IsWaitedFor(L, o, m) && L.monitors[m].nextCheckAt.Some? && L.monitors[m].nextCheckAt.value > at
                 then AskedAt(L.monitors[m], T.monitors[m], at) else T.monitors[m] == L.monitors[m]
  {
    forall m | m in L.monitors ensures IsWaitedFor(L, o, m) <==> Outstanding(L, o, m) {}
  }

  // ---- no monitor is forgotten ----------------------------------------------

  ghost predicate Scheduled(L: Ledger) {
    forall m :: m in L.monitors && Live(L.monitors[m]) ==> L.monitors[m].nextCheckAt.Some?
  }

  lemma StepSchedules(L: Ledger, s: Step)
    requires Core(L) && Scheduled(L)
    ensures Scheduled(Perform(L, s))
  {
    if Administers(s) {
      AdministrationSchedules(L, s);
    } else if s.DoWorkerFinish? {
      FinishSchedules(L, s.w, s.result);
    } else if s.DoWorkerClaim? {
      var _, _ := WorkerClaimCases(L, s.w, s.leaseMs);
    } else if s.DoCreateDue? {
      CreationSchedules(L, s.due, s.asOf);
    } else {
      OthersSchedule(L, s);
    }
  }

  lemma AdministrationSchedules(L: Ledger, s: Step)
    requires Administers(s) && Scheduled(L)
    ensures Scheduled(Perform(L, s))
  {}

  lemma FinishSchedules(L: Ledger, w: WorkerId, r: CheckResult)
    requires Core(L) && Scheduled(L)
    ensures Scheduled(WorkerFinish(L, w, r))
  {
    FinishCases(L, w, r);
    if CanFinish(L, w, r) && Persist(L, L.workers[w].check, r) != L { PersistCases(L, L.workers[w].check, r); }
  }

  lemma {:induction false} AllSchedule(L: Ledger, due: seq<MonitorId>, asOf: Time)
    requires Scheduled(L)
    ensures Scheduled(CreateAll(L, due, asOf))
  {
    if due != [] { AllSchedule(L, due[..|due| - 1], asOf); }
  }

  lemma CreationSchedules(L: Ledger, due: seq<MonitorId>, asOf: Time)
    requires Scheduled(L)
    ensures Scheduled(CreateDueChecks(L, due, asOf))
  {
    AllSchedule(L, due, asOf);
  }

  lemma OthersSchedule(L: Ledger, s: Step)
    requires !Administers(s) && !s.DoWorkerFinish? && !s.DoWorkerClaim? && !s.DoCreateDue? && Scheduled(L)
    ensures Scheduled(Perform(L, s))
  {}

  /** In every reachable state. */
  lemma {:induction false} AllAreScheduled(clock: Time, events: seq<Event>)
    ensures Scheduled(Run(EmptyLedger(clock), events))
  {
    if events != [] {
      var before, e := Run(EmptyLedger(clock), events[..|events| - 1]), events[|events| - 1];
      AllAreScheduled(clock, events[..|events| - 1]);
      Reachable(clock, events[..|events| - 1]);
      if e.now > before.clock {
        TickKeeps(before, e.now);
        StepSchedules(before.(clock := e.now), e.step);
      }
    }
  }

  /** A check of m waits, is enqueued or runs. */
  ghost predicate IsBeingChecked(L: Ledger, m: MonitorId) {
    exists i :: 0 <= i < |L.checks| && L.checks[i].monitor == m
                && (L.checks[i].status.CheckPending? || L.checks[i].status.CheckEnqueued? || L.checks[i].status.CheckRunning?)
  }

  lemma CreateEvent(L: Ledger, m: MonitorId, now: Time)
    requires now > L.clock
    ensures Apply(L, Event(now, DoCreateDue([m], now))) == CreateDueChecks(L.(clock := now), [m], now)
  {}

  /**
   * No monitor is forgotten. In every reachable state a monitor that is active and not deleted has a next check. From that
   * time on, as long as no check of it waits or runs, a batch of it alone creates its check, for the latest time of its grid,
   * unless a network pull-forward left it a grid on which a used slot is in the way.
   */
  lemma {:induction false} NoMonitorIsForgotten(clock: Time, events: seq<Event>, m: MonitorId, now: Time)
    requires var L := Run(EmptyLedger(clock), events);
             && m in L.monitors && L.monitors[m].state.lifecycle.Active? && L.monitors[m].deletedAt.None? && now > L.clock
    ensures var L := Run(EmptyLedger(clock), events);
            var mon, T := L.monitors[m], Apply(L, Event(now, DoCreateDue([m], now)));
            && mon.nextCheckAt.Some? && ValidConfig(mon.config)
            && (mon.nextCheckAt.value <= now && !IsBeingChecked(L, m) && !(mon.pulled && Blocked(L, m, mon.nextCheckAt.value, now)) ==>
                  |T.checks| == |L.checks| + 1 && GotCheck(L.(clock := now), T, m, now, |L.checks|))
            && (mon.nextCheckAt.value > now || IsBeingChecked(L, m) ==> T.checks == L.checks)
  {
    var L := Run(EmptyLedger(clock), events);
    Reachable(clock, events);
    AllAreScheduled(clock, events);
    TickKeeps(L, now);
    CreateEvent(L, m, now);
    ConfigIsValid(L, m);
    AloneIsCreated(L.(clock := now), m, now);
  }

  lemma AloneIsCreated(L: Ledger, m: MonitorId, now: Time)
    requires Inv(L) && m in L.monitors && Live(L.monitors[m]) && L.monitors[m].nextCheckAt.Some? && now == L.clock
    requires ValidConfig(L.monitors[m].config)
    ensures var mon, T := L.monitors[m], CreateDueChecks(L, [m], now);
            && (mon.nextCheckAt.value <= now && !IsBeingChecked(L, m) && !(mon.pulled && Blocked(L, m, mon.nextCheckAt.value, now)) ==>
                  |T.checks| == |L.checks| + 1 && GotCheck(L, T, m, now, |L.checks|))
            && (mon.nextCheckAt.value > now || IsBeingChecked(L, m) ==> T.checks == L.checks)
  {
    assert HasActive(L.checks, m) <==> IsBeingChecked(L, m);
    assert [m][0] == m;
    if Due(L, m, now) {
      DowntimeIsCoalesced(L, [m], now);
      assert Stuck(L, [m][0], now) ==> L.monitors[m].pulled;
      if !Stuck(L, m, now) {
        assert Gave(L, CreateDueChecks(L, [m], now), [m], now);
        assert GotCheck(L, CreateDueChecks(L, [m], now), [m][0], now, |L.checks| + 0);
      }
    } else {
      assert !Selectable(L, [m], now);
    }
  }
}
