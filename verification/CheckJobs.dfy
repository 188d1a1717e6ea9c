/** What a queue job does to its check, whatever version the job names, and how alone a check ends. */
module CheckJobs {
  import opened Domain
  import opened HealthState
  import opened Scheduling
  import opened CheckLedger
  import opened CheckInvariants
  import opened CheckPreservation
  import opened CheckSchedule

  // ---- what workers have read --------------------------------------------

  /** Rows keep what a job is checked against, and no row comes back to life. */
  ghost predicate Ages(a: seq<Check>, b: seq<Check>) {
    && |a| <= |b|
    && forall i :: 0 <= i < |a| ==>
         b[i].monitor == a[i].monitor && b[i].configVersion == a[i].configVersion && (IsActive(b[i]) ==> IsActive(a[i]))
  }

  lemma StepAges(L: Ledger, s: Step)
    ensures Ages(L.checks, Perform(L, s).checks)
  {
    if Works(s) {
      WorkRevivesNothing(L, s);
    } else if s.DoCreateDue? {
      CreateDueChecksAppends(L, s.due, s.asOf);
    } else {
      OtherStepsReviveNothing(L, s);
    }
  }

  /** While the row is active, the worker read it active, under the version its monitor then had and while that was live. */
  ghost predicate ReadOk(checks: seq<Check>, p: Phase)
    requires p.HasRead?
  {
    && p.check < |checks|
    && p.row.configVersion == checks[p.check].configVersion
    && (IsActive(checks[p.check]) ==> IsActive(p.row))
    && (IsActive(p.row) ==>
          p.row.result.None? && p.row.configVersion == p.monitor.state.configVersion && Live(p.monitor))
  }

  ghost predicate ReadsOk(L: Ledger) {
    forall w :: w in L.workers && L.workers[w].HasRead? ==> ReadOk(L.checks, L.workers[w])
  }

  /** Apart from a read, no step gives a worker anything to remember but a claim. */
  lemma OnlyReadsRead(L: Ledger, s: Step, w: WorkerId)
    requires !s.DoWorkerRead? && w in Perform(L, s).workers && Perform(L, s).workers[w].HasRead?
    ensures w in L.workers && Perform(L, s).workers[w] == L.workers[w]
  {
    if s.DoWorkerClaim? {
      var _, _ := WorkerClaimCases(L, s.w, s.leaseMs);
    } else if !Works(s) {
      OthersLeaveWorkers(L, s);
    }
  }

  lemma OthersLeaveWorkers(L: Ledger, s: Step)
    requires !Works(s)
    ensures Perform(L, s).workers == L.workers
  {
    if s.DoCreateDue? { CreateDueChecksAppends(L, s.due, s.asOf); }
  }

  lemma ReadKeepsReads(L: Ledger, w: WorkerId, id: CheckId, jobVersion: int)
    requires RowsOk(L) && ReadsOk(L)
    ensures ReadsOk(WorkerRead(L, w, id, jobVersion))
  {
    if id < |L.checks| { assert RowOk(L.checks[id], id, L.monitors, L.clock); }
  }

  lemma StepKeepsReads(L: Ledger, s: Step)
    requires RowsOk(L) && ReadsOk(L)
    ensures ReadsOk(Perform(L, s))
  {
    if s.DoWorkerRead? {
      ReadKeepsReads(L, s.w, s.id, s.jobVersion);
    } else {
      StepAges(L, s);
      forall w | w in Perform(L, s).workers && Perform(L, s).workers[w].HasRead?
        ensures ReadOk(Perform(L, s).checks, Perform(L, s).workers[w])
      {
        OnlyReadsRead(L, s, w);
        assert ReadOk(L.checks, L.workers[w]);
      }
    }
  }

  /** In every reachable state. */
  lemma {:induction false} ReadsAreOk(clock: Time, events: seq<Event>)
    ensures ReadsOk(Run(EmptyLedger(clock), events))
  {
    if events != [] {
      var before, e := Run(EmptyLedger(clock), events[..|events| - 1]), events[|events| - 1];
      ReadsAreOk(clock, events[..|events| - 1]);
      Reachable(clock, events[..|events| - 1]);
      if e.now > before.clock {
        TickKeeps(before, e.now);
        StepKeepsReads(before.(clock := e.now), e.step);
      }
    }
  }

  // ---- which jobs claim ---------------------------------------------------

  /** The row may be worked on: nobody holds it, or its holder's lease has passed. */
  predicate Free(c: Check, now: Time) {
    && IsActive(c)
    && (c.status.CheckRunning? ==> c.lease.Some? && c.lease.value.until < now)
  }

  /** The state after worker w claimed row id at `now`. */
  function AfterClaim(L: Ledger, w: WorkerId, id: CheckId, now: Time, leaseMs: nat): Ledger
    requires id < |L.checks|
  {
    L.(clock := now,
       checks := L.checks[id := L.checks[id].(status := CheckRunning, lease := Some(Lease(w, now + leaseMs)))],
       workers := L.workers[w := Holding(id, now)])
  }

  /** The state after worker w dropped its job at `now`. */
  function AfterDrop(L: Ledger, w: WorkerId, now: Time): Ledger {
    L.(clock := now, workers := L.workers - {w})
  }

  lemma JobOutcome(L: Ledger, w: WorkerId, leaseMs: nat)
    requires RowsOk(L) && ReadsOk(L) && w in L.workers && L.workers[w].HasRead?
    ensures var p := L.workers[w];
            && p.check < |L.checks|
            && WorkerClaim(L, w, leaseMs)
               == if p.jobVersion == L.checks[p.check].configVersion && Free(L.checks[p.check], L.clock)
                  then AfterClaim(L, w, p.check, L.clock, leaseMs) else AfterDrop(L, w, L.clock)
  {
    var p := L.workers[w];
    assert ReadOk(L.checks, p);
    assert RowOk(L.checks[p.check], p.check, L.monitors, L.clock);
  }

  lemma ClaimEvent(L: Ledger, w: WorkerId, now: Time, leaseMs: nat)
    requires now > L.clock
    ensures Apply(L, Event(now, DoWorkerClaim(w, leaseMs))) == WorkerClaim(L.(clock := now), w, leaseMs)
  {}

  /**
   * Which jobs claim, in every run and for every version a queue job may name: exactly those that name the version of
   * their row while the row is pending, enqueued, or running with a lease that has passed. The claim makes the row
   * RUNNING under the worker's own lease. Every other job is dropped, and no row of any table changes.
   */
  lemma {:induction false} JobClaimsIff(clock: Time, events: seq<Event>, w: WorkerId, now: Time, leaseMs: nat)
    requires var L := Run(EmptyLedger(clock), events); w in L.workers && L.workers[w].HasRead? && now > L.clock
    ensures var L := Run(EmptyLedger(clock), events);
            var id, version := L.workers[w].check, L.workers[w].jobVersion;
            && id < |L.checks|
            && Apply(L, Event(now, DoWorkerClaim(w, leaseMs)))
               == if version == L.checks[id].configVersion && Free(L.checks[id], now)
                  then AfterClaim(L, w, id, now, leaseMs) else AfterDrop(L, w, now)
  {
    var L := Run(EmptyLedger(clock), events);
    Reachable(clock, events);
    ReadsAreOk(clock, events);
    TickKeeps(L, now);
    ClaimEvent(L, w, now, leaseMs);
    JobOutcome(L.(clock := now), w, leaseMs);
  }

  /** No event of the run is one of worker w. */
  predicate LeavesWorker(events: seq<Event>, w: WorkerId) {
    forall k :: 0 <= k < |events| ==> !(Works(events[k].step) && events[k].step.w == w)
  }

  predicate HasJob(L: Ledger, w: WorkerId, id: CheckId, version: int) {
    w in L.workers && L.workers[w].HasRead? && L.workers[w].check == id && L.workers[w].jobVersion == version
  }

  lemma StepKeepsJob(L: Ledger, s: Step, w: WorkerId, id: CheckId, version: int)
    requires HasJob(L, w, id, version) && !(Works(s) && s.w == w)
    ensures HasJob(Perform(L, s), w, id, version)
  {
    if s.DoWorkerClaim? {
      var _, _ := WorkerClaimCases(L, s.w, s.leaseMs);
    } else if !Works(s) {
      OthersLeaveWorkers(L, s);
    }
  }

  lemma {:induction false} RunKeepsJob(L: Ledger, events: seq<Event>, w: WorkerId, id: CheckId, version: int)
    requires Inv(L) && ReadsOk(L) && HasJob(L, w, id, version) && LeavesWorker(events, w)
    ensures var T := Run(L, events); Inv(T) && ReadsOk(T) && HasJob(T, w, id, version)
  {
    if events != [] {
      var before, e := Run(L, events[..|events| - 1]), events[|events| - 1];
      RunKeepsJob(L, events[..|events| - 1], w, id, version);
      ApplyKeeps(before, e);
      if e.now > before.clock {
        TickKeeps(before, e.now);
        StepKeepsReads(before.(clock := e.now), e.step);
        StepKeepsJob(before.(clock := e.now), e.step, w, id, version);
      }
    }
  }

  lemma ReadEvent(L: Ledger, w: WorkerId, id: CheckId, version: int, at: Time)
    requires at > L.clock
    ensures Apply(L, Event(at, DoWorkerRead(w, id, version))) == WorkerRead(L.(clock := at), w, id, version)
  {}

  lemma ReadGivesJob(L: Ledger, w: WorkerId, id: CheckId, version: int)
    requires RowsOk(L) && ReadsOk(L) && w !in L.workers && id < |L.checks|
    ensures var R := WorkerRead(L, w, id, version); ReadsOk(R) && HasJob(R, w, id, version)
  {
    assert RowOk(L.checks[id], id, L.monitors, L.clock);
    ReadKeepsReads(L, w, id, version);
  }

  /**
   * The same from the job to the claim: a worker takes a queue job that names a row and some version, and acts on it
   * after any run of others. It claims the row iff the version is the row's and the row is free at that moment.
   */
  lemma JobDecidesByVersion(L: Ledger, w: WorkerId, id: CheckId, version: int, at: Time, more: seq<Event>, now: Time, leaseMs: nat)
    requires Inv(L) && ReadsOk(L) && w !in L.workers && id < |L.checks| && at > L.clock && LeavesWorker(more, w)
    requires now > Run(Apply(L, Event(at, DoWorkerRead(w, id, version))), more).clock
    ensures var T := Run(Apply(L, Event(at, DoWorkerRead(w, id, version))), more);
            && id < |T.checks|
            && Apply(T, Event(now, DoWorkerClaim(w, leaseMs)))
               == if version == T.checks[id].configVersion && Free(T.checks[id], now)
                  then AfterClaim(T, w, id, now, leaseMs) else AfterDrop(T, w, now)
  {
    var R := Apply(L, Event(at, DoWorkerRead(w, id, version)));
    ApplyKeeps(L, Event(at, DoWorkerRead(w, id, version)));
    ReadEvent(L, w, id, version, at);
    TickKeeps(L, at);
    ReadGivesJob(L.(clock := at), w, id, version);
    RunKeepsJob(R, more, w, id, version);
    var T := Run(R, more);
    TickKeeps(T, now);
    ClaimEvent(T, w, now, leaseMs);
    JobOutcome(T.(clock := now), w, leaseMs);
  }

  // ---- how a check ends ---------------------------------------------------

  /** A change that keeps an active check active and what identifies it. */
  ghost predicate StaysActive(a: Check, b: Check) {
    IsActive(b) && b == a.(status := b.status, lease := b.lease, attempts := b.attempts)
  }

  /** The result of a worker that holds the check. */
  ghost predicate EndsWithResult(L: Ledger, s: Step, id: CheckId, b: Check)
    requires id < |L.checks|
  {
    && s.DoWorkerFinish? && s.w in L.workers && L.workers[s.w].Holding? && L.workers[s.w].check == id
    && b == L.checks[id].(status := CheckCompleted, lease := None, completedAt := Some(s.result.finishedAt),
                          result := Some(s.result))
  }

  /** A pause, removal or configuration change of the check's own monitor. */
  ghost predicate EndsWithReset(s: Step, a: Check, b: Check) {
    && (s.DoPause? || s.DoRemove? || s.DoUpdateMonitor?) && s.m == a.monitor
    && b == a.(status := CheckCanceled, lease := None)
  }

  ghost predicate Continues(L: Ledger, s: Step, id: CheckId, b: Check)
    requires id < |L.checks|
  {
    StaysActive(L.checks[id], b) || EndsWithResult(L, s, id, b) || EndsWithReset(s, L.checks[id], b)
  }

  lemma AdministrationContinues(L: Ledger, s: Step, id: CheckId)
    requires Administers(s) && id < |L.checks| && IsActive(L.checks[id])
    ensures id < |Perform(L, s).checks| && Continues(L, s, id, Perform(L, s).checks[id])
  {}

  lemma FinishContinues(L: Ledger, w: WorkerId, r: CheckResult, id: CheckId)
    requires Core(L) && id < |L.checks| && IsActive(L.checks[id])
    ensures var T := WorkerFinish(L, w, r); id < |T.checks| && Continues(L, DoWorkerFinish(w, r), id, T.checks[id])
  {
    FinishCases(L, w, r);
    if CanFinish(L, w, r) && Persist(L, L.workers[w].check, r) != L {
      PersistCases(L, L.workers[w].check, r);
    }
  }

  lemma ClaimContinues(L: Ledger, w: WorkerId, leaseMs: nat, id: CheckId)
    requires RowsOk(L) && ReadsOk(L) && id < |L.checks| && IsActive(L.checks[id])
    ensures var T := WorkerClaim(L, w, leaseMs); id < |T.checks| && StaysActive(L.checks[id], T.checks[id])
  {
    if w in L.workers && L.workers[w].HasRead? { JobOutcome(L, w, leaseMs); }
  }

  lemma OthersContinue(L: Ledger, s: Step, id: CheckId)
    requires !Administers(s) && !Works(s) && id < |L.checks| && IsActive(L.checks[id])
    ensures id < |Perform(L, s).checks| && StaysActive(L.checks[id], Perform(L, s).checks[id])
  {
    if s.DoCreateDue? { CreateDueChecksAppends(L, s.due, s.asOf); }
  }

  lemma StepContinues(L: Ledger, s: Step, id: CheckId)
    requires Core(L) && ReadsOk(L) && id < |L.checks| && IsActive(L.checks[id])
    ensures id < |Perform(L, s).checks| && Continues(L, s, id, Perform(L, s).checks[id])
  {
    if Administers(s) {
      AdministrationContinues(L, s, id);
    } else if s.DoWorkerFinish? {
      FinishContinues(L, s.w, s.result, id);
    } else if s.DoWorkerClaim? {
      ClaimContinues(L, s.w, s.leaseMs, id);
    } else if !Works(s) {
      OthersContinue(L, s, id);
    }
  }

  /** What becomes of the active check id with the next event. */
  ghost predicate EndsOnlyAs(L: Ledger, e: Event, id: CheckId)
    requires id < |L.checks|
  {
    var T := Apply(L, e);
    && id < |T.checks| && Continues(L, e.step, id, T.checks[id])
    && (e.step.DoWorkerRead? || e.step.DoWorkerClaim? ==> !T.checks[id].status.CheckCanceled?)
    && (T.checks[id].status.CheckCanceled? ==>
          (e.step.DoPause? || e.step.DoRemove? || e.step.DoUpdateMonitor?) && e.step.m == L.checks[id].monitor)
  }

  lemma EventEndsOnlyAs(L: Ledger, e: Event, id: CheckId)
    requires Inv(L) && ReadsOk(L) && id < |L.checks| && IsActive(L.checks[id])
    ensures EndsOnlyAs(L, e, id)
  {
    if e.now > L.clock {
      TickKeeps(L, e.now);
      StepContinues(L.(clock := e.now), e.step, id);
    }
  }

  /**
   * How a check ends, in every run: an active check stays active and itself, completes with the result of a worker
   * that holds it, or is canceled by a pause, removal or configuration change of its own monitor. Neither reading a
   * job nor acting on it, however stale or corrupt the job is, cancels an active check.
   */
  lemma {:induction false} OnlyAdministratorsCancel(clock: Time, events: seq<Event>, e: Event, id: CheckId)
    requires var L := Run(EmptyLedger(clock), events); id < |L.checks| && IsActive(L.checks[id])
    ensures EndsOnlyAs(Run(EmptyLedger(clock), events), e, id)
  {
    Reachable(clock, events);
    ReadsAreOk(clock, events);
    EventEndsOnlyAs(Run(EmptyLedger(clock), events), e, id);
  }

  /** And each of those changes, when it takes effect, cancels every active check of its monitor. */
  lemma ResetCancelsAll(L: Ledger, s: Step, id: CheckId)
    requires (s.DoPause? || s.DoRemove? || s.DoUpdateMonitor?) && Perform(L, s) != L
    requires id < |L.checks| && L.checks[id].monitor == s.m && IsActive(L.checks[id])
    ensures id < |Perform(L, s).checks| && EndsWithReset(s, L.checks[id], Perform(L, s).checks[id])
  {}
}
