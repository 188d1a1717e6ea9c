/** The tables of the check pipeline and the transactions that scheduler, worker and API run on them. */
module CheckStore {
  import opened Domain
  import opened HealthState
  import opened Scheduling
  import opened CheckLedger
  import opened CheckInvariants
  import opened CheckPreservation
  import opened CheckSchedule
  import opened CheckSteps

  /** JobRefused stands for a transaction the database rolled back because a counter no longer fits its column. */
  datatype JobOutcome = JobCompleted | JobDuplicate | JobCanceled | JobRefused

  /** One candidate of the check dispatcher: claim, enqueue, then mark or release. */
  function DispatchOne(L: Ledger, id: CheckId, owner: Owner, asOf: Time, leaseUntil: Time, queued: bool): Ledger {
    var claimed := DispatchClaim(L, id, owner, asOf, leaseUntil);
    if id >= |L.checks| || asOf > L.clock || !Dispatchable(L.checks[id], asOf) then L
    else if queued then MarkEnqueued(claimed, id, owner, leaseUntil)
    else ReleaseClaim(claimed, id, owner)
  }

  function DispatchAll(L: Ledger, ids: seq<CheckId>, owner: Owner, asOf: Time, leaseUntil: Time, queued: seq<bool>): Ledger
    requires |ids| == |queued|
  {
    if ids == [] then L
    else
      var n := |ids| - 1;
      DispatchOne(DispatchAll(L, ids[..n], owner, asOf, leaseUntil, queued[..n]), ids[n], owner, asOf, leaseUntil, queued[n])
  }

  lemma {:induction false} DispatchAllKeeps(L: Ledger, ids: seq<CheckId>, owner: Owner, asOf: Time, leaseUntil: Time, queued: seq<bool>)
    requires |ids| == |queued| && Inv(L)
    ensures Inv(DispatchAll(L, ids, owner, asOf, leaseUntil, queued))
  {
    if ids != [] {
      var n := |ids| - 1;
      DispatchAllKeeps(L, ids[..n], owner, asOf, leaseUntil, queued[..n]);
      var M := DispatchAll(L, ids[..n], owner, asOf, leaseUntil, queued[..n]);
      DispatchClaimKeeps(M, ids[n], owner, asOf, leaseUntil);
      MarkEnqueuedKeeps(DispatchClaim(M, ids[n], owner, asOf, leaseUntil), ids[n], owner, leaseUntil);
      ReleaseClaimKeeps(DispatchClaim(M, ids[n], owner, asOf, leaseUntil), ids[n], owner);
    }
  }

  lemma {:induction false} DispatchAllLeavesOthers(L: Ledger, ids: seq<CheckId>, owner: Owner, asOf: Time, leaseUntil: Time,
                                                   queued: seq<bool>, id: CheckId)
    requires |ids| == |queued| && id !in ids
    ensures var T := DispatchAll(L, ids, owner, asOf, leaseUntil, queued);
            |T.checks| == |L.checks| && (id < |L.checks| ==> T.checks[id] == L.checks[id])
  {
    if ids != [] {
      var n := |ids| - 1;
      DispatchAllLeavesOthers(L, ids[..n], owner, asOf, leaseUntil, queued[..n], id);
    }
  }

  /** A check after its turn: a loose one is enqueued under the lease, or back without one; any other stays. */
  ghost predicate Dispatched(b: Check, a: Check, owner: Owner, asOf: Time, leaseUntil: Time, queued: bool) {
    if !IsLoose(b, asOf) then a == b
    else if queued
    then a == b.(status := CheckEnqueued, lease := Some(Lease(owner, leaseUntil)), attempts := b.attempts + 1)
    else a == b.(status := CheckPending, lease := None, attempts := b.attempts + 1)
  }

  /** Each candidate had its turn, and no other check changed. */
  ghost predicate AllDispatched(before: seq<Check>, after: seq<Check>, ids: seq<CheckId>, owner: Owner, asOf: Time, leaseUntil: Time,
                                queued: seq<bool>)
    requires |ids| == |queued|
  {
    && |after| == |before|
    && (forall id :: 0 <= id < |before| && id !in ids ==> after[id] == before[id])
    && forall k :: 0 <= k < |ids| && ids[k] < |before| ==>
         Dispatched(before[ids[k]], after[ids[k]], owner, asOf, leaseUntil, queued[k])
  }

  lemma OneTurn(L: Ledger, id: CheckId, owner: Owner, asOf: Time, leaseUntil: Time, queued: bool)
    requires asOf <= L.clock
    ensures var T := DispatchOne(L, id, owner, asOf, leaseUntil, queued);
            && T == L.(checks := T.checks) && CheckSteps.OthersStay(L.checks, T.checks, id)
            && (id < |L.checks| ==> Dispatched(L.checks[id], T.checks[id], owner, asOf, leaseUntil, queued))
  {
    ClaimingHolds(L, id, owner, asOf, leaseUntil);
  }

  lemma OneMoreDispatched(before: seq<Check>, middle: seq<Check>, after: seq<Check>, ids: seq<CheckId>, owner: Owner, asOf: Time,
                          leaseUntil: Time, queued: seq<bool>, id: CheckId, last: bool)
    requires |ids| == |queued| && id !in ids && AllDispatched(before, middle, ids, owner, asOf, leaseUntil, queued)
    requires CheckSteps.OthersStay(middle, after, id)
    requires id < |middle| ==> Dispatched(middle[id], after[id], owner, asOf, leaseUntil, last)
    ensures AllDispatched(before, after, ids + [id], owner, asOf, leaseUntil, queued + [last])
  {
  }

  /** Among distinct candidates each check gets the turn that its own columns and its own job decide. */
  lemma {:induction false} DispatchedRows(L: Ledger, ids: seq<CheckId>, owner: Owner, asOf: Time, leaseUntil: Time, queued: seq<bool>)
    requires |ids| == |queued| && Distinct(ids) && asOf <= L.clock
    ensures var T := DispatchAll(L, ids, owner, asOf, leaseUntil, queued);
            T == L.(checks := T.checks) && AllDispatched(L.checks, T.checks, ids, owner, asOf, leaseUntil, queued)
  {
    if ids != [] {
      var n := |ids| - 1;
      DispatchedRows(L, ids[..n], owner, asOf, leaseUntil, queued[..n]);
      assert ids[n] !in ids[..n];
      var M := DispatchAll(L, ids[..n], owner, asOf, leaseUntil, queued[..n]);
      OneTurn(M, ids[n], owner, asOf, leaseUntil, queued[n]);
      OneMoreDispatched(L.checks, M.checks, DispatchOne(M, ids[n], owner, asOf, leaseUntil, queued[n]).checks,
                        ids[..n], owner, asOf, leaseUntil, queued[..n], ids[n], queued[n]);
      assert ids == ids[..n] + [ids[n]] && queued == queued[..n] + [queued[n]];
    }
  }

  /** The candidates that can be claimed and whose job the queue accepts. */
  function Accepted(rows: seq<Check>, ids: seq<CheckId>, asOf: Time, queued: seq<bool>): set<int>
    requires |ids| == |queued|
  {
    set k | 0 <= k < |ids| && ids[k] < |rows| && Dispatchable(rows[ids[k]], asOf) && queued[k]
  }

  lemma OneMoreCandidate(rows: seq<Check>, ids: seq<CheckId>, asOf: Time, queued: seq<bool>, k: nat)
    requires |ids| == |queued| && k < |ids|
    ensures |Accepted(rows, ids[..k + 1], asOf, queued[..k + 1])| == |Accepted(rows, ids[..k], asOf, queued[..k])|
              + if ids[k] < |rows| && Dispatchable(rows[ids[k]], asOf) && queued[k] then 1 else 0
  {
    var one: set<int> := if ids[k] < |rows| && Dispatchable(rows[ids[k]], asOf) && queued[k] then {k} else {};
    assert Accepted(rows, ids[..k + 1], asOf, queued[..k + 1]) == Accepted(rows, ids[..k], asOf, queued[..k]) + one;
  }

  lemma NextDispatched(L: Ledger, ids: seq<CheckId>, owner: Owner, asOf: Time, leaseUntil: Time, queued: seq<bool>, k: nat)
    requires |ids| == |queued| && k < |ids|
    ensures DispatchAll(L, ids[..k + 1], owner, asOf, leaseUntil, queued[..k + 1])
         == DispatchOne(DispatchAll(L, ids[..k], owner, asOf, leaseUntil, queued[..k]), ids[k], owner, asOf, leaseUntil, queued[k])
  {
    assert ids[..k + 1][..k] == ids[..k] && queued[..k + 1][..k] == queued[..k];
  }

  /** Among distinct candidates, the one whose turn it is can be claimed iff it could be before the loop. */
  lemma NextCandidate(L: Ledger, ids: seq<CheckId>, owner: Owner, asOf: Time, leaseUntil: Time, queued: seq<bool>, k: nat)
    requires |ids| == |queued| && k < |ids| && Distinct(ids)
    ensures var rows := DispatchAll(L, ids[..k], owner, asOf, leaseUntil, queued[..k]).checks;
            |Accepted(L.checks, ids[..k + 1], asOf, queued[..k + 1])| == |Accepted(L.checks, ids[..k], asOf, queued[..k])|
              + if ids[k] < |rows| && Dispatchable(rows[ids[k]], asOf) && queued[k] then 1 else 0
  {
    DispatchAllLeavesOthers(L, ids[..k], owner, asOf, leaseUntil, queued[..k], ids[k]);
    OneMoreCandidate(L.checks, ids, asOf, queued, k);
  }

  /** The row that was read has no result and is of the job's version. */
  predicate JobIsCurrent(p: Phase)
    requires p.HasRead?
  {
    p.row.result.None? && !p.row.status.CheckCompleted? && p.row.configVersion == p.jobVersion
  }

  /** So was the monitor, and it was watched. */
  predicate MonitorIsCurrent(p: Phase)
    requires p.HasRead?
  {
    p.monitor.state.configVersion == p.jobVersion && p.monitor.state.lifecycle.Active? && p.monitor.deletedAt.None?
  }

  /** The row is not finished, and nobody runs it within a lease. */
  predicate IsClaimable(c: Check, now: Time) {
    && IsActive(c) && c.completedAt.None?
    && (c.status.CheckRunning? ==> c.lease.Some? && c.lease.value.until < now)
  }

  class Store {
    var clock: Time
    var monitors: map<MonitorId, Monitor>
    var checks: seq<Check>
    var incidents: seq<Incident>
    var workers: map<WorkerId, Phase>
    var outages: map<OutageId, Outage>
    var observations: map<Withheld, Observation>

    ghost function Value(): Ledger
      reads this
    {
      Ledger(clock, monitors, checks, incidents, workers, outages, observations)
    }

    constructor (start: Time)
      ensures Value() == EmptyLedger(start) && Inv(Value())
    {
      clock, monitors, checks, incidents, workers := start, map[], [], [], map[];
      outages, observations := map[], map[];
    }

    /** Every transaction starts by taking a strictly later time stamp. */
    method Begin(now: Time)
      requires now > clock
      modifies this`clock
      ensures Value() == old(Value()).(clock := now)
    {
      clock := now;
    }

    // ---- scheduler ------------------------------------------------------

    /** createDueChecks: due is the locked result of the select, at most limit distinct monitors. */
    method CreateDueChecks(due: seq<MonitorId>, asOf: Time) returns (created: seq<CheckId>)
      requires Selectable(Value(), due, asOf)
      requires forall m :: m in monitors ==> ValidConfig(monitors[m].config)
      modifies this`checks, this`monitors
      ensures Value() == CheckLedger.CreateDueChecks(old(Value()), due, asOf)
      ensures (exists k :: 0 <= k < |due| && Collides(old(Value()), due[k], asOf)) ==> created == []
      ensures (forall k :: 0 <= k < |due| ==> !Collides(old(Value()), due[k], asOf)) ==> |created| == |due|
      ensures |created| == |checks| - |old(checks)|
      ensures forall k :: 0 <= k < |created| ==> created[k] < |checks| && checks[created[k]].monitor == due[k]
    {
      ghost var before := Value();
      var rows, mons := checks, monitors;
      created := [];
      var k := 0;
      while k < |due|
        invariant 0 <= k <= |due|
        invariant Value() == before
        invariant before.(checks := rows, monitors := mons) == CreateAll(before, due[..k], asOf)
        invariant forall m :: m in mons ==> ValidConfig(mons[m].config)
        invariant |created| == k && |rows| == |checks| + k
        invariant forall j :: 0 <= j < k ==> !Collides(before, due[j], asOf)
        invariant forall j :: 0 <= j < k ==> created[j] < |rows| && rows[created[j]].monitor == due[j]
      {
        ghost var current := before.(checks := rows, monitors := mons);
        var m := due[k];
        NextInBatch(before, due, asOf, k);
        var mon := mons[m];
        var I := Interval(mon.config);
        CoalescedSlotIsLatest(mon.nextCheckAt.value, I, asOf);
        var scheduledAt := CoalescedSlot(mon.nextCheckAt.value, I, asOf).value;
        if SlotTaken(rows, m, scheduledAt, mon.state.configVersion) {
          assert Collides(before, due[k], asOf);
          created := [];
          return;
        }
        created := created + [|rows|];
        rows := rows + [Check(m, scheduledAt, mon.state.configVersion, clock, CheckPending, None, 0, None, None)];
        mons := mons[m := mon.(nextCheckAt := Some(SlotAfter(scheduledAt, I, asOf)))];
        assert before.(checks := rows, monitors := mons) == CreateDue(current, m, asOf);
        k := k + 1;
      }
      assert due[..k] == due;
      checks, monitors := rows, mons;
    }

    // ---- dispatcher -----------------------------------------------------

    method ClaimForDispatch(id: CheckId, owner: Owner, asOf: Time, leaseUntil: Time) returns (claimed: bool)
      requires asOf <= clock
      modifies this`checks
      ensures Value() == DispatchClaim(old(Value()), id, owner, asOf, leaseUntil)
      ensures claimed <==> id < |old(checks)| && Dispatchable(old(checks)[id], asOf)
    {
      claimed := id < |checks| && Dispatchable(checks[id], asOf);
      if claimed {
        checks := checks[id := checks[id].(status := CheckPending, lease := Some(Lease(owner, leaseUntil)),
                                           attempts := checks[id].attempts + 1)];
      }
    }

    /** One turn of the loop: claim the candidate, then mark it or release it, as the queue answers. */
    method DispatchCandidate(id: CheckId, owner: Owner, asOf: Time, leaseUntil: Time, queued: bool) returns (counts: bool)
      requires asOf <= clock
      modifies this`checks
      ensures Value() == DispatchOne(old(Value()), id, owner, asOf, leaseUntil, queued)
      ensures counts <==> id < |old(checks)| && Dispatchable(old(checks)[id], asOf) && queued
    {
      var claimed := ClaimForDispatch(id, owner, asOf, leaseUntil);
      counts := claimed && queued;
      if claimed && HeldForDispatch(checks[id], owner) {
        if queued {
          checks := checks[id := checks[id].(status := CheckEnqueued, lease := Some(Lease(owner, leaseUntil)))];
        } else {
          checks := checks[id := checks[id].(lease := None)];
        }
      }
    }

    /** dispatch: queued[k] tells whether the queue accepted the k-th candidate's job. */
    method Dispatch(candidates: seq<CheckId>, owner: Owner, asOf: Time, leaseMs: nat, queued: seq<bool>)
      returns (dispatched: nat)
      requires asOf <= clock && |candidates| == |queued|
      modifies this`checks
      ensures Value() == DispatchAll(old(Value()), candidates, owner, asOf, asOf + leaseMs, queued)
      ensures Distinct(candidates) ==> dispatched == |Accepted(old(checks), candidates, asOf, queued)|
      ensures Distinct(candidates) ==> AllDispatched(old(checks), checks, candidates, owner, asOf, asOf + leaseMs, queued)
      ensures dispatched <= |candidates|
      ensures (forall k :: 0 <= k < |queued| ==> !queued[k]) ==> dispatched == 0
    {
      ghost var before := Value();
      var leaseUntil := asOf + leaseMs;
      dispatched := 0;
      var k := 0;
      while k < |candidates|
        invariant 0 <= k <= |candidates| && dispatched <= k
        invariant clock == before.clock
        invariant Value() == DispatchAll(before, candidates[..k], owner, asOf, leaseUntil, queued[..k])
        invariant (forall j :: 0 <= j < |queued| ==> !queued[j]) ==> dispatched == 0
        invariant Distinct(candidates) ==> dispatched == |Accepted(before.checks, candidates[..k], asOf, queued[..k])|
      {
        var id := candidates[k];
        if Distinct(candidates) { NextCandidate(before, candidates, owner, asOf, leaseUntil, queued, k); }
        NextDispatched(before, candidates, owner, asOf, leaseUntil, queued, k);
        var counts := DispatchCandidate(id, owner, asOf, leaseUntil, queued[k]);
        if counts { dispatched := dispatched + 1; }
        k := k + 1;
      }
      assert candidates[..k] == candidates && queued[..k] == queued;
      if Distinct(candidates) { DispatchedRows(before, candidates, owner, asOf, leaseUntil, queued); }
    }

    /** runOnce: an aborted creation also skips the dispatch. `candidates` is what the second query finds. */
    method RunOnce(due: seq<MonitorId>, candidates: seq<CheckId>, owner: Owner, asOf: Time, leaseMs: nat, queued: seq<bool>)
      returns (created: Option<nat>, dispatched: nat)
      requires Selectable(Value(), due, asOf) && |candidates| == |queued|
      requires forall m :: m in monitors ==> ValidConfig(monitors[m].config)
      modifies this`checks, this`monitors
      ensures created.None? <==> exists k :: 0 <= k < |due| && Collides(old(Value()), due[k], asOf)
      ensures created.None? ==> Value() == old(Value()) && dispatched == 0
      ensures created.Some? ==>
                created.value == |due|
                && Value() == DispatchAll(CreateAll(old(Value()), due, asOf), candidates, owner, asOf, asOf + leaseMs, queued)
    {
      var ids := CreateDueChecks(due, asOf);
      if due != [] && ids == [] { return None, 0; }
      dispatched := Dispatch(candidates, owner, asOf, leaseMs, queued);
      created := Some(|ids|);
    }

    // ---- worker ---------------------------------------------------------

    method CancelStaleCheck(id: CheckId)
      modifies this`checks
      ensures Value() == CancelStale(old(Value()), id)
    {
      if id < |checks| && IsActive(checks[id]) {
        checks := checks[id := checks[id].(status := CheckCanceled, lease := None)];
      }
    }

    /** The part of process() up to the request: the row was read earlier, and is claimed now or dropped. */
    method ClaimCheck(w: WorkerId, leaseMs: nat) returns (outcome: Option<JobOutcome>)
      requires w in workers && workers[w].HasRead?
      modifies this`checks, this`workers
      ensures Value() == WorkerClaim(old(Value()), w, leaseMs)
      ensures outcome.None? <==> w in workers && workers[w].Holding?
      ensures outcome == Some(JobCanceled) <==> Decide(old(workers)[w]).DropStale?
      ensures outcome == Some(JobCanceled) <==> JobIsCurrent(old(workers)[w]) && !MonitorIsCurrent(old(workers)[w])
      ensures outcome.None? <==>
                && JobIsCurrent(old(workers)[w]) && MonitorIsCurrent(old(workers)[w])
                && old(workers)[w].check < |old(checks)| && IsClaimable(old(checks)[old(workers)[w].check], clock)
      ensures outcome.None? ==>
                var id := old(workers)[w].check;
                && CheckSteps.OthersStay(old(checks), checks, id)
                && checks[id] == old(checks)[id].(status := CheckRunning, lease := Some(Lease(w, clock + leaseMs)))
                && workers == old(workers)[w := Holding(id, clock)]
      ensures outcome == Some(JobCanceled) ==> CheckSteps.OthersStay(old(checks), checks, old(workers)[w].check)
      ensures outcome == Some(JobDuplicate) ==> checks == old(checks)
      ensures outcome.Some? ==> workers == old(workers) - {w}
    {
      var read := workers[w];
      if read.row.result.Some? || read.row.status.CheckCompleted? || read.row.configVersion != read.jobVersion {
        workers := workers - {w};
        return Some(JobDuplicate);
      }
      if read.monitor.state.configVersion != read.jobVersion || !read.monitor.state.lifecycle.Active?
         || read.monitor.deletedAt.Some? {
        CancelStaleCheck(read.check);
        workers := workers - {w};
        return Some(JobCanceled);
      }
      if read.check >= |checks| || !Claimable(checks[read.check], clock) {
        workers := workers - {w};
        return Some(JobDuplicate);
      }
      checks := checks[read.check := checks[read.check].(status := CheckRunning, lease := Some(Lease(w, clock + leaseMs)))];
      workers := workers[w := Holding(read.check, clock)];
      outcome := None;
    }

    /** applyIncidentEffect without its notification rows. */
    method ApplyEffect(m: MonitorId, version: int, effect: IncidentEffect)
      modifies this`incidents
      ensures incidents == ApplyIncidentEffect(old(incidents), m, version, effect)
      ensures effect.OpenIncident? && FindOpen(old(incidents), m).None? ==>
                && |incidents| == |old(incidents)| + 1 && incidents[..|old(incidents)|] == old(incidents)
                && var i := incidents[|old(incidents)|];
                   && i.monitor == m && i.configVersion == version && i.status.IncidentOpen?
                   && i.firstFailureAt == effect.firstFailureAt && i.firstError == effect.firstError
                   && i.detectedAt == effect.detectedAt && i.lastError == effect.lastError
                   && i.resolvedAt.None? && i.canceledAt.None? && i.closure.None?
      ensures !(effect.OpenIncident? && FindOpen(old(incidents), m).None?) ==>
                && |incidents| == |old(incidents)|
                && forall k :: 0 <= k < |incidents| && FindOpen(old(incidents), m) != Some(k) ==> incidents[k] == old(incidents)[k]
      ensures FindOpen(old(incidents), m).Some? ==>
                var b, a := old(incidents)[FindOpen(old(incidents), m).value], incidents[FindOpen(old(incidents), m).value];
                a == if effect.OpenIncident? then b.(lastError := effect.lastError)
                     else if effect.UpdateIncident? then b.(lastError := effect.error)
                     else if effect.ResolveIncident?
                     then b.(status := IncidentResolved, resolvedAt := Some(effect.resolvedAt), closure := Some(Recovered))
                     else b
    {
      if effect.NoEffect? { return; }
      var open := FindOpen(incidents, m);
      if effect.OpenIncident? {
        if open.Some? {
          incidents := incidents[open.value := incidents[open.value].(lastError := effect.lastError)];
        } else {
          incidents := incidents + [Incident(m, version, IncidentOpen, effect.firstFailureAt, effect.detectedAt,
                                             None, None, effect.firstError, effect.lastError, None)];
        }
        return;
      }
      if open.None? { return; }
      if effect.UpdateIncident? {
        incidents := incidents[open.value := incidents[open.value].(lastError := effect.error)];
        return;
      }
      if effect.ResolveIncident? {
        incidents := incidents[open.value := incidents[open.value].(status := IncidentResolved,
                                                                    resolvedAt := Some(effect.resolvedAt),
                                                                    closure := Some(Recovered))];
      }
    }

    /** The updateMany that settles the observations of a monitor, row by row. */
    method SettleObservations(c: Check, r: CheckResult)
      modifies this`observations
      ensures observations == map k | k in old(observations) ::
                if Settles(old(Value()), c, r, k) then old(observations)[k].(recheckedAt := Some(r.finishedAt)) else old(observations)[k]
      ensures observations == map k | k in old(observations) ::
                if IsSettledBy(old(Value()), k, c, r) then Observation(c.configVersion, Some(r.finishedAt)) else old(observations)[k]
    {
      ghost var before := Value();
      var left := observations.Keys;
      while left != {}
        invariant left <= before.observations.Keys && observations.Keys == before.observations.Keys
        invariant forall k :: k in left ==> observations[k] == before.observations[k]
        invariant forall k :: k in before.observations && k !in left ==>
                    observations[k] == if Settles(before, c, r, k) then before.observations[k].(recheckedAt := Some(r.finishedAt))
                                       else before.observations[k]
        decreases |left|
      {
        var k :| k in left;
        left := left - {k};
        var row := observations[k];
        if k.monitor == c.monitor && row.recheckedAt.None? && row.configVersion == c.configVersion
           && k.outage in outages && outages[k.outage].recoveredAt.Some? && outages[k.outage].recoveredAt.value <= r.startedAt {
          observations := observations[k := row.(recheckedAt := Some(r.finishedAt))];
        }
      }
    }

    /** What a valid result does to the observations. */
    method NoteResult(c: Check, r: CheckResult)
      modifies this`observations
      ensures observations == NotedRows(old(Value()), c, r)
    {
      if r.outcome.Inconclusive? {
        if r.outage.Some? && Withheld(r.outage.value, c.monitor) !in observations {
          observations := observations[Withheld(r.outage.value, c.monitor) := Observation(c.configVersion, None)];
        }
      }
      if r.outcome.Success? || r.outcome.TargetFailure? { SettleObservations(c, r); }
    }

    /** persist: stores the result once, moves health and incident while the check is valid, and closes the row. */
    method PersistResult(id: CheckId, r: CheckResult) returns (outcome: JobOutcome)
      requires id < |checks| && checks[id].monitor in monitors
      modifies this`checks, this`monitors, this`incidents, this`observations
      ensures Value() == StoreResult(old(Value()), id, r)
      ensures outcome == JobDuplicate <==> old(checks)[id].result.Some?
      ensures outcome in {JobDuplicate, JobRefused} <==> Value() == old(Value())
      ensures outcome == JobCanceled <==>
                old(checks)[id].result.None? && !StillValid(old(checks)[id], old(monitors)[old(checks)[id].monitor])
      ensures outcome == JobCanceled ==> monitors == old(monitors) && incidents == old(incidents) && observations == old(observations)
    {
      var scheduled := checks[id];
      if scheduled.result.Some? { return JobDuplicate; }
      var monitor := monitors[scheduled.monitor];
      var valid := ActiveStatus(scheduled.status) && scheduled.configVersion == monitor.state.configVersion
                   && monitor.state.lifecycle.Active? && monitor.deletedAt.None?;
      if valid {
        var transition := ApplyCheckResult(monitor.state, InputOf(r, scheduled.configVersion, monitor.config));
        if transition.Err? || !FitsColumns(transition.value.state) { return JobRefused; }
        NoteResult(scheduled, r);
        if transition.value.Applied() {
          monitors := monitors[scheduled.monitor := monitor.(state := transition.value.state)];
          ApplyEffect(scheduled.monitor, monitor.state.configVersion, transition.value.effect);
        }
      }
      checks := checks[id := scheduled.(result := Some(r))];
      if !scheduled.status.CheckCanceled? {
        checks := checks[id := checks[id].(status := CheckCompleted, completedAt := Some(r.finishedAt), lease := None)];
      }
      outcome := if valid then JobCompleted else JobCanceled;
    }

    // ---- the network guard ------------------------------------------------

    /** The updateMany of a pull-forward: the monitors of `wanted` are asked for an immediate check, row by row. */
    method PullForward(wanted: set<MonitorId>, at: Time)
      requires wanted <= monitors.Keys
      modifies this`monitors
      ensures monitors == map m | m in old(monitors) ::
                if m in wanted then Pulled(old(Value()), old(monitors)[m], at) else old(monitors)[m]
    {
      ghost var before := Value();
      var left := wanted;
      while left != {}
        invariant left <= wanted && monitors.Keys == before.monitors.Keys
        invariant forall m :: m in monitors ==>
                    monitors[m] == if m in wanted && m !in left then Pulled(before, before.monitors[m], at) else before.monitors[m]
        decreases |left|
      {
        var m :| m in left;
        left := left - {m};
        monitors := monitors[m := monitors[m].(nextCheckAt := Some(at), anchor := at, anchorRow := |checks|, pulled := true)];
      }
    }

    /** The part of a probe's commit that ends an outage. */
    method EndOutage(o: OutageId, at: Time, online: bool)
      requires CanEnd(Value(), o, at)
      modifies this`outages, this`monitors
      ensures Value() == OutageEnds(old(Value()), o, at, online)
    {
      var wanted := set m | m in monitors && Live(monitors[m])
                            && Withheld(o, m) in observations && observations[Withheld(o, m)].recheckedAt.None?;
      outages := outages[o := if online then outages[o].(recoveredAt := Some(at)) else outages[o].(closed := true)];
      PullForward(wanted, at);
    }

    // ---- administration -------------------------------------------------

    /** The updateMany over open incidents, row by row. */
    method CancelOpenIncidents(m: MonitorId, reason: ClosureReason)
      modifies this`incidents
      ensures incidents == CancelIncidents(old(incidents), m, clock, reason)
    {
      ghost var before := incidents;
      var k := 0;
      while k < |incidents|
        invariant 0 <= k <= |incidents| == |before|
        invariant forall j :: 0 <= j < k ==> incidents[j] == CancelOpen(before[j], m, clock, reason)
        invariant forall j :: k <= j < |before| ==> incidents[j] == before[j]
      {
        var row := incidents[k];
        if row.monitor == m && row.status.IncidentOpen? {
          incidents := incidents[k := row.(status := IncidentCanceled, canceledAt := Some(clock), closure := Some(reason))];
        }
        k := k + 1;
      }
    }

    /** The updateMany over active checks, row by row. */
    method CancelActiveChecks(m: MonitorId)
      modifies this`checks
      ensures checks == CancelChecks(old(checks), m)
    {
      ghost var before := checks;
      var k := 0;
      while k < |checks|
        invariant 0 <= k <= |checks| == |before|
        invariant forall j :: 0 <= j < k ==> checks[j] == CancelCheck(before[j], m)
        invariant forall j :: k <= j < |before| ==> checks[j] == before[j]
      {
        var row := checks[k];
        if row.monitor == m && ActiveStatus(row.status) { checks := checks[k := row.(status := CheckCanceled, lease := None)]; }
        k := k + 1;
      }
    }

    /** cancelRuntime without its notification rows. */
    method CancelRuntimeRows(m: MonitorId, reason: ClosureReason)
      modifies this`checks, this`incidents
      ensures Value() == CancelRuntime(old(Value()), m, reason)
      ensures |checks| == |old(checks)| && |incidents| == |old(incidents)|
      ensures forall k :: 0 <= k < |checks| ==> !(checks[k].monitor == m && IsActive(checks[k]))
      ensures forall k :: 0 <= k < |incidents| ==> !(incidents[k].monitor == m && incidents[k].status.IncidentOpen?)
      ensures forall k :: 0 <= k < |checks| && !(old(checks)[k].monitor == m && IsActive(old(checks)[k])) ==> checks[k] == old(checks)[k]
      ensures forall k :: 0 <= k < |incidents| && !(old(incidents)[k].monitor == m && old(incidents)[k].status.IncidentOpen?) ==>
                incidents[k] == old(incidents)[k]
    {
      CancelOpenIncidents(m, reason);
      CancelActiveChecks(m);
    }

    /** setLifecycle, used for pausing. */
    method PauseMonitor(m: MonitorId) returns (found: bool)
      modifies this`checks, this`incidents, this`monitors
      ensures Value() == Pause(old(Value()), m)
      ensures found <==> Found(old(Value()), m)
    {
      found := m in monitors && monitors[m].deletedAt.None?;
      if !found || monitors[m].state.lifecycle.Paused? { return; }
      CancelRuntimeRows(m, ByPause);
      var current := monitors[m];
      monitors := monitors[m := current.(
        state := current.state.(lifecycle := Paused, health := Health.Pending, failures := 0, successes := 0,
                                streakStartedAt := None, streakFirstError := None),
        nextCheckAt := None,
        epoch := |checks|)];
    }

    method ResumeMonitor(m: MonitorId, jitter: nat) returns (found: bool)
      requires m in monitors ==> ValidConfig(monitors[m].config)
      modifies this`monitors
      ensures Value() == Resume(old(Value()), m, jitter)
      ensures found <==> Found(old(Value()), m)
    {
      found := m in monitors && monitors[m].deletedAt.None?;
      if !found || monitors[m].state.lifecycle.Active? { return; }
      var current := monitors[m];
      var first := NextBucket(clock, Interval(current.config)) + jitter;
      monitors := monitors[m := current.(
        state := current.state.(lifecycle := Lifecycle.Active, health := Health.Pending, failures := 0, successes := 0,
                                streakStartedAt := None, streakFirstError := None),
        nextCheckAt := Some(first),
        epoch := |checks|, anchor := first, anchorRow := |checks|, pulled := false)];
    }

    method RemoveMonitor(m: MonitorId) returns (found: bool)
      modifies this`checks, this`incidents, this`monitors
      ensures Value() == Remove(old(Value()), m)
      ensures found <==> Found(old(Value()), m)
    {
      found := m in monitors && monitors[m].deletedAt.None?;
      if !found { return; }
      CancelRuntimeRows(m, ByDelete);
      var current := monitors[m];
      monitors := monitors[m := current.(
        state := current.state.(lifecycle := Deleted, health := Health.Pending, failures := 0, successes := 0,
                                streakStartedAt := None, streakFirstError := None),
        nextCheckAt := None, deletedAt := Some(clock),
        epoch := |checks|)];
    }

    method UpdateMonitorConfig(m: MonitorId, c: Config, jitter: nat) returns (found: bool)
      requires ValidConfig(c)
      modifies this`checks, this`incidents, this`monitors
      ensures Value() == UpdateMonitor(old(Value()), m, c, jitter)
      ensures found <==> Found(old(Value()), m)
    {
      found := m in monitors && monitors[m].deletedAt.None?;
      if !found { return; }
      var current := monitors[m];
      if !MonitoringChanged(current.config, c) || current.state.configVersion + 1 > MAX_DB_INTEGER { return; }
      CancelRuntimeRows(m, ByConfigChange);
      var next := current.(
        config := c,
        state := current.state.(configVersion := current.state.configVersion + 1, health := Health.Pending, failures := 0,
                                successes := 0, streakStartedAt := None, streakFirstError := None),
        nextCheckAt := None,
        epoch := |checks|, anchorRow := |checks|);
      if current.state.lifecycle.Active? {
        var first := NextBucket(clock, Interval(c)) + jitter;
        next := next.(nextCheckAt := Some(first), anchor := first, pulled := false);
      }
      monitors := monitors[m := next];
    }
  }

  /** When its turn comes, a monitor of the batch is as the select found it. */
  lemma NextInBatch(L: Ledger, due: seq<MonitorId>, asOf: Time, k: nat)
    requires Selectable(L, due, asOf) && k < |due|
    ensures CreateAll(L, due[..k + 1], asOf) == CreateDue(CreateAll(L, due[..k], asOf), due[k], asOf)
    ensures var T := CreateAll(L, due[..k], asOf);
            && due[k] in L.monitors && due[k] in T.monitors && T.monitors[due[k]] == L.monitors[due[k]]
            && Due(T, due[k], asOf) && (Collides(T, due[k], asOf) <==> Collides(L, due[k], asOf))
  {
    assert due[..k + 1][..k] == due[..k];
    CreateAllLeavesOthers(L, due[..k], asOf, due[k]);
  }
}
