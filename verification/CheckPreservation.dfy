/** Every step of the check pipeline keeps the invariants. */
module CheckPreservation {
  import opened Arithmetic
  import opened Domain
  import opened HealthState
  import opened Scheduling
  import opened CheckLedger
  import opened CheckInvariants

  /** The schedule invariant reads only slots and schedule fields. */
  ghost predicate SameSlots(L: Ledger, T: Ledger) {
    && SameRows(L.checks, T.checks)
    && L.monitors.Keys == T.monitors.Keys
    && (forall m :: m in L.monitors ==>
          && L.monitors[m].config == T.monitors[m].config && L.monitors[m].nextCheckAt == T.monitors[m].nextCheckAt
          && L.monitors[m].anchor == T.monitors[m].anchor && L.monitors[m].anchorRow == T.monitors[m].anchorRow
          && L.monitors[m].pulled == T.monitors[m].pulled)
  }

  ghost predicate SameRows(a: seq<Check>, b: seq<Check>) {
    && |a| == |b|
    && forall i :: 0 <= i < |a| ==> a[i].monitor == b[i].monitor && a[i].scheduledAt == b[i].scheduledAt
  }

  lemma GridTransfers(L: Ledger, T: Ledger, n: MonitorId)
    requires n in L.monitors && n in T.monitors && GridOk(L, n) && SameRows(L.checks, T.checks)
    requires var a, b := L.monitors[n], T.monitors[n];
             a.config == b.config && a.anchor == b.anchor && a.anchorRow == b.anchorRow && a.pulled == b.pulled
             && (b.nextCheckAt.Some? ==> a.nextCheckAt == b.nextCheckAt)
    ensures GridOk(T, n)
  {
  }

  /** Re-anchoring starts an empty grid. */
  lemma GridStarts(T: Ledger, n: MonitorId)
    requires n in T.monitors
    requires var mon := T.monitors[n];
             ValidConfig(mon.config) && mon.anchorRow == |T.checks|
             && (mon.nextCheckAt.Some? ==> mon.nextCheckAt.value == mon.anchor)
             && (mon.nextCheckAt.Some? && !mon.pulled ==> SlotsBefore(T.checks, n, mon.anchor))
    ensures GridOk(T, n)
  {
    DivisionIsUnique(0, Interval(T.monitors[n].config), 0, 0);
  }

  /** No slot lies after the clock, so a grid that starts later starts behind all of them. */
  lemma SlotsAreInThePast(L: Ledger, T: Ledger, n: MonitorId)
    requires RowsOk(L) && SameRows(L.checks, T.checks)
    ensures forall t :: t > L.clock ==> SlotsBefore(T.checks, n, t)
  {
    forall i | 0 <= i < |T.checks| && T.checks[i].monitor == n ensures T.checks[i].scheduledAt <= L.clock {
      assert RowOk(L.checks[i], i, L.monitors, L.clock);
    }
  }

  lemma SameSlotsKeepSchedule(L: Ledger, T: Ledger)
    requires ScheduleOk(L) && SameSlots(L, T)
    ensures ScheduleOk(T)
  {
    forall m | m in T.monitors ensures GridOk(T, m) { GridTransfers(L, T, m); }
  }

  lemma TickKeeps(L: Ledger, now: Time)
    requires Inv(L) && now > L.clock
    ensures Inv(L.(clock := now))
  {
    var T := L.(clock := now);
    assert FoldOk(T) by {
      forall m | m in T.monitors ensures Explained(T.monitors[m].state, HistoryOf(T, m)) {
        assert HistoryOf(T, m) == HistoryOf(L, m);
      }
    }
    assert Ordered(T) by {
      forall i | 0 <= i < |T.checks| && IsActive(T.checks[i]) && T.checks[i].monitor in T.monitors
        ensures BeforeCheck(T, T.checks[i])
      {
        assert BeforeCheck(L, L.checks[i]);
      }
    }
    SameSlotsKeepSchedule(L, T);
  }

  // ---- steps that touch one active row ----------------------------------

  /** A change of lease, attempts and status that leaves the row active or cancels it. */
  ghost predicate Touches(a: Check, b: Check) {
    && IsActive(a)
    && b == a.(status := b.status, lease := b.lease, attempts := b.attempts)
    && (IsActive(b) || b.status.CheckCanceled?)
    && (b.status.CheckEnqueued? || b.status.CheckRunning? ==> b.lease.Some?)
  }

  lemma TouchKeepsHistory(L: Ledger, id: CheckId, c: Check)
    requires RowsOk(L) && FoldOk(L) && id < |L.checks| && Touches(L.checks[id], c)
    ensures FoldOk(L.(checks := L.checks[id := c]))
  {
    var T := L.(checks := L.checks[id := c]);
    forall m | m in T.monitors ensures Explained(T.monitors[m].state, HistoryOf(T, m)) {
      HistoryDependsOnCounted(L.checks, T.checks, m, T.monitors[m].epoch, T.monitors[m].config);
      assert HistoryOf(T, m) == HistoryOf(L, m);
    }
  }

  lemma TouchKeepsOrder(L: Ledger, id: CheckId, c: Check)
    requires RowsOk(L) && Ordered(L) && ScheduleOk(L) && id < |L.checks| && Touches(L.checks[id], c)
    ensures Ordered(L.(checks := L.checks[id := c])) && ScheduleOk(L.(checks := L.checks[id := c]))
  {
    var T := L.(checks := L.checks[id := c]);
    assert Ordered(T) by {
      forall i | 0 <= i < |T.checks| && IsActive(T.checks[i]) && T.checks[i].monitor in T.monitors
        ensures BeforeCheck(T, T.checks[i])
      {
        assert BeforeCheck(L, L.checks[i]);
      }
    }
    SameSlotsKeepSchedule(L, T);
  }

  lemma TouchKeepsCore(L: Ledger, id: CheckId, c: Check)
    requires Core(L) && id < |L.checks| && Touches(L.checks[id], c)
    ensures Core(L.(checks := L.checks[id := c]))
  {
  }

  lemma SameTablesKeepIncidents(L: Ledger, T: Ledger)
    requires IncidentsOk(L) && Agreement(L)
    requires L.incidents == T.incidents && L.clock <= T.clock && L.monitors.Keys <= T.monitors.Keys
    requires forall m :: m in T.monitors ==>
               if m in L.monitors then T.monitors[m].state == L.monitors[m].state
               else !HasIncident(T.monitors[m].state.health)
    ensures IncidentsOk(T) && Agreement(T)
  {
    forall m | m in T.monitors && m !in L.monitors ensures !HasOpen(T.incidents, m) {
      forall k | 0 <= k < |T.incidents| ensures T.incidents[k].monitor != m {
        assert IncidentOk(L.incidents[k], L.monitors, L.clock);
      }
    }
  }

  lemma TouchKeeps(L: Ledger, id: CheckId, c: Check)
    requires Inv(L) && id < |L.checks| && Touches(L.checks[id], c)
    ensures Inv(L.(checks := L.checks[id := c]))
  {
    TouchKeepsCore(L, id, c);
    SameTablesKeepIncidents(L, L.(checks := L.checks[id := c]));
    TouchKeepsHistory(L, id, c);
    TouchKeepsOrder(L, id, c);
  }

  /** Workers' memories, outages and observations matter to no invariant but that of the workers. */
  lemma SidesKeep(L: Ledger, T: Ledger)
    requires Inv(L) && WorkersOk(T)
    requires T == L.(workers := T.workers, outages := T.outages, observations := T.observations)
    ensures Inv(T)
  {
    forall m | m in T.monitors ensures Explained(T.monitors[m].state, HistoryOf(T, m)) {
      assert HistoryOf(T, m) == HistoryOf(L, m);
    }
    assert Ordered(T) by {
      forall i | 0 <= i < |T.checks| && IsActive(T.checks[i]) && T.checks[i].monitor in T.monitors
        ensures BeforeCheck(T, T.checks[i])
      {
        assert BeforeCheck(L, L.checks[i]);
      }
    }
    SameSlotsKeepSchedule(L, T);
  }

  lemma WorkersOnlyKeeps(L: Ledger, workers: map<WorkerId, Phase>)
    requires Inv(L) && WorkersOk(L.(workers := workers))
    ensures Inv(L.(workers := workers))
  {
    SidesKeep(L, L.(workers := workers));
  }

  lemma ForgetKeeps(L: Ledger, w: WorkerId)
    requires Inv(L)
    ensures Inv(Forget(L, w))
  {
    WorkersOnlyKeeps(L, L.workers - {w});
  }

  lemma CancelStaleKeeps(L: Ledger, id: CheckId)
    requires Inv(L)
    ensures Inv(CancelStale(L, id))
  {
    if id < |L.checks| && IsActive(L.checks[id]) {
      TouchKeeps(L, id, L.checks[id].(status := CheckCanceled, lease := None));
    }
  }

  lemma HoldKeeps(L: Ledger, w: WorkerId, id: CheckId, c: Check)
    requires Inv(L) && id < |L.checks| && Touches(L.checks[id], c)
    ensures Inv(L.(checks := L.checks[id := c], workers := L.workers[w := Holding(id, L.clock)]))
  {
    var T := L.(checks := L.checks[id := c]);
    TouchKeeps(L, id, c);
    HoldingIsOk(T, w, id);
    WorkersOnlyKeeps(T, T.workers[w := Holding(id, T.clock)]);
  }

  lemma HoldingIsOk(L: Ledger, w: WorkerId, id: CheckId)
    requires Core(L) && id < |L.checks|
    ensures WorkersOk(L.(workers := L.workers[w := Holding(id, L.clock)]))
  {
  }

  function Claimed(L: Ledger, w: WorkerId, id: CheckId, leaseMs: nat): Check
    requires id < |L.checks|
  {
    L.checks[id].(status := CheckRunning, lease := Some(Lease(w, L.clock + leaseMs)))
  }

  lemma WorkerClaimCases(L: Ledger, w: WorkerId, leaseMs: nat) returns (id: CheckId, claimed: bool)
    ensures claimed ==> id < |L.checks| && Touches(L.checks[id], Claimed(L, w, id, leaseMs))
    ensures claimed ==> WorkerClaim(L, w, leaseMs)
                        == L.(checks := L.checks[id := Claimed(L, w, id, leaseMs)],
                              workers := L.workers[w := Holding(id, L.clock)])
    ensures !claimed ==> WorkerClaim(L, w, leaseMs) in {L, Forget(L, w), Forget(CancelStale(L, id), w)}
  {
    id, claimed := 0, false;
    if w in L.workers && L.workers[w].HasRead? {
      id := L.workers[w].check;
      claimed := Decide(L.workers[w]).TryClaim? && id < |L.checks| && Claimable(L.checks[id], L.clock);
    }
  }

  lemma WorkerClaimKeeps(L: Ledger, w: WorkerId, leaseMs: nat)
    requires Inv(L)
    ensures Inv(WorkerClaim(L, w, leaseMs))
  {
    var id, claimed := WorkerClaimCases(L, w, leaseMs);
    if claimed {
      HoldKeeps(L, w, id, Claimed(L, w, id, leaseMs));
    } else {
      ForgetKeeps(L, w);
      CancelStaleKeeps(L, id);
      ForgetKeeps(CancelStale(L, id), w);
    }
  }

  // ---- creation of a due check ------------------------------------------

  lemma NoActiveRow(L: Ledger, m: MonitorId)
    requires !HasActive(L.checks, m)
    ensures forall i :: 0 <= i < |L.checks| && L.checks[i].monitor == m ==> !IsActive(L.checks[i])
  {
  }

  /** The slot a due monitor uses and its next one are on its grid, and the slot lies before the next one. */
  lemma DueSlotsAreOnGrid(L: Ledger, m: MonitorId, asOf: Time)
    requires ScheduleOk(L) && m in L.monitors && Due(L, m, asOf)
    ensures var mon := L.monitors[m];
            var I := Interval(mon.config);
            var slot := CoalescedSlot(mon.nextCheckAt.value, I, asOf).value;
            && OnGrid(mon.anchor, I, slot) && mon.nextCheckAt.value <= slot <= asOf < slot + I
            && OnGrid(mon.anchor, I, SlotAfter(slot, I, asOf)) && SlotAfter(slot, I, asOf) > slot
  {
    var mon := L.monitors[m];
    var I := Interval(mon.config);
    var slot := CoalescedSlot(mon.nextCheckAt.value, I, asOf).value;
    assert GridOk(L, m);
    CoalescedSlotIsLatest(mon.nextCheckAt.value, I, asOf);
    GridStep(mon.anchor, I, mon.nextCheckAt.value, (asOf - mon.nextCheckAt.value) / I);
    SlotAfterIsFirst(slot, I, asOf);
    GridStep(mon.anchor, I, slot, Max(1, (asOf - slot) / I + 1));
  }

  lemma CreateDueKeepsOtherGrids(L: Ledger, m: MonitorId, asOf: Time, n: MonitorId)
    requires ScheduleOk(L) && n in L.monitors && n != m
    ensures n in CreateDue(L, m, asOf).monitors && GridOk(CreateDue(L, m, asOf), n)
  {
    assert GridOk(L, n);
  }

  lemma CreateDueKeepsOwnGrid(L: Ledger, m: MonitorId, asOf: Time)
    requires ScheduleOk(L) && m in L.monitors && CreateDue(L, m, asOf) != L
    ensures m in CreateDue(L, m, asOf).monitors && GridOk(CreateDue(L, m, asOf), m)
  {
    assert GridOk(L, m);
    DueSlotsAreOnGrid(L, m, asOf);
  }

  lemma CreateDueKeepsSchedule(L: Ledger, m: MonitorId, asOf: Time)
    requires ScheduleOk(L) && m in L.monitors && CreateDue(L, m, asOf) != L
    ensures ScheduleOk(CreateDue(L, m, asOf))
  {
    CreateDueKeepsOwnGrid(L, m, asOf);
    forall n | n in L.monitors && n != m ensures GridOk(CreateDue(L, m, asOf), n) { CreateDueKeepsOtherGrids(L, m, asOf, n); }
  }

  lemma CreateDueKeepsFold(L: Ledger, m: MonitorId, asOf: Time)
    requires FoldOk(L) && CreateDue(L, m, asOf) != L
    ensures FoldOk(CreateDue(L, m, asOf))
  {
    var T := CreateDue(L, m, asOf);
    var row := T.checks[|L.checks|];
    forall n | n in T.monitors ensures Explained(T.monitors[n].state, HistoryOf(T, n)) {
      HistoryIgnoresAppend(L.checks, row, n, L.monitors[n].epoch, L.monitors[n].config);
      assert T.checks == L.checks + [row];
      assert HistoryOf(T, n) == HistoryOf(L, n);
    }
  }

  lemma CreateDueKeepsCore(L: Ledger, m: MonitorId, asOf: Time)
    requires Core(L) && CreateDue(L, m, asOf) != L
    ensures Core(CreateDue(L, m, asOf))
  {
    NoActiveRow(L, m);
    CoalescedSlotIsLatest(L.monitors[m].nextCheckAt.value, Interval(L.monitors[m].config), asOf);
  }

  lemma CreateDueKeepsIncidents(L: Ledger, m: MonitorId, asOf: Time)
    requires MonitorsOk(L) && IncidentsOk(L) && Agreement(L) && Ordered(L) && CreateDue(L, m, asOf) != L
    ensures var T := CreateDue(L, m, asOf); IncidentsOk(T) && Agreement(T) && Ordered(T)
  {
    var T := CreateDue(L, m, asOf);
    forall i | 0 <= i < |T.checks| && IsActive(T.checks[i]) && T.checks[i].monitor in T.monitors
      ensures BeforeCheck(T, T.checks[i])
    {
      if i < |L.checks| { assert BeforeCheck(L, L.checks[i]); }
    }
  }

  lemma CreateDueKeeps(L: Ledger, m: MonitorId, asOf: Time)
    requires Inv(L)
    ensures Inv(CreateDue(L, m, asOf))
  {
    if CreateDue(L, m, asOf) != L {
      CreateDueKeepsCore(L, m, asOf);
      CreateDueKeepsFold(L, m, asOf);
      CreateDueKeepsIncidents(L, m, asOf);
      CreateDueKeepsSchedule(L, m, asOf);
    }
  }

  /** Creating checks appends rows and moves the next check of monitors; nothing else. */
  ghost predicate Appends(L: Ledger, T: Ledger) {
    && T == L.(checks := T.checks, monitors := T.monitors)
    && |L.checks| <= |T.checks| && (forall i :: 0 <= i < |L.checks| ==> T.checks[i] == L.checks[i])
    && T.monitors.Keys == L.monitors.Keys
    && forall m :: m in L.monitors ==> T.monitors[m] == L.monitors[m].(nextCheckAt := T.monitors[m].nextCheckAt)
  }

  lemma CreateDueAppends(L: Ledger, m: MonitorId, asOf: Time)
    ensures Appends(L, CreateDue(L, m, asOf))
  {}

  lemma {:induction false} CreateAllAppends(L: Ledger, due: seq<MonitorId>, asOf: Time)
    ensures Appends(L, CreateAll(L, due, asOf))
  {
    if due != [] {
      CreateAllAppends(L, due[..|due| - 1], asOf);
      CreateDueAppends(CreateAll(L, due[..|due| - 1], asOf), due[|due| - 1], asOf);
    }
  }

  lemma CreateDueChecksAppends(L: Ledger, due: seq<MonitorId>, asOf: Time)
    ensures Appends(L, CreateDueChecks(L, due, asOf))
  {
    CreateAllAppends(L, due, asOf);
  }

  lemma {:induction false} CreateAllKeeps(L: Ledger, due: seq<MonitorId>, asOf: Time)
    requires Inv(L)
    ensures Inv(CreateAll(L, due, asOf))
  {
    if due != [] {
      CreateAllKeeps(L, due[..|due| - 1], asOf);
      CreateDueKeeps(CreateAll(L, due[..|due| - 1], asOf), due[|due| - 1], asOf);
    }
  }

  lemma CreateDueChecksKeeps(L: Ledger, due: seq<MonitorId>, asOf: Time)
    requires Inv(L)
    ensures Inv(CreateDueChecks(L, due, asOf))
  {
    CreateAllKeeps(L, due, asOf);
  }

  // ---- storing a result -------------------------------------------------

  /** A result that was obtained while its row existed, by a request that has already ended. */
  ghost predicate Timely(L: Ledger, id: CheckId, r: CheckResult) {
    id < |L.checks| && L.checks[id].createdAt <= r.finishedAt <= L.clock
  }

  /** In a reachable state every active row is still valid, so only canceled rows store results that count for nothing. */
  lemma ActiveIsValid(L: Ledger, id: CheckId)
    requires RowsOk(L) && id < |L.checks|
    ensures L.checks[id].monitor in L.monitors
    ensures StillValid(L.checks[id], L.monitors[L.checks[id].monitor]) <==> IsActive(L.checks[id])
    ensures L.checks[id].result.None? && !IsActive(L.checks[id]) ==> L.checks[id].status.CheckCanceled?
  {
    assert RowOk(L.checks[id], id, L.monitors, L.clock);
  }

  lemma LateResultKeepsFold(L: Ledger, id: CheckId, r: CheckResult)
    requires FoldOk(L) && id < |L.checks| && L.checks[id].status.CheckCanceled?
    ensures FoldOk(L.(checks := L.checks[id := L.checks[id].(result := Some(r))]))
  {
    var T := L.(checks := L.checks[id := L.checks[id].(result := Some(r))]);
    forall m | m in T.monitors ensures Explained(T.monitors[m].state, HistoryOf(T, m)) {
      HistoryDependsOnCounted(L.checks, T.checks, m, T.monitors[m].epoch, T.monitors[m].config);
      assert HistoryOf(T, m) == HistoryOf(L, m);
    }
  }

  lemma LateResultKeepsCore(L: Ledger, id: CheckId, r: CheckResult)
    requires Core(L) && id < |L.checks| && L.checks[id].status.CheckCanceled?
    ensures Core(L.(checks := L.checks[id := L.checks[id].(result := Some(r))]))
  {
  }

  lemma LateResultKeepsOrder(L: Ledger, id: CheckId, r: CheckResult)
    requires Ordered(L) && ScheduleOk(L) && id < |L.checks| && L.checks[id].status.CheckCanceled?
    ensures Ordered(L.(checks := L.checks[id := L.checks[id].(result := Some(r))]))
    ensures ScheduleOk(L.(checks := L.checks[id := L.checks[id].(result := Some(r))]))
  {
    var T := L.(checks := L.checks[id := L.checks[id].(result := Some(r))]);
    SameSlotsKeepSchedule(L, T);
    forall i | 0 <= i < |T.checks| && IsActive(T.checks[i]) && T.checks[i].monitor in T.monitors
      ensures BeforeCheck(T, T.checks[i])
    {
      assert BeforeCheck(L, L.checks[i]);
    }
  }

  lemma LateResultKeeps(L: Ledger, id: CheckId, r: CheckResult)
    requires Inv(L) && id < |L.checks| && L.checks[id].status.CheckCanceled?
    ensures Inv(L.(checks := L.checks[id := L.checks[id].(result := Some(r))]))
  {
    LateResultKeepsCore(L, id, r);
    LateResultKeepsFold(L, id, r);
    LateResultKeepsOrder(L, id, r);
    SameTablesKeepIncidents(L, L.(checks := L.checks[id := L.checks[id].(result := Some(r))]));
  }

  /** One input applied to one monitor, seen from the outside. */
  ghost predicate Steps(s: MonitorState, i: CheckInput, t: Transition) {
    ApplyCheckResult(s, i) == Ok(t) && FitsColumns(t.state)
  }

  /** The ledger after an active row completed with a transition of its monitor. */
  function Completed(L: Ledger, id: CheckId, r: CheckResult, t: Transition): Ledger
    requires id < |L.checks| && L.checks[id].monitor in L.monitors
  {
    var m := L.checks[id].monitor;
    L.(checks := L.checks[id := Finished(L.checks[id], r)],
       monitors := L.monitors[m := L.monitors[m].(state := t.state)],
       incidents := ApplyIncidentEffect(L.incidents, m, L.monitors[m].state.configVersion, t.effect))
  }

  lemma StepKeepsMonitor(mon: Monitor, i: CheckInput, t: Transition, rows: nat)
    requires MonitorOk(mon, rows) && Live(mon) && Steps(mon.state, i, t)
    requires i.failureThreshold == mon.config.failureThreshold
    ensures MonitorOk(mon.(state := t.state), rows)
    ensures t.state.lifecycle == mon.state.lifecycle && t.state.configVersion == mon.state.configVersion
    ensures Cleared(t.state) == Cleared(mon.state)
  {
  }

  lemma CompletedKeepsCore(L: Ledger, id: CheckId, r: CheckResult, t: Transition)
    requires Core(L) && id < |L.checks| && IsActive(L.checks[id]) && L.checks[id].monitor in L.monitors
    requires var m := L.monitors[L.checks[id].monitor];
             Steps(m.state, InputOf(r, L.checks[id].configVersion, m.config), t)
    ensures Core(Completed(L, id, r, t))
  {
    var m := L.checks[id].monitor;
    assert RowOk(L.checks[id], id, L.monitors, L.clock);
    StepKeepsMonitor(L.monitors[m], InputOf(r, L.checks[id].configVersion, L.monitors[m].config), t, |L.checks|);
    var T := Completed(L, id, r, t);
    forall i | 0 <= i < |T.checks| ensures RowOk(T.checks[i], i, T.monitors, T.clock) {
      assert RowOk(L.checks[i], i, L.monitors, L.clock);
    }
  }

  lemma CompletedKeepsFold(L: Ledger, id: CheckId, r: CheckResult, t: Transition)
    requires Core(L) && FoldOk(L) && id < |L.checks| && IsActive(L.checks[id]) && L.checks[id].monitor in L.monitors
    requires var m := L.monitors[L.checks[id].monitor];
             Steps(m.state, InputOf(r, L.checks[id].configVersion, m.config), t)
    ensures FoldOk(Completed(L, id, r, t))
  {
    var T := Completed(L, id, r, t);
    var c := L.checks[id];
    var mon := L.monitors[c.monitor];
    var i := InputOf(r, c.configVersion, mon.config);
    assert RowOk(c, id, L.monitors, L.clock);
    forall n | n in T.monitors ensures Explained(T.monitors[n].state, HistoryOf(T, n)) {
      if n == c.monitor {
        StepKeepsMonitor(mon, i, t, |L.checks|);
        HistoryGrows(L.checks, T.checks, id, n, mon.epoch, mon.config);
        assert HistoryOf(T, n) == HistoryOf(L, n) + [i];
        SequentialSnoc(Cleared(mon.state), HistoryOf(L, n), i);
      } else {
        HistoryDependsOnCounted(L.checks, T.checks, n, T.monitors[n].epoch, T.monitors[n].config);
        assert HistoryOf(T, n) == HistoryOf(L, n);
      }
    }
  }

  lemma OpenIsFound(incidents: seq<Incident>, m: MonitorId)
    requires OneOpen(incidents)
    ensures HasOpen(incidents, m) <==> FindOpen(incidents, m).Some?
    ensures FindOpen(incidents, m).Some? ==>
              forall i :: 0 <= i < |incidents| && incidents[i].monitor == m && incidents[i].status.IncidentOpen?
                ==> i == FindOpen(incidents, m).value
  {
  }

  /** The incident table follows the effect: open exactly while health says so, one at a time, others untouched. */
  lemma EffectKeepsAgreement(incidents: seq<Incident>, m: MonitorId, s: MonitorState, i: CheckInput, t: Transition)
    requires OneOpen(incidents) && Steps(s, i, t)
    requires HasOpen(incidents, m) <==> HasIncident(s.health)
    ensures var after := ApplyIncidentEffect(incidents, m, s.configVersion, t.effect);
            && OneOpen(after)
            && (HasOpen(after, m) <==> HasIncident(t.state.health))
            && forall n :: n != m ==> (HasOpen(after, n) <==> HasOpen(incidents, n))
  {
    OpenIsFound(incidents, m);
    var after := ApplyIncidentEffect(incidents, m, s.configVersion, t.effect);
    var open := FindOpen(incidents, m);
    if t.effect.OpenIncident? {
      assert after[|incidents|].monitor == m;
      assert forall k :: 0 <= k < |incidents| ==> after[k] == incidents[k];
    } else if open.Some? {
      assert forall k :: 0 <= k < |incidents| && k != open.value ==> after[k] == incidents[k];
      assert after[open.value].monitor == m;
    }
    forall n | n != m ensures HasOpen(after, n) <==> HasOpen(incidents, n) {
      if HasOpen(incidents, n) {
        var k :| 0 <= k < |incidents| && incidents[k].monitor == n && incidents[k].status.IncidentOpen?;
        assert after[k] == incidents[k];
      }
      if HasOpen(after, n) {
        var k :| 0 <= k < |after| && after[k].monitor == n && after[k].status.IncidentOpen?;
        assert after[k] == incidents[k];
      }
    }
  }

  lemma CompletedKeepsIncidents(L: Ledger, id: CheckId, r: CheckResult, t: Transition)
    requires Core(L) && IncidentsOk(L) && Agreement(L) && Ordered(L)
    requires Timely(L, id, r) && IsActive(L.checks[id]) && L.checks[id].monitor in L.monitors
    requires var m := L.monitors[L.checks[id].monitor];
             Steps(m.state, InputOf(r, L.checks[id].configVersion, m.config), t)
    ensures IncidentsOk(Completed(L, id, r, t)) && Agreement(Completed(L, id, r, t))
  {
    var c := L.checks[id];
    var mon := L.monitors[c.monitor];
    var i := InputOf(r, c.configVersion, mon.config);
    assert RowOk(c, id, L.monitors, L.clock);
    assert BeforeCheck(L, c);
    EffectKeepsAgreement(L.incidents, c.monitor, mon.state, i, t);
    var T := Completed(L, id, r, t);
    forall k | 0 <= k < |T.incidents| ensures IncidentOk(T.incidents[k], T.monitors, T.clock) {
      if k < |L.incidents| { assert IncidentOk(L.incidents[k], L.monitors, L.clock); }
    }
  }

  lemma EffectKeepsDetection(incidents: seq<Incident>, m: MonitorId, version: int, e: IncidentEffect)
    ensures var after := ApplyIncidentEffect(incidents, m, version, e);
            && |incidents| <= |after| <= |incidents| + 1
            && (forall k :: 0 <= k < |incidents| ==>
                  after[k].monitor == incidents[k].monitor && after[k].detectedAt == incidents[k].detectedAt)
            && (|after| > |incidents| ==> after[|incidents|].monitor == m)
  {
  }

  lemma CompletedKeepsOrder(L: Ledger, id: CheckId, r: CheckResult, t: Transition)
    requires Core(L) && Ordered(L)
    requires Timely(L, id, r) && IsActive(L.checks[id]) && L.checks[id].monitor in L.monitors
    requires var m := L.monitors[L.checks[id].monitor];
             Steps(m.state, InputOf(r, L.checks[id].configVersion, m.config), t)
    ensures Ordered(Completed(L, id, r, t))
  {
    var T := Completed(L, id, r, t);
    var m := L.checks[id].monitor;
    EffectKeepsDetection(L.incidents, m, L.monitors[m].state.configVersion, t.effect);
    forall i | 0 <= i < |T.checks| && IsActive(T.checks[i]) && T.checks[i].monitor in T.monitors
      ensures BeforeCheck(T, T.checks[i])
    {
      assert i != id && T.checks[i].monitor != m;
      assert BeforeCheck(L, L.checks[i]);
    }
  }

  lemma CompletedKeepsSchedule(L: Ledger, id: CheckId, r: CheckResult, t: Transition)
    requires ScheduleOk(L) && id < |L.checks| && L.checks[id].monitor in L.monitors
    ensures ScheduleOk(Completed(L, id, r, t))
  {
    SameSlotsKeepSchedule(L, Completed(L, id, r, t));
  }

  lemma CompletedKeeps(L: Ledger, id: CheckId, r: CheckResult, t: Transition)
    requires Inv(L) && Timely(L, id, r) && IsActive(L.checks[id]) && L.checks[id].monitor in L.monitors
    requires var m := L.monitors[L.checks[id].monitor];
             Steps(m.state, InputOf(r, L.checks[id].configVersion, m.config), t)
    ensures Inv(Completed(L, id, r, t))
  {
    CompletedKeepsCore(L, id, r, t);
    CompletedKeepsFold(L, id, r, t);
    CompletedKeepsIncidents(L, id, r, t);
    CompletedKeepsOrder(L, id, r, t);
    CompletedKeepsSchedule(L, id, r, t);
  }

  /** Persist either does nothing, stores a late result on a canceled row, or completes an active row. */
  lemma PersistCases(L: Ledger, id: CheckId, r: CheckResult)
    requires Core(L) && id < |L.checks| && Persist(L, id, r) != L
    ensures L.checks[id].monitor in L.monitors
    ensures IsActive(L.checks[id]) || L.checks[id].status.CheckCanceled?
    ensures L.checks[id].status.CheckCanceled? ==>
              Persist(L, id, r) == L.(checks := L.checks[id := L.checks[id].(result := Some(r))])
    ensures IsActive(L.checks[id]) ==>
              var m := L.monitors[L.checks[id].monitor];
              var a := ApplyCheckResult(m.state, InputOf(r, L.checks[id].configVersion, m.config));
              a.Ok? && FitsColumns(a.value.state) && Persist(L, id, r) == Completed(L, id, r, a.value)
  {
    ActiveIsValid(L, id);
    var m := L.checks[id].monitor;
    var a := ApplyCheckResult(L.monitors[m].state, InputOf(r, L.checks[id].configVersion, L.monitors[m].config));
    if IsActive(L.checks[id]) && !a.value.Applied() {
      assert L.monitors[m := L.monitors[m].(state := a.value.state)] == L.monitors;
    }
  }

  lemma PersistKeeps(L: Ledger, id: CheckId, r: CheckResult)
    requires Inv(L) && Timely(L, id, r)
    ensures Inv(Persist(L, id, r))
  {
    if Persist(L, id, r) != L {
      PersistCases(L, id, r);
      if L.checks[id].status.CheckCanceled? {
        LateResultKeeps(L, id, r);
      } else {
        var m := L.monitors[L.checks[id].monitor];
        CompletedKeeps(L, id, r, ApplyCheckResult(m.state, InputOf(r, L.checks[id].configVersion, m.config)).value);
      }
    }
  }

  lemma StoreResultKeeps(L: Ledger, id: CheckId, r: CheckResult)
    requires Inv(L) && Timely(L, id, r)
    ensures Inv(StoreResult(L, id, r))
  {
    PersistKeeps(L, id, r);
    SidesKeep(Persist(L, id, r), StoreResult(L, id, r));
  }

  predicate CanFinish(L: Ledger, w: WorkerId, r: CheckResult) {
    w in L.workers && L.workers[w].Holding? && L.workers[w].claimedAt <= r.finishedAt <= L.clock
  }

  lemma HolderIsTimely(L: Ledger, w: WorkerId, r: CheckResult)
    requires WorkersOk(L) && CanFinish(L, w, r)
    ensures Timely(L, L.workers[w].check, r)
  {}

  lemma FinishCases(L: Ledger, w: WorkerId, r: CheckResult)
    ensures WorkerFinish(L, w, r) == if CanFinish(L, w, r) then Forget(StoreResult(L, L.workers[w].check, r), w) else L
  {}

  lemma WorkerFinishKeeps(L: Ledger, w: WorkerId, r: CheckResult)
    requires Inv(L)
    ensures Inv(WorkerFinish(L, w, r))
  {
    FinishCases(L, w, r);
    if CanFinish(L, w, r) {
      HolderIsTimely(L, w, r);
      StoreResultKeeps(L, L.workers[w].check, r);
      ForgetKeeps(StoreResult(L, L.workers[w].check, r), w);
    }
  }

  // ---- administration ---------------------------------------------------

  /** A monitor row whose health, epoch and (unless already clear) schedule were just reset. */
  ghost predicate ResetRow(L: Ledger, m: MonitorId, mon: Monitor) {
    && m in L.monitors
    && MonitorOk(mon, |L.checks|)
    && Fresh(mon.state)
    && mon.epoch == |L.checks|
    && ( || (mon.config == L.monitors[m].config && mon.nextCheckAt.None?
             && mon.anchor == L.monitors[m].anchor && mon.anchorRow == L.monitors[m].anchorRow
             && mon.pulled == L.monitors[m].pulled)
         || (mon.anchorRow == |L.checks| && (mon.nextCheckAt.Some? ==> mon.nextCheckAt.value == mon.anchor > L.clock)))
  }

  function Reset(L: Ledger, m: MonitorId, mon: Monitor, reason: ClosureReason): Ledger {
    CancelRuntime(L, m, reason).(monitors := L.monitors[m := mon])
  }

  lemma ResetKeepsCore(L: Ledger, m: MonitorId, mon: Monitor, reason: ClosureReason)
    requires Core(L) && ResetRow(L, m, mon)
    ensures Core(Reset(L, m, mon, reason))
  {
    var T := Reset(L, m, mon, reason);
    forall i | 0 <= i < |T.checks| ensures RowOk(T.checks[i], i, T.monitors, T.clock) {
      assert RowOk(L.checks[i], i, L.monitors, L.clock);
    }
  }

  lemma ResetKeepsFold(L: Ledger, m: MonitorId, mon: Monitor, reason: ClosureReason)
    requires FoldOk(L) && ResetRow(L, m, mon)
    ensures FoldOk(Reset(L, m, mon, reason))
  {
    var T := Reset(L, m, mon, reason);
    forall n | n in T.monitors ensures Explained(T.monitors[n].state, HistoryOf(T, n)) {
      if n == m {
        EmptyHistory(T.checks, n, mon.epoch, mon.config);
      } else {
        HistoryDependsOnCounted(L.checks, T.checks, n, T.monitors[n].epoch, T.monitors[n].config);
        assert HistoryOf(T, n) == HistoryOf(L, n);
      }
    }
  }

  lemma ResetKeepsIncidents(L: Ledger, m: MonitorId, mon: Monitor, reason: ClosureReason)
    requires IncidentsOk(L) && Agreement(L) && ResetRow(L, m, mon) && reason != Recovered
    ensures IncidentsOk(Reset(L, m, mon, reason)) && Agreement(Reset(L, m, mon, reason))
  {
    var T := Reset(L, m, mon, reason);
    forall i | 0 <= i < |T.incidents| ensures IncidentOk(T.incidents[i], T.monitors, T.clock) {
      assert IncidentOk(L.incidents[i], L.monitors, L.clock);
    }
    forall n | n in T.monitors ensures HasOpen(T.incidents, n) <==> HasIncident(T.monitors[n].state.health) {
      if n != m {
        if HasOpen(L.incidents, n) {
          var k :| 0 <= k < |L.incidents| && L.incidents[k].monitor == n && L.incidents[k].status.IncidentOpen?;
          assert T.incidents[k] == L.incidents[k];
        }
      }
    }
  }

  lemma ResetKeepsOrder(L: Ledger, m: MonitorId, mon: Monitor, reason: ClosureReason)
    requires Ordered(L) && ResetRow(L, m, mon)
    ensures Ordered(Reset(L, m, mon, reason))
  {
    var T := Reset(L, m, mon, reason);
    forall i | 0 <= i < |T.checks| && IsActive(T.checks[i]) && T.checks[i].monitor in T.monitors
      ensures BeforeCheck(T, T.checks[i])
    {
      assert BeforeCheck(L, L.checks[i]);
    }
  }

  lemma ResetKeepsSchedule(L: Ledger, m: MonitorId, mon: Monitor, reason: ClosureReason)
    requires RowsOk(L) && ScheduleOk(L) && ResetRow(L, m, mon)
    ensures ScheduleOk(Reset(L, m, mon, reason))
  {
    var T := Reset(L, m, mon, reason);
    assert SameRows(L.checks, T.checks);
    SlotsAreInThePast(L, T, m);
    forall n | n in T.monitors ensures GridOk(T, n) {
      if n == m && mon.anchorRow == |L.checks| && (mon.nextCheckAt.Some? ==> mon.nextCheckAt.value == mon.anchor > L.clock) {
        GridStarts(T, n);
      } else {
        GridTransfers(L, T, n);
      }
    }
  }

  lemma ResetKeeps(L: Ledger, m: MonitorId, mon: Monitor, reason: ClosureReason)
    requires Inv(L) && ResetRow(L, m, mon) && reason != Recovered
    ensures Inv(Reset(L, m, mon, reason))
  {
    ResetKeepsCore(L, m, mon, reason);
    ResetKeepsFold(L, m, mon, reason);
    ResetKeepsIncidents(L, m, mon, reason);
    ResetKeepsOrder(L, m, mon, reason);
    ResetKeepsSchedule(L, m, mon, reason);
  }

  /** A monitor that is not running has nothing to cancel. */
  lemma NothingToCancel(L: Ledger, m: MonitorId, reason: ClosureReason)
    requires Core(L) && Agreement(L) && m in L.monitors && !Live(L.monitors[m])
    ensures CancelRuntime(L, m, reason) == L
  {
    assert CancelChecks(L.checks, m) == L.checks by {
      forall i | 0 <= i < |L.checks| ensures CancelCheck(L.checks[i], m) == L.checks[i] {
        assert RowOk(L.checks[i], i, L.monitors, L.clock);
      }
    }
    assert CancelIncidents(L.incidents, m, L.clock, reason) == L.incidents by {
      assert MonitorOk(L.monitors[m], |L.checks|);
      assert !HasOpen(L.incidents, m);
    }
  }

  lemma PausedRow(L: Ledger, m: MonitorId)
    requires MonitorsOk(L) && Pause(L, m) != L
    ensures m in L.monitors && ResetRow(L, m, Pause(L, m).monitors[m])
    ensures Pause(L, m) == Reset(L, m, Pause(L, m).monitors[m], ByPause)
  {
    assert MonitorOk(L.monitors[m], |L.checks|);
  }

  lemma PauseKeeps(L: Ledger, m: MonitorId)
    requires Inv(L)
    ensures Inv(Pause(L, m))
  {
    if Pause(L, m) != L {
      PausedRow(L, m);
      ResetKeeps(L, m, Pause(L, m).monitors[m], ByPause);
    }
  }

  lemma RemovedRow(L: Ledger, m: MonitorId)
    requires MonitorsOk(L) && Found(L, m)
    ensures ResetRow(L, m, Remove(L, m).monitors[m])
    ensures Remove(L, m) == Reset(L, m, Remove(L, m).monitors[m], ByDelete)
  {
    assert MonitorOk(L.monitors[m], |L.checks|);
  }

  lemma RemoveKeeps(L: Ledger, m: MonitorId)
    requires Inv(L)
    ensures Inv(Remove(L, m))
  {
    if Found(L, m) {
      RemovedRow(L, m);
      ResetKeeps(L, m, Remove(L, m).monitors[m], ByDelete);
    }
  }

  lemma ResumedRow(L: Ledger, m: MonitorId, jitter: nat)
    requires Inv(L) && Resume(L, m, jitter) != L
    ensures m in L.monitors && ResetRow(L, m, Resume(L, m, jitter).monitors[m])
    ensures Resume(L, m, jitter) == Reset(L, m, Resume(L, m, jitter).monitors[m], ByPause)
  {
    NothingToCancel(L, m, ByPause);
    assert MonitorOk(L.monitors[m], |L.checks|);
  }

  lemma ResumeKeeps(L: Ledger, m: MonitorId, jitter: nat)
    requires Inv(L)
    ensures Inv(Resume(L, m, jitter))
  {
    if Resume(L, m, jitter) != L {
      ResumedRow(L, m, jitter);
      ResetKeeps(L, m, Resume(L, m, jitter).monitors[m], ByPause);
    }
  }

  lemma UpdatedRow(L: Ledger, m: MonitorId, c: Config, jitter: nat)
    requires MonitorsOk(L) && UpdateMonitor(L, m, c, jitter) != L
    ensures m in L.monitors && ResetRow(L, m, UpdateMonitor(L, m, c, jitter).monitors[m])
    ensures UpdateMonitor(L, m, c, jitter) == Reset(L, m, UpdateMonitor(L, m, c, jitter).monitors[m], ByConfigChange)
  {
    assert MonitorOk(L.monitors[m], |L.checks|);
  }

  lemma UpdateKeeps(L: Ledger, m: MonitorId, c: Config, jitter: nat)
    requires Inv(L)
    ensures Inv(UpdateMonitor(L, m, c, jitter))
  {
    if UpdateMonitor(L, m, c, jitter) != L {
      UpdatedRow(L, m, c, jitter);
      ResetKeeps(L, m, UpdateMonitor(L, m, c, jitter).monitors[m], ByConfigChange);
    }
  }

  // ---- steps that touch one monitor row ---------------------------------

  lemma CreateMonitorKeepsFold(L: Ledger, m: MonitorId, c: Config, jitter: nat)
    requires RowsOk(L) && FoldOk(L) && m !in L.monitors && ValidConfig(c)
    ensures FoldOk(CreateMonitor(L, m, c, jitter))
  {
    var T := CreateMonitor(L, m, c, jitter);
    forall n | n in T.monitors ensures Explained(T.monitors[n].state, HistoryOf(T, n)) {
      if n == m {
        EmptyHistory(T.checks, n, T.monitors[n].epoch, c);
      } else {
        assert HistoryOf(T, n) == HistoryOf(L, n);
      }
    }
  }

  lemma CreateMonitorKeepsIncidents(L: Ledger, m: MonitorId, c: Config, jitter: nat)
    requires RowsOk(L) && IncidentsOk(L) && Agreement(L) && Ordered(L) && m !in L.monitors && ValidConfig(c)
    ensures var T := CreateMonitor(L, m, c, jitter); IncidentsOk(T) && Agreement(T) && Ordered(T)
  {
    var T := CreateMonitor(L, m, c, jitter);
    forall i | 0 <= i < |T.checks| && IsActive(T.checks[i]) && T.checks[i].monitor in T.monitors
      ensures BeforeCheck(T, T.checks[i])
    {
      assert BeforeCheck(L, L.checks[i]);
    }
  }

  lemma CreateMonitorKeepsSchedule(L: Ledger, m: MonitorId, c: Config, jitter: nat)
    requires RowsOk(L) && ScheduleOk(L) && m !in L.monitors && ValidConfig(c)
    ensures ScheduleOk(CreateMonitor(L, m, c, jitter))
  {
    var T := CreateMonitor(L, m, c, jitter);
    NextBucketIsFuture(L.clock, Interval(c));
    SlotsAreInThePast(L, T, m);
    forall n | n in T.monitors ensures GridOk(T, n) { if n == m { GridStarts(T, n); } else { assert GridOk(L, n); } }
  }

  lemma CreateMonitorKeeps(L: Ledger, m: MonitorId, c: Config, jitter: nat)
    requires Inv(L)
    ensures Inv(CreateMonitor(L, m, c, jitter))
  {
    if m !in L.monitors && ValidConfig(c) {
      assert Core(CreateMonitor(L, m, c, jitter));
      CreateMonitorKeepsFold(L, m, c, jitter);
      CreateMonitorKeepsIncidents(L, m, c, jitter);
      CreateMonitorKeepsSchedule(L, m, c, jitter);
    }
  }

  // ---- pull-forwards ----------------------------------------------------

  /** A step of the network guard: some live monitors are pulled to one moment, the others stay as they are. */
  ghost predicate PullsSome(L: Ledger, T: Ledger, at: Time) {
    && T == L.(outages := T.outages, monitors := T.monitors) && T.monitors.Keys == L.monitors.Keys
    && forall m :: m in L.monitors ==>
         T.monitors[m] == L.monitors[m] || (Live(L.monitors[m]) && T.monitors[m] == Pulled(L, L.monitors[m], at))
  }

  lemma PullsKeepCore(L: Ledger, T: Ledger, at: Time)
    requires Core(L) && PullsSome(L, T, at)
    ensures Core(T)
  {
    forall i | 0 <= i < |T.checks| ensures RowOk(T.checks[i], i, T.monitors, T.clock) {
      assert RowOk(L.checks[i], i, L.monitors, L.clock);
    }
    forall m | m in T.monitors ensures MonitorOk(T.monitors[m], |T.checks|) { assert MonitorOk(L.monitors[m], |L.checks|); }
  }

  lemma PullsKeepFold(L: Ledger, T: Ledger, at: Time)
    requires FoldOk(L) && Ordered(L) && PullsSome(L, T, at)
    ensures FoldOk(T) && Ordered(T)
  {
    forall n | n in T.monitors ensures Explained(T.monitors[n].state, HistoryOf(T, n)) {
      assert HistoryOf(T, n) == HistoryOf(L, n);
    }
    forall i | 0 <= i < |T.checks| && IsActive(T.checks[i]) && T.checks[i].monitor in T.monitors
      ensures BeforeCheck(T, T.checks[i])
    {
      assert BeforeCheck(L, L.checks[i]);
    }
  }

  lemma PullsKeepSchedule(L: Ledger, T: Ledger, at: Time)
    requires ScheduleOk(L) && PullsSome(L, T, at)
    ensures ScheduleOk(T)
  {
    forall n | n in T.monitors ensures GridOk(T, n) {
      assert GridOk(L, n);
      if T.monitors[n] == L.monitors[n] { GridTransfers(L, T, n); } else { GridStarts(T, n); }
    }
  }

  lemma PullsKeep(L: Ledger, T: Ledger, at: Time)
    requires Inv(L) && PullsSome(L, T, at)
    ensures Inv(T)
  {
    PullsKeepCore(L, T, at);
    PullsKeepFold(L, T, at);
    PullsKeepSchedule(L, T, at);
    SameTablesKeepIncidents(L, T);
  }

  lemma OutageEndsPulls(L: Ledger, o: OutageId, at: Time, online: bool)
    requires CanEnd(L, o, at)
    ensures PullsSome(L, OutageEnds(L, o, at, online), at)
  {}

  lemma SummaryPullsSome(L: Ledger, o: OutageId, at: Time)
    requires CanSummarize(L, o, at)
    ensures PullsSome(L, Summarize(L, o, at), at)
  {}

  lemma OutageEndsKeeps(L: Ledger, o: OutageId, at: Time, online: bool)
    requires Inv(L)
    ensures Inv(OutageEnds(L, o, at, online))
  {
    if CanEnd(L, o, at) {
      OutageEndsPulls(L, o, at, online);
      PullsKeep(L, OutageEnds(L, o, at, online), at);
    }
  }

  lemma SummarizeKeeps(L: Ledger, o: OutageId, at: Time)
    requires Inv(L)
    ensures Inv(Summarize(L, o, at))
  {
    if CanSummarize(L, o, at) {
      SummaryPullsSome(L, o, at);
      PullsKeep(L, Summarize(L, o, at), at);
    }
  }

  // ---- every run --------------------------------------------------------

  lemma DispatchClaimKeeps(L: Ledger, id: CheckId, owner: Owner, asOf: Time, leaseUntil: Time)
    requires Inv(L)
    ensures Inv(DispatchClaim(L, id, owner, asOf, leaseUntil))
  {
    var T := DispatchClaim(L, id, owner, asOf, leaseUntil);
    if T != L { TouchKeeps(L, id, T.checks[id]); }
  }

  lemma MarkEnqueuedKeeps(L: Ledger, id: CheckId, owner: Owner, leaseUntil: Time)
    requires Inv(L)
    ensures Inv(MarkEnqueued(L, id, owner, leaseUntil))
  {
    var T := MarkEnqueued(L, id, owner, leaseUntil);
    if T != L { TouchKeeps(L, id, T.checks[id]); }
  }

  lemma ReleaseClaimKeeps(L: Ledger, id: CheckId, owner: Owner)
    requires Inv(L)
    ensures Inv(ReleaseClaim(L, id, owner))
  {
    var T := ReleaseClaim(L, id, owner);
    if T != L { TouchKeeps(L, id, T.checks[id]); }
  }

  lemma WorkerReadKeeps(L: Ledger, w: WorkerId, id: CheckId, jobVersion: int)
    requires Inv(L)
    ensures Inv(WorkerRead(L, w, id, jobVersion))
  {
    var T := WorkerRead(L, w, id, jobVersion);
    if T != L { WorkersOnlyKeeps(L, T.workers); }
  }

  /** Steps of administrators. */
  predicate Administers(s: Step) { s.DoCreateMonitor? || s.DoUpdateMonitor? || s.DoPause? || s.DoResume? || s.DoRemove? }

  /** Steps of the network guard. */
  predicate Guards(s: Step) { s.DoOutageStarts? || s.DoOutageEnds? || s.DoSummarize? }

  /** Steps of workers. */
  predicate Works(s: Step) { s.DoWorkerRead? || s.DoWorkerClaim? || s.DoWorkerFinish? || s.DoWorkerCrash? }

  lemma AdministrationKeeps(L: Ledger, s: Step)
    requires Inv(L) && Administers(s)
    ensures Inv(Perform(L, s))
  {
    match s
    case DoCreateMonitor(m, c, jitter) => CreateMonitorKeeps(L, m, c, jitter);
    case DoUpdateMonitor(m, c, jitter) => UpdateKeeps(L, m, c, jitter);
    case DoPause(m) => PauseKeeps(L, m);
    case DoResume(m, jitter) => ResumeKeeps(L, m, jitter);
    case DoRemove(m) => RemoveKeeps(L, m);
  }

  lemma GuardKeeps(L: Ledger, s: Step)
    requires Inv(L) && Guards(s)
    ensures Inv(Perform(L, s))
  {
    match s
    case DoOutageStarts(o, at) => SidesKeep(L, OutageStarts(L, o, at));
    case DoOutageEnds(o, at, online) => OutageEndsKeeps(L, o, at, online);
    case DoSummarize(o, at) => SummarizeKeeps(L, o, at);
  }

  lemma WorkKeeps(L: Ledger, s: Step)
    requires Inv(L) && Works(s)
    ensures Inv(Perform(L, s))
  {
    match s
    case DoWorkerRead(w, id, jobVersion) => WorkerReadKeeps(L, w, id, jobVersion);
    case DoWorkerClaim(w, leaseMs) => WorkerClaimKeeps(L, w, leaseMs);
    case DoWorkerFinish(w, r) => WorkerFinishKeeps(L, w, r);
    case DoWorkerCrash(w) => ForgetKeeps(L, w);
  }

  lemma PerformKeeps(L: Ledger, s: Step)
    requires Inv(L)
    ensures Inv(Perform(L, s))
  {
    if Administers(s) {
      AdministrationKeeps(L, s);
    } else if Guards(s) {
      GuardKeeps(L, s);
    } else if Works(s) {
      WorkKeeps(L, s);
    } else {
      match s
      case DoCreateDue(due, asOf) => CreateDueChecksKeeps(L, due, asOf);
      case DoDispatchClaim(id, owner, asOf, leaseUntil) => DispatchClaimKeeps(L, id, owner, asOf, leaseUntil);
      case DoMarkEnqueued(id, owner, leaseUntil) => MarkEnqueuedKeeps(L, id, owner, leaseUntil);
      case DoReleaseClaim(id, owner) => ReleaseClaimKeeps(L, id, owner);
    }
  }

  lemma ApplyKeeps(L: Ledger, e: Event)
    requires Inv(L)
    ensures Inv(Apply(L, e))
  {
    if e.now > L.clock {
      TickKeeps(L, e.now);
      PerformKeeps(L.(clock := e.now), e.step);
    }
  }

  lemma {:induction false} RunKeeps(L: Ledger, events: seq<Event>)
    requires Inv(L)
    ensures Inv(Run(L, events))
  {
    if events != [] {
      RunKeeps(L, events[..|events| - 1]);
      ApplyKeeps(Run(L, events[..|events| - 1]), events[|events| - 1]);
    }
  }

  lemma {:induction false} Reachable(clock: Time, events: seq<Event>)
    ensures Inv(Run(EmptyLedger(clock), events))
  {
    RunKeeps(EmptyLedger(clock), events);
  }
}
