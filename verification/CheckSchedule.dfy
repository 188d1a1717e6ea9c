/** What the schedule of checks promises, transaction by transaction and over every run. */
module CheckSchedule {
  import opened Domain
  import opened HealthState
  import opened Scheduling
  import opened CheckLedger
  import opened CheckInvariants
  import opened CheckPreservation

  // ---- one grid ---------------------------------------------------------

  /** Drift-free schedule of every run: slots since the last re-anchoring lie on one grid and increase. */
  lemma {:induction false} DriftFreeSchedule(clock: Time, events: seq<Event>, m: MonitorId, i: nat, j: nat)
    requires m in Run(EmptyLedger(clock), events).monitors
    requires var L := Run(EmptyLedger(clock), events);
             L.monitors[m].anchorRow <= i < j < |L.checks| && L.checks[i].monitor == L.checks[j].monitor == m
    ensures var L := Run(EmptyLedger(clock), events);
            var mon, I := L.monitors[m], Interval(L.monitors[m].config);
            && I > 0
            && OnGrid(mon.anchor, I, L.checks[i].scheduledAt) && OnGrid(mon.anchor, I, L.checks[j].scheduledAt)
            && L.checks[i].scheduledAt + I <= L.checks[j].scheduledAt
            && (mon.nextCheckAt.Some? ==> L.checks[j].scheduledAt + I <= mon.nextCheckAt.value)
  {
    Reachable(clock, events);
    var L := Run(EmptyLedger(clock), events);
    var mon, I := L.monitors[m], Interval(L.monitors[m].config);
    assert GridOk(L, m);
    GridTimesAreApart(mon.anchor, I, L.checks[i].scheduledAt, L.checks[j].scheduledAt);
    if mon.nextCheckAt.Some? { GridTimesAreApart(mon.anchor, I, L.checks[j].scheduledAt, mon.nextCheckAt.value); }
  }

  lemma ConfigIsValid(L: Ledger, m: MonitorId)
    requires Inv(L) && m in L.monitors
    ensures ValidConfig(L.monitors[m].config) && L.monitors[m].anchorRow <= |L.checks|
  {
    assert MonitorOk(L.monitors[m], |L.checks|);
  }

  // ---- the transaction that creates checks ------------------------------

  /** Whether a stored row of the current version already uses the grid time that asOf falls behind. */
  predicate Blocked(L: Ledger, m: MonitorId, from: Time, asOf: Time)
    requires m in L.monitors && ValidConfig(L.monitors[m].config)
  {
    var mon, I := L.monitors[m], Interval(L.monitors[m].config);
    exists i :: 0 <= i < |L.checks| && L.checks[i].monitor == m && L.checks[i].configVersion == mon.state.configVersion
                && OnGrid(from, I, L.checks[i].scheduledAt) && L.checks[i].scheduledAt <= asOf < L.checks[i].scheduledAt + I
  }

  /** The last time of the grid through `from` that is not after asOf. */
  function LastGridTime(from: Time, I: int, asOf: Time): Time
    requires I > 0
  {
    from + ((asOf - from) / I) * I
  }

  /** The slot that a due monitor is checked for next. */
  function NextSlot(L: Ledger, m: MonitorId, asOf: Time): (slot: Time)
    requires Due(L, m, asOf) && ValidConfig(L.monitors[m].config)
  {
    LastGridTime(L.monitors[m].nextCheckAt.value, Interval(L.monitors[m].config), asOf)
  }

  lemma NextSlotIsLatest(L: Ledger, m: MonitorId, asOf: Time)
    requires Due(L, m, asOf) && ValidConfig(L.monitors[m].config)
    ensures var from, I, slot := L.monitors[m].nextCheckAt.value, Interval(L.monitors[m].config), NextSlot(L, m, asOf);
            && CoalescedSlot(from, I, asOf) == Some(slot)
            && OnGrid(from, I, slot) && from <= slot <= asOf < slot + I
            && (forall u :: OnGrid(from, I, u) && u <= asOf < u + I ==> u == slot)
            && SlotAfter(slot, I, asOf) == slot + I
  {
    var from, I, slot := L.monitors[m].nextCheckAt.value, Interval(L.monitors[m].config), NextSlot(L, m, asOf);
    CoalescedSlotIsLatest(from, I, asOf);
    SlotAfterIsFirst(slot, I, asOf);
    forall u | OnGrid(from, I, u) && u <= asOf < u + I ensures u == slot {
      if u < slot { GridTimesAreApart(from, I, u, slot); }
    }
  }

  lemma TakenIffBlocked(L: Ledger, m: MonitorId, asOf: Time)
    requires Due(L, m, asOf) && ValidConfig(L.monitors[m].config)
    ensures SlotTaken(L.checks, m, NextSlot(L, m, asOf), L.monitors[m].state.configVersion)
            <==> Blocked(L, m, L.monitors[m].nextCheckAt.value, asOf)
  {
    NextSlotIsLatest(L, m, asOf);
    if SlotTaken(L.checks, m, NextSlot(L, m, asOf), L.monitors[m].state.configVersion) {
      var i :| 0 <= i < |L.checks| && L.checks[i].monitor == m && L.checks[i].scheduledAt == NextSlot(L, m, asOf)
               && L.checks[i].configVersion == L.monitors[m].state.configVersion;
      assert OnGrid(L.monitors[m].nextCheckAt.value, Interval(L.monitors[m].config), L.checks[i].scheduledAt);
    }
  }

  /** The slot a due monitor is due for is used already. */
  predicate Stuck(L: Ledger, m: MonitorId, asOf: Time)
    requires Due(L, m, asOf) && ValidConfig(L.monitors[m].config)
  {
    Blocked(L, m, L.monitors[m].nextCheckAt.value, asOf)
  }

  lemma CollidesIffStuck(L: Ledger, m: MonitorId, asOf: Time)
    requires Inv(L) && Due(L, m, asOf)
    ensures ValidConfig(L.monitors[m].config)
    ensures Collides(L, m, asOf) <==> Stuck(L, m, asOf)
    ensures Stuck(L, m, asOf) ==> L.monitors[m].pulled
  {
    ConfigIsValid(L, m);
    assert GridOk(L, m);
    NextSlotIsLatest(L, m, asOf);
    TakenIffBlocked(L, m, asOf);
  }

  /** From L to T the monitor m got row i, for the latest grid time that is due, and is next due one interval later. */
  ghost predicate GotCheck(L: Ledger, T: Ledger, m: MonitorId, asOf: Time, i: nat) {
    && m in L.monitors && L.monitors[m].nextCheckAt.Some? && ValidConfig(L.monitors[m].config)
    && i < |T.checks| && m in T.monitors
    && var mon, I, slot := L.monitors[m], Interval(L.monitors[m].config), T.checks[i].scheduledAt;
       && OnGrid(mon.nextCheckAt.value, I, slot) && mon.nextCheckAt.value <= slot <= asOf < slot + I
       && T.checks[i] == Check(m, slot, mon.state.configVersion, L.clock, CheckPending, None, 0, None, None)
       && T.monitors[m] == mon.(nextCheckAt := Some(slot + I))
  }

  lemma CreateDueGives(L: Ledger, m: MonitorId, asOf: Time)
    requires Due(L, m, asOf) && asOf <= L.clock && ValidConfig(L.monitors[m].config) && !Collides(L, m, asOf)
    ensures var T := CreateDue(L, m, asOf);
            && |T.checks| == |L.checks| + 1 && GotCheck(L, T, m, asOf, |L.checks|)
            && (forall n :: n in L.monitors && n != m ==> n in T.monitors && T.monitors[n] == L.monitors[n])
  {
    NextSlotIsLatest(L, m, asOf);
  }

  /** Creating checks for some monitors leaves the others due or not, and their slots taken or not, as they were. */
  lemma {:induction false} CreateAllLeavesOthers(L: Ledger, due: seq<MonitorId>, asOf: Time, n: MonitorId)
    requires n in L.monitors && n !in due
    ensures var T := CreateAll(L, due, asOf);
            && n in T.monitors && T.monitors[n] == L.monitors[n] && T.clock == L.clock
            && (Due(T, n, asOf) <==> Due(L, n, asOf)) && (Collides(T, n, asOf) <==> Collides(L, n, asOf))
  {
    if due != [] {
      CreateAllLeavesOthers(L, due[..|due| - 1], asOf, n);
      CreateDueLeavesOthers(CreateAll(L, due[..|due| - 1], asOf), due[|due| - 1], asOf, n);
    }
  }

  lemma CreateDueLeavesOthers(L: Ledger, m: MonitorId, asOf: Time, n: MonitorId)
    requires n != m && n in L.monitors
    ensures var T := CreateDue(L, m, asOf);
            && n in T.monitors && T.monitors[n] == L.monitors[n] && T.clock == L.clock
            && (Due(T, n, asOf) <==> Due(L, n, asOf)) && (Collides(T, n, asOf) <==> Collides(L, n, asOf))
  {
    CreateDueAppends(L, m, asOf);
    OnlyOthersAdded(L, CreateDue(L, m, asOf), n);
    SameRowsSameAnswers(L, CreateDue(L, m, asOf), n);
  }

  /** The rows of n are the same in both. */
  ghost predicate SameRowsOf(L: Ledger, T: Ledger, n: MonitorId) {
    && Appends(L, T)
    && forall i :: |L.checks| <= i < |T.checks| ==> T.checks[i].monitor != n
  }

  lemma OnlyOthersAdded(L: Ledger, T: Ledger, n: MonitorId)
    requires Appends(L, T) && |T.checks| <= |L.checks| + 1
    requires |T.checks| > |L.checks| ==> T.checks[|L.checks|].monitor != n
    ensures SameRowsOf(L, T, n)
  {}

  lemma SameRowsSameAnswers(L: Ledger, T: Ledger, n: MonitorId)
    requires SameRowsOf(L, T, n)
    ensures HasActive(T.checks, n) <==> HasActive(L.checks, n)
    ensures forall t, v :: SlotTaken(T.checks, n, t, v) <==> SlotTaken(L.checks, n, t, v)
  {
    if HasActive(L.checks, n) {
      var i :| 0 <= i < |L.checks| && L.checks[i].monitor == n && IsActive(L.checks[i]);
      assert T.checks[i] == L.checks[i];
    }
    forall t, v | SlotTaken(L.checks, n, t, v) ensures SlotTaken(T.checks, n, t, v) {
      var i :| 0 <= i < |L.checks| && L.checks[i].monitor == n && L.checks[i].scheduledAt == t && L.checks[i].configVersion == v;
      assert T.checks[i] == L.checks[i];
    }
  }

  /** No slot of the batch is taken. */
  predicate Clear(L: Ledger, due: seq<MonitorId>, asOf: Time) {
    && Selectable(L, due, asOf)
    && forall k :: 0 <= k < |due| ==> ValidConfig(L.monitors[due[k]].config) && !Collides(L, due[k], asOf)
  }

  /** From L to T every monitor of the batch got its check, in the order of the batch, and no other changed. */
  ghost predicate Gave(L: Ledger, T: Ledger, due: seq<MonitorId>, asOf: Time) {
    && |T.checks| == |L.checks| + |due| && Appends(L, T)
    && (forall k :: 0 <= k < |due| ==> GotCheck(L, T, due[k], asOf, |L.checks| + k))
    && (forall n :: n in L.monitors && n !in due ==> T.monitors[n] == L.monitors[n])
  }

  lemma ClearPrefix(L: Ledger, due: seq<MonitorId>, asOf: Time)
    requires Clear(L, due, asOf) && due != []
    ensures Clear(L, due[..|due| - 1], asOf) && due[|due| - 1] !in due[..|due| - 1]
  {}

  lemma {:induction false} CreateAllGives(L: Ledger, due: seq<MonitorId>, asOf: Time)
    requires Clear(L, due, asOf)
    ensures Gave(L, CreateAll(L, due, asOf), due, asOf)
  {
    if due != [] {
      ClearPrefix(L, due, asOf);
      CreateAllGives(L, due[..|due| - 1], asOf);
      CreateAllGivesLast(L, due, due[..|due| - 1], due[|due| - 1], asOf);
    }
  }

  lemma CreateAllGivesLast(L: Ledger, due: seq<MonitorId>, rest: seq<MonitorId>, m: MonitorId, asOf: Time)
    requires Clear(L, due, asOf) && due != [] && rest == due[..|due| - 1] && m == due[|due| - 1] && m !in rest
    requires Gave(L, CreateAll(L, rest, asOf), rest, asOf)
    ensures Gave(L, CreateAll(L, due, asOf), due, asOf)
  {
    assert due == rest + [m];
    CreateAllAppends(L, due, asOf);
    LastIsReady(L, due, asOf);
    CreateDueGivesLast(L, CreateAll(L, rest, asOf), rest, m, asOf);
  }

  lemma LastIsReady(L: Ledger, due: seq<MonitorId>, asOf: Time)
    requires Clear(L, due, asOf) && due != []
    ensures var S, m := CreateAll(L, due[..|due| - 1], asOf), due[|due| - 1];
            && m in L.monitors && m in S.monitors && S.monitors[m] == L.monitors[m] && S.clock == L.clock && asOf <= S.clock
            && Due(S, m, asOf) && ValidConfig(S.monitors[m].config) && !Collides(S, m, asOf)
  {
    CreateAllLeavesOthers(L, due[..|due| - 1], asOf, due[|due| - 1]);
  }

  lemma CreateDueGivesLast(L: Ledger, S: Ledger, rest: seq<MonitorId>, m: MonitorId, asOf: Time)
    requires Gave(L, S, rest, asOf) && m !in rest && S.clock == L.clock && Appends(L, CreateDue(S, m, asOf))
    requires m in L.monitors && m in S.monitors && S.monitors[m] == L.monitors[m] && asOf <= S.clock
    requires Due(S, m, asOf) && ValidConfig(S.monitors[m].config) && !Collides(S, m, asOf)
    ensures Gave(L, CreateDue(S, m, asOf), rest + [m], asOf)
  {
    CreateDueGives(S, m, asOf);
    CreateDueAppends(S, m, asOf);
    OneMoreGot(L, S, CreateDue(S, m, asOf), rest, m, asOf);
  }

  lemma OneMoreGot(L: Ledger, S: Ledger, T: Ledger, rest: seq<MonitorId>, m: MonitorId, asOf: Time)
    requires Gave(L, S, rest, asOf) && m !in rest && S.clock == L.clock
    requires Appends(L, T) && Appends(S, T) && |T.checks| == |S.checks| + 1
    requires m in L.monitors && S.monitors[m] == L.monitors[m] && GotCheck(S, T, m, asOf, |S.checks|)
    requires forall n :: n in S.monitors && n != m ==> n in T.monitors && T.monitors[n] == S.monitors[n]
    ensures Gave(L, T, rest + [m], asOf)
  {
    forall k | 0 <= k < |rest| + 1 ensures GotCheck(L, T, (rest + [m])[k], asOf, |L.checks| + k) {
      if k < |rest| { GotStays(L, S, T, rest[k], asOf, |L.checks| + k); } else { GotSince(L, S, T, m, asOf, |S.checks|); }
    }
  }

  lemma GotStays(L: Ledger, S: Ledger, T: Ledger, m: MonitorId, asOf: Time, i: nat)
    requires GotCheck(L, S, m, asOf, i) && Appends(S, T) && T.monitors[m] == S.monitors[m]
    ensures GotCheck(L, T, m, asOf, i)
  {}

  lemma GotSince(L: Ledger, S: Ledger, T: Ledger, m: MonitorId, asOf: Time, i: nat)
    requires m in L.monitors && m in S.monitors && S.monitors[m] == L.monitors[m] && S.clock == L.clock
    requires GotCheck(S, T, m, asOf, i)
    ensures GotCheck(L, T, m, asOf, i)
  {}

  /**
   * What one run of createDueChecks does in any reachable state, whatever monitors it locked. If the slot of any of them
   * is used already, none gets a check and nothing changes, also for those whose own slot is free. Otherwise each gets
   * exactly one, for the latest slot that is due, and is next due one interval later. A used slot takes a network
   * pull-forward: after a creation, a resumption or a configuration change it is always free.
   */
  lemma {:induction false} DowntimeIsCoalesced(L: Ledger, due: seq<MonitorId>, asOf: Time)
    requires Inv(L) && Selectable(L, due, asOf)
    ensures forall k :: 0 <= k < |due| ==> ValidConfig(L.monitors[due[k]].config)
    ensures forall k :: 0 <= k < |due| && Stuck(L, due[k], asOf) ==> L.monitors[due[k]].pulled
    ensures CreateDueChecks(L, due, asOf) == L <==> due == [] || exists k :: 0 <= k < |due| && Stuck(L, due[k], asOf)
    ensures (forall k :: 0 <= k < |due| ==> !Stuck(L, due[k], asOf)) ==>
              Gave(L, CreateDueChecks(L, due, asOf), due, asOf)
  {
    forall k | 0 <= k < |due|
      ensures ValidConfig(L.monitors[due[k]].config) && (Collides(L, due[k], asOf) <==> Stuck(L, due[k], asOf))
      ensures Stuck(L, due[k], asOf) ==> L.monitors[due[k]].pulled
    {
      CollidesIffStuck(L, due[k], asOf);
    }
    if forall k :: 0 <= k < |due| ==> !Stuck(L, due[k], asOf) { CreateAllGives(L, due, asOf); }
  }

  // ---- how long a used slot stops the scheduler ---------------------------

  /** A used slot stays in the way until the next grid time of its monitor, and no longer by itself. */
  lemma StuckUntilNextSlot(L: Ledger, m: MonitorId, asOf: Time, later: Time)
    requires Inv(L) && Due(L, m, asOf) && asOf <= later
    ensures ValidConfig(L.monitors[m].config) && Due(L, m, later)
    ensures Stuck(L, m, asOf) && later < NextSlot(L, m, asOf) + Interval(L.monitors[m].config) ==> Stuck(L, m, later)
    ensures Stuck(L, m, later) <==> SlotTaken(L.checks, m, NextSlot(L, m, later), L.monitors[m].state.configVersion)
    ensures NextSlot(L, m, later) == NextSlot(L, m, asOf) <==> later < NextSlot(L, m, asOf) + Interval(L.monitors[m].config)
  {
    ConfigIsValid(L, m);
    NextSlotIsLatest(L, m, asOf);
    NextSlotIsLatest(L, m, later);
    TakenIffBlocked(L, m, asOf);
    TakenIffBlocked(L, m, later);
  }

  /** The select in full: the first `limit` due monitors by nextCheckAt that no other transaction has locked. */
  ghost predicate Selected(L: Ledger, due: seq<MonitorId>, asOf: Time, limit: nat, locked: set<MonitorId>) {
    && Selectable(L, due, asOf) && |due| <= limit
    && (forall k :: 0 <= k < |due| ==> due[k] !in locked)
    && (forall j, k :: 0 <= j < k < |due| ==> L.monitors[due[j]].nextCheckAt.value <= L.monitors[due[k]].nextCheckAt.value)
    && (forall n :: Due(L, n, asOf) && n !in locked && n !in due ==>
          |due| == limit && forall k :: 0 <= k < |due| ==> L.monitors[due[k]].nextCheckAt.value <= L.monitors[n].nextCheckAt.value)
  }

  /** The due monitors that are not after m in the order of the select. */
  function InLine(L: Ledger, m: MonitorId, asOf: Time): set<MonitorId>
    requires Due(L, m, asOf)
  {
    set n | n in L.monitors && Due(L, n, asOf) && L.monitors[n].nextCheckAt.value <= L.monitors[m].nextCheckAt.value
  }

  lemma {:induction false} DistinctSize(ids: seq<MonitorId>, all: set<MonitorId>)
    requires Distinct(ids) && forall k :: 0 <= k < |ids| ==> ids[k] in all
    ensures |ids| <= |all|
  {
    if ids != [] {
      var last := ids[|ids| - 1];
      DistinctSize(ids[..|ids| - 1], all - {last});
    }
  }

  /** A monitor with at most `limit` due monitors in line up to itself is in every selection that can lock it. */
  lemma FirstInLineIsSelected(L: Ledger, m: MonitorId, due: seq<MonitorId>, asOf: Time, limit: nat, locked: set<MonitorId>)
    requires Due(L, m, asOf) && m !in locked && |InLine(L, m, asOf)| <= limit && Selected(L, due, asOf, limit, locked)
    ensures m in due
  {
    if m !in due {
      var line := InLine(L, m, asOf);
      assert m in line;
      forall k | 0 <= k < |due| ensures due[k] in line - {m} { assert due[k] != m; }
      DistinctSize(due, line - {m});
      assert false;
    }
  }

  /** A monitor without an active check that is due from `from`, and the slot of its version that is in its way. */
  ghost predicate Stalled(L: Ledger, m: MonitorId, mon: Monitor, slot: Time) {
    && m in L.monitors && L.monitors[m] == mon && Live(mon) && mon.nextCheckAt.Some? && ValidConfig(mon.config)
    && !HasActive(L.checks, m) && SlotTaken(L.checks, m, slot, mon.state.configVersion)
  }

  lemma StuckIsStalled(L: Ledger, m: MonitorId, asOf: Time)
    requires Inv(L) && Due(L, m, asOf) && ValidConfig(L.monitors[m].config) && Stuck(L, m, asOf)
    ensures Stalled(L, m, L.monitors[m], NextSlot(L, m, asOf))
  {
    TakenIffBlocked(L, m, asOf);
  }

  /** While its slot is the one that is due, a stalled monitor is due and stuck. */
  lemma StalledIsStuck(L: Ledger, m: MonitorId, mon: Monitor, slot: Time, asOf: Time)
    requires Stalled(L, m, mon, slot) && mon.nextCheckAt.value <= asOf
    requires slot == LastGridTime(mon.nextCheckAt.value, Interval(mon.config), asOf)
    ensures Due(L, m, asOf) && Stuck(L, m, asOf) && Collides(L, m, asOf)
  {
    NextSlotIsLatest(L, m, asOf);
    TakenIffBlocked(L, m, asOf);
  }

  /** Neither an administrator nor the network guard moves m, and checks are created for times at which `slot` is due. */
  predicate LeavesAlone(L: Ledger, s: Step, m: MonitorId, mon: Monitor, slot: Time)
    requires ValidConfig(mon.config) && mon.nextCheckAt.Some?
  {
    && !(Administers(s) && s.m == m) && !Pulls(L, s, m)
    && (s.DoCreateDue? ==>
          mon.nextCheckAt.value <= s.asOf && LastGridTime(mon.nextCheckAt.value, Interval(mon.config), s.asOf) == slot)
  }

  /** The rows of the same checks, none of which came back to life. */
  ghost predicate NothingRevives(a: seq<Check>, b: seq<Check>) {
    SameRows(a, b) && forall i :: 0 <= i < |a| ==> b[i].configVersion == a[i].configVersion && (IsActive(b[i]) ==> IsActive(a[i]))
  }

  lemma WorkRevivesNothing(L: Ledger, s: Step)
    requires Works(s)
    ensures NothingRevives(L.checks, Perform(L, s).checks)
  {
    match s
    case DoWorkerClaim(w, leaseMs) => ClaimRevivesNothing(L, w, leaseMs);
    case DoWorkerFinish(w, r) => FinishRevivesNothing(L, w, r);
    case _ =>
  }

  lemma ClaimRevivesNothing(L: Ledger, w: WorkerId, leaseMs: nat)
    ensures NothingRevives(L.checks, WorkerClaim(L, w, leaseMs).checks)
  {
    var _, _ := WorkerClaimCases(L, w, leaseMs);
  }

  lemma FinishRevivesNothing(L: Ledger, w: WorkerId, r: CheckResult)
    ensures NothingRevives(L.checks, WorkerFinish(L, w, r).checks)
  {}

  lemma OtherStepsReviveNothing(L: Ledger, s: Step)
    requires !Works(s) && !s.DoCreateDue?
    ensures NothingRevives(L.checks, Perform(L, s).checks)
  {}

  lemma WorkLeavesMonitor(L: Ledger, s: Step, m: MonitorId)
    requires Works(s) && m in L.monitors && !HasActive(L.checks, m)
    ensures m in Perform(L, s).monitors && Perform(L, s).monitors[m] == L.monitors[m]
  {
    if s.DoWorkerClaim? { var _, _ := WorkerClaimCases(L, s.w, s.leaseMs); }
  }

  lemma OtherStepsLeaveMonitor(L: Ledger, s: Step, m: MonitorId)
    requires !Works(s) && !s.DoCreateDue? && m in L.monitors && !(Administers(s) && s.m == m) && !Pulls(L, s, m)
    ensures m in Perform(L, s).monitors && Perform(L, s).monitors[m] == L.monitors[m]
  {
    if s.DoOutageEnds? || s.DoSummarize? { GuardPulls(L, s); }
  }

  lemma StillTaken(a: seq<Check>, b: seq<Check>, m: MonitorId, slot: Time, version: int)
    requires NothingRevives(a, b) && SlotTaken(a, m, slot, version) && !HasActive(a, m)
    ensures SlotTaken(b, m, slot, version) && !HasActive(b, m)
  {
    var i :| 0 <= i < |a| && a[i].monitor == m && a[i].scheduledAt == slot && a[i].configVersion == version;
    assert b[i].monitor == m;
    forall j | 0 <= j < |b| ensures !(b[j].monitor == m && IsActive(b[j])) { assert a[j].monitor == b[j].monitor; }
  }

  lemma CreationStaysStalled(L: Ledger, due: seq<MonitorId>, asOf: Time, m: MonitorId, mon: Monitor, slot: Time)
    requires Stalled(L, m, mon, slot) && mon.nextCheckAt.value <= asOf
    requires LastGridTime(mon.nextCheckAt.value, Interval(mon.config), asOf) == slot
    ensures Stalled(CreateDueChecks(L, due, asOf), m, mon, slot)
  {
    StalledIsStuck(L, m, mon, slot, asOf);
    if m in due {
      var k :| 0 <= k < |due| && due[k] == m;
      assert Collides(L, due[k], asOf);
    } else {
      CreateAllLeavesOthers(L, due, asOf, m);
      StalledStays(CreateAll(L, due, asOf), m, mon, slot, asOf);
    }
  }

  lemma StalledStays(T: Ledger, m: MonitorId, mon: Monitor, slot: Time, asOf: Time)
    requires m in T.monitors && T.monitors[m] == mon && Due(T, m, asOf) && Collides(T, m, asOf)
    requires mon.nextCheckAt.Some? && ValidConfig(mon.config) && LastGridTime(mon.nextCheckAt.value, Interval(mon.config), asOf) == slot
    ensures Stalled(T, m, mon, slot)
  {
    NextSlotIsLatest(T, m, asOf);
  }

  lemma StepStaysStalled(L: Ledger, s: Step, m: MonitorId, mon: Monitor, slot: Time)
    requires Stalled(L, m, mon, slot) && LeavesAlone(L, s, m, mon, slot)
    ensures Stalled(Perform(L, s), m, mon, slot)
  {
    if s.DoCreateDue? {
      CreationStaysStalled(L, s.due, s.asOf, m, mon, slot);
    } else {
      if Works(s) {
        WorkRevivesNothing(L, s);
        WorkLeavesMonitor(L, s, m);
      } else {
        OtherStepsReviveNothing(L, s);
        OtherStepsLeaveMonitor(L, s, m);
      }
      StillTaken(L.checks, Perform(L, s).checks, m, slot, mon.state.configVersion);
    }
  }

  /** No event of the run moves m. */
  ghost predicate LeftAlone(L: Ledger, events: seq<Event>, m: MonitorId, mon: Monitor, slot: Time)
    requires ValidConfig(mon.config) && mon.nextCheckAt.Some?
  {
    forall n :: 0 <= n < |events| ==>
      var S := Run(L, events[..n]);
      events[n].now > S.clock ==> LeavesAlone(S.(clock := events[n].now), events[n].step, m, mon, slot)
  }

  lemma {:induction false} RunStaysStalled(L: Ledger, events: seq<Event>, m: MonitorId, mon: Monitor, slot: Time)
    requires Stalled(L, m, mon, slot) && LeftAlone(L, events, m, mon, slot)
    ensures Stalled(Run(L, events), m, mon, slot)
  {
    if events != [] {
      var prefix, e := events[..|events| - 1], events[|events| - 1];
      assert LeftAlone(L, prefix, m, mon, slot) by {
        forall n | 0 <= n < |prefix|
          ensures var S := Run(L, prefix[..n]);
                  prefix[n].now > S.clock ==> LeavesAlone(S.(clock := prefix[n].now), prefix[n].step, m, mon, slot)
        {
          assert prefix[..n] == events[..n] && prefix[n] == events[n];
        }
      }
      RunStaysStalled(L, prefix, m, mon, slot);
      var S := Run(L, prefix);
      if e.now > S.clock {
        assert events[..|prefix|] == prefix;
        StepStaysStalled(S.(clock := e.now), e.step, m, mon, slot);
      }
    }
  }

  /**
   * One used slot stops the creation of checks for everybody. From the moment a monitor is stuck, over any run in which
   * neither an administrator nor the network guard moves that monitor, and until its next grid time: as long as it stands
   * near enough to the head of the line for the select to reach it, no run of createDueChecks creates anything.
   */
  lemma {:induction false} OneStuckStopsAll(L: Ledger, events: seq<Event>, m: MonitorId, asOf: Time, later: Time,
                                           due: seq<MonitorId>, limit: nat, locked: set<MonitorId>)
    requires Inv(L) && Due(L, m, asOf) && ValidConfig(L.monitors[m].config) && Stuck(L, m, asOf)
    requires LeftAlone(L, events, m, L.monitors[m], NextSlot(L, m, asOf))
    requires asOf <= later < NextSlot(L, m, asOf) + Interval(L.monitors[m].config)
    requires var T := Run(L, events);
             Due(T, m, later) ==> m !in locked && |InLine(T, m, later)| <= limit && Selected(T, due, later, limit, locked)
    ensures var T := Run(L, events);
            Due(T, m, later) && CreateDueChecks(T, due, later) == T
  {
    var mon, slot, T := L.monitors[m], NextSlot(L, m, asOf), Run(L, events);
    StuckIsStalled(L, m, asOf);
    RunStaysStalled(L, events, m, mon, slot);
    StuckUntilNextSlot(L, m, asOf, later);
    StalledIsStuck(T, m, mon, slot, later);
    FirstInLineIsSelected(T, m, due, later, limit, locked);
    var k :| 0 <= k < |due| && due[k] == m;
    assert Collides(T, due[k], later);
  }

  // ---- increasing slots ---------------------------------------------------

  /** The newest slot that a monitor used in the first n rows. */
  function NewestSlot(checks: seq<Check>, m: MonitorId, n: nat): (newest: Option<Time>)
    requires n <= |checks|
    ensures newest.None? <==> forall i :: 0 <= i < n ==> checks[i].monitor != m
    ensures newest.Some? ==> forall i :: 0 <= i < n && checks[i].monitor == m ==> checks[i].scheduledAt <= newest.value
    ensures newest.Some? ==> exists i :: 0 <= i < n && checks[i].monitor == m && checks[i].scheduledAt == newest.value
  {
    if n == 0 then None
    else
      var before := NewestSlot(checks, m, n - 1);
      if checks[n - 1].monitor == m && (before.None? || before.value < checks[n - 1].scheduledAt)
      then Some(checks[n - 1].scheduledAt) else before
  }

  /**
   * When slots increase: the next slot of a due monitor is later than every slot it ever used iff it is later than
   * the newest slot used before the last re-anchoring; after a creation, a resumption or a configuration change
   * it always is.
   */
  lemma NextSlotIncreasesIff(L: Ledger, m: MonitorId, asOf: Time)
    requires Inv(L) && Due(L, m, asOf)
    ensures ValidConfig(L.monitors[m].config) && L.monitors[m].anchorRow <= |L.checks|
    ensures var newest := NewestSlot(L.checks, m, L.monitors[m].anchorRow);
            SlotsBefore(L.checks, m, NextSlot(L, m, asOf)) <==> (newest.Some? ==> newest.value < NextSlot(L, m, asOf))
    ensures !L.monitors[m].pulled ==> SlotsBefore(L.checks, m, NextSlot(L, m, asOf))
  {
    ConfigIsValid(L, m);
    assert GridOk(L, m);
    NextSlotIsLatest(L, m, asOf);
  }

  /** Whether a step pulls a monitor forward. */
  predicate Pulls(L: Ledger, s: Step, m: MonitorId) {
    && m in L.monitors
    && match s
       case DoOutageEnds(o, at, _) => CanEnd(L, o, at) && EndPulls(L, o, m)
       case DoSummarize(o, at) => CanSummarize(L, o, at) && SummaryPulls(L, o, at, m)
       case _ => false
  }

  /** When a monitor will be due after a step of the network guard, told from the state before it. */
  function DueFrom(L: Ledger, s: Step, m: MonitorId): Option<Time>
    requires m in L.monitors && (s.DoOutageEnds? || s.DoSummarize?)
  {
    if Pulls(L, s, m) then Some(s.at) else L.monitors[m].nextCheckAt
  }

  /** The state after such a step. */
  function AfterPull(L: Ledger, s: Step): Ledger
    requires s.DoOutageEnds? || s.DoSummarize?
  {
    match s
    case DoOutageEnds(o, at, online) => OutageEnds(L, o, at, online)
    case DoSummarize(o, at) => Summarize(L, o, at)
  }

  lemma PullKeeps(L: Ledger, s: Step)
    requires Inv(L) && (s.DoOutageEnds? || s.DoSummarize?)
    ensures Inv(AfterPull(L, s)) && AfterPull(L, s) == Perform(L, s)
  {
    GuardKeeps(L, s);
  }

  lemma GuardPulls(L: Ledger, s: Step)
    requires s.DoOutageEnds? || s.DoSummarize?
    ensures var T := AfterPull(L, s);
            && T.checks == L.checks && T.clock == L.clock && T.monitors.Keys == L.monitors.Keys
            && forall m :: m in L.monitors ==>
                 T.monitors[m] == if Pulls(L, s, m) then Pulled(L, L.monitors[m], s.at) else L.monitors[m]
  {}

  /**
   * What a pull-forward of either kind, at the end of an outage or by its summary, does to the next checks, decided by
   * its moment, the intervals and the rows stored before it. A batch selected afterwards gets nothing iff for one of its
   * monitors the grid of the moment it is due from meets a used slot of its version less than an interval old.
   */
  lemma {:induction false} PullForwardDecides(L: Ledger, s: Step, due: seq<MonitorId>, asOf: Time)
    requires Inv(L) && (s.DoOutageEnds? || s.DoSummarize?) && Selectable(AfterPull(L, s), due, asOf)
    ensures forall k :: 0 <= k < |due| ==>
              due[k] in L.monitors && ValidConfig(L.monitors[due[k]].config) && DueFrom(L, s, due[k]).Some?
    ensures CreateDueChecks(AfterPull(L, s), due, asOf) == AfterPull(L, s)
            <==> due == [] || exists k :: 0 <= k < |due| && Blocked(L, due[k], DueFrom(L, s, due[k]).value, asOf)
  {
    var T := AfterPull(L, s);
    PullKeeps(L, s);
    GuardPulls(L, s);
    DowntimeIsCoalesced(T, due, asOf);
    forall k | 0 <= k < |due|
      ensures due[k] in L.monitors && ValidConfig(L.monitors[due[k]].config) && DueFrom(L, s, due[k]).Some?
      ensures Stuck(T, due[k], asOf) <==> Blocked(L, due[k], DueFrom(L, s, due[k]).value, asOf)
    {
      PulledIsDue(L, T, s, due[k], asOf);
    }
  }

  /** The slot of a pulled monitor goes forward iff the last grid time of the pull is later than the newest slot it used. */
  lemma {:induction false} PulledSlotGoesForwardIff(L: Ledger, s: Step, m: MonitorId, asOf: Time)
    requires Inv(L) && Pulls(L, s, m) && Due(AfterPull(L, s), m, asOf)
    ensures ValidConfig(L.monitors[m].config) && ValidConfig(AfterPull(L, s).monitors[m].config)
    ensures var newest, I := NewestSlot(L.checks, m, |L.checks|), Interval(L.monitors[m].config);
            SlotsBefore(L.checks, m, NextSlot(AfterPull(L, s), m, asOf)) <==> (newest.Some? ==> newest.value < LastGridTime(s.at, I, asOf))
  {
    ConfigIsValid(L, m);
    PulledRow(L, s, m);
    PulledSlot(L, AfterPull(L, s), m, s.at, asOf);
  }

  lemma PulledRow(L: Ledger, s: Step, m: MonitorId)
    requires Pulls(L, s, m)
    ensures m in AfterPull(L, s).monitors && AfterPull(L, s).monitors[m] == Pulled(L, L.monitors[m], s.at)
  {
    GuardPulls(L, s);
  }

  lemma PulledSlot(L: Ledger, T: Ledger, m: MonitorId, at: Time, asOf: Time)
    requires m in L.monitors && ValidConfig(L.monitors[m].config)
    requires Due(T, m, asOf) && T.monitors[m] == Pulled(L, L.monitors[m], at)
    ensures ValidConfig(T.monitors[m].config)
    ensures var newest, I := NewestSlot(L.checks, m, |L.checks|), Interval(L.monitors[m].config);
            SlotsBefore(L.checks, m, NextSlot(T, m, asOf)) <==> (newest.Some? ==> newest.value < LastGridTime(at, I, asOf))
  {
    EarlierThanNewest(L.checks, m, NextSlot(T, m, asOf));
  }

  lemma PulledIsDue(L: Ledger, T: Ledger, s: Step, m: MonitorId, asOf: Time)
    requires (s.DoOutageEnds? || s.DoSummarize?) && m in L.monitors && T.checks == L.checks
    requires Due(T, m, asOf) && ValidConfig(T.monitors[m].config)
    requires T.monitors[m] == if Pulls(L, s, m) then Pulled(L, L.monitors[m], s.at) else L.monitors[m]
    ensures ValidConfig(L.monitors[m].config) && DueFrom(L, s, m).Some?
    ensures Stuck(T, m, asOf) <==> Blocked(L, m, DueFrom(L, s, m).value, asOf)
  {}

  lemma EarlierThanNewest(checks: seq<Check>, m: MonitorId, t: Time)
    ensures var newest := NewestSlot(checks, m, |checks|);
            SlotsBefore(checks, m, t) <==> (newest.Some? ==> newest.value < t)
  {}

  /** Event n of the run pulls m forward. */
  predicate PullsAt(clock: Time, events: seq<Event>, n: nat, m: MonitorId)
    requires n < |events|
  {
    var L := Run(EmptyLedger(clock), events[..n]);
    events[n].now > L.clock && Pulls(L.(clock := events[n].now), events[n].step, m)
  }

  /** In a run that never pulls a monitor forward, its slots increase from its first check to its last. */
  lemma {:induction false} SlotsIncreaseWithoutPullForward(clock: Time, events: seq<Event>, m: MonitorId)
    requires forall n :: 0 <= n < |events| ==> !PullsAt(clock, events, n, m)
    ensures var L := Run(EmptyLedger(clock), events);
            && Rising(L.checks, m)
            && (m in L.monitors ==> !L.monitors[m].pulled)
  {
    if events != [] {
      var prefix, e := events[..|events| - 1], events[|events| - 1];
      var L := Run(EmptyLedger(clock), prefix);
      forall n | 0 <= n < |prefix| ensures !PullsAt(clock, prefix, n, m) {
        assert prefix[..n] == events[..n];
        assert !PullsAt(clock, events, n, m);
      }
      SlotsIncreaseWithoutPullForward(clock, prefix, m);
      Reachable(clock, prefix);
      if e.now > L.clock {
        assert !PullsAt(clock, events, |prefix|, m);
        TickKeeps(L, e.now);
        StepKeepsRising(L.(clock := e.now), e.step, m);
      }
    }
  }

  ghost predicate Rising(checks: seq<Check>, m: MonitorId) {
    forall i, j :: 0 <= i < j < |checks| && checks[i].monitor == m && checks[j].monitor == m ==>
      checks[i].scheduledAt < checks[j].scheduledAt
  }

  lemma StepKeepsRising(L: Ledger, s: Step, m: MonitorId)
    requires Inv(L) && Rising(L.checks, m) && (m in L.monitors ==> !L.monitors[m].pulled) && !Pulls(L, s, m)
    ensures Rising(Perform(L, s).checks, m)
    ensures m in Perform(L, s).monitors ==> !Perform(L, s).monitors[m].pulled
  {
    if s.DoCreateDue? {
      CreateAllKeepsRising(L, s.due, s.asOf, m);
    } else {
      OtherStepsKeepSlots(L, s);
      OnlyPullsPull(L, s, m);
    }
  }

  lemma {:induction false} CreateAllKeepsRising(L: Ledger, due: seq<MonitorId>, asOf: Time, m: MonitorId)
    requires Inv(L) && Rising(L.checks, m) && (m in L.monitors ==> !L.monitors[m].pulled)
    ensures var T := CreateAll(L, due, asOf);
            Rising(T.checks, m) && (m in T.monitors ==> !T.monitors[m].pulled)
  {
    CreateAllAppends(L, due, asOf);
    if due != [] {
      CreateAllKeeps(L, due[..|due| - 1], asOf);
      CreateAllKeepsRising(L, due[..|due| - 1], asOf, m);
      CreateDueKeepsRising(CreateAll(L, due[..|due| - 1], asOf), due[|due| - 1], asOf, m);
    }
  }

  lemma CreateDueKeepsRising(L: Ledger, n: MonitorId, asOf: Time, m: MonitorId)
    requires Inv(L) && Rising(L.checks, m) && (m in L.monitors ==> !L.monitors[m].pulled)
    ensures Rising(CreateDue(L, n, asOf).checks, m)
  {
    if n == m && CreateDue(L, m, asOf) != L {
      NextSlotIncreasesIff(L, m, asOf);
      NextSlotIsLatest(L, m, asOf);
    }
  }

  lemma OtherStepsKeepSlots(L: Ledger, s: Step)
    requires !s.DoCreateDue?
    ensures SameRows(L.checks, Perform(L, s).checks)
  {
    if Works(s) { WorkRevivesNothing(L, s); } else { OtherStepsReviveNothing(L, s); }
  }

  lemma OnlyPullsPull(L: Ledger, s: Step, m: MonitorId)
    requires (m in L.monitors ==> !L.monitors[m].pulled) && !s.DoCreateDue? && !Pulls(L, s, m)
    ensures m in Perform(L, s).monitors ==> !Perform(L, s).monitors[m].pulled
  {
    if s.DoWorkerClaim? { var _, _ := WorkerClaimCases(L, s.w, s.leaseMs); }
    if s.DoOutageEnds? || s.DoSummarize? { GuardPulls(L, s); }
  }
}
