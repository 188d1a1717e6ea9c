/** What every reachable state of the check pipeline satisfies, and the sequential meaning of a run. */
module CheckInvariants {
  import opened Domain
  import opened HealthState
  import opened Scheduling
  import opened CheckLedger

  // ---- the sequential meaning -------------------------------------------

  /** Folds applyCheckResult over inputs, oldest first. */
  function Sequential(s: MonitorState, h: seq<CheckInput>): MonitorState {
    if h == [] then s
    else
      var before := Sequential(s, h[..|h| - 1]);
      var t := ApplyCheckResult(before, h[|h| - 1]);
      if t.Ok? then t.value.state else before
  }

  predicate Counts(c: Check, i: nat, m: MonitorId, epoch: nat) {
    c.monitor == m && i >= epoch && c.status.CheckCompleted? && c.result.Some?
  }

  /** The completed checks of a monitor created since its last reset, in creation order, as inputs. */
  function History(checks: seq<Check>, m: MonitorId, epoch: nat, config: Config): seq<CheckInput> {
    if checks == [] then []
    else
      var last := |checks| - 1;
      var rest := History(checks[..last], m, epoch, config);
      if Counts(checks[last], last, m, epoch)
      then rest + [InputOf(checks[last].result.value, checks[last].configVersion, config)]
      else rest
  }

  function HistoryOf(L: Ledger, m: MonitorId): seq<CheckInput>
    requires m in L.monitors
  {
    History(L.checks, m, L.monitors[m].epoch, L.monitors[m].config)
  }

  // ---- invariants -------------------------------------------------------

  ghost predicate MonitorOk(mon: Monitor, rows: nat) {
    && ValidConfig(mon.config)
    && ValidState(mon.state)
    && FitsColumns(mon.state)
    && mon.epoch <= rows
    && mon.anchorRow <= rows
    && (mon.deletedAt.Some? <==> mon.state.lifecycle.Deleted?)
    && (!Live(mon) ==> Fresh(mon.state) && mon.nextCheckAt.None?)
    && (mon.state.failures > 0 <==> mon.state.streakStartedAt.Some?)
    && (HasIncident(mon.state.health) || mon.state.failures < mon.config.failureThreshold)
  }

  ghost predicate MonitorsOk(L: Ledger) {
    forall m :: m in L.monitors ==> MonitorOk(L.monitors[m], |L.checks|)
  }

  ghost predicate RowOk(c: Check, i: nat, monitors: map<MonitorId, Monitor>, clock: Time) {
    && c.monitor in monitors
    && c.createdAt <= clock
    && c.scheduledAt <= c.createdAt
    && !c.status.CheckFailed?
    && (c.status.CheckCompleted? <==> c.completedAt.Some?)
    && (c.status.CheckCompleted? ==> c.result.Some? && c.lease.None?)
    && (IsActive(c) ==>
          && c.result.None?
          && c.configVersion == monitors[c.monitor].state.configVersion
          && Live(monitors[c.monitor])
          && i >= monitors[c.monitor].epoch)
    && (c.status.CheckEnqueued? || c.status.CheckRunning? ==> c.lease.Some?)
    && (c.status.CheckCompleted? && i >= monitors[c.monitor].epoch ==>
          c.configVersion == monitors[c.monitor].state.configVersion && Live(monitors[c.monitor]))
  }

  ghost predicate RowsOk(L: Ledger) {
    forall i :: 0 <= i < |L.checks| ==> RowOk(L.checks[i], i, L.monitors, L.clock)
  }

  /** Only the newest row of a monitor can be active. */
  ghost predicate Serial(checks: seq<Check>) {
    forall i, j :: 0 <= i < j < |checks| && checks[i].monitor == checks[j].monitor ==> !IsActive(checks[i])
  }

  ghost predicate WorkersOk(L: Ledger) {
    forall w :: w in L.workers ==>
      && L.workers[w].check < |L.checks|
      && (L.workers[w].Holding? ==> L.checks[L.workers[w].check].createdAt <= L.workers[w].claimedAt <= L.clock)
  }

  /** No call of the fold was refused. */
  predicate Clean(s: MonitorState, h: seq<CheckInput>) {
    h == [] || (Clean(s, h[..|h| - 1]) && ApplyCheckResult(Sequential(s, h[..|h| - 1]), h[|h| - 1]).Ok?)
  }

  /** The stored health is the sequential fold over a history, from a cleared state. */
  predicate Explained(s: MonitorState, h: seq<CheckInput>) {
    s == Sequential(Cleared(s), h) && Clean(Cleared(s), h)
  }

  ghost predicate FoldOk(L: Ledger) {
    forall m :: m in L.monitors ==> Explained(L.monitors[m].state, HistoryOf(L, m))
  }

  ghost predicate IncidentOk(i: Incident, monitors: map<MonitorId, Monitor>, clock: Time) {
    && i.monitor in monitors
    && i.firstFailureAt <= i.detectedAt <= clock
    && (i.status.IncidentOpen? ==> i.resolvedAt.None? && i.canceledAt.None? && i.closure.None?)
    && (i.status.IncidentResolved? ==> i.resolvedAt.Some? && i.detectedAt <= i.resolvedAt.value
                                       && i.canceledAt.None? && i.closure == Some(Recovered))
    && (i.status.IncidentCanceled? ==> i.canceledAt.Some? && i.detectedAt <= i.canceledAt.value
                                       && i.resolvedAt.None? && i.closure.Some? && i.closure.value != Recovered)
  }

  ghost predicate IncidentsOk(L: Ledger) {
    forall i :: 0 <= i < |L.incidents| ==> IncidentOk(L.incidents[i], L.monitors, L.clock)
  }

  ghost predicate OneOpen(incidents: seq<Incident>) {
    forall i, j :: 0 <= i < j < |incidents| && incidents[i].status.IncidentOpen? && incidents[j].status.IncidentOpen?
      ==> incidents[i].monitor != incidents[j].monitor
  }

  ghost predicate HasOpen(incidents: seq<Incident>, m: MonitorId) {
    exists i :: 0 <= i < |incidents| && incidents[i].monitor == m && incidents[i].status.IncidentOpen?
  }

  ghost predicate Agreement(L: Ledger) {
    && OneOpen(L.incidents)
    && forall m :: m in L.monitors ==> (HasOpen(L.incidents, m) <==> HasIncident(L.monitors[m].state.health))
  }

  /** Everything a monitor has seen happened before its active check was created. */
  ghost predicate Ordered(L: Ledger) {
    && (forall m :: m in L.monitors && L.monitors[m].state.streakStartedAt.Some? ==>
          L.monitors[m].state.streakStartedAt.value <= L.clock)
    && (forall i :: 0 <= i < |L.checks| && IsActive(L.checks[i]) && L.checks[i].monitor in L.monitors ==>
          BeforeCheck(L, L.checks[i]))
  }

  ghost predicate BeforeCheck(L: Ledger, c: Check)
    requires c.monitor in L.monitors
  {
    var s := L.monitors[c.monitor].state;
    && (s.streakStartedAt.Some? ==> s.streakStartedAt.value <= c.createdAt)
    && forall k :: 0 <= k < |L.incidents| && L.incidents[k].monitor == c.monitor ==> L.incidents[k].detectedAt <= c.createdAt
  }

  /**
   * Slots created since the last re-anchoring lie on its grid, increase, and precede the next one; unless the
   * re-anchoring was a network pull-forward, so do all earlier slots.
   */
  ghost predicate GridOk(L: Ledger, m: MonitorId)
    requires m in L.monitors
  {
    var mon := L.monitors[m];
    && ValidConfig(mon.config)
    && (mon.nextCheckAt.Some? ==> OnGrid(mon.anchor, Interval(mon.config), mon.nextCheckAt.value))
    && (forall i :: mon.anchorRow <= i < |L.checks| && L.checks[i].monitor == m ==>
          && (mon.nextCheckAt.Some? ==> L.checks[i].scheduledAt < mon.nextCheckAt.value)
          && OnGrid(mon.anchor, Interval(mon.config), L.checks[i].scheduledAt))
    && (forall i, j :: mon.anchorRow <= i < j < |L.checks| && L.checks[i].monitor == m && L.checks[j].monitor == m ==>
          L.checks[i].scheduledAt < L.checks[j].scheduledAt)
    && (mon.nextCheckAt.Some? && !mon.pulled ==> SlotsBefore(L.checks, m, mon.nextCheckAt.value))
  }

  /** Every slot the monitor ever used is earlier than t. */
  ghost predicate SlotsBefore(checks: seq<Check>, m: MonitorId, t: Time) {
    forall i :: 0 <= i < |checks| && checks[i].monitor == m ==> checks[i].scheduledAt < t
  }

  ghost predicate ScheduleOk(L: Ledger) {
    forall m :: m in L.monitors ==> GridOk(L, m)
  }

  ghost predicate Core(L: Ledger) {
    MonitorsOk(L) && RowsOk(L) && Serial(L.checks) && WorkersOk(L)
  }

  ghost predicate Inv(L: Ledger) {
    Core(L) && FoldOk(L) && IncidentsOk(L) && Agreement(L) && Ordered(L) && ScheduleOk(L)
  }

  // ---- histories under row changes --------------------------------------

  /** The history depends only on which rows count and on their results. */
  lemma {:induction false} HistoryDependsOnCounted(a: seq<Check>, b: seq<Check>, m: MonitorId, epoch: nat, config: Config)
    requires |a| == |b|
    requires forall i :: 0 <= i < |a| ==> (Counts(a[i], i, m, epoch) <==> Counts(b[i], i, m, epoch))
    requires forall i :: 0 <= i < |a| && Counts(a[i], i, m, epoch) ==>
               a[i].result == b[i].result && a[i].configVersion == b[i].configVersion
    ensures History(a, m, epoch, config) == History(b, m, epoch, config)
  {
    if a != [] {
      HistoryDependsOnCounted(a[..|a| - 1], b[..|b| - 1], m, epoch, config);
    }
  }

  lemma {:induction false} EmptyHistory(checks: seq<Check>, m: MonitorId, epoch: nat, config: Config)
    requires forall i :: 0 <= i < |checks| ==> !Counts(checks[i], i, m, epoch)
    ensures History(checks, m, epoch, config) == []
  {
    if checks != [] { EmptyHistory(checks[..|checks| - 1], m, epoch, config); }
  }

  /** Completing the newest row of a monitor appends its result to the history. */
  lemma {:induction false} HistoryGrows(a: seq<Check>, b: seq<Check>, id: nat, m: MonitorId, epoch: nat, config: Config)
    requires id < |a| == |b|
    requires forall i :: 0 <= i < |a| && i != id ==> a[i] == b[i]
    requires forall i :: id < i < |a| ==> a[i].monitor != m
    requires !Counts(a[id], id, m, epoch) && Counts(b[id], id, m, epoch)
    ensures History(b, m, epoch, config)
            == History(a, m, epoch, config) + [InputOf(b[id].result.value, b[id].configVersion, config)]
  {
    var last := |a| - 1;
    if id == last {
      HistoryDependsOnCounted(a[..last], b[..last], m, epoch, config);
    } else {
      HistoryGrows(a[..last], b[..last], id, m, epoch, config);
    }
  }

  lemma HistoryIgnoresAppend(checks: seq<Check>, c: Check, m: MonitorId, epoch: nat, config: Config)
    requires !Counts(c, |checks|, m, epoch)
    ensures History(checks + [c], m, epoch, config) == History(checks, m, epoch, config)
  {
    assert (checks + [c])[..|checks|] == checks;
  }

  lemma SequentialSnoc(s: MonitorState, h: seq<CheckInput>, i: CheckInput)
    ensures Sequential(s, h + [i]) ==
            (var before := Sequential(s, h);
             var t := ApplyCheckResult(before, i);
             if t.Ok? then t.value.state else before)
    ensures Clean(s, h + [i]) <==> Clean(s, h) && ApplyCheckResult(Sequential(s, h), i).Ok?
  {
    assert (h + [i])[..|h|] == h;
  }

  lemma {:induction false} SequentialKeepsIdentity(s: MonitorState, h: seq<CheckInput>)
    ensures Sequential(s, h).lifecycle == s.lifecycle && Sequential(s, h).configVersion == s.configVersion
  {
    if h != [] { SequentialKeepsIdentity(s, h[..|h| - 1]); }
  }
}
