/**
 * The check pipeline as a state machine. Each database transaction, and each standalone conditional
 * update, is one atomic step; workers and dispatchers keep stale snapshots between their steps and may stop.
 */
module CheckLedger {
  import opened Domain
  import opened HealthState
  import opened Scheduling

  type MonitorId = nat
  type CheckId = nat
  type WorkerId = nat
  type Owner = nat
  type OutageId = nat

  // ---- rows -------------------------------------------------------------

  datatype HttpMethod = Get | Head

  /** The fields whose change resets the meaning of a monitor's health. */
  datatype Config = Config(
    url: string,
    httpMethod: HttpMethod,
    intervalSec: int,
    timeoutMs: int,
    expectedStatusMin: int,
    expectedStatusMax: int,
    expectedKeyword: string,
    followRedirects: bool,
    maxRedirects: int,
    failureThreshold: int,
    recoveryThreshold: int)

  datatype Monitor = Monitor(
    state: MonitorState,
    config: Config,
    nextCheckAt: Option<Time>,
    deletedAt: Option<Time>,
    // History variables. No step reads them.
    epoch: nat,     // number of ledger rows when health was last reset
    anchor: Time,   // the last nextCheckAt that was not computed from the grid
    anchorRow: nat, // number of ledger rows at that moment
    pulled: bool)   // whether that moment was a network pull-forward

  datatype CheckStatus =
    CheckPending | CheckEnqueued | CheckRunning | CheckCompleted | CheckFailed | CheckCanceled

  datatype Lease = Lease(owner: Owner, until: Time)

  /** `outage` is the outage of the observer for which the network guard withheld the verdict. */
  datatype CheckResult = CheckResult(
    outcome: CheckOutcome,
    startedAt: Time,
    finishedAt: Time,
    error: Option<CheckErrorType>,
    outage: Option<OutageId>)

  datatype Check = Check(
    monitor: MonitorId,
    scheduledAt: Time,
    configVersion: int,
    createdAt: Time,
    status: CheckStatus,
    lease: Option<Lease>,
    attempts: nat,
    completedAt: Option<Time>,
    result: Option<CheckResult>)

  datatype IncidentStatus = IncidentOpen | IncidentResolved | IncidentCanceled

  datatype Incident = Incident(
    monitor: MonitorId,
    configVersion: int,
    status: IncidentStatus,
    firstFailureAt: Time,
    detectedAt: Time,
    resolvedAt: Option<Time>,
    canceledAt: Option<Time>,
    firstError: Option<CheckErrorType>,
    lastError: Option<CheckErrorType>,
    closure: Option<ClosureReason>)

  /** What one run of a worker's job remembers between its database steps. */
  datatype Phase =
    | HasRead(check: CheckId, jobVersion: int, row: Check, monitor: Monitor)
    | Holding(check: CheckId, claimedAt: Time)

  /** An outage of the observer's own network; closed when it was canceled or summarised. */
  datatype Outage = Outage(startedAt: Time, recoveredAt: Option<Time>, closed: bool)

  datatype Withheld = Withheld(outage: OutageId, monitor: MonitorId)

  /** A monitor whose result was withheld, until a later check says something about the target again. */
  datatype Observation = Observation(configVersion: int, recheckedAt: Option<Time>)

  /** checks and incidents are tables in creation order: the index of a row is its id. */
  datatype Ledger = Ledger(
    clock: Time,
    monitors: map<MonitorId, Monitor>,
    checks: seq<Check>,
    incidents: seq<Incident>,
    workers: map<WorkerId, Phase>,
    outages: map<OutageId, Outage>,
    observations: map<Withheld, Observation>)

  const MAX_DB_INTEGER: int := 2_147_483_647

  predicate ValidConfig(c: Config) {
    5 <= c.intervalSec <= 86_400 && 1 <= c.failureThreshold <= 10 && 1 <= c.recoveryThreshold <= 10
  }

  predicate FitsColumns(s: MonitorState) {
    s.failures <= MAX_DB_INTEGER && s.successes <= MAX_DB_INTEGER && s.configVersion <= MAX_DB_INTEGER
  }

  function Interval(c: Config): (ms: int)
    ensures ValidConfig(c) ==> ms > 0
  {
    c.intervalSec * 1_000
  }

  predicate ActiveStatus(s: CheckStatus) {
    s.CheckPending? || s.CheckEnqueued? || s.CheckRunning?
  }

  predicate IsActive(c: Check) { ActiveStatus(c.status) }

  predicate Expired(lease: Option<Lease>, now: Time) {
    lease.Some? && lease.value.until < now
  }

  predicate Live(m: Monitor) { m.state.lifecycle.Active? && m.deletedAt.None? }

  // ---- scheduler --------------------------------------------------------

  predicate HasActive(checks: seq<Check>, m: MonitorId) {
    exists i :: 0 <= i < |checks| && checks[i].monitor == m && IsActive(checks[i])
  }

  predicate Due(L: Ledger, m: MonitorId, asOf: Time) {
    && m in L.monitors && Live(L.monitors[m])
    && L.monitors[m].nextCheckAt.Some? && L.monitors[m].nextCheckAt.value <= asOf
    && !HasActive(L.checks, m)
  }

  predicate SlotTaken(checks: seq<Check>, m: MonitorId, scheduledAt: Time, version: int) {
    exists i :: 0 <= i < |checks| && checks[i].monitor == m
                && checks[i].scheduledAt == scheduledAt && checks[i].configVersion == version
  }

  /** The slot that a monitor is due for is already used under its version. */
  predicate Collides(L: Ledger, m: MonitorId, asOf: Time) {
    && m in L.monitors && L.monitors[m].nextCheckAt.Some? && ValidConfig(L.monitors[m].config)
    && var slot := CoalescedSlot(L.monitors[m].nextCheckAt.value, Interval(L.monitors[m].config), asOf);
       slot.Some? && SlotTaken(L.checks, m, slot.value, L.monitors[m].state.configVersion)
  }

  /** Creates the one coalesced check of a due monitor; a taken slot violates the unique key. */
  function CreateDue(L: Ledger, m: MonitorId, asOf: Time): Ledger {
    if !Due(L, m, asOf) || asOf > L.clock || !ValidConfig(L.monitors[m].config) then L
    else
      var mon := L.monitors[m];
      var I := Interval(mon.config);
      var slot := CoalescedSlot(mon.nextCheckAt.value, I, asOf);
      if slot.None? || SlotTaken(L.checks, m, slot.value, mon.state.configVersion) then L
      else
        var row := Check(m, slot.value, mon.state.configVersion, L.clock, CheckPending, None, 0, None, None);
        L.(checks := L.checks + [row],
           monitors := L.monitors[m := mon.(nextCheckAt := Some(SlotAfter(slot.value, I, asOf)))])
  }

  predicate Distinct(ids: seq<nat>) {
    forall i, j :: 0 <= i < j < |ids| ==> ids[i] != ids[j]
  }

  /** What the locking select may return: distinct due monitors, in any number and order. */
  predicate Selectable(L: Ledger, due: seq<MonitorId>, asOf: Time) {
    asOf <= L.clock && Distinct(due) && forall k :: 0 <= k < |due| ==> Due(L, due[k], asOf)
  }

  function CreateAll(L: Ledger, due: seq<MonitorId>, asOf: Time): Ledger {
    if due == [] then L else CreateDue(CreateAll(L, due[..|due| - 1], asOf), due[|due| - 1], asOf)
  }

  /** createDueChecks: one transaction over the selected monitors, which a single taken slot aborts for all of them. */
  function CreateDueChecks(L: Ledger, due: seq<MonitorId>, asOf: Time): Ledger {
    if !Selectable(L, due, asOf) || exists k :: 0 <= k < |due| && Collides(L, due[k], asOf) then L
    else CreateAll(L, due, asOf)
  }

  predicate Dispatchable(c: Check, asOf: Time) {
    && c.completedAt.None?
    && ( || (c.status.CheckPending? && (c.lease.None? || Expired(c.lease, asOf)))
         || ((c.status.CheckEnqueued? || c.status.CheckRunning?) && Expired(c.lease, asOf)))
  }

  function DispatchClaim(L: Ledger, id: CheckId, owner: Owner, asOf: Time, leaseUntil: Time): Ledger {
    if id >= |L.checks| || asOf > L.clock || !Dispatchable(L.checks[id], asOf) then L
    else
      var c := L.checks[id];
      L.(checks := L.checks[id := c.(status := CheckPending, lease := Some(Lease(owner, leaseUntil)),
                                     attempts := c.attempts + 1)])
  }

  predicate HeldForDispatch(c: Check, owner: Owner) {
    c.lease.Some? && c.lease.value.owner == owner && c.status.CheckPending? && c.completedAt.None?
  }

  function MarkEnqueued(L: Ledger, id: CheckId, owner: Owner, leaseUntil: Time): Ledger {
    if id >= |L.checks| || !HeldForDispatch(L.checks[id], owner) then L
    else L.(checks := L.checks[id := L.checks[id].(status := CheckEnqueued, lease := Some(Lease(owner, leaseUntil)))])
  }

  function ReleaseClaim(L: Ledger, id: CheckId, owner: Owner): Ledger {
    if id >= |L.checks| || !HeldForDispatch(L.checks[id], owner) then L
    else L.(checks := L.checks[id := L.checks[id].(lease := None)])
  }

  // ---- worker -----------------------------------------------------------

  function Forget(L: Ledger, w: WorkerId): Ledger {
    L.(workers := L.workers - {w})
  }

  /** Reads the ledger row and its monitor for a queue job; the job payload may be stale or corrupt. */
  function WorkerRead(L: Ledger, w: WorkerId, id: CheckId, jobVersion: int): Ledger {
    if w in L.workers || id >= |L.checks| || L.checks[id].monitor !in L.monitors then L
    else
      L.(workers := L.workers[w := HasRead(id, jobVersion, L.checks[id], L.monitors[L.checks[id].monitor])])
  }

  predicate Claimable(c: Check, now: Time) {
    && c.completedAt.None?
    && (c.status.CheckPending? || c.status.CheckEnqueued? || (c.status.CheckRunning? && Expired(c.lease, now)))
  }

  datatype Decision = DropDuplicate | DropStale | TryClaim

  function Decide(p: Phase): Decision
    requires p.HasRead?
  {
    if p.row.result.Some? || p.row.status.CheckCompleted? then DropDuplicate
    else if p.row.configVersion != p.jobVersion then DropDuplicate
    else if p.monitor.state.configVersion != p.jobVersion || !Live(p.monitor) then DropStale
    else TryClaim
  }

  function CancelStale(L: Ledger, id: CheckId): Ledger {
    if id >= |L.checks| || !IsActive(L.checks[id]) then L
    else L.(checks := L.checks[id := L.checks[id].(status := CheckCanceled, lease := None)])
  }

  /** Acts on what was read: drops the job, cancels a stale row, or claims the row with a conditional update. */
  function WorkerClaim(L: Ledger, w: WorkerId, leaseMs: nat): Ledger {
    if w !in L.workers || !L.workers[w].HasRead? then L
    else
      var p := L.workers[w];
      match Decide(p)
      case DropDuplicate => Forget(L, w)
      case DropStale => Forget(CancelStale(L, p.check), w)
      case TryClaim =>
        if p.check >= |L.checks| || !Claimable(L.checks[p.check], L.clock) then Forget(L, w)
        else
          L.(checks := L.checks[p.check := L.checks[p.check].(status := CheckRunning,
                                                              lease := Some(Lease(w, L.clock + leaseMs)))],
             workers := L.workers[w := Holding(p.check, L.clock)])
  }

  function InputOf(r: CheckResult, version: int, c: Config): CheckInput {
    CheckInput(CheckSource.Scheduled, r.outcome, version, r.finishedAt, r.error, c.failureThreshold, c.recoveryThreshold)
  }

  /** The newest open incident of a monitor. */
  function FindOpen(incidents: seq<Incident>, m: MonitorId): (at: Option<nat>)
    ensures at.Some? ==> at.value < |incidents| && incidents[at.value].monitor == m && incidents[at.value].status.IncidentOpen?
    ensures at.None? ==> forall i :: 0 <= i < |incidents| && incidents[i].monitor == m ==> !incidents[i].status.IncidentOpen?
  {
    if incidents == [] then None
    else
      var last := |incidents| - 1;
      if incidents[last].monitor == m && incidents[last].status.IncidentOpen? then Some(last)
      else FindOpen(incidents[..last], m)
  }

  function ApplyIncidentEffect(incidents: seq<Incident>, m: MonitorId, version: int, e: IncidentEffect): seq<Incident> {
    var open := FindOpen(incidents, m);
    match e
    case OpenIncident(firstFailureAt, detectedAt, firstError, lastError) =>
      if open.Some? then incidents[open.value := incidents[open.value].(lastError := lastError)]
      else incidents + [Incident(m, version, IncidentOpen, firstFailureAt, detectedAt, None, None, firstError, lastError, None)]
    case UpdateIncident(error) =>
      if open.None? then incidents
      else incidents[open.value := incidents[open.value].(lastError := error)]
    case ResolveIncident(resolvedAt) =>
      if open.None? then incidents
      else incidents[open.value := incidents[open.value].(status := IncidentResolved, resolvedAt := Some(resolvedAt),
                                                          closure := Some(Recovered))]
    case CancelIncident(_, _) => incidents
    case NoEffect => incidents
  }

  /** Whether a result may still move the monitor it was made for. */
  predicate StillValid(c: Check, mon: Monitor) {
    IsActive(c) && c.configVersion == mon.state.configVersion && Live(mon)
  }

  function Finished(c: Check, r: CheckResult): Check {
    var stored := c.(result := Some(r));
    if c.status.CheckCanceled? then stored
    else stored.(status := CheckCompleted, completedAt := Some(r.finishedAt), lease := None)
  }

  /** Stores a result at most once per check; it moves health and incidents only while the check is still valid. */
  function Persist(L: Ledger, id: CheckId, r: CheckResult): Ledger {
    if id >= |L.checks| || L.checks[id].result.Some? || L.checks[id].monitor !in L.monitors then L
    else
      var c := L.checks[id];
      var mon := L.monitors[c.monitor];
      var stored := L.(checks := L.checks[id := Finished(c, r)]);
      if !StillValid(c, mon) then stored
      else
        var t := ApplyCheckResult(mon.state, InputOf(r, c.configVersion, mon.config));
        if t.Err? || !FitsColumns(t.value.state) then L
        else if !t.value.Applied() then stored
        else
          stored.(monitors := L.monitors[c.monitor := mon.(state := t.value.state)],
                  incidents := ApplyIncidentEffect(L.incidents, c.monitor, mon.state.configVersion, t.value.effect))
  }

  /** What a valid result does to the observations: a withheld verdict is noted, a verdict settles earlier ones. */
  function NotedRows(L: Ledger, c: Check, r: CheckResult): map<Withheld, Observation> {
    if r.outcome.Inconclusive? && r.outage.Some? then
      var k := Withheld(r.outage.value, c.monitor);
      if k in L.observations then L.observations else L.observations[k := Observation(c.configVersion, None)]
    else if TargetOutcome(r.outcome) then
      map k | k in L.observations :: if Settles(L, c, r, k) then L.observations[k].(recheckedAt := Some(r.finishedAt))
                                     else L.observations[k]
    else L.observations
  }

  /** The observations after a result was stored, if it was. */
  function Noted(L: Ledger, id: CheckId, r: CheckResult): map<Withheld, Observation> {
    if Persist(L, id, r) == L || !StillValid(L.checks[id], L.monitors[L.checks[id].monitor]) then L.observations
    else NotedRows(L, L.checks[id], r)
  }

  predicate Settles(L: Ledger, c: Check, r: CheckResult, k: Withheld)
    requires k in L.observations
  {
    && k.monitor == c.monitor && L.observations[k].recheckedAt.None? && L.observations[k].configVersion == c.configVersion
    && k.outage in L.outages && L.outages[k.outage].recoveredAt.Some? && L.outages[k.outage].recoveredAt.value <= r.startedAt
  }

  /** The whole transaction that stores a result. */
  function StoreResult(L: Ledger, id: CheckId, r: CheckResult): Ledger {
    Persist(L, id, r).(observations := Noted(L, id, r))
  }

  function WorkerFinish(L: Ledger, w: WorkerId, r: CheckResult): Ledger {
    if w !in L.workers || !L.workers[w].Holding? || !(L.workers[w].claimedAt <= r.finishedAt <= L.clock) then L
    else Forget(StoreResult(L, L.workers[w].check, r), w)
  }

  // ---- administration ---------------------------------------------------

  function CancelCheck(c: Check, m: MonitorId): Check {
    if c.monitor == m && IsActive(c) then c.(status := CheckCanceled, lease := None) else c
  }

  function CancelOpen(i: Incident, m: MonitorId, at: Time, reason: ClosureReason): Incident {
    if i.monitor == m && i.status.IncidentOpen?
    then i.(status := IncidentCanceled, canceledAt := Some(at), closure := Some(reason))
    else i
  }

  function CancelChecks(checks: seq<Check>, m: MonitorId): seq<Check> {
    seq(|checks|, i requires 0 <= i < |checks| => CancelCheck(checks[i], m))
  }

  function CancelIncidents(incidents: seq<Incident>, m: MonitorId, at: Time, reason: ClosureReason): seq<Incident> {
    seq(|incidents|, i requires 0 <= i < |incidents| => CancelOpen(incidents[i], m, at, reason))
  }

  function CancelRuntime(L: Ledger, m: MonitorId, reason: ClosureReason): Ledger {
    L.(checks := CancelChecks(L.checks, m), incidents := CancelIncidents(L.incidents, m, L.clock, reason))
  }

  /** lockMonitor: a deleted monitor is not found. */
  predicate Found(L: Ledger, m: MonitorId) {
    m in L.monitors && L.monitors[m].deletedAt.None?
  }

  function NewMonitor(L: Ledger, c: Config, jitter: nat): Monitor
    requires ValidConfig(c)
  {
    var first := NextBucket(L.clock, Interval(c)) + jitter;
    Monitor(MonitorState(Lifecycle.Active, Health.Pending, 0, 0, None, None, 1), c, Some(first), None,
            |L.checks|, first, |L.checks|, false)
  }

  function CreateMonitor(L: Ledger, m: MonitorId, c: Config, jitter: nat): Ledger {
    if m in L.monitors || !ValidConfig(c) then L
    else L.(monitors := L.monitors[m := NewMonitor(L, c, jitter)])
  }

  /** configFields.some(...): whether any monitored field changed. */
  predicate MonitoringChanged(a: Config, b: Config) {
    || a.url != b.url || a.httpMethod != b.httpMethod || a.intervalSec != b.intervalSec || a.timeoutMs != b.timeoutMs
    || a.expectedStatusMin != b.expectedStatusMin || a.expectedStatusMax != b.expectedStatusMax
    || a.expectedKeyword != b.expectedKeyword || a.followRedirects != b.followRedirects
    || a.maxRedirects != b.maxRedirects || a.failureThreshold != b.failureThreshold
    || a.recoveryThreshold != b.recoveryThreshold
  }

  function Reanchored(L: Ledger, mon: Monitor, jitter: nat): Monitor
    requires ValidConfig(mon.config)
  {
    var first := NextBucket(L.clock, Interval(mon.config)) + jitter;
    mon.(nextCheckAt := Some(first), anchor := first, anchorRow := |L.checks|, pulled := false)
  }

  function UpdateMonitor(L: Ledger, m: MonitorId, c: Config, jitter: nat): Ledger {
    if !Found(L, m) || !ValidConfig(c) then L
    else if !MonitoringChanged(L.monitors[m].config, c) then L
    else if L.monitors[m].state.configVersion + 1 > MAX_DB_INTEGER then L
    else
      var mon := L.monitors[m];
      var reset := mon.(config := c,
                        state := Cleared(mon.state).(configVersion := mon.state.configVersion + 1),
                        epoch := |L.checks|, nextCheckAt := None, anchorRow := |L.checks|);
      CancelRuntime(L, m, ByConfigChange)
        .(monitors := L.monitors[m := if mon.state.lifecycle.Active? then Reanchored(L, reset, jitter) else reset])
  }

  function Pause(L: Ledger, m: MonitorId): Ledger {
    if !Found(L, m) || L.monitors[m].state.lifecycle.Paused? then L
    else
      var mon := L.monitors[m];
      CancelRuntime(L, m, ByPause)
        .(monitors := L.monitors[m := mon.(state := Cleared(mon.state).(lifecycle := Paused),
                                           epoch := |L.checks|, nextCheckAt := None)])
  }

  function Resume(L: Ledger, m: MonitorId, jitter: nat): Ledger {
    if !Found(L, m) || L.monitors[m].state.lifecycle.Active? || !ValidConfig(L.monitors[m].config) then L
    else
      var mon := L.monitors[m];
      var reset := mon.(state := Cleared(mon.state).(lifecycle := Lifecycle.Active), epoch := |L.checks|);
      L.(monitors := L.monitors[m := Reanchored(L, reset, jitter)])
  }

  function Remove(L: Ledger, m: MonitorId): Ledger {
    if !Found(L, m) then L
    else
      var mon := L.monitors[m];
      CancelRuntime(L, m, ByDelete)
        .(monitors := L.monitors[m := mon.(state := Cleared(mon.state).(lifecycle := Deleted),
                                           epoch := |L.checks|, nextCheckAt := None, deletedAt := Some(L.clock))])
  }

  // ---- the network guard --------------------------------------------------

  const SUMMARY_WAIT_MS: int := 120_000

  function OutageStarts(L: Ledger, o: OutageId, at: Time): Ledger {
    if o in L.outages || at > L.clock then L else L.(outages := L.outages[o := Outage(at, None, false)])
  }

  /** The guard asks for an immediate check. */
  function Pulled(L: Ledger, mon: Monitor, at: Time): Monitor {
    mon.(nextCheckAt := Some(at), anchor := at, anchorRow := |L.checks|, pulled := true)
  }

  predicate Awaits(L: Ledger, o: OutageId, m: MonitorId) {
    Withheld(o, m) in L.observations && L.observations[Withheld(o, m)].recheckedAt.None?
  }

  /** A probe that ended at `at` may end the outage, at once or after its transaction had to wait. */
  predicate CanEnd(L: Ledger, o: OutageId, at: Time) {
    && o in L.outages && L.outages[o].recoveredAt.None? && !L.outages[o].closed
    && L.outages[o].startedAt <= at <= L.clock
  }

  predicate EndPulls(L: Ledger, o: OutageId, m: MonitorId)
    requires m in L.monitors
  {
    Live(L.monitors[m]) && Awaits(L, o, m)
  }

  /** The commit of a probe that found the network back, or the guard switched off. */
  function OutageEnds(L: Ledger, o: OutageId, at: Time, online: bool): Ledger {
    if !CanEnd(L, o, at) then L
    else
      L.(outages := L.outages[o := if online then L.outages[o].(recoveredAt := Some(at)) else L.outages[o].(closed := true)],
         monitors := map m | m in L.monitors :: if EndPulls(L, o, m) then Pulled(L, L.monitors[m], at) else L.monitors[m])
  }

  predicate CanSummarize(L: Ledger, o: OutageId, at: Time) {
    o in L.outages && L.outages[o].recoveredAt.Some? && !L.outages[o].closed && at <= L.clock
  }

  /** A monitor that the outage still waits for. */
  predicate Outstanding(L: Ledger, o: OutageId, m: MonitorId)
    requires m in L.monitors
  {
    Live(L.monitors[m]) && Awaits(L, o, m) && L.observations[Withheld(o, m)].configVersion == L.monitors[m].state.configVersion
  }

  predicate SummaryPulls(L: Ledger, o: OutageId, at: Time, m: MonitorId)
    requires m in L.monitors
  {
    Outstanding(L, o, m) && L.monitors[m].nextCheckAt.Some? && L.monitors[m].nextCheckAt.value > at
  }

  /** The summary pass: it keeps asking for the outstanding checks, and gives up waiting after two minutes. */
  function Summarize(L: Ledger, o: OutageId, at: Time): Ledger {
    if !CanSummarize(L, o, at) then L
    else
      var waits := (exists m :: m in L.monitors && Outstanding(L, o, m)) && at - L.outages[o].recoveredAt.value < SUMMARY_WAIT_MS;
      L.(outages := L.outages[o := L.outages[o].(closed := !waits)],
         monitors := map m | m in L.monitors :: if SummaryPulls(L, o, at, m) then Pulled(L, L.monitors[m], at) else L.monitors[m])
  }

  // ---- runs -------------------------------------------------------------

  datatype Step =
    | DoCreateMonitor(m: MonitorId, config: Config, jitter: nat)
    | DoUpdateMonitor(m: MonitorId, config: Config, jitter: nat)
    | DoPause(m: MonitorId)
    | DoResume(m: MonitorId, jitter: nat)
    | DoRemove(m: MonitorId)
    | DoOutageStarts(o: OutageId, at: Time)
    | DoOutageEnds(o: OutageId, at: Time, online: bool)
    | DoSummarize(o: OutageId, at: Time)
    | DoCreateDue(due: seq<MonitorId>, asOf: Time)
    | DoDispatchClaim(id: CheckId, owner: Owner, asOf: Time, leaseUntil: Time)
    | DoMarkEnqueued(id: CheckId, owner: Owner, leaseUntil: Time)
    | DoReleaseClaim(id: CheckId, owner: Owner)
    | DoWorkerRead(w: WorkerId, id: CheckId, jobVersion: int)
    | DoWorkerClaim(w: WorkerId, leaseMs: nat)
    | DoWorkerFinish(w: WorkerId, result: CheckResult)
    | DoWorkerCrash(w: WorkerId)

  datatype Event = Event(now: Time, step: Step)

  function Perform(L: Ledger, s: Step): Ledger {
    match s
    case DoCreateMonitor(m, c, jitter) => CreateMonitor(L, m, c, jitter)
    case DoUpdateMonitor(m, c, jitter) => UpdateMonitor(L, m, c, jitter)
    case DoPause(m) => Pause(L, m)
    case DoResume(m, jitter) => Resume(L, m, jitter)
    case DoRemove(m) => Remove(L, m)
    case DoOutageStarts(o, at) => OutageStarts(L, o, at)
    case DoOutageEnds(o, at, online) => OutageEnds(L, o, at, online)
    case DoSummarize(o, at) => Summarize(L, o, at)
    case DoCreateDue(due, asOf) => CreateDueChecks(L, due, asOf)
    case DoDispatchClaim(id, owner, asOf, leaseUntil) => DispatchClaim(L, id, owner, asOf, leaseUntil)
    case DoMarkEnqueued(id, owner, leaseUntil) => MarkEnqueued(L, id, owner, leaseUntil)
    case DoReleaseClaim(id, owner) => ReleaseClaim(L, id, owner)
    case DoWorkerRead(w, id, jobVersion) => WorkerRead(L, w, id, jobVersion)
    case DoWorkerClaim(w, leaseMs) => WorkerClaim(L, w, leaseMs)
    case DoWorkerFinish(w, r) => WorkerFinish(L, w, r)
    case DoWorkerCrash(w) => Forget(L, w)
  }

  /** One transaction at a strictly later moment of the global clock. */
  function Apply(L: Ledger, e: Event): Ledger {
    if e.now <= L.clock then L else Perform(L.(clock := e.now), e.step)
  }

  function Run(L: Ledger, events: seq<Event>): Ledger {
    if events == [] then L else Apply(Run(L, events[..|events| - 1]), events[|events| - 1])
  }

  function EmptyLedger(clock: Time): Ledger {
    Ledger(clock, map[], [], [], map[], map[], map[])
  }
}
