/**
 * The notification outbox as a state machine: incident transactions, dispatchers, processors whose sends may
 * outlive their leases, and administrators. Each transaction or conditional update is one atomic step.
 */
module Outbox {
  import opened Domain

  type IncidentId = nat
  type ChannelId = nat
  type MonitorId = nat
  type Owner = nat

  // ---- rows -------------------------------------------------------------

  datatype EventType = Down | Recovery | ResolvedSummary | NetworkRecovery

  /** The unique key of a row: (incident, channel, sequence), or the dedupe key of a network summary. */
  datatype Key =
    | First(incident: IncidentId, channel: ChannelId)
    | Closing(incident: IncidentId, channel: ChannelId)
    | Network(outage: nat, channel: ChannelId)

  datatype Status = Pending | Enqueued | Processing | Retry | Sent | Failed | Canceled

  /** lastErrorSafe, as far as the protocol reads it. */
  datatype Reason = NoReason | DownNotDelivered | OtherReason

  datatype Lease = Lease(owner: Owner, until: Time)

  datatype Row = Row(
    event: EventType,
    monitor: Option<MonitorId>,
    allowsRecovery: bool,
    status: Status,
    availableAt: Time,
    createdAt: Time,
    lease: Option<Lease>,
    attempts: nat,
    maxAttempts: nat,
    reason: Reason,
    // History variables. No step reads them.
    disturbed: bool,     // an administrator acted on the row's monitor or channel
    reactivations: nat)  // how often a canceled recovery was put back

  datatype DeliveryStatus = Attempting | Succeeded | DeliveryFailed | Unknown

  datatype Attempt = Attempt(key: Key, number: nat)

  datatype IncidentStatus = IncidentOpen | IncidentResolved | IncidentCanceled

  datatype Incident = Incident(monitor: MonitorId, status: IncidentStatus)

  datatype Channel = Channel(enabled: bool, deleted: bool)

  datatype Pair = Pair(monitor: MonitorId, channel: ChannelId)

  datatype Prefs = Prefs(onDown: bool, onRecovery: bool)

  datatype Permit = Permit(owner: Owner, key: Key)

  datatype Outbox = Outbox(
    clock: Time,
    incidents: map<IncidentId, Incident>,
    channels: map<ChannelId, Channel>,
    bindings: map<Pair, Prefs>,
    rows: map<Key, Row>,
    deliveries: map<Attempt, DeliveryStatus>,
    cleared: set<Permit>,      // candidates a dispatcher inspected and has not yet tried to claim
    inFlight: set<Attempt>)    // sends whose outcome is not stored yet

  const DEFAULT_MAX_ATTEMPTS: nat := 3
  const RECOVERY_RECHECK_DELAY_MS: int := 2_000

  predicate Terminal(s: Status) { s.Sent? || s.Failed? || s.Canceled? }

  predicate ChannelOn(S: Outbox, c: ChannelId) {
    c in S.channels && S.channels[c].enabled && !S.channels[c].deleted
  }

  predicate RecoveryBound(S: Outbox, m: MonitorId, c: ChannelId) {
    Pair(m, c) in S.bindings && S.bindings[Pair(m, c)].onRecovery
  }

  predicate Expired(lease: Option<Lease>, now: Time) { lease.Some? && lease.value.until < now }

  function NewRow(event: EventType, monitor: Option<MonitorId>, allowsRecovery: bool, now: Time): Row {
    Row(event, monitor, allowsRecovery, Status.Pending, now, now, None, 0, DEFAULT_MAX_ATTEMPTS, NoReason, false, 0)
  }

  function Cancel(r: Row, reason: Reason): Row {
    r.(status := Canceled, lease := None, reason := reason)
  }

  // ---- an incident opens ------------------------------------------------

  predicate NotifiesOnDown(S: Outbox, m: MonitorId, p: Pair) {
    p in S.bindings && p.monitor == m && S.bindings[p].onDown && ChannelOn(S, p.channel)
  }

  function OpeningKeys(S: Outbox, i: IncidentId, m: MonitorId): set<Key> {
    set p | p in S.bindings && NotifiesOnDown(S, m, p) :: First(i, p.channel)
  }

  /** createOutbox: one DOWN row for each bound, enabled channel. */
  function OpenIncident(S: Outbox, i: IncidentId, m: MonitorId): Outbox {
    if i in S.incidents then S
    else
      var keys := OpeningKeys(S, i, m);
      S.(incidents := S.incidents[i := Incident(m, IncidentOpen)],
         rows := S.rows + map k | k in keys :: NewRow(EventType.Down, Some(m), RecoveryBound(S, m, k.channel), S.clock))
  }

  // ---- an incident is resolved ------------------------------------------

  datatype Plan = CreateRecovery | ReplaceWithSummary | Skip

  function PlanRecovery(downStatus: Status, downAttempts: nat): Plan {
    if downAttempts == 0 && (downStatus.Pending? || downStatus.Enqueued?) then ReplaceWithSummary
    else if downStatus.Failed? || downStatus.Canceled? then Skip
    else CreateRecovery
  }

  /** A DOWN row that asks for a closing message when its incident is resolved. */
  predicate WantsClosing(S: Outbox, i: IncidentId, k: Key)
    requires i in S.incidents
  {
    && k in S.rows && k.First? && k.incident == i && S.rows[k].event.Down?
    && ChannelOn(S, k.channel) && RecoveryBound(S, S.incidents[i].monitor, k.channel)
    && S.rows[k].allowsRecovery
  }

  function CloseDown(r: Row): Row {
    if PlanRecovery(r.status, r.attempts).ReplaceWithSummary? then r.(status := Canceled, lease := None) else r
  }

  function ClosingEvent(r: Row): EventType {
    if PlanRecovery(r.status, r.attempts).ReplaceWithSummary? then ResolvedSummary else Recovery
  }

  function ClosingKeys(S: Outbox, i: IncidentId): set<Key>
    requires i in S.incidents
  {
    set k | k in S.rows && WantsClosing(S, i, k) && !PlanRecovery(S.rows[k].status, S.rows[k].attempts).Skip?
      :: Closing(i, k.channel)
  }

  /** createRecoveryOutbox, for every DOWN row of the incident in one transaction. */
  function Resolve(S: Outbox, i: IncidentId): Outbox {
    if i !in S.incidents || !S.incidents[i].status.IncidentOpen? then S
    else
      var m := S.incidents[i].monitor;
      var closed := map k | k in S.rows :: if WantsClosing(S, i, k) then CloseDown(S.rows[k]) else S.rows[k];
      var keys := ClosingKeys(S, i);
      S.(incidents := S.incidents[i := Incident(m, IncidentResolved)],
         rows := closed + map k | k in keys :: NewRow(ClosingEventAt(S, i, k.channel), Some(m), true, S.clock))
  }

  function ClosingEventAt(S: Outbox, i: IncidentId, c: ChannelId): EventType {
    if First(i, c) in S.rows then ClosingEvent(S.rows[First(i, c)]) else Recovery
  }

  // ---- administration ---------------------------------------------------

  function EndTracking(S: Outbox, touched: Key -> bool): map<Attempt, DeliveryStatus> {
    map a | a in S.deliveries ::
      if S.deliveries[a].Attempting? && a.key in S.rows && touched(a.key) && S.rows[a.key].status.Processing?
      then Unknown else S.deliveries[a]
  }

  function CancelTouched(S: Outbox, touched: Key -> bool): map<Key, Row> {
    map k | k in S.rows ::
      if !touched(k) then S.rows[k]
      else if Terminal(S.rows[k].status) then S.rows[k].(disturbed := true)
      else S.rows[k].(status := Canceled, lease := None, disturbed := true)
  }

  function OfMonitor(S: Outbox, m: MonitorId): Key -> bool {
    k => k in S.rows && S.rows[k].monitor == Some(m)
  }

  function OfChannel(c: ChannelId): Key -> bool {
    (k: Key) => k.channel == c
  }

  /** cancelRuntime: pause, removal and configuration changes of a monitor. */
  function CancelRuntime(S: Outbox, m: MonitorId): Outbox {
    S.(deliveries := EndTracking(S, OfMonitor(S, m)),
       incidents := map i | i in S.incidents ::
         if S.incidents[i].monitor == m && S.incidents[i].status.IncidentOpen?
         then S.incidents[i].(status := IncidentCanceled) else S.incidents[i],
       rows := CancelTouched(S, OfMonitor(S, m)))
  }

  /** Disabling or removing a channel. */
  function TurnOff(S: Outbox, c: ChannelId, remove: bool): Outbox {
    if c !in S.channels || S.channels[c].deleted then S
    else
      S.(deliveries := EndTracking(S, OfChannel(c)),
         bindings := map p | p in S.bindings && p.channel != c :: S.bindings[p],
         rows := CancelTouched(S, OfChannel(c)),
         channels := S.channels[c := Channel(false, remove)])
  }

  function TurnOn(S: Outbox, c: ChannelId): Outbox {
    if c in S.channels && S.channels[c].deleted then S
    else S.(channels := S.channels[c := Channel(true, false)])
  }

  /** Replaces the bindings of a monitor; a row whose channel stays bound for recovery is not disturbed. */
  function Rebind(S: Outbox, m: MonitorId, prefs: map<ChannelId, Prefs>): Outbox {
    S.(bindings := (map p | p in S.bindings && p.monitor != m :: S.bindings[p])
                   + (map p | p in (set c | c in prefs :: Pair(m, c)) :: prefs[p.channel]),
       rows := map k | k in S.rows ::
         if S.rows[k].monitor == Some(m) && !(k.channel in prefs && prefs[k.channel].onRecovery)
         then S.rows[k].(disturbed := true) else S.rows[k])
  }

  /** The network guard's summary of an outage for one channel; upserted by its dedupe key. */
  function PostNetwork(S: Outbox, outage: nat, c: ChannelId): Outbox {
    if Network(outage, c) in S.rows || !ChannelOn(S, c) then S
    else S.(rows := S.rows[Network(outage, c) := NewRow(NetworkRecovery, None, false, S.clock)])
  }

  // ---- dispatcher -------------------------------------------------------

  predicate Available(r: Row, asOf: Time) {
    && r.availableAt <= asOf
    && ( || ((r.status.Pending? || r.status.Retry?) && (r.lease.None? || Expired(r.lease, asOf)))
         || ((r.status.Enqueued? || r.status.Processing?) && Expired(r.lease, asOf)))
  }

  datatype Prerequisite = Ready | Wait | MustCancel

  function RecoveryPrerequisite(down: Option<Status>): Prerequisite {
    if down == Some(Sent) then Ready
    else if down.None? || down.value.Failed? || down.value.Canceled? then MustCancel
    else Wait
  }

  function DownStatus(S: Outbox, k: Key): Option<Status>
    requires k.Closing?
  {
    var d := First(k.incident, k.channel);
    if d in S.rows then Some(S.rows[d].status) else None
  }

  predicate IsRecovery(S: Outbox, k: Key) {
    k.Closing? && k in S.rows && S.rows[k].event.Recovery?
  }

  /** Looks at one candidate: cancels it, defers it, or clears it to be claimed. */
  function Inspect(S: Outbox, owner: Owner, k: Key, asOf: Time): Outbox {
    if k !in S.rows then S
    else
      var r := S.rows[k];
      if !ChannelOn(S, k.channel) then
        if Available(r, asOf) then S.(rows := S.rows[k := Cancel(r, OtherReason)]) else S
      else if IsRecovery(S, k) then
        match RecoveryPrerequisite(DownStatus(S, k))
        case Wait =>
          if Available(r, asOf) then S.(rows := S.rows[k := r.(availableAt := asOf + RECOVERY_RECHECK_DELAY_MS)]) else S
        case MustCancel =>
          if Available(r, asOf) then S.(rows := S.rows[k := Cancel(r, DownNotDelivered)]) else S
        case Ready => S.(cleared := S.cleared + {Permit(owner, k)})
      else S.(cleared := S.cleared + {Permit(owner, k)})
  }

  /** Claims a cleared candidate; the row may have changed since it was inspected. */
  function Take(S: Outbox, owner: Owner, k: Key, asOf: Time, leaseMs: nat): Outbox {
    if Permit(owner, k) !in S.cleared then S
    else
      var T := S.(cleared := S.cleared - {Permit(owner, k)});
      if k !in S.rows || !Available(S.rows[k], asOf) then T
      else T.(rows := S.rows[k := S.rows[k].(status := Retry, lease := Some(Lease(owner, asOf + leaseMs)))])
  }

  predicate HeldBy(r: Row, owner: Owner) {
    r.status.Retry? && r.lease.Some? && r.lease.value.owner == owner
  }

  function MarkEnqueued(S: Outbox, owner: Owner, k: Key, asOf: Time, leaseMs: nat): Outbox {
    if k !in S.rows || !HeldBy(S.rows[k], owner) then S
    else S.(rows := S.rows[k := S.rows[k].(status := Enqueued, lease := Some(Lease(owner, asOf + leaseMs)))])
  }

  function QueueFailed(S: Outbox, owner: Owner, k: Key, asOf: Time): Outbox {
    if k !in S.rows || !HeldBy(S.rows[k], owner) then S
    else S.(rows := S.rows[k := S.rows[k].(availableAt := asOf + 2_000, lease := None, reason := OtherReason)])
  }

  // ---- processor --------------------------------------------------------

  predicate CanAttempt(r: Row, now: Time) {
    && (r.status.Pending? || r.status.Retry? || r.status.Enqueued? || (r.status.Processing? && Expired(r.lease, now)))
    && (r.status.Pending? || r.status.Retry? ==> r.availableAt <= now)
  }

  /** The recoveries that fall with a DOWN row that finally failed. */
  predicate Falls(r: Row) {
    r.event.Recovery? && (r.status.Pending? || r.status.Retry? || r.status.Enqueued?)
  }

  function CancelUndelivered(rows: map<Key, Row>, down: Key): map<Key, Row> {
    if !down.First? then rows
    else
      var q := Closing(down.incident, down.channel);
      if q in rows && Falls(rows[q]) then rows[q := Cancel(rows[q], DownNotDelivered)] else rows
  }

  function FailFinally(rows: map<Key, Row>, k: Key): map<Key, Row>
    requires k in rows
  {
    var failed := rows[k := rows[k].(status := Failed, lease := None, reason := OtherReason)];
    if rows[k].event.Down? then CancelUndelivered(failed, k) else failed
  }

  function Forsake(S: Outbox, k: Key): map<Attempt, DeliveryStatus> {
    map a | a in S.deliveries :: if a.key == k && S.deliveries[a].Attempting? then Unknown else S.deliveries[a]
  }

  /** claim: starts a send attempt, or finds out that there is nothing to send. */
  function Claim(S: Outbox, k: Key, owner: Owner, leaseMs: nat): Outbox {
    if k !in S.rows then S
    else
      var r := S.rows[k];
      if !ChannelOn(S, k.channel) then
        if Terminal(r.status) then S else S.(rows := S.rows[k := Cancel(r, OtherReason)])
      else if !CanAttempt(r, S.clock) then S
      else
        var T := S.(deliveries := Forsake(S, k));
        if IsRecovery(S, k) && DownStatus(S, k) != Some(Sent) then T
        else if r.attempts >= r.maxAttempts then T.(rows := FailFinally(S.rows, k))
        else
          var a := Attempt(k, r.attempts + 1);
          T.(rows := S.rows[k := r.(status := Processing, attempts := r.attempts + 1,
                                    lease := Some(Lease(owner, S.clock + leaseMs)), reason := NoReason)],
             deliveries := T.deliveries[a := Attempting],
             inFlight := S.inFlight + {a})
  }

  /** ensureRecoveryAfterLateDownSuccess. */
  function EnsureRecovery(S: Outbox, down: Key): map<Key, Row>
    requires down in S.rows
  {
    var d := S.rows[down];
    if !down.First? || !d.event.Down? || !d.allowsRecovery || down.incident !in S.incidents
       || !S.incidents[down.incident].status.IncidentResolved? || d.monitor.None?
       || !ChannelOn(S, down.channel) || !RecoveryBound(S, d.monitor.value, down.channel)
    then S.rows
    else
      var q := Closing(down.incident, down.channel);
      if q !in S.rows then S.rows[q := NewRow(Recovery, d.monitor, true, S.clock)]
      else
        var r := S.rows[q];
        if r.event.Recovery? && r.status.Canceled? && r.reason.DownNotDelivered?
        then S.rows[q := r.(status := Status.Pending, availableAt := S.clock, lease := None, reason := NoReason,
                            reactivations := r.reactivations + 1)]
        else S.rows
  }

  /** markSent: a confirmed attempt wins over everything except cancellation, however late it is. */
  function MarkSent(S: Outbox, a: Attempt): Outbox {
    if a !in S.inFlight || a.key !in S.rows then S
    else
      var T := S.(deliveries := S.deliveries[a := Succeeded], inFlight := S.inFlight - {a});
      if S.rows[a.key].status.Canceled? then T
      else
        var U := T.(rows := S.rows[a.key := S.rows[a.key].(status := Sent, lease := None, reason := NoReason)]);
        U.(rows := EnsureRecovery(U, a.key))
  }

  /** markFailed: the attempt is recorded; only the newest attempt of a processing row moves the row. */
  function MarkFailed(S: Outbox, a: Attempt, retryable: bool, uncertain: bool, delay: nat): Outbox {
    if a !in S.inFlight || a.key !in S.rows then S
    else
      var r := S.rows[a.key];
      var T := S.(deliveries := S.deliveries[a := if uncertain then Unknown else DeliveryFailed],
                  inFlight := S.inFlight - {a});
      if !r.status.Processing? || r.attempts != a.number then T
      else if retryable && a.number < r.maxAttempts then
        T.(rows := S.rows[a.key := r.(status := Retry, availableAt := S.clock + delay, lease := None, reason := OtherReason)])
      else T.(rows := FailFinally(S.rows, a.key))
  }

  // ---- runs -------------------------------------------------------------

  datatype Step =
    | DoOpen(i: IncidentId, m: MonitorId)
    | DoResolve(i: IncidentId)
    | DoCancelRuntime(m: MonitorId)
    | DoTurnOff(c: ChannelId, remove: bool)
    | DoTurnOn(c: ChannelId)
    | DoRebind(m: MonitorId, prefs: map<ChannelId, Prefs>)
    | DoPostNetwork(outage: nat, c: ChannelId)
    | DoInspect(owner: Owner, k: Key, asOf: Time)
    | DoTake(owner: Owner, k: Key, asOf: Time, leaseMs: nat)
    | DoMarkEnqueued(owner: Owner, k: Key, asOf: Time, leaseMs: nat)
    | DoQueueFailed(owner: Owner, k: Key, asOf: Time)
    | DoDropPermit(owner: Owner, k: Key)
    | DoClaim(k: Key, owner: Owner, leaseMs: nat)
    | DoMarkSent(a: Attempt)
    | DoMarkFailed(a: Attempt, retryable: bool, uncertain: bool, delay: nat)
    | DoCrash(a: Attempt)

  datatype Event = Event(now: Time, step: Step)

  function Perform(S: Outbox, s: Step): Outbox {
    match s
    case DoOpen(i, m) => OpenIncident(S, i, m)
    case DoResolve(i) => Resolve(S, i)
    case DoCancelRuntime(m) => CancelRuntime(S, m)
    case DoTurnOff(c, remove) => TurnOff(S, c, remove)
    case DoTurnOn(c) => TurnOn(S, c)
    case DoRebind(m, prefs) => Rebind(S, m, prefs)
    case DoPostNetwork(outage, c) => PostNetwork(S, outage, c)
    case DoInspect(owner, k, asOf) => Inspect(S, owner, k, asOf)
    case DoTake(owner, k, asOf, leaseMs) => Take(S, owner, k, asOf, leaseMs)
    case DoMarkEnqueued(owner, k, asOf, leaseMs) => MarkEnqueued(S, owner, k, asOf, leaseMs)
    case DoQueueFailed(owner, k, asOf) => QueueFailed(S, owner, k, asOf)
    case DoDropPermit(owner, k) => S.(cleared := S.cleared - {Permit(owner, k)})
    case DoClaim(k, owner, leaseMs) => Claim(S, k, owner, leaseMs)
    case DoMarkSent(a) => MarkSent(S, a)
    case DoMarkFailed(a, retryable, uncertain, delay) => MarkFailed(S, a, retryable, uncertain, delay)
    case DoCrash(a) => S.(inFlight := S.inFlight - {a})
  }

  function Apply(S: Outbox, e: Event): Outbox {
    if e.now <= S.clock then S else Perform(S.(clock := e.now), e.step)
  }

  function Run(S: Outbox, events: seq<Event>): Outbox {
    if events == [] then S else Apply(Run(S, events[..|events| - 1]), events[|events| - 1])
  }

  function EmptyOutbox(clock: Time): Outbox {
    Outbox(clock, map[], map[], map[], map[], map[], {}, {})
  }
}
