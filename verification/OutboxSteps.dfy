/** What each transaction of the notification outbox does in any reachable state, told from the columns of the rows before it. */
module OutboxSteps {
  import opened Domain
  import opened Outbox
  import opened OutboxInvariants
  import opened OutboxPreservation
  import opened OutboxTheorems
  import opened OutboxFailures

  /** A message that waits for its first attempt since `now`. */
  ghost predicate Waits(r: Row, event: EventType, m: Option<MonitorId>, allowsRecovery: bool, now: Time) {
    && r.event == event && r.monitor == m && r.allowsRecovery == allowsRecovery
    && r.status.Pending? && r.availableAt == now && r.createdAt == now && r.lease.None?
    && r.attempts == 0 && r.maxAttempts == 3 && r.reason.NoReason?
  }

  predicate On(S: Outbox, c: ChannelId) {
    c in S.channels && S.channels[c].enabled && !S.channels[c].deleted
  }

  ghost predicate OthersStay(before: map<Key, Row>, after: map<Key, Row>, k: Key) {
    && after.Keys == before.Keys
    && forall j :: j in before && j != k ==> after[j] == before[j]
  }

  // ---- incidents ----------------------------------------------------------

  /** From S to T incident i of m opened at `now`: each channel that is on and bound for DOWN messages got one. */
  ghost predicate Opened(S: Outbox, T: Outbox, i: IncidentId, m: MonitorId, now: Time) {
    && T == S.(clock := now, incidents := S.incidents[i := Incident(m, IncidentOpen)], rows := T.rows)
    && (forall k :: k in S.rows ==> k in T.rows && T.rows[k] == S.rows[k])
    && (forall k :: k in T.rows && k !in S.rows ==> k.First? && k.incident == i)
    && forall c :: First(i, c) !in S.rows
         && (First(i, c) in T.rows <==> Pair(m, c) in S.bindings && S.bindings[Pair(m, c)].onDown && On(S, c))
         && (First(i, c) in T.rows ==> Waits(T.rows[First(i, c)], EventType.Down, Some(m), S.bindings[Pair(m, c)].onRecovery, now))
  }

  lemma OpeningKeyOf(S: Outbox, i: IncidentId, m: MonitorId, c: ChannelId)
    ensures First(i, c) in OpeningKeys(S, i, m) <==> Pair(m, c) in S.bindings && S.bindings[Pair(m, c)].onDown && On(S, c)
  {
    if Pair(m, c) in S.bindings && S.bindings[Pair(m, c)].onDown && On(S, c) { assert NotifiesOnDown(S, m, Pair(m, c)); }
  }

  lemma OpeningStep(S: Outbox, i: IncidentId, m: MonitorId)
    requires ShapeOk(S) && i !in S.incidents
    ensures Opened(S, OpenIncident(S, i, m), i, m, S.clock)
  {
    OpenedRows(S, i, m);
    OpeningIsFresh(S, i, m);
    forall c ensures First(i, c) in OpeningKeys(S, i, m) <==> Pair(m, c) in S.bindings && S.bindings[Pair(m, c)].onDown && On(S, c) {
      OpeningKeyOf(S, i, m, c);
    }
  }

  /** Opening an incident writes one DOWN message for each channel that is on and bound for it, and touches no other row. */
  lemma {:induction false} OpeningWrites(clock: Time, events: seq<Event>, i: IncidentId, m: MonitorId, now: Time)
    requires var S := Run(EmptyOutbox(clock), events); i !in S.incidents && now > S.clock
    ensures var S := Run(EmptyOutbox(clock), events); Opened(S, Apply(S, Event(now, DoOpen(i, m))), i, m, now)
  {
    TickIsReachable(clock, events, now);
    OpeningStep(Run(EmptyOutbox(clock), events).(clock := now), i, m);
  }

  /** The DOWN d calls for a closing message when its incident is resolved. */
  ghost predicate CallsForClosing(S: Outbox, i: IncidentId, c: ChannelId)
    requires i in S.incidents
  {
    && First(i, c) in S.rows && S.rows[First(i, c)].allowsRecovery
    && !S.rows[First(i, c)].status.Failed? && !S.rows[First(i, c)].status.Canceled?
    && On(S, c) && Pair(S.incidents[i].monitor, c) in S.bindings && S.bindings[Pair(S.incidents[i].monitor, c)].onRecovery
  }

  /** The DOWN was not tried and no dispatcher or processor holds it. */
  predicate Untouched(d: Row) { d.attempts == 0 && (d.status.Pending? || d.status.Enqueued?) }

  /** From S to T incident i was resolved at `now`. */
  ghost predicate ResolvedTo(S: Outbox, T: Outbox, i: IncidentId, now: Time)
    requires i in S.incidents
  {
    var m := S.incidents[i].monitor;
    && T == S.(clock := now, incidents := S.incidents[i := Incident(m, IncidentResolved)], rows := T.rows)
    && (forall k :: k in T.rows && k !in S.rows ==> k.Closing? && k.incident == i)
    && (forall k :: k in S.rows ==> k in T.rows && (!(k.First? && k.incident == i) ==> T.rows[k] == S.rows[k]))
    && forall c :: ClosedPair(S, T, i, c, now)
  }

  /** What a resolution does to the messages of one channel: the summary takes the place of an untouched DOWN. */
  ghost predicate ClosedPair(S: Outbox, T: Outbox, i: IncidentId, c: ChannelId, now: Time)
    requires i in S.incidents
  {
    var d, q, m := First(i, c), Closing(i, c), S.incidents[i].monitor;
    && (q in T.rows <==> CallsForClosing(S, i, c))
    && (q in T.rows ==>
          Waits(T.rows[q], if Untouched(S.rows[d]) then ResolvedSummary else Recovery, Some(m), true, now))
    && (d in S.rows ==>
          d in T.rows && T.rows[d] == if CallsForClosing(S, i, c) && Untouched(S.rows[d])
                                      then S.rows[d].(status := Canceled, lease := None) else S.rows[d])
  }

  lemma ResolutionPair(S: Outbox, i: IncidentId, c: ChannelId)
    requires ShapeOk(S) && i in S.incidents && S.incidents[i].status.IncidentOpen?
    ensures ClosedPair(S, Resolve(S, i), i, c, S.clock)
  {
    ResolvedRows(S, i);
    ClosingIsFresh(S, i);
    if First(i, c) in S.rows { assert RowShape(S, First(i, c), S.rows[First(i, c)]); }
  }

  lemma ResolutionStep(S: Outbox, i: IncidentId)
    requires ShapeOk(S) && i in S.incidents && S.incidents[i].status.IncidentOpen?
    ensures ResolvedTo(S, Resolve(S, i), i, S.clock)
  {
    forall c ensures ClosedPair(S, Resolve(S, i), i, c, S.clock) { ResolutionPair(S, i, c); }
    ResolvedRows(S, i);
  }

  /**
   * Resolving an incident writes, for each channel whose DOWN calls for it, one closing message, and touches no other row
   * but a DOWN that the summary replaces.
   */
  lemma {:induction false} ResolutionWrites(clock: Time, events: seq<Event>, i: IncidentId, now: Time)
    requires var S := Run(EmptyOutbox(clock), events);
             now > S.clock && i in S.incidents && S.incidents[i].status.IncidentOpen?
    ensures var S := Run(EmptyOutbox(clock), events); ResolvedTo(S, Apply(S, Event(now, DoResolve(i))), i, now)
  {
    var S := Run(EmptyOutbox(clock), events);
    TickIsReachable(clock, events, now);
    ResolutionStep(S.(clock := now), i);
    forall c ensures ClosedPair(S, Apply(S, Event(now, DoResolve(i))), i, c, now) {
      assert ClosedPair(S.(clock := now), Resolve(S.(clock := now), i), i, c, now);
    }
  }

  // ---- a processor takes a row --------------------------------------------

  /** The DOWN of a recovery was delivered; other messages have nothing to wait for. */
  ghost predicate Ready(S: Outbox, k: Key)
    requires k in S.rows
  {
    S.rows[k].event.Recovery? ==>
      k.Closing? && First(k.incident, k.channel) in S.rows && S.rows[First(k.incident, k.channel)].status.Sent?
  }

  /** A processor may take the row: it waits and its time has come, it is enqueued, or its holder's lease has passed. */
  ghost predicate MayTake(r: Row, now: Time) {
    || ((r.status.Pending? || r.status.Retry?) && r.availableAt <= now)
    || r.status.Enqueued?
    || (r.status.Processing? && r.lease.Some? && r.lease.value.until < now)
  }

  /** The next attempt of row k starts. */
  ghost predicate SendStarts(S: Outbox, T: Outbox, k: Key, owner: Owner, now: Time, leaseMs: nat)
    requires k in S.rows
  {
    var r, a := S.rows[k], Attempt(k, S.rows[k].attempts + 1);
    && k in T.rows && OthersStay(S.rows, T.rows, k)
    && T.rows[k] == r.(status := Processing, attempts := r.attempts + 1, lease := Some(Lease(owner, now + leaseMs)),
                       reason := NoReason)
    && T.inFlight == S.inFlight + {a}
    && T.deliveries.Keys == S.deliveries.Keys + {a} && T.deliveries[a].Attempting?
    && forall b :: b in S.deliveries && b != a ==>
         T.deliveries[b] == if b.key == k && S.deliveries[b].Attempting? then Unknown else S.deliveries[b]
  }

  /** Nothing is sent: the row is left, given up after its third attempt, or canceled because its channel is off. */
  ghost predicate NothingToSend(S: Outbox, T: Outbox, k: Key, now: Time)
    requires k in S.rows
  {
    var r := S.rows[k];
    && k in T.rows && T.rows.Keys == S.rows.Keys && T.inFlight == S.inFlight && T.deliveries.Keys == S.deliveries.Keys
    && if !On(S, k.channel) && !Terminal(r.status)
       then T.rows[k] == r.(status := Canceled, lease := None, reason := OtherReason) && OthersStay(S.rows, T.rows, k)
       else if On(S, k.channel) && MayTake(r, now) && Ready(S, k)
       then GivenUp(r, T.rows[k]) && OnlyWith(S.rows, T.rows, k) && (k.First? ==> RecoveryFalls(S.rows, T.rows, k))
       else T.rows == S.rows
  }

  ghost predicate ClaimFollows(S: Outbox, T: Outbox, k: Key, owner: Owner, now: Time, leaseMs: nat)
    requires k in S.rows
  {
    && T == S.(clock := now, rows := T.rows, deliveries := T.deliveries, inFlight := T.inFlight)
    && if On(S, k.channel) && MayTake(S.rows[k], now) && Ready(S, k) && S.rows[k].attempts < 3
       then SendStarts(S, T, k, owner, now, leaseMs)
       else NothingToSend(S, T, k, now)
  }

  lemma ReadyIffSent(S: Outbox, k: Key)
    requires ShapeOk(S) && k in S.rows
    ensures Ready(S, k) <==> !(IsRecovery(S, k) && DownStatus(S, k) != Some(Sent))
  {
    assert RowShape(S, k, S.rows[k]);
  }

  lemma ClaimIsStart(S: Outbox, k: Key, owner: Owner, leaseMs: nat)
    requires ThreeTries(S) && k in S.rows && On(S, k.channel) && MayTake(S.rows[k], S.clock) && S.rows[k].attempts < 3
    requires !(IsRecovery(S, k) && DownStatus(S, k) != Some(Sent))
    ensures Claim(S, k, owner, leaseMs) == Started(S.(deliveries := Forsake(S, k)), k, owner, leaseMs)
  {}

  lemma StartIsSend(S: Outbox, k: Key, owner: Owner, leaseMs: nat)
    requires NumberedOk(S) && k in S.rows
    ensures SendStarts(S, Started(S.(deliveries := Forsake(S, k)), k, owner, leaseMs), k, owner, S.clock, leaseMs)
  {}

  lemma SendStartsStep(S: Outbox, k: Key, owner: Owner, leaseMs: nat)
    requires Inv(S) && ThreeTries(S) && k in S.rows && On(S, k.channel) && MayTake(S.rows[k], S.clock) && Ready(S, k)
    requires S.rows[k].attempts < 3
    ensures SendStarts(S, Claim(S, k, owner, leaseMs), k, owner, S.clock, leaseMs)
  {
    ReadyIffSent(S, k);
    ClaimIsStart(S, k, owner, leaseMs);
    StartIsSend(S, k, owner, leaseMs);
  }

  lemma NothingToSendStep(S: Outbox, k: Key, owner: Owner, leaseMs: nat)
    requires Inv(S) && ThreeTries(S) && k in S.rows
    requires !(On(S, k.channel) && MayTake(S.rows[k], S.clock) && Ready(S, k) && S.rows[k].attempts < 3)
    ensures NothingToSend(S, Claim(S, k, owner, leaseMs), k, S.clock)
  {
    ReadyIffSent(S, k);
    if On(S, k.channel) && MayTake(S.rows[k], S.clock) && Ready(S, k) {
      ExhaustedStep(S, k, owner, leaseMs);
      DownIsFirst(S, k);
      FinalFailure(S.rows, k);
    } else {
      RefusedStep(S, k, owner, leaseMs);
    }
  }

  lemma RefusedStep(S: Outbox, k: Key, owner: Owner, leaseMs: nat)
    requires k in S.rows
    requires !(On(S, k.channel) && MayTake(S.rows[k], S.clock) && !(IsRecovery(S, k) && DownStatus(S, k) != Some(Sent)))
    ensures var T := Claim(S, k, owner, leaseMs);
            && T.inFlight == S.inFlight && T.deliveries.Keys == S.deliveries.Keys
            && T.rows == if !On(S, k.channel) && !Terminal(S.rows[k].status)
                         then S.rows[k := S.rows[k].(status := Canceled, lease := None, reason := OtherReason)] else S.rows
  {}

  lemma ExhaustedStep(S: Outbox, k: Key, owner: Owner, leaseMs: nat)
    requires ThreeTries(S) && k in S.rows && On(S, k.channel) && MayTake(S.rows[k], S.clock) && S.rows[k].attempts >= 3
    requires !(IsRecovery(S, k) && DownStatus(S, k) != Some(Sent))
    ensures Claim(S, k, owner, leaseMs) == S.(deliveries := Forsake(S, k), rows := FailFinally(S.rows, k))
  {}

  lemma ClaimStep(S: Outbox, k: Key, owner: Owner, leaseMs: nat)
    requires Inv(S) && ThreeTries(S) && k in S.rows
    ensures ClaimFollows(S, Claim(S, k, owner, leaseMs), k, owner, S.clock, leaseMs)
  {
    if On(S, k.channel) && MayTake(S.rows[k], S.clock) && Ready(S, k) && S.rows[k].attempts < 3 {
      SendStartsStep(S, k, owner, leaseMs);
    } else {
      NothingToSendStep(S, k, owner, leaseMs);
    }
    ClaimWrites(S, k, owner, leaseMs);
  }

  lemma ClaimWrites(S: Outbox, k: Key, owner: Owner, leaseMs: nat)
    ensures var T := Claim(S, k, owner, leaseMs); T == S.(rows := T.rows, deliveries := T.deliveries, inFlight := T.inFlight)
  {}

  /**
   * When a send starts, in every reachable state: a processor takes up a row whose channel is on, which is not held and whose
   * time has come, whose DOWN was delivered if it is a recovery, and of which fewer than three attempts have started. The
   * attempt is the next in number and holds the row for its lease; earlier ones that were still running become unknown.
   * Otherwise nothing is sent.
   */
  lemma {:induction false} ClaimDecides(clock: Time, events: seq<Event>, k: Key, owner: Owner, now: Time, leaseMs: nat)
    requires var S := Run(EmptyOutbox(clock), events); k in S.rows && now > S.clock
    ensures var S := Run(EmptyOutbox(clock), events);
            ClaimFollows(S, Apply(S, Event(now, DoClaim(k, owner, leaseMs))), k, owner, now, leaseMs)
  {
    TickIsReachable(clock, events, now);
    AllTryThrice(clock, events);
    var S := Run(EmptyOutbox(clock), events);
    ClaimStep(S.(clock := now), k, owner, leaseMs);
    ClaimOfTick(S, Claim(S.(clock := now), k, owner, leaseMs), k, owner, now, leaseMs);
    ClaimEvent(S, k, owner, now, leaseMs);
  }

  lemma ClaimEvent(S: Outbox, k: Key, owner: Owner, now: Time, leaseMs: nat)
    requires now > S.clock
    ensures Apply(S, Event(now, DoClaim(k, owner, leaseMs))) == Claim(S.(clock := now), k, owner, leaseMs)
  {}

  lemma ClaimOfTick(S: Outbox, T: Outbox, k: Key, owner: Owner, now: Time, leaseMs: nat)
    requires k in S.rows && ClaimFollows(S.(clock := now), T, k, owner, now, leaseMs)
    ensures ClaimFollows(S, T, k, owner, now, leaseMs)
  {}

  // ---- a success is stored ------------------------------------------------

  /** The delivered DOWN k still calls for a recovery: its incident is over, and the channel is on and bound for it. */
  ghost predicate CallsForRecovery(S: Outbox, k: Key)
    requires k in S.rows
  {
    && k.First? && S.rows[k].allowsRecovery
    && k.incident in S.incidents && S.incidents[k.incident].status.IncidentResolved? && On(S, k.channel)
    && Pair(S.incidents[k.incident].monitor, k.channel) in S.bindings
    && S.bindings[Pair(S.incidents[k.incident].monitor, k.channel)].onRecovery
  }

  /** A missing recovery is written, one that fell with the DOWN is put back, any other closing message stays. */
  ghost predicate RecoveryMended(S: Outbox, T: Outbox, k: Key, now: Time)
    requires k in S.rows && k.First?
  {
    var q := Closing(k.incident, k.channel);
    if q !in S.rows
    then (q in T.rows <==> CallsForRecovery(S, k))
         && (q in T.rows ==> Waits(T.rows[q], Recovery, S.rows[k].monitor, true, now))
    else q in T.rows
         && T.rows[q] == if CallsForRecovery(S, k) && S.rows[q].event.Recovery? && S.rows[q].status.Canceled?
                            && S.rows[q].reason.DownNotDelivered?
                         then S.rows[q].(status := Status.Pending, availableAt := now, lease := None, reason := NoReason,
                                         reactivations := S.rows[q].reactivations + 1)
                         else S.rows[q]
  }

  /** What a stored success of attempt a does at `now`. */
  ghost predicate SuccessFollows(S: Outbox, T: Outbox, a: Attempt, now: Time)
    requires a.key in S.rows
  {
    var k := a.key;
    && T == S.(clock := now, rows := T.rows, deliveries := S.deliveries[a := Succeeded], inFlight := S.inFlight - {a})
    && if S.rows[k].status.Canceled? then T.rows == S.rows
       else
         && k in T.rows && T.rows[k] == S.rows[k].(status := Sent, lease := None, reason := NoReason)
         && (forall j :: j != k && !(k.First? && j == Closing(k.incident, k.channel)) ==>
               (j in T.rows <==> j in S.rows) && (j in S.rows ==> T.rows[j] == S.rows[j]))
         && (k.First? ==> RecoveryMended(S, T, k, now))
  }

  lemma SuccessStep(S: Outbox, a: Attempt)
    requires ShapeOk(S) && a in S.inFlight && a.key in S.rows
    ensures SuccessFollows(S, MarkSent(S, a), a, S.clock)
  {
    assert RowShape(S, a.key, S.rows[a.key]);
  }

  /**
   * What a confirmed send does, in every reachable state: its row is SENT unless an administrator canceled it, and a DOWN whose
   * incident is over gets the recovery it calls for. No other row changes.
   */
  lemma {:induction false} SuccessDecides(clock: Time, events: seq<Event>, a: Attempt, now: Time)
    requires var S := Run(EmptyOutbox(clock), events); a in S.inFlight && now > S.clock
    ensures var S := Run(EmptyOutbox(clock), events);
            a.key in S.rows && SuccessFollows(S, Apply(S, Event(now, DoMarkSent(a))), a, now)
  {
    TickIsReachable(clock, events, now);
    Reachable(clock, events);
    var S := Run(EmptyOutbox(clock), events);
    assert a in S.deliveries;
    SuccessStep(S.(clock := now), a);
    SuccessOfTick(S, MarkSent(S.(clock := now), a), a, now);
    SuccessEvent(S, a, now);
  }

  lemma SuccessEvent(S: Outbox, a: Attempt, now: Time)
    requires now > S.clock
    ensures Apply(S, Event(now, DoMarkSent(a))) == MarkSent(S.(clock := now), a)
  {}

  lemma SuccessOfTick(S: Outbox, T: Outbox, a: Attempt, now: Time)
    requires a.key in S.rows && SuccessFollows(S.(clock := now), T, a, now)
    ensures SuccessFollows(S, T, a, now)
  {}

  // ---- a dispatcher handles a candidate -----------------------------------

  /** A dispatcher may take the row at asOf: its time has come and nobody holds it. */
  ghost predicate IsDue(r: Row, asOf: Time) {
    && !Terminal(r.status) && r.availableAt <= asOf
    && (r.lease.Some? ==> r.lease.value.until < asOf)
    && (r.status.Enqueued? || r.status.Processing? ==> r.lease.Some?)
  }

  /** The DOWN of the recovery k is given up or gone. */
  ghost predicate Hopeless(S: Outbox, k: Key)
    requires k.Closing?
  {
    var d := First(k.incident, k.channel);
    d !in S.rows || S.rows[d].status.Failed? || S.rows[d].status.Canceled?
  }

  /**
   * What inspecting row k at asOf does: a due row of a channel that is off, or a due recovery whose DOWN is given up, is
   * canceled; a due recovery whose DOWN is undecided is put off by two seconds; a row that may be sent is cleared.
   */
  ghost predicate InspectionFollows(S: Outbox, T: Outbox, owner: Owner, k: Key, asOf: Time, now: Time)
    requires k in S.rows
  {
    var r := S.rows[k];
    && T == S.(clock := now, rows := T.rows, cleared := T.cleared)
    && k in T.rows && OthersStay(S.rows, T.rows, k)
    && if !On(S, k.channel) then
         && T.cleared == S.cleared
         && T.rows[k] == if IsDue(r, asOf) then r.(status := Canceled, lease := None, reason := OtherReason) else r
       else if Ready(S, k) then T.rows == S.rows && T.cleared == S.cleared + {Permit(owner, k)}
       else
         && k.Closing? && T.cleared == S.cleared
         && T.rows[k] == if !IsDue(r, asOf) then r
                         else if Hopeless(S, k) then r.(status := Canceled, lease := None, reason := DownNotDelivered)
                         else r.(availableAt := asOf + 2_000)
  }

  lemma DueIffAvailable(r: Row, asOf: Time)
    ensures IsDue(r, asOf) <==> Available(r, asOf)
  {}

  lemma InspectStep(S: Outbox, owner: Owner, k: Key, asOf: Time)
    requires ShapeOk(S) && k in S.rows
    ensures InspectionFollows(S, Inspect(S, owner, k, asOf), owner, k, asOf, S.clock)
  {
    assert RowShape(S, k, S.rows[k]);
    DueIffAvailable(S.rows[k], asOf);
  }

  /** In every reachable state. */
  lemma {:induction false} InspectionDecides(clock: Time, events: seq<Event>, owner: Owner, k: Key, asOf: Time, now: Time)
    requires var S := Run(EmptyOutbox(clock), events); k in S.rows && now > S.clock
    ensures var S := Run(EmptyOutbox(clock), events);
            InspectionFollows(S, Apply(S, Event(now, DoInspect(owner, k, asOf))), owner, k, asOf, now)
  {
    TickIsReachable(clock, events, now);
    var S := Run(EmptyOutbox(clock), events);
    InspectStep(S.(clock := now), owner, k, asOf);
    InspectEvent(S, owner, k, asOf, now);
    InspectionOfTick(S, Inspect(S.(clock := now), owner, k, asOf), owner, k, asOf, now);
  }

  lemma InspectEvent(S: Outbox, owner: Owner, k: Key, asOf: Time, now: Time)
    requires now > S.clock
    ensures Apply(S, Event(now, DoInspect(owner, k, asOf))) == Inspect(S.(clock := now), owner, k, asOf)
  {}

  lemma InspectionOfTick(S: Outbox, T: Outbox, owner: Owner, k: Key, asOf: Time, now: Time)
    requires k in S.rows && InspectionFollows(S.(clock := now), T, owner, k, asOf, now)
    ensures InspectionFollows(S, T, owner, k, asOf, now)
  {}

  /** A cleared row that is still due is taken: nobody else may take it during the lease. */
  lemma TakingHolds(S: Outbox, owner: Owner, k: Key, asOf: Time, leaseMs: nat)
    ensures var T := Take(S, owner, k, asOf, leaseMs);
            && T == S.(rows := T.rows, cleared := S.cleared - {Permit(owner, k)})
            && if Permit(owner, k) in S.cleared && k in S.rows && IsDue(S.rows[k], asOf)
               then k in T.rows && OthersStay(S.rows, T.rows, k)
                    && T.rows[k] == S.rows[k].(status := Retry, lease := Some(Lease(owner, asOf + leaseMs)))
               else T.rows == S.rows
  {
    if k in S.rows { DueIffAvailable(S.rows[k], asOf); }
  }

  /** The row is in RETRY under a lease of the dispatcher. */
  ghost predicate Holds(S: Outbox, owner: Owner, k: Key) {
    k in S.rows && S.rows[k].status.Retry? && S.rows[k].lease.Some? && S.rows[k].lease.value.owner == owner
  }

  /** Only its holder hands a row on: to the queue under a new lease, or back, to be tried two seconds later. */
  lemma HolderHandsOn(S: Outbox, owner: Owner, k: Key, asOf: Time, leaseMs: nat)
    ensures var Q, F := MarkEnqueued(S, owner, k, asOf, leaseMs), QueueFailed(S, owner, k, asOf);
            && Q == S.(rows := Q.rows) && F == S.(rows := F.rows)
            && if Holds(S, owner, k)
               then k in Q.rows && k in F.rows && OthersStay(S.rows, Q.rows, k) && OthersStay(S.rows, F.rows, k)
                    && Q.rows[k] == S.rows[k].(status := Enqueued, lease := Some(Lease(owner, asOf + leaseMs)))
                    && F.rows[k] == S.rows[k].(availableAt := asOf + 2_000, lease := None, reason := OtherReason)
               else Q == S && F == S
  {}

  // ---- administration -----------------------------------------------------

  /** What is still undecided among the rows of `keys` is canceled; of every other row nothing but the mark changes. */
  ghost predicate Withdraws(S: Outbox, T: Outbox, keys: iset<Key>) {
    && T.rows.Keys == S.rows.Keys && T.deliveries.Keys == S.deliveries.Keys
    && T.cleared == S.cleared && T.inFlight == S.inFlight
    && (forall k :: k in S.rows ==>
          T.rows[k] == if k !in keys then S.rows[k]
                       else if Terminal(S.rows[k].status) then S.rows[k].(disturbed := true)
                       else S.rows[k].(status := Canceled, lease := None, disturbed := true))
    && forall a :: a in S.deliveries ==>
         T.deliveries[a] == if S.deliveries[a].Attempting? && a.key in keys && a.key in S.rows && S.rows[a.key].status.Processing?
                            then Unknown else S.deliveries[a]
  }

  /** A pause, removal or configuration change withdraws what the monitor has not sent, and cancels its open incident. */
  lemma MonitorWithdraws(S: Outbox, m: MonitorId)
    ensures var T := CancelRuntime(S, m);
            && Withdraws(S, T, iset k | k in S.rows && S.rows[k].monitor == Some(m))
            && T.channels == S.channels && T.bindings == S.bindings && T.incidents.Keys == S.incidents.Keys
            && forall i :: i in S.incidents ==>
                 T.incidents[i] == if S.incidents[i] == Incident(m, IncidentOpen) then Incident(m, IncidentCanceled) else S.incidents[i]
  {}

  /** Switching a channel off or removing it withdraws what it has not sent, and forgets who was bound to it. */
  lemma ChannelWithdraws(S: Outbox, c: ChannelId, remove: bool)
    requires c in S.channels && !S.channels[c].deleted
    ensures var T := TurnOff(S, c, remove);
            && Withdraws(S, T, iset k: Key | k.channel == c)
            && T.incidents == S.incidents
            && T.channels == S.channels[c := Channel(false, remove)]
            && forall p: Pair :: if p.channel == c then p !in T.bindings
                           else (p in T.bindings <==> p in S.bindings) && (p in S.bindings ==> T.bindings[p] == S.bindings[p])
  {}

  /** New bindings replace the old ones of the monitor alone; rows get at most the mark. */
  lemma BindingsAreReplaced(S: Outbox, m: MonitorId, prefs: map<ChannelId, Prefs>)
    ensures var T := Rebind(S, m, prefs);
            && T == S.(bindings := T.bindings, rows := T.rows) && T.rows.Keys == S.rows.Keys
            && (forall k :: k in S.rows ==> T.rows[k] == S.rows[k].(disturbed := T.rows[k].disturbed))
            && forall p: Pair ::
                 if p.monitor == m
                 then (p in T.bindings <==> p.channel in prefs) && (p in T.bindings ==> T.bindings[p] == prefs[p.channel])
                 else (p in T.bindings <==> p in S.bindings) && (p in S.bindings ==> T.bindings[p] == S.bindings[p])
  {
    var bound := set c | c in prefs :: Pair(m, c);
    forall p: Pair | p.monitor == m ensures p in bound <==> p.channel in prefs { assert p == Pair(m, p.channel); }
  }

  /** The summary of an outage waits for each channel that is on, once, and a channel that was removed stays off. */
  lemma SummaryIsPostedOnce(S: Outbox, outage: nat, c: ChannelId)
    ensures var T, U, k := PostNetwork(S, outage, c), TurnOn(S, c), Network(outage, c);
            && T == S.(rows := T.rows) && (forall j :: j != k ==> (j in T.rows <==> j in S.rows) && (j in S.rows ==> T.rows[j] == S.rows[j]))
            && (k in S.rows || !On(S, c) ==> T == S)
            && (k !in S.rows && On(S, c) ==> k in T.rows && Waits(T.rows[k], NetworkRecovery, None, false, S.clock))
            && PostNetwork(T, outage, c) == T
            && U == S.(channels := U.channels) && (On(U, c) <==> !(c in S.channels && S.channels[c].deleted))
            && forall d :: d != c ==> (d in U.channels <==> d in S.channels) && (d in S.channels ==> U.channels[d] == S.channels[d])
  {}
}
