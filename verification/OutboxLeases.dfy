/** What the lease of a running send protects, over every run of the notification outbox. */
module OutboxLeases {
  import opened Domain
  import opened Outbox
  import opened OutboxInvariants
  import opened OutboxPreservation
  import opened OutboxTheorems

  // ---- undecided rows ---------------------------------------------------

  /** An undecided row always has a channel that is on. */
  ghost predicate LiveOk(S: Outbox) {
    forall k :: k in S.rows && !Terminal(S.rows[k].status) ==> ChannelOn(S, k.channel)
  }

  lemma StepKeepsLive(S: Outbox, s: Step)
    requires LiveOk(S)
    ensures LiveOk(Perform(S, s))
  {
    match s
    case DoOpen(i, m) => OpenKeepsLive(S, i, m);
    case DoResolve(i) => ResolveKeepsLive(S, i);
    case DoClaim(k, owner, leaseMs) => ClaimKeepsLive(S, k, owner, leaseMs);
    case DoMarkSent(a) => MarkSentKeepsLive(S, a);
    case DoMarkFailed(a, retryable, uncertain, delay) => MarkFailedKeepsLive(S, a, retryable, uncertain, delay);
    case _ => if Dispatching(s) { DispatchKeepsLive(S, s); } else { AdministrationKeepsLive(S, s); }
  }

  lemma OpenKeepsLive(S: Outbox, i: IncidentId, m: MonitorId)
    requires LiveOk(S)
    ensures LiveOk(OpenIncident(S, i, m))
  {}

  lemma ResolveKeepsLive(S: Outbox, i: IncidentId)
    requires LiveOk(S)
    ensures LiveOk(Resolve(S, i))
  {}

  lemma ClaimKeepsLive(S: Outbox, k: Key, owner: Owner, leaseMs: nat)
    requires LiveOk(S)
    ensures LiveOk(Claim(S, k, owner, leaseMs))
  {}

  lemma MarkSentKeepsLive(S: Outbox, a: Attempt)
    requires LiveOk(S)
    ensures LiveOk(MarkSent(S, a))
  {}

  lemma MarkFailedKeepsLive(S: Outbox, a: Attempt, retryable: bool, uncertain: bool, delay: nat)
    requires LiveOk(S)
    ensures LiveOk(MarkFailed(S, a, retryable, uncertain, delay))
  {}

  lemma DispatchKeepsLive(S: Outbox, s: Step)
    requires LiveOk(S) && Dispatching(s)
    ensures LiveOk(Perform(S, s))
  {
    var k, r := DispatchHandles(S, s);
  }

  lemma AdministrationKeepsLive(S: Outbox, s: Step)
    requires LiveOk(S) && Administrative(s)
    ensures LiveOk(Perform(S, s))
  {}

  lemma {:induction false} RunLives(clock: Time, events: seq<Event>)
    ensures LiveOk(Run(EmptyOutbox(clock), events))
  {
    if events != [] {
      var S, e := Run(EmptyOutbox(clock), events[..|events| - 1]), events[|events| - 1];
      RunLives(clock, events[..|events| - 1]);
      StepKeepsLive(S.(clock := e.now), e.step);
    }
  }

  // ---- running sends ----------------------------------------------------

  /** A dispatcher's reading of the clock is not later than its write. */
  predicate Timely(e: Event) {
    e.step.DoInspect? || e.step.DoTake? ==> e.step.asOf <= e.now
  }

  /** What may end a running send: a success of its row, its own failure, or an administrator acting on its monitor or channel. */
  predicate MayEnd(r: Row, k: Key, s: Step) {
    || (s.DoMarkSent? && s.a.key == k)
    || (s.DoMarkFailed? && s.a == Attempt(k, r.attempts))
    || (s.DoTurnOff? && s.c == k.channel)
    || (s.DoCancelRuntime? && r.monitor == Some(s.m))
  }

  /** The event is in time and is none of those that may end the send r of row k. */
  predicate Untouched(r: Row, k: Key, e: Event) { Timely(e) && !MayEnd(r, k, e.step) }

  /** r is a running send whose lease has not expired. */
  ghost predicate Running(S: Outbox, k: Key) {
    k in S.rows && S.rows[k].status.Processing? && S.rows[k].lease.Some? && S.clock <= S.rows[k].lease.value.until
  }

  /** The row is the same but for the administrators' mark. */
  ghost predicate Holds(r: Row, T: Outbox, k: Key) {
    k in T.rows && T.rows[k] == r.(disturbed := T.rows[k].disturbed)
  }

  /** No send of row k is in flight in T that was not in S. */
  ghost predicate NoNewSend(S: Outbox, T: Outbox, k: Key) {
    forall b: Attempt :: b.key == k && b in T.inFlight ==> b in S.inFlight
  }

  lemma StepHolds(S: Outbox, s: Step, k: Key)
    requires Inv(S) && LiveOk(S) && Running(S, k) && Timely(Event(S.clock, s)) && !MayEnd(S.rows[k], k, s)
    ensures Holds(S.rows[k], Perform(S, s), k) && NoNewSend(S, Perform(S, s), k)
  {
    if Dispatching(s) {
      DispatchHolds(S, s, k);
    } else if Administrative(s) {
      AdministrationHolds(S, s, k);
    } else {
      match s
      case DoOpen(i, m) => OpenHolds(S, i, m, k);
      case DoResolve(i) => ResolveHolds(S, i, k);
      case DoClaim(j, owner, leaseMs) => ClaimHolds(S, j, owner, leaseMs, k);
      case DoMarkSent(a) => SuccessHolds(S, a, k);
      case DoMarkFailed(a, retryable, uncertain, delay) => FailureHolds(S, a, retryable, uncertain, delay, k);
    }
  }

  lemma OpenHolds(S: Outbox, i: IncidentId, m: MonitorId, k: Key)
    requires ShapeOk(S) && Running(S, k)
    ensures Holds(S.rows[k], OpenIncident(S, i, m), k) && NoNewSend(S, OpenIncident(S, i, m), k)
  {
    if i !in S.incidents { OpenedRows(S, i, m); }
  }

  lemma ResolveHolds(S: Outbox, i: IncidentId, k: Key)
    requires ShapeOk(S) && Running(S, k)
    ensures Holds(S.rows[k], Resolve(S, i), k) && NoNewSend(S, Resolve(S, i), k)
  {
    assert CloseDown(S.rows[k]) == S.rows[k];
    if i in S.incidents && S.incidents[i].status.IncidentOpen? { ResolvedRows(S, i); }
  }

  lemma ClaimHolds(S: Outbox, j: Key, owner: Owner, leaseMs: nat, k: Key)
    requires LiveOk(S) && Running(S, k)
    ensures Holds(S.rows[k], Claim(S, j, owner, leaseMs), k) && NoNewSend(S, Claim(S, j, owner, leaseMs), k)
  {}

  lemma SuccessHolds(S: Outbox, a: Attempt, k: Key)
    requires Running(S, k) && a.key != k
    ensures Holds(S.rows[k], MarkSent(S, a), k) && NoNewSend(S, MarkSent(S, a), k)
  {}

  lemma FailureHolds(S: Outbox, a: Attempt, retryable: bool, uncertain: bool, delay: nat, k: Key)
    requires Running(S, k) && a != Attempt(k, S.rows[k].attempts)
    ensures var T := MarkFailed(S, a, retryable, uncertain, delay); Holds(S.rows[k], T, k) && NoNewSend(S, T, k)
  {}

  lemma DispatchHolds(S: Outbox, s: Step, k: Key)
    requires LiveOk(S) && Running(S, k) && Dispatching(s) && Timely(Event(S.clock, s))
    ensures Holds(S.rows[k], Perform(S, s), k) && NoNewSend(S, Perform(S, s), k)
  {}

  lemma AdministrationHolds(S: Outbox, s: Step, k: Key)
    requires Running(S, k) && Administrative(s) && !MayEnd(S.rows[k], k, s)
    ensures Holds(S.rows[k], Perform(S, s), k) && NoNewSend(S, Perform(S, s), k)
  {}

  lemma EventHolds(S: Outbox, e: Event, r: Row, k: Key)
    requires Inv(S) && LiveOk(S) && Holds(r, S, k) && r.status.Processing? && r.lease.Some?
    requires Apply(S, e).clock <= r.lease.value.until && Untouched(r, k, e)
    ensures Holds(r, Apply(S, e), k) && forall b: Attempt | b.key == k :: !Starts(S, e, b)
  {
    if e.now > S.clock {
      var U := S.(clock := e.now);
      TickKeeps(S, e.now);
      ClockIsEvent(S, e);
      StepHolds(U, e.step, k);
      assert NoNewSend(U, Perform(U, e.step), k);
    }
  }

  lemma ClockIsEvent(S: Outbox, e: Event)
    ensures S.clock <= Apply(S, e).clock && (e.now > S.clock ==> Apply(S, e).clock == e.now)
  {
    StepKeepsClock(S.(clock := e.now), e.step);
  }

  lemma StepKeepsClock(S: Outbox, s: Step)
    ensures Perform(S, s).clock == S.clock
  {
    if Dispatching(s) {
      DispatchKeepsClock(S, s);
    } else if Administrative(s) {
      AdministrationKeepsClock(S, s);
    }
  }

  lemma DispatchKeepsClock(S: Outbox, s: Step)
    requires Dispatching(s)
    ensures Perform(S, s).clock == S.clock
  {}

  lemma AdministrationKeepsClock(S: Outbox, s: Step)
    requires Administrative(s)
    ensures Perform(S, s).clock == S.clock
  {}

  /** A running send cannot be claimed before its lease expires. */
  lemma HeldIsTaken(r: Row, T: Outbox, k: Key)
    requires Holds(r, T, k) && r.status.Processing? && r.lease.Some? && T.clock <= r.lease.value.until
    ensures !CanAttempt(T.rows[k], T.clock) && forall asOf :: asOf <= T.clock ==> !Available(T.rows[k], asOf)
  {}

  lemma NextHolds(clock: Time, events: seq<Event>, l: nat, r: Row, k: Key)
    requires l < |events| && Holds(r, At(clock, events, l), k) && r.status.Processing? && r.lease.Some?
    requires At(clock, events, l + 1).clock <= r.lease.value.until && Untouched(r, k, events[l])
    ensures Holds(r, At(clock, events, l + 1), k)
    ensures forall b: Attempt | b.key == k :: !Starts(At(clock, events, l), events[l], b)
  {
    Next(clock, events, l);
    ClockIsEvent(At(clock, events, l), events[l]);
    Reachable(clock, events[..l]);
    RunLives(clock, events[..l]);
    EventHolds(At(clock, events, l), events[l], r, k);
  }

  lemma {:induction false} ClockGrows(clock: Time, events: seq<Event>, n: nat, m: nat)
    requires n <= m <= |events|
    ensures At(clock, events, n).clock <= At(clock, events, m).clock
    decreases m - n
  {
    if n < m {
      Next(clock, events, n);
      ClockIsEvent(At(clock, events, n), events[n]);
      ClockGrows(clock, events, n + 1, m);
    }
  }

  lemma {:induction false} StretchHolds(clock: Time, events: seq<Event>, n: nat, m: nat, r: Row, k: Key)
    requires n <= m <= |events| && Holds(r, At(clock, events, n), k) && r.status.Processing? && r.lease.Some?
    requires At(clock, events, m).clock <= r.lease.value.until
    requires forall l | n <= l < m :: Untouched(r, k, events[l])
    ensures Holds(r, At(clock, events, m), k)
    decreases m - n
  {
    if n < m {
      ClockGrows(clock, events, m - 1, m);
      StretchHolds(clock, events, n, m - 1, r, k);
      NextHolds(clock, events, m - 1, r, k);
    }
  }

  /**
   * Lease exclusion. Over any stretch of a run that ends no later than the lease of a running send, and in which neither
   * its own outcome is stored nor an administrator acts on its monitor or channel, whatever dispatchers, other processors
   * and stale sends do: the row is not changed, no other send of it starts, and nobody could claim it at the end.
   */
  lemma {:induction false} LeaseExclusion(clock: Time, events: seq<Event>, n: nat, m: nat, r: Row, k: Key)
    requires n <= m <= |events| && k in At(clock, events, n).rows && At(clock, events, n).rows[k] == r
    requires r.status.Processing? && r.lease.Some? && At(clock, events, m).clock <= r.lease.value.until
    requires forall l | n <= l < m :: Untouched(r, k, events[l])
    ensures var T := At(clock, events, m);
            && k in T.rows && T.rows[k] == r.(disturbed := T.rows[k].disturbed)
            && !CanAttempt(T.rows[k], T.clock) && (forall asOf :: asOf <= T.clock ==> !Available(T.rows[k], asOf))
    ensures forall l, b: Attempt | n <= l < m && b.key == k :: !Starts(At(clock, events, l), events[l], b)
  {
    StretchHolds(clock, events, n, m, r, k);
    HeldIsTaken(r, At(clock, events, m), k);
    forall l, b: Attempt | n <= l < m && b.key == k ensures !Starts(At(clock, events, l), events[l], b) {
      NothingStartsAt(clock, events, n, l, m, r, k);
    }
  }

  lemma NothingStartsAt(clock: Time, events: seq<Event>, n: nat, l: nat, m: nat, r: Row, k: Key)
    requires n <= l < m <= |events| && Holds(r, At(clock, events, n), k) && r.status.Processing? && r.lease.Some?
    requires At(clock, events, m).clock <= r.lease.value.until
    requires forall j | n <= j < m :: Untouched(r, k, events[j])
    ensures forall b: Attempt | b.key == k :: !Starts(At(clock, events, l), events[l], b)
  {
    ClockGrows(clock, events, l, m);
    ClockGrows(clock, events, l + 1, m);
    StretchHolds(clock, events, n, l, r, k);
    NextHolds(clock, events, l, r, k);
  }
}
