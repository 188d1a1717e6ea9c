/** The promises of the notification outbox, stated over every run. */
module OutboxTheorems {
  import opened Domain
  import opened Outbox
  import opened OutboxInvariants
  import opened OutboxPreservation

  // ---- one step, one row ------------------------------------------------

  /** How any step may change a row: rows never vanish, counters never fall, SENT never ends. */
  ghost predicate Evolves(r: Row, s: Row) {
    && s.event == r.event && s.monitor == r.monitor && s.allowsRecovery == r.allowsRecovery
    && s.maxAttempts == r.maxAttempts && s.createdAt == r.createdAt
    && r.attempts <= s.attempts <= r.attempts + 1
    && r.reactivations <= s.reactivations
    && (r.disturbed ==> s.disturbed)
    && (r.status.Sent? ==> s.status.Sent? && s.attempts == r.attempts)
    && (r.status.Canceled? && !s.status.Canceled? ==> s.reactivations > r.reactivations)
  }

  lemma StepEvolves(S: Outbox, s: Step, k: Key)
    requires Inv(S) && k in S.rows
    ensures k in Perform(S, s).rows && Evolves(S.rows[k], Perform(S, s).rows[k])
  {
    match s
    case DoOpen(i, m) => OpenEvolves(S, i, m, k);
    case DoResolve(i) => ResolveEvolves(S, i, k);
    case DoMarkSent(a) => MarkSentEvolves(S, a, k);
    case DoMarkFailed(a, retryable, uncertain, delay) => MarkFailedEvolves(S, a, retryable, uncertain, delay, k);
    case DoClaim(j, owner, leaseMs) => ClaimEvolves(S, j, owner, leaseMs, k);
    case _ => if Dispatching(s) { DispatchEvolves(S, s, k); } else { PlainStepEvolves(S, s, k); }
  }

  predicate Administrative(s: Step) {
    s.DoCancelRuntime? || s.DoTurnOff? || s.DoTurnOn? || s.DoRebind? || s.DoPostNetwork? || s.DoCrash? || s.DoDropPermit?
  }

  predicate Dispatching(s: Step) { s.DoInspect? || s.DoTake? || s.DoMarkEnqueued? || s.DoQueueFailed? }

  lemma PlainStepEvolves(S: Outbox, s: Step, k: Key)
    requires k in S.rows && Administrative(s)
    ensures k in Perform(S, s).rows && Evolves(S.rows[k], Perform(S, s).rows[k])
  {}

  /** What a dispatcher writes to a row it may still change. */
  ghost predicate Handled(r: Row, s: Row) {
    && !Terminal(r.status)
    && (s == Cancel(r, s.reason) || s == r.(status := s.status, availableAt := s.availableAt, lease := s.lease, reason := s.reason))
    && !s.status.Sent?
  }

  lemma HandledEvolves(r: Row, s: Row)
    requires Handled(r, s)
    ensures Evolves(r, s)
  {}

  lemma DispatchHandles(S: Outbox, s: Step) returns (k: Key, r: Row)
    requires Dispatching(s)
    ensures var T := Perform(S, s); T.rows == S.rows || (k in S.rows && Handled(S.rows[k], r) && T.rows == S.rows[k := r])
  {
    k := s.k;
    r := if k in Perform(S, s).rows then Perform(S, s).rows[k] else NewRow(EventType.Down, None, false, 0);
  }

  lemma DispatchEvolves(S: Outbox, s: Step, k: Key)
    requires k in S.rows && Dispatching(s)
    ensures k in Perform(S, s).rows && Evolves(S.rows[k], Perform(S, s).rows[k])
  {
    var j, r := DispatchHandles(S, s);
    if Perform(S, s).rows != S.rows { HandledEvolves(S.rows[j], r); }
  }

  lemma OpenEvolves(S: Outbox, i: IncidentId, m: MonitorId, k: Key)
    requires ShapeOk(S) && k in S.rows
    ensures k in OpenIncident(S, i, m).rows && Evolves(S.rows[k], OpenIncident(S, i, m).rows[k])
  {
    if i !in S.incidents { OpenedRows(S, i, m); }
  }

  lemma ResolveEvolves(S: Outbox, i: IncidentId, k: Key)
    requires ShapeOk(S) && k in S.rows
    ensures k in Resolve(S, i).rows && Evolves(S.rows[k], Resolve(S, i).rows[k])
  {
    if i in S.incidents && S.incidents[i].status.IncidentOpen? { ResolvedRows(S, i); }
  }

  lemma MarkSentEvolves(S: Outbox, a: Attempt, k: Key)
    requires Inv(S) && k in S.rows
    ensures k in MarkSent(S, a).rows && Evolves(S.rows[k], MarkSent(S, a).rows[k])
  {
    if a in S.inFlight && a.key in S.rows && !S.rows[a.key].status.Canceled? {
      FlightIsBehindDown(S, a);
      ConfirmedRows(S, a);
    }
  }

  lemma FailEvolves(S: Outbox, j: Key, k: Key)
    requires j in S.rows && k in S.rows && !Terminal(S.rows[j].status)
    ensures k in FailFinally(S.rows, j) && Evolves(S.rows[k], FailFinally(S.rows, j)[k])
  {}

  lemma MarkFailedEvolves(S: Outbox, a: Attempt, retryable: bool, uncertain: bool, delay: nat, k: Key)
    requires k in S.rows
    ensures var T := MarkFailed(S, a, retryable, uncertain, delay); k in T.rows && Evolves(S.rows[k], T.rows[k])
  {
    if a in S.inFlight && a.key in S.rows && S.rows[a.key].status.Processing? { FailEvolves(S, a.key, k); }
  }

  lemma ClaimEvolves(S: Outbox, j: Key, owner: Owner, leaseMs: nat, k: Key)
    requires k in S.rows
    ensures k in Claim(S, j, owner, leaseMs).rows && Evolves(S.rows[k], Claim(S, j, owner, leaseMs).rows[k])
  {
    if j in S.rows && CanAttempt(S.rows[j], S.clock) { FailEvolves(S, j, k); }
  }

  lemma ApplyEvolves(S: Outbox, e: Event, k: Key)
    requires Inv(S) && k in S.rows
    ensures k in Apply(S, e).rows && Evolves(S.rows[k], Apply(S, e).rows[k])
  {
    if e.now > S.clock {
      TickKeeps(S, e.now);
      StepEvolves(S.(clock := e.now), e.step, k);
    }
  }

  /** The state after the first n events of a run. */
  function At(clock: Time, events: seq<Event>, n: nat): Outbox
    requires n <= |events|
  {
    Run(EmptyOutbox(clock), events[..n])
  }

  lemma Next(clock: Time, events: seq<Event>, n: nat)
    requires n < |events|
    ensures At(clock, events, n + 1) == Apply(At(clock, events, n), events[n])
  {
    assert events[..n + 1][..n] == events[..n];
  }

  /** Over any stretch of a run a row survives, keeps its event and never leaves SENT. */
  lemma {:induction false} RowLives(clock: Time, events: seq<Event>, n: nat, m: nat, k: Key)
    requires n <= m <= |events| && k in At(clock, events, n).rows
    ensures k in At(clock, events, m).rows
    ensures var r, s := At(clock, events, n).rows[k], At(clock, events, m).rows[k];
            && s.event == r.event && s.maxAttempts == r.maxAttempts
            && r.attempts <= s.attempts && r.reactivations <= s.reactivations
            && (r.status.Sent? ==> s.status.Sent? && s.attempts == r.attempts)
    decreases m - n
  {
    if n < m {
      Next(clock, events, n);
      Reachable(clock, events[..n]);
      ApplyEvolves(At(clock, events, n), events[n], k);
      RowLives(clock, events, n + 1, m, k);
    }
  }

  // ---- delivery order ---------------------------------------------------

  /** Event n of the run commits a provider-confirmed attempt of row k as SENT. */
  ghost predicate ConfirmsAt(clock: Time, events: seq<Event>, n: nat, k: Key)
    requires n < |events|
  {
    && events[n].step.DoMarkSent? && events[n].step.a.key == k
    && events[n].step.a in At(clock, events, n).inFlight
    && k in At(clock, events, n + 1).rows && At(clock, events, n + 1).rows[k].status.Sent?
    && events[n].step.a in At(clock, events, n + 1).deliveries && At(clock, events, n + 1).deliveries[events[n].step.a].Succeeded?
  }

  /** A row becomes SENT only by storing the success of one of its own attempts. */
  lemma OnlySuccessSends(S: Outbox, s: Step, k: Key)
    requires Inv(S)
    ensures var T := Perform(S, s);
            k in T.rows && T.rows[k].status.Sent? && !(k in S.rows && S.rows[k].status.Sent?) ==>
              && s.DoMarkSent? && s.a.key == k && s.a in S.inFlight
              && s.a in T.deliveries && T.deliveries[s.a].Succeeded?
  {
    var T := Perform(S, s);
    if k in T.rows && T.rows[k].status.Sent? && !(k in S.rows && S.rows[k].status.Sent?) {
      if s.DoMarkSent? { SuccessSends(S, s.a, k); } else { OtherStepsDoNotSend(S, s, k); }
    }
  }

  lemma SuccessSends(S: Outbox, a: Attempt, k: Key)
    requires Inv(S)
    requires k in MarkSent(S, a).rows && MarkSent(S, a).rows[k].status.Sent?
    requires !(k in S.rows && S.rows[k].status.Sent?)
    ensures a.key == k && a in S.inFlight
    ensures a in MarkSent(S, a).deliveries && MarkSent(S, a).deliveries[a].Succeeded?
  {
    if a in S.inFlight && a.key in S.rows && !S.rows[a.key].status.Canceled? {
      FlightIsBehindDown(S, a);
      ConfirmedRows(S, a);
    }
  }

  lemma OtherStepsDoNotSend(S: Outbox, s: Step, k: Key)
    requires !s.DoMarkSent? && k in Perform(S, s).rows && Perform(S, s).rows[k].status.Sent?
    ensures k in S.rows && S.rows[k].status.Sent?
  {
    if Dispatching(s) {
      DispatchingDoesNotSend(S, s, k);
    } else if Administrative(s) {
      AdministrationDoesNotSend(S, s, k);
    }
  }

  lemma DispatchingDoesNotSend(S: Outbox, s: Step, k: Key)
    requires Dispatching(s) && k in Perform(S, s).rows && Perform(S, s).rows[k].status.Sent?
    ensures k in S.rows && S.rows[k].status.Sent?
  {
    var j, r := DispatchHandles(S, s);
  }

  lemma AdministrationDoesNotSend(S: Outbox, s: Step, k: Key)
    requires Administrative(s) && k in Perform(S, s).rows && Perform(S, s).rows[k].status.Sent?
    ensures k in S.rows && S.rows[k].status.Sent?
  {}

  lemma {:induction false} SentWasConfirmed(clock: Time, events: seq<Event>, n: nat, k: Key)
    requires n <= |events| && k in At(clock, events, n).rows && At(clock, events, n).rows[k].status.Sent?
    ensures exists m | 0 <= m < n :: ConfirmsAt(clock, events, m, k)
  {
    if n > 0 {
      var S := At(clock, events, n - 1);
      Next(clock, events, n - 1);
      if k in S.rows && S.rows[k].status.Sent? {
        SentWasConfirmed(clock, events, n - 1, k);
      } else {
        var e := events[n - 1];
        assert e.now > S.clock;
        TickIsReachable(clock, events[..n - 1], e.now);
        OnlySuccessSends(S.(clock := e.now), e.step, k);
        assert ConfirmsAt(clock, events, n - 1, k);
      }
    }
  }

  /** A step starts a send when it puts a new attempt in flight. */
  ghost predicate Starts(S: Outbox, e: Event, b: Attempt) {
    b !in S.inFlight && b in Apply(S, e).inFlight
  }

  lemma StartsBehindDown(S: Outbox, e: Event, b: Attempt)
    requires Starts(S, e, b)
    ensures e.now > S.clock && e.step.DoClaim? && e.step.k == b.key && b.key in S.rows
    ensures b.number == S.rows[b.key].attempts + 1 <= S.rows[b.key].maxAttempts
    ensures IsRecovery(S, b.key) ==> DownSent(S, b.key)
  {
    OnlyClaimsStart(S.(clock := e.now), e.step, b);
  }

  lemma OnlyClaimsStart(S: Outbox, s: Step, b: Attempt)
    requires b !in S.inFlight && b in Perform(S, s).inFlight
    ensures s.DoClaim?
  {
    if Dispatching(s) {
      DispatchingStartsNothing(S, s, b);
    } else if Administrative(s) {
      AdministrationStartsNothing(S, s, b);
    }
  }

  lemma DispatchingStartsNothing(S: Outbox, s: Step, b: Attempt)
    requires Dispatching(s) && b in Perform(S, s).inFlight
    ensures b in S.inFlight
  {}

  lemma AdministrationStartsNothing(S: Outbox, s: Step, b: Attempt)
    requires Administrative(s) && b in Perform(S, s).inFlight
    ensures b in S.inFlight
  {}

  /**
   * Delivery order. In every run, whatever leases expire and whatever stale attempts report, a RECOVERY send
   * starts only after an earlier event confirmed the DOWN of the same incident and channel and stored it as
   * SENT; and that DOWN is still SENT when the recovery starts and ever after.
   */
  lemma {:induction false} RecoveryFollowsDown(clock: Time, events: seq<Event>, n: nat, b: Attempt)
    requires n < |events| && Starts(At(clock, events, n), events[n], b)
    requires b.key.Closing? && b.key in At(clock, events, n).rows && At(clock, events, n).rows[b.key].event.Recovery?
    ensures var down := First(b.key.incident, b.key.channel);
            && (exists m | 0 <= m < n :: ConfirmsAt(clock, events, m, down))
            && (forall l | n <= l <= |events| ::
                  down in At(clock, events, l).rows && At(clock, events, l).rows[down].status.Sent?)
  {
    var down := First(b.key.incident, b.key.channel);
    StartsBehindDown(At(clock, events, n), events[n], b);
    SentWasConfirmed(clock, events, n, down);
    forall l | n <= l <= |events|
      ensures down in At(clock, events, l).rows && At(clock, events, l).rows[down].status.Sent?
    {
      RowLives(clock, events, n, l, down);
    }
  }

  lemma SentCannotStart(S: Outbox, e: Event, b: Attempt)
    requires Starts(S, e, b)
    ensures !(b.key in S.rows && S.rows[b.key].status.Sent?)
  {
    StartsBehindDown(S, e, b);
  }

  /** A confirmed delivery is final: SENT stays SENT, and no further attempt of the row ever starts. */
  lemma SentIsFinal(clock: Time, events: seq<Event>, n: nat, m: nat, k: Key)
    requires n <= m < |events| && k in At(clock, events, n).rows && At(clock, events, n).rows[k].status.Sent?
    ensures k in At(clock, events, m + 1).rows && At(clock, events, m + 1).rows[k].status.Sent?
    ensures forall b: Attempt :: b.key == k ==> !Starts(At(clock, events, m), events[m], b)
  {
    RowLives(clock, events, n, m, k);
    RowLives(clock, events, n, m + 1, k);
    forall b: Attempt | b.key == k ensures !Starts(At(clock, events, m), events[m], b) {
      if Starts(At(clock, events, m), events[m], b) {
        SentCannotStart(At(clock, events, m), events[m], b);
      }
    }
  }

  // ---- closing messages -------------------------------------------------

  ghost predicate LiveRecovery(S: Outbox, i: IncidentId, c: ChannelId) {
    && IsRecovery(S, Closing(i, c))
    && !(S.rows[Closing(i, c)].status.Canceled? && S.rows[Closing(i, c)].reason.DownNotDelivered?)
  }

  ghost predicate HasSummary(S: Outbox, i: IncidentId, c: ChannelId) {
    Closing(i, c) in S.rows && S.rows[Closing(i, c)].event.ResolvedSummary?
  }

  /**
   * The closing-message table. Once an incident is RESOLVED, a DOWN row that asked for a recovery, and whose
   * channel and binding were left alone, has exactly the closing message its fate calls for.
   */
  lemma ClosingMessages(clock: Time, events: seq<Event>, k: Key)
    requires var S := Run(EmptyOutbox(clock), events);
             Watched(S, k) && k.incident in S.incidents && S.incidents[k.incident].status.IncidentResolved?
    ensures var S := Run(EmptyOutbox(clock), events);
            var d, q := S.rows[k], Closing(k.incident, k.channel);
            && (LiveRecovery(S, k.incident, k.channel) <==> d.status.Sent? || !Terminal(d.status))
            && (HasSummary(S, k.incident, k.channel) <==> d.status.Canceled?)
            && (d.status.Canceled? ==> d.attempts == 0)
            && (!Terminal(d.status) ==> S.rows[q].status.Pending? && S.rows[q].attempts == 0)
            && (d.status.Failed? && q in S.rows ==> S.rows[q].status.Canceled? && S.rows[q].attempts == 0)
  {
    var S := Run(EmptyOutbox(clock), events);
    Reachable(clock, events);
    assert TableRow(S, k);
    if Closing(k.incident, k.channel) in S.rows { assert ReasonRow(S, Closing(k.incident, k.channel)); }
  }

  /** A pair never gets both a recovery and a summary: if one ever existed, the other never does. */
  lemma RecoveryAndSummaryExclude(clock: Time, events: seq<Event>, n: nat, m: nat, i: IncidentId, c: ChannelId)
    requires n <= |events| && m <= |events|
    requires IsRecovery(At(clock, events, n), Closing(i, c))
    ensures !HasSummary(At(clock, events, m), i, c)
  {
    if n <= m {
      RowLives(clock, events, n, m, Closing(i, c));
    } else if HasSummary(At(clock, events, m), i, c) {
      RowLives(clock, events, m, n, Closing(i, c));
    }
  }

  /**
   * Which closing message a resolution writes. The design asks for one summary whenever the DOWN was not yet
   * attempted; the code decides by status too, so an untried DOWN that a dispatcher holds in RETRY gets a
   * recovery instead. For an untried, undecided DOWN the summary is written exactly when it is not in RETRY.
   */
  lemma {:induction false} UntriedDownGetsSummaryIff(clock: Time, events: seq<Event>, i: IncidentId, k: Key)
    requires var S := Run(EmptyOutbox(clock), events);
             && i in S.incidents && S.incidents[i].status.IncidentOpen? && WantsClosing(S, i, k)
             && S.rows[k].attempts == 0 && !Terminal(S.rows[k].status)
    ensures var S := Run(EmptyOutbox(clock), events);
            var T := Resolve(S, i);
            && (HasSummary(T, i, k.channel) <==> !S.rows[k].status.Retry?)
            && (IsRecovery(T, Closing(i, k.channel)) <==> S.rows[k].status.Retry?)
  {
    var S := Run(EmptyOutbox(clock), events);
    Reachable(clock, events);
    RunLeases(clock, events);
    ResolvedRows(S, i);
    ClosingIsFresh(S, i);
  }

  /**
   * When a resolution writes a closing message. The design lets a binding change take effect only for the next
   * incident, so that what the DOWN row recorded would decide; the code also asks for today's binding. For a DOWN
   * that was not given up, on a channel that is on and asked for a recovery, a message is written exactly when the
   * channel is still bound for recovery.
   */
  lemma {:induction false} ClosingNeedsBindingToday(clock: Time, events: seq<Event>, i: IncidentId, c: ChannelId)
    requires var S := Run(EmptyOutbox(clock), events);
             && i in S.incidents && S.incidents[i].status.IncidentOpen? && First(i, c) in S.rows
             && ChannelOn(S, c) && S.rows[First(i, c)].allowsRecovery
             && !S.rows[First(i, c)].status.Failed? && !S.rows[First(i, c)].status.Canceled?
    ensures var S := Run(EmptyOutbox(clock), events);
            Closing(i, c) in Resolve(S, i).rows <==> RecoveryBound(S, S.incidents[i].monitor, c)
  {
    var S := Run(EmptyOutbox(clock), events);
    Reachable(clock, events);
    assert RowShape(S, First(i, c), S.rows[First(i, c)]);
    ResolvedRows(S, i);
    ClosingIsFresh(S, i);
  }

  /** The disagreement happens: the binding is dropped while the incident is open, and no message is written. */
  lemma DroppedBindingSilencesRecovery() returns (events: seq<Event>)
    ensures var S := Run(EmptyOutbox(0), events);
            && First(0, 0) in S.rows && S.rows[First(0, 0)].allowsRecovery && !Terminal(S.rows[First(0, 0)].status)
            && 0 in S.incidents && S.incidents[0].status.IncidentResolved? && ChannelOn(S, 0)
            && Closing(0, 0) !in S.rows
  {
    var prefs := map[0 := Prefs(true, true)];
    var e1, e2, e3 := Event(1, DoTurnOn(0)), Event(2, DoRebind(0, prefs)), Event(3, DoOpen(0, 0));
    var e4, e5, e6 := Event(4, DoRebind(0, map[])), Event(5, DoTurnOn(0)), Event(6, DoResolve(0));
    events := [e1, e2, e3, e4, e5, e6];
    RunSix(EmptyOutbox(0), e1, e2, e3, e4, e5, e6);
    var S2 := Apply(Apply(EmptyOutbox(0), e1), e2);
    BoundOnce(prefs);
    OneDownOpens(S2.(clock := 3));
    UnboundResolves(Apply(S2, e3), e4, e5, e6);
  }

  lemma UnboundResolves(S: Outbox, e: Event, f: Event, g: Event)
    requires First(0, 0) in S.rows && OneDown(S, S.rows[First(0, 0)]) && !Terminal(S.rows[First(0, 0)].status)
    requires S.clock < e.now < f.now < g.now
    requires e.step == DoRebind(0, map[]) && f.step == DoTurnOn(0) && g.step == DoResolve(0)
    ensures var T := Apply(Apply(Apply(S, e), f), g);
            && First(0, 0) in T.rows && T.rows[First(0, 0)].allowsRecovery && !Terminal(T.rows[First(0, 0)].status)
            && 0 in T.incidents && T.incidents[0].status.IncidentResolved? && ChannelOn(T, 0) && Closing(0, 0) !in T.rows
  {
    var U := Apply(Apply(S, e), f).(clock := g.now);
    assert !RecoveryBound(U, 0, 0);
    assert ClosingKeys(U, 0) == {};
  }

  ghost predicate OneDown(S: Outbox, r: Row) {
    && S.rows == map[First(0, 0) := r] && r.event.Down? && r.monitor == Some(0) && r.allowsRecovery && r.attempts == 0
    && S.incidents == map[0 := Incident(0, IncidentOpen)] && S.deliveries == map[]
    && ChannelOn(S, 0) && RecoveryBound(S, 0, 0)
  }

  lemma OneDownOpens(S: Outbox)
    requires S.rows == map[] && S.incidents == map[] && S.deliveries == map[]
    requires S.channels == map[0 := Channel(true, false)] && S.bindings == map[Pair(0, 0) := Prefs(true, true)]
    ensures OneDown(OpenIncident(S, 0, 0), NewRow(EventType.Down, Some(0), true, S.clock))
  {
    var p := Pair(0, 0);
    assert NotifiesOnDown(S, 0, p);
    assert OpeningKeys(S, 0, 0) == {First(0, 0)};
  }

  lemma OneDownIsTaken(S: Outbox, e: Event, f: Event)
    requires OneDown(S, NewRow(EventType.Down, Some(0), true, S.clock)) && S.clock < e.now < f.now
    requires e.step == DoInspect(0, First(0, 0), e.now) && f.step == DoTake(0, First(0, 0), f.now, 30_000)
    ensures var T := Apply(Apply(S, e), f);
            First(0, 0) in T.rows && OneDown(T, T.rows[First(0, 0)]) && T.rows[First(0, 0)].status.Retry? && T.clock == f.now
  {
    assert Permit(0, First(0, 0)) in Apply(S, e).cleared;
  }

  lemma TakenDownResolves(S: Outbox)
    requires First(0, 0) in S.rows && OneDown(S, S.rows[First(0, 0)]) && S.rows[First(0, 0)].status.Retry?
    ensures var T := Resolve(S, 0);
            && IsRecovery(T, Closing(0, 0)) && T.deliveries == map[]
            && First(0, 0) in T.rows && T.rows[First(0, 0)] == S.rows[First(0, 0)]
  {
    assert WantsClosing(S, 0, First(0, 0));
    assert Closing(0, 0) in ClosingKeys(S, 0);
  }

  /** The disagreement happens: a channel is bound, its DOWN is taken for the queue, and the incident resolves. */
  lemma UntriedDownMayGetRecovery() returns (events: seq<Event>)
    ensures var S := Run(EmptyOutbox(0), events);
            && First(0, 0) in S.rows && S.rows[First(0, 0)].attempts == 0 && S.rows[First(0, 0)].status.Retry?
            && IsRecovery(S, Closing(0, 0)) && S.deliveries == map[]
  {
    var k, prefs := First(0, 0), map[0 := Prefs(true, true)];
    var e1, e2, e3 := Event(1, DoTurnOn(0)), Event(2, DoRebind(0, prefs)), Event(3, DoOpen(0, 0));
    var e4, e5, e6 := Event(4, DoInspect(0, k, 4)), Event(5, DoTake(0, k, 5, 30_000)), Event(6, DoResolve(0));
    events := [e1, e2, e3, e4, e5, e6];
    RunSix(EmptyOutbox(0), e1, e2, e3, e4, e5, e6);
    var S2 := Apply(Apply(EmptyOutbox(0), e1), e2);
    BoundOnce(prefs);
    OneDownOpens(S2.(clock := 3));
    QueuedDownResolves(Apply(S2, e3), e4, e5, e6);
  }

  lemma QueuedDownResolves(S: Outbox, e: Event, f: Event, g: Event)
    requires OneDown(S, NewRow(EventType.Down, Some(0), true, S.clock)) && S.clock < e.now < f.now < g.now
    requires e.step == DoInspect(0, First(0, 0), e.now) && f.step == DoTake(0, First(0, 0), f.now, 30_000) && g.step == DoResolve(0)
    ensures var T := Apply(Apply(Apply(S, e), f), g);
            && First(0, 0) in T.rows && T.rows[First(0, 0)].attempts == 0 && T.rows[First(0, 0)].status.Retry?
            && IsRecovery(T, Closing(0, 0)) && T.deliveries == map[]
  {
    OneDownIsTaken(S, e, f);
    TakenDownResolves(Apply(Apply(S, e), f).(clock := g.now));
  }

  lemma BoundOnce(prefs: map<ChannelId, Prefs>)
    requires prefs == map[0 := Prefs(true, true)]
    ensures var S := Apply(Apply(EmptyOutbox(0), Event(1, DoTurnOn(0))), Event(2, DoRebind(0, prefs)));
            && S.clock == 2 && S.rows == map[] && S.incidents == map[] && S.deliveries == map[]
            && S.channels == map[0 := Channel(true, false)] && S.bindings == map[Pair(0, 0) := Prefs(true, true)]
  {
    assert (set c | c in prefs :: Pair(0, c)) == {Pair(0, 0)} by { assert 0 in prefs; }
  }

  lemma RunSix(S: Outbox, e1: Event, e2: Event, e3: Event, e4: Event, e5: Event, e6: Event)
    ensures Run(S, [e1, e2, e3, e4, e5, e6]) == Apply(Apply(Apply(Apply(Apply(Apply(S, e1), e2), e3), e4), e5), e6)
  {
    assert [e1, e2, e3, e4, e5, e6][..5] == [e1, e2, e3, e4, e5];
    assert [e1, e2, e3, e4, e5][..4] == [e1, e2, e3, e4];
    assert [e1, e2, e3, e4][..3] == [e1, e2, e3];
    assert [e1, e2, e3][..2] == [e1, e2];
    assert [e1, e2][..1] == [e1];
    assert [e1][..0] == [];
    assert Run(S, []) == S;
    assert Run(S, [e1]) == Apply(S, e1);
    assert Run(S, [e1, e2]) == Apply(Run(S, [e1]), e2);
    assert Run(S, [e1, e2, e3]) == Apply(Run(S, [e1, e2]), e3);
    assert Run(S, [e1, e2, e3, e4]) == Apply(Run(S, [e1, e2, e3]), e4);
    assert Run(S, [e1, e2, e3, e4, e5]) == Apply(Run(S, [e1, e2, e3, e4]), e5);
  }

  // ---- closing messages of late successes --------------------------------

  /** A recovery of the pair is written and not canceled. */
  ghost predicate Standing(S: Outbox, i: IncidentId, c: ChannelId) {
    IsRecovery(S, Closing(i, c)) && !S.rows[Closing(i, c)].status.Canceled?
  }

  /** The pair's recovery was canceled because its DOWN had not been delivered. */
  ghost predicate Fallen(S: Outbox, i: IncidentId, c: ChannelId) {
    && Closing(i, c) in S.rows
    && S.rows[Closing(i, c)].status.Canceled? && S.rows[Closing(i, c)].reason.DownNotDelivered?
  }

  /** From S to T, the recovery of a pair without a summary is restored iff `bound`. */
  ghost predicate MendedIf(S: Outbox, T: Outbox, i: IncidentId, c: ChannelId, bound: bool) {
    var q := Closing(i, c);
    && !HasSummary(S, i, c)
    && (q !in S.rows ==> (Standing(T, i, c) <==> bound) && (q in T.rows <==> bound))
    && (Fallen(S, i, c) ==> (Standing(T, i, c) <==> bound))
    && (q in S.rows && !(Fallen(S, i, c) && bound) ==> q in T.rows && T.rows[q] == S.rows[q])
    && ((q in S.rows && S.rows[q].status.Canceled? ==> Fallen(S, i, c)) ==> (Standing(T, i, c) <==> Standing(S, i, c) || bound))
  }

  /** A summary takes the place of a DOWN that was never tried, and that DOWN stays CANCELED. */
  lemma {:induction false} SummaryReplacesDown(clock: Time, events: seq<Event>, i: IncidentId, c: ChannelId)
    requires HasSummary(Run(EmptyOutbox(clock), events), i, c)
    ensures var S := Run(EmptyOutbox(clock), events); First(i, c) in S.rows && S.rows[First(i, c)].status.Canceled?
  {
    if events != [] {
      var before, e := events[..|events| - 1], events[|events| - 1];
      var S := Run(EmptyOutbox(clock), before);
      Reachable(clock, before);
      Reachable(clock, events);
      if HasSummary(S, i, c) {
        SummaryReplacesDown(clock, before, i, c);
        ApplyEvolves(S, e, First(i, c));
        assert ReasonRow(Apply(S, e), First(i, c));
      } else {
        TickKeeps(S, e.now);
        OnlyResolutionSummarises(S.(clock := e.now), e.step, i, c);
      }
    }
  }

  lemma OnlyResolutionSummarises(S: Outbox, s: Step, i: IncidentId, c: ChannelId)
    requires Inv(S) && !HasSummary(S, i, c) && HasSummary(Perform(S, s), i, c)
    ensures var T := Perform(S, s); First(i, c) in T.rows && T.rows[First(i, c)].status.Canceled?
  {
    var q := Closing(i, c);
    if q in S.rows { StepEvolves(S, s, q); }
    if s.DoResolve? {
      if s.i in S.incidents && S.incidents[s.i].status.IncidentOpen? { ResolvedRows(S, s.i); }
    } else if s.DoMarkSent? {
      if s.a in S.inFlight && s.a.key in S.rows && !S.rows[s.a.key].status.Canceled? {
        FlightIsBehindDown(S, s.a);
        ConfirmedRows(S, s.a);
      }
    } else {
      OtherStepsWriteNoClosing(S, s, q);
    }
  }

  lemma OtherStepsWriteNoClosing(S: Outbox, s: Step, q: Key)
    requires !s.DoResolve? && !s.DoMarkSent? && q.Closing? && q in Perform(S, s).rows
    ensures q in S.rows
  {
    if Dispatching(s) { var k, r := DispatchHandles(S, s); }
  }

  /**
   * What a stored success of a DOWN does for its recovery, however late it comes. The design lets what the DOWN row
   * recorded decide; the code also asks for today's binding. If the incident is resolved, the DOWN asked for a recovery,
   * the channel is on and no administrator canceled the recovery, then a recovery stands afterwards iff one stood before
   * or the channel is bound for recovery now. A missing recovery is written, a fallen one put back; any other is left alone.
   */
  lemma {:induction false} LateSuccessNeedsBindingToday(clock: Time, events: seq<Event>, now: Time, a: Attempt)
    requires var S := Run(EmptyOutbox(clock), events);
             && now > S.clock && a in S.inFlight && a.key.First? && a.key in S.rows && !S.rows[a.key].status.Canceled?
             && S.rows[a.key].allowsRecovery && ChannelOn(S, a.key.channel)
             && a.key.incident in S.incidents && S.incidents[a.key.incident].status.IncidentResolved?
    ensures var S := Run(EmptyOutbox(clock), events);
            var T := Apply(S, Event(now, DoMarkSent(a)));
            MendedIf(S, T, a.key.incident, a.key.channel, RecoveryBound(S, S.incidents[a.key.incident].monitor, a.key.channel))
  {
    var S := Run(EmptyOutbox(clock), events);
    Reachable(clock, events);
    TickKeeps(S, now);
    if HasSummary(S, a.key.incident, a.key.channel) {
      SummaryReplacesDown(clock, events, a.key.incident, a.key.channel);
    } else {
      SuccessMends(S.(clock := now), a);
    }
  }

  lemma SuccessMends(S: Outbox, a: Attempt)
    requires Inv(S) && a in S.inFlight && a.key.First? && a.key in S.rows && !S.rows[a.key].status.Canceled?
    requires S.rows[a.key].allowsRecovery && ChannelOn(S, a.key.channel) && !HasSummary(S, a.key.incident, a.key.channel)
    requires a.key.incident in S.incidents && S.incidents[a.key.incident].status.IncidentResolved?
    ensures var T := MarkSent(S, a);
            MendedIf(S, T, a.key.incident, a.key.channel, RecoveryBound(S, S.incidents[a.key.incident].monitor, a.key.channel))
  {
    var q := Closing(a.key.incident, a.key.channel);
    assert RowShape(S, a.key, S.rows[a.key]);
    if q in S.rows { assert RowShape(S, q, S.rows[q]); }
  }

  lemma RunMore(S: Outbox, events: seq<Event>, e: Event)
    ensures Run(S, events + [e]) == Apply(Run(S, events), e)
  {
    assert (events + [e])[..|events|] == events;
  }

  /** The pair of monitor 0 and channel 0, whose only row is its DOWN and whose first send may still be confirmed. */
  ghost predicate LoneDown(S: Outbox, r: Row, status: IncidentStatus) {
    && S.rows == map[First(0, 0) := r] && r.event.Down? && r.monitor == Some(0) && r.allowsRecovery && r.maxAttempts == 3
    && S.incidents == map[0 := Incident(0, status)] && ChannelOn(S, 0)
  }

  lemma DownIsEnqueued(S: Outbox, e: Event, f: Event, g: Event)
    requires OneDown(S, NewRow(EventType.Down, Some(0), true, S.clock)) && S.clock < e.now < f.now < g.now
    requires e.step == DoInspect(0, First(0, 0), e.now) && f.step == DoTake(0, First(0, 0), f.now, 30_000)
    requires g.step == DoMarkEnqueued(0, First(0, 0), g.now, 30_000)
    ensures var T := Apply(Apply(Apply(S, e), f), g);
            && T.clock == g.now && First(0, 0) in T.rows && OneDown(T, T.rows[First(0, 0)])
            && T.rows[First(0, 0)].status.Enqueued? && T.rows[First(0, 0)].maxAttempts == 3
  {
    assert Permit(0, First(0, 0)) in Apply(S, e).cleared;
    OneDownIsTaken(S, e, f);
  }

  lemma FirstSendStarts(S: Outbox, e: Event)
    requires First(0, 0) in S.rows && OneDown(S, S.rows[First(0, 0)]) && S.rows[First(0, 0)].maxAttempts == 3
    requires S.rows[First(0, 0)].status.Enqueued? && S.clock < e.now && e.step == DoClaim(First(0, 0), 0, 30_000)
    ensures var T := Apply(S, e);
            && T.clock == e.now && First(0, 0) in T.rows && LoneDown(T, T.rows[First(0, 0)], IncidentOpen)
            && T.rows[First(0, 0)].status.Processing? && T.rows[First(0, 0)].attempts == 1
            && T.rows[First(0, 0)].lease == Some(Lease(0, e.now + 30_000)) && Attempt(First(0, 0), 1) in T.inFlight
  {}

  lemma SecondSendStarts(S: Outbox, e: Event)
    requires First(0, 0) in S.rows && LoneDown(S, S.rows[First(0, 0)], IncidentOpen) && S.rows[First(0, 0)].status.Processing?
    requires S.rows[First(0, 0)].attempts == 1 && S.rows[First(0, 0)].lease == Some(Lease(0, S.clock + 30_000))
    requires Attempt(First(0, 0), 1) in S.inFlight && S.clock + 30_000 < e.now && e.step == DoClaim(First(0, 0), 1, 30_000)
    ensures var T := Apply(S, e);
            && T.clock == e.now && First(0, 0) in T.rows && LoneDown(T, T.rows[First(0, 0)], IncidentOpen)
            && T.rows[First(0, 0)].status.Processing? && T.rows[First(0, 0)].attempts == 2
            && Attempt(First(0, 0), 1) in T.inFlight && Attempt(First(0, 0), 2) in T.inFlight
  {}

  lemma SecondSendFails(S: Outbox, e: Event)
    requires First(0, 0) in S.rows && LoneDown(S, S.rows[First(0, 0)], IncidentOpen) && S.rows[First(0, 0)].status.Processing?
    requires S.rows[First(0, 0)].attempts == 2 && Attempt(First(0, 0), 1) in S.inFlight && Attempt(First(0, 0), 2) in S.inFlight
    requires S.clock < e.now && e.step == DoMarkFailed(Attempt(First(0, 0), 2), false, false, 0)
    ensures var T := Apply(S, e);
            && T.clock == e.now && First(0, 0) in T.rows && LoneDown(T, T.rows[First(0, 0)], IncidentOpen)
            && T.rows[First(0, 0)].status.Failed? && Attempt(First(0, 0), 1) in T.inFlight
  {}

  lemma FailedDownResolves(S: Outbox, e: Event)
    requires First(0, 0) in S.rows && LoneDown(S, S.rows[First(0, 0)], IncidentOpen) && S.rows[First(0, 0)].status.Failed?
    requires S.clock < e.now && e.step == DoResolve(0)
    ensures var T := Apply(S, e);
            && T.clock == e.now && T.rows == S.rows && LoneDown(T, S.rows[First(0, 0)], IncidentResolved) && T.inFlight == S.inFlight
  {
    assert ClosingKeys(S.(clock := e.now), 0) == {};
    assert Apply(S, e).rows == S.rows;
  }

  lemma BindingIsDropped(S: Outbox, e: Event)
    requires First(0, 0) in S.rows && LoneDown(S, S.rows[First(0, 0)], IncidentResolved)
    requires S.clock < e.now && e.step == DoRebind(0, map[])
    ensures var T := Apply(S, e);
            && T.clock == e.now && T.inFlight == S.inFlight && !RecoveryBound(T, 0, 0)
            && First(0, 0) in T.rows && LoneDown(T, T.rows[First(0, 0)], IncidentResolved)
            && T.rows[First(0, 0)].status == S.rows[First(0, 0)].status
  {}

  lemma UnboundSuccess(S: Outbox, e: Event)
    requires First(0, 0) in S.rows && LoneDown(S, S.rows[First(0, 0)], IncidentResolved) && S.rows[First(0, 0)].status.Failed?
    requires Attempt(First(0, 0), 1) in S.inFlight && !RecoveryBound(S, 0, 0)
    requires S.clock < e.now && e.step == DoMarkSent(Attempt(First(0, 0), 1))
    ensures var T := Apply(S, e);
            && First(0, 0) in T.rows && LoneDown(T, T.rows[First(0, 0)], IncidentResolved) && T.rows[First(0, 0)].status.Sent?
  {}

  /**
   * The disagreement happens here too: a DOWN has FAILED when its incident is resolved, the binding is dropped, and the
   * success of its first send is stored afterwards. The DOWN is SENT and asked for a recovery, but none is ever written.
   */
  lemma LateSuccessMayLackRecovery() returns (events: seq<Event>)
    ensures var S := Run(EmptyOutbox(0), events);
            && First(0, 0) in S.rows && S.rows[First(0, 0)].allowsRecovery && S.rows[First(0, 0)].status.Sent?
            && 0 in S.incidents && S.incidents[0].status.IncidentResolved? && ChannelOn(S, 0)
            && Closing(0, 0) !in S.rows
  {
    var k, prefs := First(0, 0), map[0 := Prefs(true, true)];
    var e1, e2, e3 := Event(1, DoTurnOn(0)), Event(2, DoRebind(0, prefs)), Event(3, DoOpen(0, 0));
    var e4, e5, e6 := Event(4, DoInspect(0, k, 4)), Event(5, DoTake(0, k, 5, 30_000)), Event(6, DoMarkEnqueued(0, k, 6, 30_000));
    var e7, e8 := Event(7, DoClaim(k, 0, 30_000)), Event(40_000, DoClaim(k, 1, 30_000));
    var e9 := Event(40_001, DoMarkFailed(Attempt(k, 2), false, false, 0));
    var e10, e11, e12 := Event(40_002, DoResolve(0)), Event(40_003, DoRebind(0, map[])), Event(40_004, DoMarkSent(Attempt(k, 1)));
    var start := [e1, e2, e3, e4, e5, e6];
    events := RunTwelve(start, e7, e8, e9, e10, e11, e12);
    RunSix(EmptyOutbox(0), e1, e2, e3, e4, e5, e6);
    var S2 := Apply(Apply(EmptyOutbox(0), e1), e2);
    BoundOnce(prefs);
    OneDownOpens(S2.(clock := 3));
    DownIsEnqueued(Apply(S2, e3), e4, e5, e6);
    FailedDownIsConfirmed(Run(EmptyOutbox(0), start), e7, e8, e9, e10, e11, e12);
  }

  lemma RunTwelve(start: seq<Event>, e7: Event, e8: Event, e9: Event, e10: Event, e11: Event, e12: Event) returns (events: seq<Event>)
    ensures events == start + [e7] + [e8] + [e9] + [e10] + [e11] + [e12]
    ensures Run(EmptyOutbox(0), events)
            == Apply(Apply(Apply(Apply(Apply(Apply(Run(EmptyOutbox(0), start), e7), e8), e9), e10), e11), e12)
  {
    RunMore(EmptyOutbox(0), start, e7);
    RunMore(EmptyOutbox(0), start + [e7], e8);
    RunMore(EmptyOutbox(0), start + [e7] + [e8], e9);
    RunMore(EmptyOutbox(0), start + [e7] + [e8] + [e9], e10);
    RunMore(EmptyOutbox(0), start + [e7] + [e8] + [e9] + [e10], e11);
    RunMore(EmptyOutbox(0), start + [e7] + [e8] + [e9] + [e10] + [e11], e12);
    events := start + [e7] + [e8] + [e9] + [e10] + [e11] + [e12];
  }

  lemma FailedDownIsConfirmed(S: Outbox, e4: Event, e5: Event, e6: Event, e7: Event, e8: Event, e9: Event)
    requires First(0, 0) in S.rows && OneDown(S, S.rows[First(0, 0)]) && S.rows[First(0, 0)].maxAttempts == 3
    requires S.rows[First(0, 0)].status.Enqueued?
    requires S.clock < e4.now < e4.now + 30_000 < e5.now < e6.now < e7.now < e8.now < e9.now
    requires e4.step == DoClaim(First(0, 0), 0, 30_000) && e5.step == DoClaim(First(0, 0), 1, 30_000)
    requires e6.step == DoMarkFailed(Attempt(First(0, 0), 2), false, false, 0)
    requires e7.step == DoResolve(0) && e8.step == DoRebind(0, map[]) && e9.step == DoMarkSent(Attempt(First(0, 0), 1))
    ensures var T := Apply(Apply(Apply(Apply(Apply(Apply(S, e4), e5), e6), e7), e8), e9);
            && First(0, 0) in T.rows && LoneDown(T, T.rows[First(0, 0)], IncidentResolved) && T.rows[First(0, 0)].status.Sent?
  {
    var S4 := Apply(S, e4);
    var S5 := Apply(S4, e5);
    var S6 := Apply(S5, e6);
    FirstSendStarts(S, e4);
    SecondSendStarts(S4, e5);
    SecondSendFails(S5, e6);
    var S7 := Apply(S6, e7);
    FailedDownResolves(S6, e7);
    BindingIsDropped(S7, e8);
    UnboundSuccess(Apply(S7, e8), e9);
  }

  // ---- attempts ---------------------------------------------------------

  /** Attempt accounting: what the deliveries of a row look like in every reachable state. */
  lemma {:induction false} AttemptAccounting(clock: Time, events: seq<Event>, k: Key)
    requires k in Run(EmptyOutbox(clock), events).rows
    ensures var S := Run(EmptyOutbox(clock), events);
            var r := S.rows[k];
            && r.attempts <= r.maxAttempts
            && (forall n: nat :: Attempt(k, n) in S.deliveries <==> 1 <= n <= r.attempts)
            && (forall n: nat :: Attempt(k, n) in S.deliveries && S.deliveries[Attempt(k, n)].Attempting? ==> n == r.attempts)
            && (Confirmed(S, k) ==> r.status.Sent? || r.status.Canceled?)
            && (r.status.Sent? ==> Confirmed(S, k))
            && r.reactivations <= 1
  {
    var S := Run(EmptyOutbox(clock), events);
    Reachable(clock, events);
    assert RowShape(S, k, S.rows[k]);
    assert ReasonRow(S, k);
  }

  /** Once a newer attempt of its row has started, an attempt's failure never changes any row again. */
  lemma SupersededFailureIsHarmless(clock: Time, events: seq<Event>, n: nat, m: nat, a: Attempt)
    requires n <= m < |events| && a.key in At(clock, events, n).rows && a.number < At(clock, events, n).rows[a.key].attempts
    requires events[m].step.DoMarkFailed? && events[m].step.a == a
    ensures At(clock, events, m + 1).rows == At(clock, events, m).rows
  {
    RowLives(clock, events, n, m, a.key);
    Next(clock, events, m);
  }

  /** A superseded attempt's success, however late, still makes its row SENT unless the row was canceled. */
  lemma LateSuccessWins(clock: Time, events: seq<Event>, n: nat)
    requires n < |events| && events[n].now > At(clock, events, n).clock && events[n].step.DoMarkSent?
    requires var a := events[n].step.a;
             a in At(clock, events, n).inFlight && a.key in At(clock, events, n).rows
             && !At(clock, events, n).rows[a.key].status.Canceled?
    ensures var T, k := At(clock, events, n + 1), events[n].step.a.key;
            && k in T.rows && T.rows[k].status.Sent? && Confirmed(T, k)
            && (Watched(T, k) && k.incident in T.incidents && T.incidents[k.incident].status.IncidentResolved?
                ==> LiveRecovery(T, k.incident, k.channel))
  {
    Next(clock, events, n);
    TickIsReachable(clock, events[..n], events[n].now);
    LateSuccess(At(clock, events, n).(clock := events[n].now), events[n].step.a);
  }

  lemma TickIsReachable(clock: Time, events: seq<Event>, now: Time)
    ensures Inv(Run(EmptyOutbox(clock), events).(clock := now))
  {
    Reachable(clock, events);
    TickKeeps(Run(EmptyOutbox(clock), events), now);
  }

  lemma LateSuccess(S: Outbox, a: Attempt)
    requires Inv(S) && a in S.inFlight && a.key in S.rows && !S.rows[a.key].status.Canceled?
    ensures var T, k := MarkSent(S, a), a.key;
            && k in T.rows && T.rows[k].status.Sent? && Confirmed(T, k)
            && (Watched(T, k) && k.incident in T.incidents && T.incidents[k.incident].status.IncidentResolved?
                ==> LiveRecovery(T, k.incident, k.channel))
  {
    var T, k := MarkSent(S, a), a.key;
    SuccessIsStored(S, a);
    MarkSentKeeps(S, a);
    if Watched(T, k) && k.incident in T.incidents && T.incidents[k.incident].status.IncidentResolved? { SentIsSettled(T, k); }
  }

  lemma SuccessIsStored(S: Outbox, a: Attempt)
    requires Inv(S) && a in S.inFlight && a.key in S.rows && !S.rows[a.key].status.Canceled?
    ensures var T := MarkSent(S, a); a.key in T.rows && T.rows[a.key].status.Sent? && Confirmed(T, a.key)
  {
    FlightIsBehindDown(S, a);
    ConfirmedRows(S, a);
    assert a == Attempt(a.key, a.number);
  }

  lemma SentIsSettled(S: Outbox, k: Key)
    requires Inv(S) && Watched(S, k) && S.rows[k].status.Sent?
    requires k.incident in S.incidents && S.incidents[k.incident].status.IncidentResolved?
    ensures LiveRecovery(S, k.incident, k.channel)
  {
    assert TableRow(S, k);
    assert Settled(S.rows, k);
  }

  /** Event n puts a canceled row back. */
  ghost predicate ReactivatesAt(clock: Time, events: seq<Event>, n: nat, k: Key)
    requires n < |events|
  {
    && k in At(clock, events, n).rows && At(clock, events, n).rows[k].status.Canceled?
    && k in At(clock, events, n + 1).rows && !At(clock, events, n + 1).rows[k].status.Canceled?
  }

  /** A canceled row comes back at most once in a run; it is then a recovery whose DOWN was confirmed late. */
  lemma ReactivatedAtMostOnce(clock: Time, events: seq<Event>, n: nat, m: nat, k: Key)
    requires n < |events| && m < |events| && ReactivatesAt(clock, events, n, k) && ReactivatesAt(clock, events, m, k)
    ensures n == m && IsRecovery(At(clock, events, n + 1), k) && DownSent(At(clock, events, n + 1), k)
  {
    Returns(clock, events, n, k);
    if n < m {
      Returns(clock, events, m, k);
      RowLives(clock, events, n + 1, m, k);
    } else if m < n {
      Returns(clock, events, m, k);
      RowLives(clock, events, m + 1, n, k);
    }
  }

  lemma Returns(clock: Time, events: seq<Event>, n: nat, k: Key)
    requires n < |events| && ReactivatesAt(clock, events, n, k)
    ensures At(clock, events, n).rows[k].reactivations == 0 && At(clock, events, n + 1).rows[k].reactivations == 1
    ensures IsRecovery(At(clock, events, n + 1), k) && DownSent(At(clock, events, n + 1), k)
  {
    Next(clock, events, n);
    Reachable(clock, events[..n]);
    Reachable(clock, events[..n + 1]);
    ApplyEvolves(At(clock, events, n), events[n], k);
    assert ReasonRow(At(clock, events, n), k) && ReasonRow(At(clock, events, n + 1), k);
  }

  // ---- no stranding -----------------------------------------------------

  ghost predicate LeasedRow(r: Row) {
    && (r.status.Enqueued? || r.status.Processing? ==> r.lease.Some?)
    && (r.status.Processing? ==> r.attempts >= 1)
  }

  ghost predicate LeasedOk(S: Outbox) {
    forall k :: k in S.rows ==> LeasedRow(S.rows[k])
  }

  lemma StepLeases(S: Outbox, s: Step)
    requires LeasedOk(S)
    ensures LeasedOk(Perform(S, s))
  {
    match s
    case DoOpen(i, m) => OpenLeases(S, i, m);
    case DoResolve(i) => ResolveLeases(S, i);
    case DoClaim(k, owner, leaseMs) => ClaimLeases(S, k, owner, leaseMs);
    case DoMarkSent(a) => MarkSentLeases(S, a);
    case DoMarkFailed(a, retryable, uncertain, delay) => MarkFailedLeases(S, a, retryable, uncertain, delay);
    case _ => if Dispatching(s) { DispatchLeases(S, s); } else { AdministrationLeases(S, s); }
  }

  lemma OpenLeases(S: Outbox, i: IncidentId, m: MonitorId)
    requires LeasedOk(S)
    ensures LeasedOk(OpenIncident(S, i, m))
  {}

  lemma ResolveLeases(S: Outbox, i: IncidentId)
    requires LeasedOk(S)
    ensures LeasedOk(Resolve(S, i))
  {}

  lemma MarkFailedLeases(S: Outbox, a: Attempt, retryable: bool, uncertain: bool, delay: nat)
    requires LeasedOk(S)
    ensures LeasedOk(MarkFailed(S, a, retryable, uncertain, delay))
  {}

  lemma ClaimLeases(S: Outbox, k: Key, owner: Owner, leaseMs: nat)
    requires LeasedOk(S)
    ensures LeasedOk(Claim(S, k, owner, leaseMs))
  {}

  lemma MarkSentLeases(S: Outbox, a: Attempt)
    requires LeasedOk(S)
    ensures LeasedOk(MarkSent(S, a))
  {}

  lemma DispatchLeases(S: Outbox, s: Step)
    requires LeasedOk(S) && Dispatching(s)
    ensures LeasedOk(Perform(S, s))
  {}

  lemma AdministrationLeases(S: Outbox, s: Step)
    requires LeasedOk(S) && Administrative(s)
    ensures LeasedOk(Perform(S, s))
  {}

  lemma {:induction false} RunLeases(clock: Time, events: seq<Event>)
    ensures LeasedOk(Run(EmptyOutbox(clock), events))
  {
    if events != [] {
      var S, e := Run(EmptyOutbox(clock), events[..|events| - 1]), events[|events| - 1];
      RunLeases(clock, events[..|events| - 1]);
      StepLeases(S.(clock := e.now), e.step);
    }
  }

  /**
   * Nothing is stranded. Whatever crashed, was lost by the queue or was never reported, an undecided row
   * becomes available to every dispatcher as soon as its availability time and its lease have passed.
   */
  lemma {:induction false} NothingIsStranded(clock: Time, events: seq<Event>, k: Key, t: Time)
    requires var S := Run(EmptyOutbox(clock), events);
             k in S.rows && !Terminal(S.rows[k].status) && S.rows[k].availableAt <= t
    ensures var r := Run(EmptyOutbox(clock), events).rows[k];
            Available(r, t) <==> (r.lease.Some? ==> r.lease.value.until < t)
  {
    RunLeases(clock, events);
  }
}
