/** When a notification is tried again and when it is given up, told from the rows, over every run of the outbox. */
module OutboxFailures {
  import opened Domain
  import opened Outbox
  import opened OutboxInvariants
  import opened OutboxPreservation
  import opened OutboxTheorems

  // ---- three attempts -----------------------------------------------------

  ghost predicate ThreeTries(S: Outbox) {
    forall k :: k in S.rows ==> S.rows[k].maxAttempts == 3
  }

  lemma NewRowsGetThree(S: Outbox, s: Step, k: Key)
    requires Inv(S) && k !in S.rows && k in Perform(S, s).rows
    ensures Perform(S, s).rows[k].maxAttempts == 3
  {
    match s
    case DoOpen(i, m) => OpenGivesThree(S, i, m, k);
    case DoResolve(i) => ResolveGivesThree(S, i, k);
    case DoMarkSent(a) => SuccessGivesThree(S, a, k);
    case DoMarkFailed(a, retryable, uncertain, delay) => FailureAddsNothing(S, a, retryable, uncertain, delay);
    case DoClaim(j, owner, leaseMs) => ClaimAddsNothing(S, j, owner, leaseMs);
    case _ => if Dispatching(s) { var _, _ := DispatchHandles(S, s); } else { AdministrationGivesThree(S, s, k); }
  }

  lemma OpenGivesThree(S: Outbox, i: IncidentId, m: MonitorId, k: Key)
    requires ShapeOk(S) && k !in S.rows && k in OpenIncident(S, i, m).rows
    ensures OpenIncident(S, i, m).rows[k].maxAttempts == 3
  {
    if i !in S.incidents { OpenedRows(S, i, m); }
  }

  lemma ResolveGivesThree(S: Outbox, i: IncidentId, k: Key)
    requires ShapeOk(S) && k !in S.rows && k in Resolve(S, i).rows
    ensures Resolve(S, i).rows[k].maxAttempts == 3
  {
    if i in S.incidents && S.incidents[i].status.IncidentOpen? { ResolvedRows(S, i); }
  }

  lemma FailureAddsNothing(S: Outbox, a: Attempt, retryable: bool, uncertain: bool, delay: nat)
    ensures MarkFailed(S, a, retryable, uncertain, delay).rows.Keys == S.rows.Keys
  {}

  lemma ClaimAddsNothing(S: Outbox, k: Key, owner: Owner, leaseMs: nat)
    ensures Claim(S, k, owner, leaseMs).rows.Keys == S.rows.Keys
  {}

  lemma SuccessGivesThree(S: Outbox, a: Attempt, k: Key)
    requires Inv(S) && k !in S.rows && k in MarkSent(S, a).rows
    ensures MarkSent(S, a).rows[k].maxAttempts == 3
  {
    FlightIsBehindDown(S, a);
    ConfirmedRows(S, a);
  }

  lemma AdministrationGivesThree(S: Outbox, s: Step, k: Key)
    requires Administrative(s) && k !in S.rows && k in Perform(S, s).rows
    ensures Perform(S, s).rows[k].maxAttempts == 3
  {}

  /** Every row may be tried three times, in every reachable state. */
  lemma {:induction false} AllTryThrice(clock: Time, events: seq<Event>)
    ensures ThreeTries(Run(EmptyOutbox(clock), events))
  {
    if events != [] {
      var S, e := Run(EmptyOutbox(clock), events[..|events| - 1]), events[|events| - 1];
      AllTryThrice(clock, events[..|events| - 1]);
      Reachable(clock, events[..|events| - 1]);
      if e.now > S.clock {
        TickKeeps(S, e.now);
        StepTriesThrice(S.(clock := e.now), e.step);
      }
    }
  }

  lemma StepTriesThrice(S: Outbox, s: Step)
    requires Inv(S) && ThreeTries(S)
    ensures ThreeTries(Perform(S, s))
  {
    forall k | k in Perform(S, s).rows ensures Perform(S, s).rows[k].maxAttempts == 3 {
      if k in S.rows { StepEvolves(S, s, k); } else { NewRowsGetThree(S, s, k); }
    }
  }

  // ---- one failure --------------------------------------------------------

  /** The row of a send that is tried again at `at`. */
  ghost predicate TriedAgain(b: Row, a: Row, at: Time) {
    a.status.Retry? && a.lease.None? && a.availableAt == at
    && a == b.(status := a.status, lease := a.lease, availableAt := a.availableAt, reason := OtherReason)
  }

  /** The row of a send that is given up. */
  ghost predicate GivenUp(b: Row, a: Row) {
    a.status.Failed? && a.lease.None? && a == b.(status := a.status, lease := a.lease, reason := OtherReason)
  }

  /** The recovery that waited for the DOWN k is canceled with it. */
  ghost predicate RecoveryFalls(before: map<Key, Row>, after: map<Key, Row>, k: Key)
    requires k.First?
  {
    var q := Closing(k.incident, k.channel);
    q in before ==>
      && q in after
      && after[q] == if before[q].event.Recovery? && (before[q].status.Pending? || before[q].status.Retry? || before[q].status.Enqueued?)
                     then before[q].(status := Canceled, lease := None, reason := DownNotDelivered) else before[q]
  }

  /** Only the row k, and with a DOWN its recovery, may differ. */
  ghost predicate OnlyWith(before: map<Key, Row>, after: map<Key, Row>, k: Key) {
    && after.Keys == before.Keys
    && forall j :: j in before && j != k && !(k.First? && j == Closing(k.incident, k.channel)) ==> after[j] == before[j]
  }

  /** What the failure of attempt a does at `now`, told from the row before. */
  ghost predicate FailureFollows(S: Outbox, T: Outbox, a: Attempt, retryable: bool, uncertain: bool, delay: nat, now: Time)
    requires a.key in S.rows
  {
    var k, r := a.key, S.rows[a.key];
    && T == S.(clock := now, rows := T.rows, inFlight := S.inFlight - {a},
               deliveries := S.deliveries[a := if uncertain then Unknown else DeliveryFailed])
    && k in T.rows && T.rows.Keys == S.rows.Keys
    && if !(r.status.Processing? && r.attempts == a.number) then T.rows == S.rows
       else if retryable && a.number < 3
       then TriedAgain(r, T.rows[k], now + delay) && forall j :: j in S.rows && j != k ==> T.rows[j] == S.rows[j]
       else GivenUp(r, T.rows[k]) && OnlyWith(S.rows, T.rows, k) && (k.First? ==> RecoveryFalls(S.rows, T.rows, k))
  }

  lemma FailureStep(S: Outbox, a: Attempt, retryable: bool, uncertain: bool, delay: nat)
    requires ShapeOk(S) && ThreeTries(S) && a in S.inFlight && a.key in S.rows
    ensures FailureFollows(S, MarkFailed(S, a, retryable, uncertain, delay), a, retryable, uncertain, delay, S.clock)
  {
    if S.rows[a.key].status.Processing? && S.rows[a.key].attempts == a.number {
      if retryable && a.number < 3 {
      } else {
        DownIsFirst(S, a.key);
        FinalFailure(S.rows, a.key);
      }
    }
  }

  lemma FinalFailure(rows: map<Key, Row>, k: Key)
    requires k in rows && (rows[k].event.Down? <==> k.First?)
    ensures var after := FailFinally(rows, k);
            k in after && GivenUp(rows[k], after[k]) && OnlyWith(rows, after, k) && (k.First? ==> RecoveryFalls(rows, after, k))
  {}

  lemma DownIsFirst(S: Outbox, k: Key)
    requires ShapeOk(S) && k in S.rows
    ensures S.rows[k].event.Down? <==> k.First?
  {
    assert RowShape(S, k, S.rows[k]);
  }

  lemma FailureEvent(S: Outbox, a: Attempt, retryable: bool, uncertain: bool, delay: nat, now: Time)
    requires now > S.clock
    ensures Apply(S, Event(now, DoMarkFailed(a, retryable, uncertain, delay)))
         == MarkFailed(S.(clock := now), a, retryable, uncertain, delay)
  {}

  /**
   * Try again or give up, in every reachable state. When the newest attempt of a PROCESSING row fails, the row is in RETRY
   * without a lease and available exactly `delay` later if the error is retryable and fewer than three attempts have
   * started, and FAILED otherwise; a FAILED DOWN takes its waiting recovery with it. Any other failure changes no row. The
   * delivery is recorded as failed, or as unknown if the provider may have accepted the message.
   */
  lemma {:induction false} FailureDecides(clock: Time, events: seq<Event>, a: Attempt, retryable: bool, uncertain: bool,
                                          delay: nat, now: Time)
    requires var S := Run(EmptyOutbox(clock), events); a in S.inFlight && now > S.clock
    ensures var S := Run(EmptyOutbox(clock), events);
            && a.key in S.rows
            && FailureFollows(S, Apply(S, Event(now, DoMarkFailed(a, retryable, uncertain, delay))), a, retryable, uncertain, delay, now)
  {
    var S := Run(EmptyOutbox(clock), events);
    Reachable(clock, events);
    AllTryThrice(clock, events);
    TickKeeps(S, now);
    assert a in S.deliveries;
    FailureStep(S.(clock := now), a, retryable, uncertain, delay);
    FailureEvent(S, a, retryable, uncertain, delay, now);
  }

  // ---- what gives a row up ------------------------------------------------

  /** The newest of the row's attempts fails, and is the third or failed for good. */
  ghost predicate FailsForGood(S: Outbox, s: Step, k: Key)
    requires k in S.rows
  {
    && s.DoMarkFailed? && s.a.key == k && s.a in S.inFlight
    && S.rows[k].status.Processing? && s.a.number == S.rows[k].attempts && (!s.retryable || S.rows[k].attempts == 3)
  }

  /** A processor takes up the row after its third attempt. */
  ghost predicate IsExhausted(S: Outbox, s: Step, k: Key)
    requires k in S.rows
  {
    s.DoClaim? && s.k == k && S.rows[k].attempts == 3 && !Terminal(S.rows[k].status) && CanAttempt(S.rows[k], S.clock)
  }

  lemma OnlyFailureFails(S: Outbox, s: Step, k: Key)
    requires Inv(S) && ThreeTries(S)
    requires k in Perform(S, s).rows && Perform(S, s).rows[k].status.Failed? && !(k in S.rows && S.rows[k].status.Failed?)
    ensures k in S.rows && (FailsForGood(S, s, k) || IsExhausted(S, s, k))
  {
    if s.DoMarkFailed? {
      FailureFails(S, s.a, s.retryable, s.uncertain, s.delay, k);
    } else if s.DoClaim? {
      ClaimFails(S, s.k, s.owner, s.leaseMs, k);
    } else if s.DoMarkSent? {
      SuccessFailsNothing(S, s.a, k);
    } else {
      OthersFailNothing(S, s, k);
    }
  }

  lemma FailureFails(S: Outbox, a: Attempt, retryable: bool, uncertain: bool, delay: nat, k: Key)
    requires Inv(S) && ThreeTries(S)
    requires var T := MarkFailed(S, a, retryable, uncertain, delay);
             k in T.rows && T.rows[k].status.Failed? && !(k in S.rows && S.rows[k].status.Failed?)
    ensures k in S.rows && FailsForGood(S, DoMarkFailed(a, retryable, uncertain, delay), k)
  {
    if a in S.inFlight {
      assert a in S.deliveries;
      FailureStep(S, a, retryable, uncertain, delay);
      assert RowShape(S, a.key, S.rows[a.key]);
    }
  }

  lemma ClaimFails(S: Outbox, j: Key, owner: Owner, leaseMs: nat, k: Key)
    requires Inv(S) && ThreeTries(S)
    requires var T := Claim(S, j, owner, leaseMs);
             k in T.rows && T.rows[k].status.Failed? && !(k in S.rows && S.rows[k].status.Failed?)
    ensures k in S.rows && IsExhausted(S, DoClaim(j, owner, leaseMs), k)
  {
    var T := Claim(S, j, owner, leaseMs);
    if T.rows == S.rows {
    } else if j in S.rows && ChannelOn(S, j.channel) && S.rows[j].attempts >= S.rows[j].maxAttempts {
      assert RowShape(S, j, S.rows[j]);
      FinalFailure(S.rows, j);
    } else {
      ClaimMoves(S, j, owner, leaseMs);
    }
  }

  lemma ClaimMoves(S: Outbox, j: Key, owner: Owner, leaseMs: nat)
    requires j in S.rows && (!ChannelOn(S, j.channel) || S.rows[j].attempts < S.rows[j].maxAttempts)
    ensures var T := Claim(S, j, owner, leaseMs);
            T.rows == S.rows || (j in T.rows && !T.rows[j].status.Failed? && T.rows == S.rows[j := T.rows[j]])
  {}

  lemma SuccessFailsNothing(S: Outbox, a: Attempt, k: Key)
    requires Inv(S) && k in MarkSent(S, a).rows && MarkSent(S, a).rows[k].status.Failed?
    ensures k in S.rows && S.rows[k].status.Failed?
  {
    if a in S.inFlight && a.key in S.rows && !S.rows[a.key].status.Canceled? {
      FlightIsBehindDown(S, a);
      ConfirmedRows(S, a);
    }
  }

  lemma OthersFailNothing(S: Outbox, s: Step, k: Key)
    requires !s.DoMarkFailed? && !s.DoClaim? && !s.DoMarkSent?
    requires k in Perform(S, s).rows && Perform(S, s).rows[k].status.Failed?
    ensures k in S.rows && S.rows[k].status.Failed?
  {
    if Dispatching(s) {
      DispatchingFailsNothing(S, s, k);
    } else if Administrative(s) {
      AdministrationFailsNothing(S, s, k);
    }
  }

  lemma DispatchingFailsNothing(S: Outbox, s: Step, k: Key)
    requires Dispatching(s) && k in Perform(S, s).rows && Perform(S, s).rows[k].status.Failed?
    ensures k in S.rows && S.rows[k].status.Failed?
  {}

  lemma AdministrationFailsNothing(S: Outbox, s: Step, k: Key)
    requires Administrative(s) && k in Perform(S, s).rows && Perform(S, s).rows[k].status.Failed?
    ensures k in S.rows && S.rows[k].status.Failed?
  {}

  /** Event n gives the row up: its newest attempt failed for good or was the third. */
  ghost predicate GivesUpAt(clock: Time, events: seq<Event>, n: nat, k: Key)
    requires n < |events|
  {
    var S := At(clock, events, n);
    && events[n].now > S.clock && k in S.rows
    && (FailsForGood(S, events[n].step, k) || IsExhausted(S.(clock := events[n].now), events[n].step, k))
    && (forall i: nat :: Attempt(k, i) in S.deliveries <==> 1 <= i <= S.rows[k].attempts)
    && forall i: nat :: Attempt(k, i) in S.deliveries ==> !S.deliveries[Attempt(k, i)].Succeeded?
  }

  lemma UndecidedIsUnconfirmed(S: Outbox, k: Key)
    requires Inv(S) && k in S.rows && !Terminal(S.rows[k].status)
    ensures forall i: nat :: Attempt(k, i) in S.deliveries <==> 1 <= i <= S.rows[k].attempts
    ensures forall i: nat :: Attempt(k, i) in S.deliveries ==> !S.deliveries[Attempt(k, i)].Succeeded?
  {}

  lemma FailureGivesUp(clock: Time, events: seq<Event>, n: nat, k: Key)
    requires n < |events| && k in At(clock, events, n + 1).rows && At(clock, events, n + 1).rows[k].status.Failed?
    requires !(k in At(clock, events, n).rows && At(clock, events, n).rows[k].status.Failed?)
    ensures GivesUpAt(clock, events, n, k)
  {
    var S, e := At(clock, events, n), events[n];
    Next(clock, events, n);
    Reachable(clock, events[..n]);
    AllTryThrice(clock, events[..n]);
    TickIsReachable(clock, events[..n], e.now);
    OnlyFailureFails(S.(clock := e.now), e.step, k);
    UndecidedIsUnconfirmed(S, k);
  }

  /**
   * No row is given up early. In every run a row is FAILED only because of an earlier event at which its newest attempt
   * failed for good, or at which three attempts had started; at that moment none of its attempts was confirmed.
   */
  lemma {:induction false} FailedWasGivenUp(clock: Time, events: seq<Event>, n: nat, k: Key)
    requires n <= |events| && k in At(clock, events, n).rows && At(clock, events, n).rows[k].status.Failed?
    ensures exists m | 0 <= m < n :: GivesUpAt(clock, events, m, k)
  {
    if n > 0 {
      var S := At(clock, events, n - 1);
      if k in S.rows && S.rows[k].status.Failed? {
        FailedWasGivenUp(clock, events, n - 1, k);
      } else {
        FailureGivesUp(clock, events, n - 1, k);
      }
    }
  }
}
