/** What the destination limiter has taken always comes back. */
module LimiterRecovery {
  import opened Domain
  import opened DestinationLimiter
  import opened LimiterBounds

  /** A granted acquisition for k that is not older than `from`. */
  ghost predicate GrantedSince(start: Time, L: Limits, events: seq<Event>, k: Subject, from: Time) {
    exists n :: 0 <= n < |events| && GrantsAt(start, L, events, n, k) && events[n].now >= from
  }

  /** A window is open only within a minute of a grant, and a token unexpired only within its lease. */
  ghost predicate Backed(start: Time, L: Limits, events: seq<Event>, R: Redis) {
    && (forall k :: k in R.rate ==>
          R.rate[k].dropAt.Some? && GrantedSince(start, L, events, k, R.rate[k].dropAt.value - 60_000))
    && (forall k, t :: k in R.active && t in R.active[k].scores ==>
          GrantedSince(start, L, events, k, R.active[k].scores[t] - L.leaseMs))
  }

  lemma GrantStaysKnown(start: Time, L: Limits, events: seq<Event>, e: Event, k: Subject, from: Time)
    requires GrantedSince(start, L, events, k, from)
    ensures GrantedSince(start, L, events + [e], k, from)
  {
    var n :| 0 <= n < |events| && GrantsAt(start, L, events, n, k) && events[n].now >= from;
    assert (events + [e])[..n] == events[..n];
    assert GrantsAt(start, L, events + [e], n, k);
  }

  lemma NewGrantIsKnown(start: Time, L: Limits, events: seq<Event>, e: Event, k: Subject, from: Time)
    requires e.op.AcquireOp? && k in e.op.keys && Granted(Run(start, L, events).(clock := e.now), L, e.op.keys) && e.now >= from
    ensures GrantedSince(start, L, events + [e], k, from)
  {
    assert (events + [e])[..|events|] == events && (events + [e])[|events|] == e;
    assert GrantsAt(start, L, events + [e], |events|, k);
  }

  /** From R to S no window or expiry appears or grows but those of `keys`, which reach no further than one minute or one lease. */
  ghost predicate GrowsAt(R: Redis, S: Redis, L: Limits, keys: seq<Subject>, now: Time) {
    && (forall k :: k in S.rate ==>
          || (k in R.rate && S.rate[k].dropAt == R.rate[k].dropAt)
          || (k in keys && S.rate[k].dropAt.Some? && S.rate[k].dropAt.value <= now + 60_000))
    && (forall k, t :: k in S.active && t in S.active[k].scores ==>
          || (k in R.active && t in R.active[k].scores && S.active[k].scores[t] == R.active[k].scores[t])
          || (k in keys && S.active[k].scores[t] <= now + L.leaseMs))
  }

  ghost predicate WindowsEnd(R: Redis) { forall k :: k in R.rate ==> R.rate[k].dropAt.Some? }

  lemma {:induction false} PreparationGrowsNothing(R: Redis, L: Limits, keys: seq<Subject>)
    requires WindowsEnd(R)
    ensures var S := Prepare(R, keys); GrowsAt(R, S, L, [], R.clock) && WindowsEnd(S) && S.clock == R.clock
  {
    if keys != [] {
      var n := |keys| - 1;
      PreparationGrowsNothing(R, L, keys[..n]);
      PurgeGrowsNothing(Prepare(R, keys[..n]), L, keys[n]);
    }
  }

  lemma PurgeGrowsNothing(R: Redis, L: Limits, k: Subject)
    requires WindowsEnd(R)
    ensures GrowsAt(R, Purge(R, k), L, [], R.clock) && WindowsEnd(Purge(R, k)) && Repair(Purge(R, k), k) == Purge(R, k)
  {}

  lemma {:induction false} AdditionsGrow(R: Redis, L: Limits, keys: seq<Subject>, token: Token)
    requires WindowsEnd(R)
    ensures var S := AddAll(R, L, keys, token); GrowsAt(R, S, L, keys, R.clock) && WindowsEnd(S) && S.clock == R.clock
  {
    if keys != [] {
      var n := |keys| - 1;
      AdditionsGrow(R, L, keys[..n], token);
      AdditionGrows(AddAll(R, L, keys[..n], token), L, keys[n], token);
    }
  }

  lemma AdditionGrows(R: Redis, L: Limits, k: Subject, token: Token)
    requires WindowsEnd(R)
    ensures var S := Add(R, L, k, token); GrowsAt(R, S, L, [k], R.clock) && WindowsEnd(S) && S.clock == R.clock
  {}

  lemma {:induction false} ReleaseGrowsNothing(R: Redis, L: Limits, keys: seq<Subject>, token: Token)
    requires WindowsEnd(R)
    ensures var S := Release(R, keys, token); GrowsAt(R, S, L, [], R.clock) && WindowsEnd(S)
  {
    if keys != [] { ReleaseGrowsNothing(R, L, keys[..|keys| - 1], token); }
  }

  lemma GrowthComposes(R: Redis, S: Redis, T: Redis, L: Limits, keys: seq<Subject>, now: Time)
    requires GrowsAt(R, S, L, [], now) && GrowsAt(S, T, L, keys, now)
    ensures GrowsAt(R, T, L, keys, now)
  {}

  lemma RefusalGrowsNothing(R: Redis, L: Limits, keys: seq<Subject>, token: Token)
    requires WindowsEnd(R) && !Granted(R, L, keys)
    ensures GrowsAt(R, Acquire(R, L, keys, token), L, [], R.clock) && WindowsEnd(Acquire(R, L, keys, token))
  {
    var j := FirstRefusal(R, L, keys);
    if Crowded(R, L, keys[j]) {
      var P := Prepare(R, keys[..j]);
      PreparationGrowsNothing(R, L, keys[..j]);
      PurgeGrowsNothing(P, L, keys[j]);
      GrowthComposes(R, P, Purge(P, keys[j]), L, [], R.clock);
    } else {
      PreparationGrowsNothing(R, L, keys[..j + 1]);
    }
  }

  lemma GrantGrows(R: Redis, L: Limits, keys: seq<Subject>, token: Token)
    requires WindowsEnd(R) && Granted(R, L, keys)
    ensures GrowsAt(R, Acquire(R, L, keys, token), L, keys, R.clock) && WindowsEnd(Acquire(R, L, keys, token))
  {
    var P := Prepare(R, keys);
    PreparationGrowsNothing(R, L, keys);
    AdditionsGrow(P, L, keys, token);
    GrowthComposes(R, P, AddAll(P, L, keys, token), L, keys, R.clock);
  }

  lemma GrowthIsBacked(start: Time, L: Limits, events: seq<Event>, e: Event, S: Redis, keys: seq<Subject>)
    requires var R := Run(start, L, events);
             Backed(start, L, events, R) && GrowsAt(R.(clock := e.now), S, L, keys, e.now) && WindowsEnd(S)
             && (keys != [] ==> e.op.AcquireOp? && keys == e.op.keys && Granted(R.(clock := e.now), L, keys))
    ensures Backed(start, L, events + [e], S)
  {
    var R := Run(start, L, events);
    forall k | k in S.rate ensures GrantedSince(start, L, events + [e], k, S.rate[k].dropAt.value - 60_000) {
      if k in R.rate && S.rate[k].dropAt == R.rate[k].dropAt {
        GrantStaysKnown(start, L, events, e, k, S.rate[k].dropAt.value - 60_000);
      } else {
        NewGrantIsKnown(start, L, events, e, k, S.rate[k].dropAt.value - 60_000);
      }
    }
    forall k, t | k in S.active && t in S.active[k].scores
      ensures GrantedSince(start, L, events + [e], k, S.active[k].scores[t] - L.leaseMs)
    {
      if k in R.active && t in R.active[k].scores && S.active[k].scores[t] == R.active[k].scores[t] {
        GrantStaysKnown(start, L, events, e, k, S.active[k].scores[t] - L.leaseMs);
      } else {
        NewGrantIsKnown(start, L, events, e, k, S.active[k].scores[t] - L.leaseMs);
      }
    }
  }

  lemma AcquisitionIsBacked(start: Time, L: Limits, events: seq<Event>, e: Event)
    requires Backed(start, L, events, Run(start, L, events)) && e.op.AcquireOp?
    ensures Backed(start, L, events + [e], Acquire(Run(start, L, events).(clock := e.now), L, e.op.keys, e.op.token))
  {
    var R := Run(start, L, events).(clock := e.now);
    if Granted(R, L, e.op.keys) {
      GrantGrows(R, L, e.op.keys, e.op.token);
      GrowthIsBacked(start, L, events, e, Acquire(R, L, e.op.keys, e.op.token), e.op.keys);
    } else {
      RefusalGrowsNothing(R, L, e.op.keys, e.op.token);
      GrowthIsBacked(start, L, events, e, Acquire(R, L, e.op.keys, e.op.token), []);
    }
  }

  lemma ReleaseIsBacked(start: Time, L: Limits, events: seq<Event>, e: Event)
    requires Backed(start, L, events, Run(start, L, events)) && e.op.ReleaseOp?
    ensures Backed(start, L, events + [e], Release(Run(start, L, events).(clock := e.now), e.op.keys, e.op.token))
  {
    var R := Run(start, L, events).(clock := e.now);
    ReleaseGrowsNothing(R, L, e.op.keys, e.op.token);
    GrowthIsBacked(start, L, events, e, Release(R, e.op.keys, e.op.token), []);
  }

  lemma {:induction false} RunsAreBacked(start: Time, L: Limits, events: seq<Event>)
    ensures Backed(start, L, events, Run(start, L, events))
  {
    if events != [] {
      var prefix, e := events[..|events| - 1], events[|events| - 1];
      RunsAreBacked(start, L, prefix);
      if e.op.AcquireOp? {
        AcquisitionIsBacked(start, L, prefix, e);
      } else {
        ReleaseIsBacked(start, L, prefix, e);
      }
      assert prefix + [e] == events;
    }
  }

  lemma LaterIsSince(start: Time, L: Limits, events: seq<Event>, k: Subject, from: Time, earlier: Time)
    requires GrantedSince(start, L, events, k, from) && earlier <= from
    ensures GrantedSince(start, L, events, k, earlier)
  {
    var n :| 0 <= n < |events| && GrantsAt(start, L, events, n, k) && events[n].now >= from;
  }

  lemma UsedWindowIsBacked(start: Time, L: Limits, events: seq<Event>, R: Redis, k: Subject)
    requires Backed(start, L, events, R) && Count(R, k) > 0
    ensures GrantedSince(start, L, events, k, R.clock - 60_000)
  {
    LaterIsSince(start, L, events, k, R.rate[k].dropAt.value - 60_000, R.clock - 60_000);
  }

  lemma UsedSlotIsBacked(start: Time, L: Limits, events: seq<Event>, R: Redis, k: Subject)
    requires Backed(start, L, events, R) && Live(R, k) != {}
    ensures GrantedSince(start, L, events, k, R.clock - L.leaseMs)
  {
    var t :| t in Live(R, k);
    LaterIsSince(start, L, events, k, R.active[k].scores[t] - L.leaseMs, R.clock - L.leaseMs);
  }

  lemma FreeIsGranted(R: Redis, L: Limits, keys: seq<Subject>)
    requires ValidLimits(L) && forall k :: k in keys ==> Count(R, k) == 0 && Live(R, k) == {}
    ensures Granted(R, L, keys)
  {
    var j := FirstRefusal(R, L, keys);
    if j < |keys| { assert keys[j] in keys; }
  }

  /** Nothing was granted for k within the last minute and the last lease before `now`. */
  ghost predicate LeftAlone(start: Time, L: Limits, events: seq<Event>, k: Subject, now: Time) {
    !GrantedSince(start, L, events, k, now - 60_000) && !GrantedSince(start, L, events, k, now - L.leaseMs)
  }

  /** What was left alone is free. */
  ghost predicate Recovered(start: Time, L: Limits, events: seq<Event>, R: Redis, keys: seq<Subject>) {
    && (forall k :: !GrantedSince(start, L, events, k, R.clock - 60_000) ==> Count(R, k) == 0)
    && (forall k :: !GrantedSince(start, L, events, k, R.clock - L.leaseMs) ==> Live(R, k) == {})
    && ((forall k :: k in keys ==> LeftAlone(start, L, events, k, R.clock)) ==> Granted(R, L, keys))
  }

  lemma BackedIsRecovered(start: Time, L: Limits, events: seq<Event>, R: Redis, keys: seq<Subject>)
    requires ValidLimits(L) && Backed(start, L, events, R)
    ensures Recovered(start, L, events, R, keys)
  {
    forall k | Count(R, k) > 0 ensures GrantedSince(start, L, events, k, R.clock - 60_000) {
      UsedWindowIsBacked(start, L, events, R, k);
    }
    forall k | Live(R, k) != {} ensures GrantedSince(start, L, events, k, R.clock - L.leaseMs) {
      UsedSlotIsBacked(start, L, events, R, k);
    }
    if forall k :: k in keys ==> LeftAlone(start, L, events, k, R.clock) { FreeIsGranted(R, L, keys); }
  }

  /**
   * What is used up comes back, whatever clients crashed or forgot to release: a subject for which nothing was granted within
   * the last minute has its whole window, and one for which nothing was granted within the last lease has all its slots. So a
   * destination all of whose subjects were left alone that long is granted at once.
   */
  lemma {:induction false} QuietSubjectsAreFree(start: Time, L: Limits, events: seq<Event>, keys: seq<Subject>, now: Time)
    requires ValidLimits(L)
    ensures Recovered(start, L, events, Run(start, L, events).(clock := now), keys)
  {
    RunsAreBacked(start, L, events);
    BackedIsRecovered(start, L, events, Run(start, L, events).(clock := now), keys);
  }
}
