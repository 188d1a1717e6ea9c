/** What the destination limiter guarantees about requests and rates over a whole run. */
module LimiterBounds {
  import opened Domain
  import opened DestinationLimiter

  // ---- requests in flight -----------------------------------------------

  /** Event n is a granted acquisition for subject k. */
  ghost predicate GrantsAt(start: Time, L: Limits, events: seq<Event>, n: nat, k: Subject)
    requires n < |events|
  {
    && events[n].op.AcquireOp? && k in events[n].op.keys
    && Granted(Run(start, L, events[..n]).(clock := events[n].now), L, events[n].op.keys)
  }

  predicate ReleasedAfter(events: seq<Event>, n: nat, token: Token) {
    exists m :: n < m < |events| && events[m].op.ReleaseOp? && events[m].op.token == token
  }

  /** While its lease runs, an unreleased token stays visible, whatever other clients do. */
  lemma {:induction false} GrantedTokenStays(start: Time, L: Limits, events: seq<Event>, n: nat, k: Subject)
    requires ValidLimits(L) && Timely(start, events) && n < |events| && GrantsAt(start, L, events, n, k)
    requires !ReleasedAfter(events, n, events[n].op.token)
    requires ClockAfter(start, events) < events[n].now + L.leaseMs
    ensures events[n].op.token in Live(Run(start, L, events), k)
    ensures Run(start, L, events).active[k].scores[events[n].op.token] >= events[n].now + L.leaseMs
  {
    var last := |events| - 1;
    var R, e := Run(start, L, events[..last]), events[last];
    var S, token := R.(clock := e.now), events[n].op.token;
    ConcurrencyIsBounded(start, L, events[..last]);
    RunClock(start, L, events[..last]);
    TickKeeps(R, L, e.now);
    if n < last {
      assert events[..last][..n] == events[..n];
      assert ReleasedAfter(events[..last], n, token) ==> ReleasedAfter(events, n, token);
      GrantedTokenStays(start, L, events[..last], n, k);
    }
    if e.op.AcquireOp? {
      AcquireKeepsScores(S, L, e.op.keys, e.op.token, k, token);
      AcquireIsAllOrNothing(S, L, e.op.keys, e.op.token);
    } else {
      assert e.op.token != token;
      ReleaseKeepsScores(S, e.op.keys, e.op.token, k, token);
      ReleaseRemovesOnlyItsToken(S, e.op.keys, e.op.token);
    }
  }

  lemma {:induction false} PrepareKeepsScores(R: Redis, keys: seq<Subject>, k: Subject, t: Token)
    requires t in Live(R, k)
    ensures t in Live(Prepare(R, keys), k) && Prepare(R, keys).active[k].scores[t] == R.active[k].scores[t]
  {
    PrepareIsInvisible(R, keys);
    if keys != [] {
      PrepareIsInvisible(R, keys[..|keys| - 1]);
      PrepareKeepsScores(R, keys[..|keys| - 1], k, t);
    }
  }

  lemma AddScores(R: Redis, L: Limits, j: Subject, token: Token, k: Subject, t: Token)
    requires L.leaseMs > 0 && (t in Live(R, k) || (t == token && k == j))
    ensures var S := Add(R, L, j, token);
            && t in Live(S, k)
            && S.active[k].scores[t] == if t == token && k == j then R.clock + L.leaseMs else R.active[k].scores[t]
  {
    var S := Add(R, L, j, token);
    if k == j {
      assert Scores(S, k) == Scores(R, k)[token := R.clock + L.leaseMs];
    } else {
      assert Scores(S, k) == Scores(R, k);
    }
  }

  lemma {:induction false} AddAllScores(R: Redis, L: Limits, keys: seq<Subject>, token: Token, k: Subject, t: Token)
    requires L.leaseMs > 0 && Distinct(keys) && (t in Live(R, k) || (t == token && k in keys))
    ensures var S := AddAll(R, L, keys, token);
            && t in Live(S, k)
            && S.active[k].scores[t] == if t == token && k in keys then R.clock + L.leaseMs else R.active[k].scores[t]
  {
    if keys != [] {
      var n := |keys| - 1;
      AddAllViews(R, L, keys[..n], token);
      assert keys == keys[..n] + [keys[n]];
      if t in Live(R, k) || (t == token && k in keys[..n]) { AddAllScores(R, L, keys[..n], token, k, t); }
      AddScores(AddAll(R, L, keys[..n], token), L, keys[n], token, k, t);
    }
  }

  /** An acquisition never shortens a live token; it gives its own token one full lease. */
  lemma AcquireKeepsScores(R: Redis, L: Limits, keys: seq<Subject>, token: Token, k: Subject, t: Token)
    requires ValidLimits(L) && Distinct(keys) && Bounded(R, L)
    requires t in Live(R, k) || (Granted(R, L, keys) && t == token && k in keys)
    ensures var S := Acquire(R, L, keys, token);
            && t in Live(S, k)
            && (t in Live(R, k) ==> S.active[k].scores[t] >= R.active[k].scores[t])
            && (Granted(R, L, keys) && t == token && k in keys ==> S.active[k].scores[t] == R.clock + L.leaseMs)
  {
    AcquireIsAllOrNothing(R, L, keys, token);
    var j := FirstRefusal(R, L, keys);
    PrepareIsInvisible(R, keys);
    if t in Live(R, k) {
      PrepareKeepsScores(R, keys, k, t);
      PrepareKeepsScores(R, keys[..j], k, t);
      if j < |keys| { PrepareKeepsScores(R, keys[..j + 1], k, t); }
    }
    if j == |keys| { AddAllScores(Prepare(R, keys), L, keys, token, k, t); }
  }

  lemma {:induction false} ReleaseKeepsScores(R: Redis, keys: seq<Subject>, token: Token, k: Subject, t: Token)
    requires t in Live(R, k) && t != token
    ensures t in Live(Release(R, keys, token), k)
    ensures Release(R, keys, token).active[k].scores[t] == R.active[k].scores[t]
  {
    ReleaseRemovesOnlyItsToken(R, keys, token);
    if keys != [] {
      ReleaseRemovesOnlyItsToken(R, keys[..|keys| - 1], token);
      ReleaseKeepsScores(R, keys[..|keys| - 1], token, k, t);
    }
  }

  /** Requests that may be in flight to a subject at time u: granted, not released, and at most 30 s old. */
  ghost function InFlight(start: Time, L: Limits, events: seq<Event>, k: Subject): set<nat> {
    set n | 0 <= n < |events| && GrantsAt(start, L, events, n, k)
            && !ReleasedAfter(events, n, events[n].op.token)
            && ClockAfter(start, events) <= events[n].now + MAX_REQUEST_MS
  }

  ghost predicate FreshTokens(events: seq<Event>) {
    forall m, n :: 0 <= m < n < |events| && events[m].op.AcquireOp? && events[n].op.AcquireOp? ==>
      events[m].op.token != events[n].op.token
  }

  lemma ImageSize(indices: set<nat>, events: seq<Event>, tokens: set<Token>)
    requires forall n :: n in indices ==> n < |events| && events[n].op.AcquireOp? && events[n].op.token in tokens
    requires FreshTokens(events)
    ensures |indices| <= |tokens|
  {
    if indices != {} {
      var n :| n in indices;
      forall m | m in indices - {n} ensures events[m].op.token in tokens - {events[n].op.token} {}
      ImageSize(indices - {n}, events, tokens - {events[n].op.token});
    }
  }

  /**
   * A request never outlives its lease, so in every run at most maxConcurrent requests are in flight to any one
   * host name or address.
   */
  lemma InFlightIsBounded(start: Time, L: Limits, events: seq<Event>, k: Subject)
    requires ValidLimits(L) && Timely(start, events) && FreshTokens(events)
    ensures |InFlight(start, L, events, k)| <= L.maxConcurrent
  {
    ConcurrencyIsBounded(start, L, events);
    var R, running := Run(start, L, events), InFlight(start, L, events, k);
    forall n | n in running ensures events[n].op.AcquireOp? && events[n].op.token in Live(R, k) {
      GrantedTokenStays(start, L, events, n, k);
    }
    ImageSize(running, events, Live(R, k));
  }

  // ---- rate -------------------------------------------------------------

  /** A window of a subject's counter: the instants of the acquisitions it counted, the first of which opened it. */
  type Window = seq<Time>

  /** The instants at which acquisitions for a subject were granted. */
  ghost function Grants(start: Time, L: Limits, events: seq<Event>, k: Subject): seq<Time> {
    if events == [] then []
    else
      var n := |events| - 1;
      Grants(start, L, events[..n], k) + if GrantsAt(start, L, events, n, k) then [events[n].now] else []
  }

  /** The same instants, cut where the counter had expired. */
  ghost function Windows(start: Time, L: Limits, events: seq<Event>, k: Subject): seq<Window> {
    if events == [] then []
    else
      var n := |events| - 1;
      var ws, now := Windows(start, L, events[..n], k), events[n].now;
      if !GrantsAt(start, L, events, n, k) then ws
      else if ws == [] || Count(Run(start, L, events[..n]).(clock := now), k) == 0 then ws + [[now]]
      else ws[..|ws| - 1] + [ws[|ws| - 1] + [now]]
  }

  ghost predicate WindowOk(w: Window, L: Limits) {
    && 1 <= |w| <= L.maxPerMinute
    && (forall i :: 0 <= i < |w| ==> w[0] <= w[i] <= w[0] + WINDOW_MS)
  }

  ghost predicate WindowsOk(ws: seq<Window>, L: Limits) {
    && (forall i :: 0 <= i < |ws| ==> WindowOk(ws[i], L))
    && (forall i :: 0 < i < |ws| ==> ws[i - 1][0] + WINDOW_MS < ws[i][0])
  }

  /** The stored counter is the last window. */
  ghost predicate Tallied(R: Redis, ws: seq<Window>, k: Subject) {
    if ws == [] then k !in R.rate
    else |ws[|ws| - 1]| > 0 && k in R.rate && R.rate[k] == Counter(|ws[|ws| - 1]|, Some(ws[|ws| - 1][0] + WINDOW_MS)) && ws[|ws| - 1][0] <= R.clock
  }

  lemma {:induction false} PrepareKeepsRate(R: Redis, keys: seq<Subject>)
    requires forall k :: k in R.rate ==> R.rate[k].dropAt.Some?
    ensures Prepare(R, keys).rate == R.rate
  {
    if keys != [] { PrepareKeepsRate(R, keys[..|keys| - 1]); }
  }

  ghost predicate AllTimed(R: Redis) { forall k :: k in R.rate ==> R.rate[k].dropAt.Some? }

  lemma GrantRate(R: Redis, L: Limits, keys: seq<Subject>, token: Token)
    requires ValidLimits(L) && Distinct(keys) && AllTimed(R) && Granted(R, L, keys)
    ensures var S := Acquire(R, L, keys, token);
            && AllTimed(S) && S.clock == R.clock
            && (forall k :: Rated(R, S, keys, k))
  {
    var Q := Prepare(R, keys);
    PrepareKeepsRate(R, keys);
    PrepareIsInvisible(R, keys);
    AddAllTimed(Q, L, keys, token);
    forall k ensures Rated(R, Acquire(R, L, keys, token), keys, k) {
      assert Rated(Q, AddAll(Q, L, keys, token), keys, k);
      SameCounters(R, Q, AddAll(Q, L, keys, token), keys, k);
    }
  }

  lemma SameCounters(R: Redis, Q: Redis, S: Redis, keys: seq<Subject>, k: Subject)
    requires Q.rate == R.rate && Q.clock == R.clock && Rated(Q, S, keys, k)
    ensures Rated(R, S, keys, k)
  {}

  ghost predicate Rated(R: Redis, S: Redis, keys: seq<Subject>, k: Subject) {
    if k in keys then k in S.rate && S.rate[k] == Incremented(R, k)
    else (k in S.rate <==> k in R.rate) && (k in R.rate ==> S.rate[k] == R.rate[k])
  }

  lemma {:induction false} AddAllRated(R: Redis, L: Limits, keys: seq<Subject>, token: Token, k: Subject)
    requires L.leaseMs > 0 && Distinct(keys)
    ensures Rated(R, AddAll(R, L, keys, token), keys, k) && AddAll(R, L, keys, token).clock == R.clock
  {
    if keys != [] {
      var n := |keys| - 1;
      AddAllRated(R, L, keys[..n], token, k);
      assert keys == keys[..n] + [keys[n]];
    }
  }

  lemma AddAllTimed(Q: Redis, L: Limits, keys: seq<Subject>, token: Token)
    requires L.leaseMs > 0 && Distinct(keys) && AllTimed(Q)
    ensures var S := AddAll(Q, L, keys, token);
            AllTimed(S) && S.clock == Q.clock && (forall k :: Rated(Q, S, keys, k))
  {
    var S := AddAll(Q, L, keys, token);
    AddAllViews(Q, L, keys, token);
    forall k ensures Rated(Q, S, keys, k) { AddAllRated(Q, L, keys, token, k); }
    forall k | k in S.rate ensures S.rate[k].dropAt.Some? { assert Rated(Q, S, keys, k); }
  }

  lemma RefusalRate(R: Redis, L: Limits, keys: seq<Subject>, token: Token)
    requires AllTimed(R) && !Granted(R, L, keys)
    ensures Acquire(R, L, keys, token).rate == R.rate && Acquire(R, L, keys, token).clock == R.clock
  {
    var j := FirstRefusal(R, L, keys);
    PrepareKeepsRate(R, keys[..j]);
    PrepareKeepsRate(R, keys[..j + 1]);
    PrepareIsInvisible(R, keys[..j]);
    PrepareIsInvisible(R, keys[..j + 1]);
  }

  /** The windows of a subject after one more script. */
  ghost function WindowsAfter(S: Redis, L: Limits, op: Op, ws: seq<Window>, k: Subject): seq<Window> {
    if !(op.AcquireOp? && k in op.keys && Granted(S, L, op.keys)) then ws
    else if ws == [] || Count(S, k) == 0 then ws + [[S.clock]]
    else ws[..|ws| - 1] + [ws[|ws| - 1] + [S.clock]]
  }

  lemma SameRateKeeps(S: Redis, T: Redis, ws: seq<Window>, k: Subject)
    requires T.rate == S.rate && T.clock == S.clock && Tallied(S, ws, k) && AllTimed(S)
    ensures Tallied(T, ws, k) && AllTimed(T)
  {}

  lemma GrantKeepsWindows(S: Redis, T: Redis, L: Limits, keys: seq<Subject>, ws: seq<Window>, k: Subject)
    requires ValidLimits(L) && Granted(S, L, keys) && k in keys && T.clock == S.clock && Rated(S, T, keys, k)
    requires WindowsOk(ws, L) && Tallied(S, ws, k)
    ensures var vs := if ws == [] || Count(S, k) == 0 then ws + [[S.clock]] else ws[..|ws| - 1] + [ws[|ws| - 1] + [S.clock]];
            WindowsOk(vs, L) && Tallied(T, vs, k)
  {
    var j :| 0 <= j < |keys| && keys[j] == k;
    assert !Refuses(S, L, keys[j]);
    WindowGrows(S, L, ws, k);
  }

  lemma ScriptKeepsWindows(S: Redis, L: Limits, e: Event, ws: seq<Window>, k: Subject)
    requires ValidLimits(L) && Distinct(e.op.keys) && S.clock == e.now
    requires WindowsOk(ws, L) && Tallied(S, ws, k) && AllTimed(S)
    ensures var T, vs := Apply(S, L, e), WindowsAfter(S, L, e.op, ws, k);
            WindowsOk(vs, L) && Tallied(T, vs, k) && AllTimed(T)
  {
    assert S.(clock := e.now) == S;
    if e.op.ReleaseOp? {
      ReleaseRemovesOnlyItsToken(S, e.op.keys, e.op.token);
      SameRateKeeps(S, Apply(S, L, e), ws, k);
    } else if !Granted(S, L, e.op.keys) {
      RefusalRate(S, L, e.op.keys, e.op.token);
      SameRateKeeps(S, Apply(S, L, e), ws, k);
    } else {
      GrantRate(S, L, e.op.keys, e.op.token);
      assert Rated(S, Apply(S, L, e), e.op.keys, k);
      if k in e.op.keys { GrantKeepsWindows(S, Apply(S, L, e), L, e.op.keys, ws, k); }
    }
  }

  /** Each window admits at most maxPerMinute acquisitions, and windows open more than 60 s apart. */
  lemma {:induction false} WindowsAreBounded(start: Time, L: Limits, events: seq<Event>, k: Subject)
    requires ValidLimits(L) && Timely(start, events)
    ensures WindowsOk(Windows(start, L, events, k), L)
    ensures Tallied(Run(start, L, events), Windows(start, L, events, k), k)
    ensures AllTimed(Run(start, L, events))
  {
    if events != [] {
      var n := |events| - 1;
      WindowsAreBounded(start, L, events[..n], k);
      RunClock(start, L, events[..n]);
      var S, ws := Run(start, L, events[..n]).(clock := events[n].now), Windows(start, L, events[..n], k);
      ScriptKeepsWindows(S, L, events[n], ws, k);
      assert Run(start, L, events) == Apply(S, L, events[n]);
      assert Windows(start, L, events, k) == WindowsAfter(S, L, events[n].op, ws, k);
    }
  }

  lemma WindowGrows(S: Redis, L: Limits, ws: seq<Window>, k: Subject)
    requires WindowsOk(ws, L) && Tallied(S, ws, k) && Count(S, k) < L.maxPerMinute && L.maxPerMinute >= 1
    ensures var vs := if ws == [] || Count(S, k) == 0 then ws + [[S.clock]] else ws[..|ws| - 1] + [ws[|ws| - 1] + [S.clock]];
            WindowsOk(vs, L) && Tallied(S.(rate := S.rate[k := Incremented(S, k)]), vs, k)
  {
    if ws != [] && Count(S, k) > 0 {
      var w := ws[|ws| - 1];
      assert |w + [S.clock]| == Count(S, k) + 1;
    }
  }

  // ---- the sliding bound ------------------------------------------------

  /** How many of the instants lie in the 60 s from a on, both ends included. */
  function CountIn(times: seq<Time>, a: Time): nat {
    if times == [] then 0
    else CountIn(times[..|times| - 1], a) + if a <= times[|times| - 1] <= a + WINDOW_MS then 1 else 0
  }

  function CountInAll(ws: seq<Window>, a: Time): nat {
    if ws == [] then 0 else CountInAll(ws[..|ws| - 1], a) + CountIn(ws[|ws| - 1], a)
  }

  lemma {:induction false} CountInConcat(s: seq<Time>, t: seq<Time>, a: Time)
    ensures CountIn(s + t, a) == CountIn(s, a) + CountIn(t, a)
  {
    if t == [] {
      assert s + t == s;
    } else {
      assert (s + t)[..|s + t| - 1] == s + t[..|t| - 1];
      CountInConcat(s, t[..|t| - 1], a);
    }
  }

  lemma {:induction false} GrantsAreWindows(start: Time, L: Limits, events: seq<Event>, k: Subject, a: Time)
    ensures CountIn(Grants(start, L, events, k), a) == CountInAll(Windows(start, L, events, k), a)
  {
    if events != [] {
      var n := |events| - 1;
      GrantsAreWindows(start, L, events[..n], k, a);
      var g, ws, now := Grants(start, L, events[..n], k), Windows(start, L, events[..n], k), events[n].now;
      if GrantsAt(start, L, events, n, k) {
        CountInConcat(g, [now], a);
        assert CountIn([now], a) == (if a <= now <= a + WINDOW_MS then 1 else 0) by { assert [now][..0] == []; }
        var vs := Windows(start, L, events, k);
        if |vs| == |ws| + 1 {
          assert vs[..|ws|] == ws && vs[|ws|] == [now];
        } else {
          assert vs[..|vs| - 1] == ws[..|ws| - 1];
          CountInConcat(ws[|ws| - 1], [now], a);
        }
      } else {
        assert g + [] == g;
      }
    }
  }

  lemma {:induction false} CountInSize(w: Window, a: Time)
    ensures CountIn(w, a) <= |w|
    ensures (forall i :: 0 <= i < |w| ==> w[i] < a || a + WINDOW_MS < w[i]) ==> CountIn(w, a) == 0
  {
    if w != [] { CountInSize(w[..|w| - 1], a); }
  }

  /** Windows that closed before the interval contribute nothing. */
  lemma {:induction false} ClosedWindows(ws: seq<Window>, L: Limits, a: Time)
    requires WindowsOk(ws, L) && (ws == [] || ws[|ws| - 1][0] + WINDOW_MS < a)
    ensures CountInAll(ws, a) == 0
  {
    if ws != [] {
      CountInSize(ws[|ws| - 1], a);
      ClosedWindows(ws[..|ws| - 1], L, a);
    }
  }

  /** Of the windows opened no later than the interval, only the last can reach into it. */
  lemma LastOpenWindow(ws: seq<Window>, L: Limits, a: Time)
    requires WindowsOk(ws, L) && (ws == [] || ws[|ws| - 1][0] <= a) && L.maxPerMinute >= 0
    ensures CountInAll(ws, a) <= L.maxPerMinute
  {
    if ws != [] {
      CountInSize(ws[|ws| - 1], a);
      ClosedWindows(ws[..|ws| - 1], L, a);
    }
  }

  lemma {:induction false} TwoWindows(ws: seq<Window>, L: Limits, a: Time)
    requires WindowsOk(ws, L) && L.maxPerMinute >= 0
    ensures CountInAll(ws, a) <= 2 * L.maxPerMinute
  {
    if ws != [] {
      var w, rest := ws[|ws| - 1], ws[..|ws| - 1];
      CountInSize(w, a);
      if w[0] <= a + WINDOW_MS { LastOpenWindow(rest, L, a); } else { TwoWindows(rest, L, a); }
    }
  }

  /** Rate. In every run, any 60 seconds contain at most 2 * maxPerMinute acquisitions for a subject. */
  lemma RateIsBounded(start: Time, L: Limits, events: seq<Event>, k: Subject, a: Time)
    requires ValidLimits(L) && Timely(start, events)
    ensures CountIn(Grants(start, L, events, k), a) <= 2 * L.maxPerMinute
  {
    WindowsAreBounded(start, L, events, k);
    GrantsAreWindows(start, L, events, k, a);
    TwoWindows(Windows(start, L, events, k), L, a);
  }
}
