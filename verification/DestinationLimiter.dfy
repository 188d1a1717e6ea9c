/**
 * The Redis destination limiter. A script runs at one instant; a key with a time to live is gone once the clock
 * has passed it. Subjects stand for the digests of host names and addresses, tokens for random identifiers.
 */
module DestinationLimiter {
  import opened Domain

  type Subject = string
  type Token = nat

  const WINDOW_MS: int := 60_000
  const MAX_REQUEST_MS: int := 30_000

  /** A sorted set of tokens by expiry, and when the key itself is dropped. */
  datatype Tokens = Tokens(scores: map<Token, Time>, dropAt: Time)

  datatype Counter = Counter(count: nat, dropAt: Option<Time>)

  datatype Redis = Redis(clock: Time, active: map<Subject, Tokens>, rate: map<Subject, Counter>)

  datatype Limits = Limits(maxConcurrent: int, maxPerMinute: int, leaseMs: int)

  predicate ValidLimits(L: Limits) {
    1 <= L.maxConcurrent <= 1_000 && 1 <= L.maxPerMinute <= 100_000 && 31_000 <= L.leaseMs <= 600_000
  }

  // ---- what a client can observe ----------------------------------------

  function Scores(R: Redis, k: Subject): map<Token, Time> {
    if k in R.active && R.clock <= R.active[k].dropAt then R.active[k].scores else map[]
  }

  /** The unexpired tokens of a subject. */
  function Live(R: Redis, k: Subject): set<Token> {
    set t | t in Scores(R, k) && Scores(R, k)[t] > R.clock
  }

  function Count(R: Redis, k: Subject): nat {
    if k in R.rate && (R.rate[k].dropAt.None? || R.clock <= R.rate[k].dropAt.value) then R.rate[k].count else 0
  }

  predicate Crowded(R: Redis, L: Limits, k: Subject) { |Live(R, k)| >= L.maxConcurrent }

  predicate Refuses(R: Redis, L: Limits, k: Subject) { Crowded(R, L, k) || Count(R, k) >= L.maxPerMinute }

  // ---- the acquire script -----------------------------------------------

  /** ZREMRANGEBYSCORE up to now; an empty sorted set is no key. */
  function Purge(R: Redis, k: Subject): Redis {
    var kept := map t | t in Scores(R, k) && Scores(R, k)[t] > R.clock :: Scores(R, k)[t];
    if kept == map[] then R.(active := R.active - {k})
    else R.(active := R.active[k := R.active[k].(scores := kept)])
  }

  /** A counter without a time to live gets one. */
  function Repair(R: Redis, k: Subject): Redis {
    if k in R.rate && R.rate[k].count > 0 && R.rate[k].dropAt.None?
    then R.(rate := R.rate[k := R.rate[k].(dropAt := Some(R.clock + WINDOW_MS))])
    else R
  }

  function Prepare(R: Redis, keys: seq<Subject>): Redis {
    if keys == [] then R
    else Repair(Purge(Prepare(R, keys[..|keys| - 1]), keys[|keys| - 1]), keys[|keys| - 1])
  }

  function Incremented(R: Redis, k: Subject): Counter {
    if Count(R, k) == 0 || R.rate[k].dropAt.None? then Counter(Count(R, k) + 1, Some(R.clock + WINDOW_MS))
    else Counter(Count(R, k) + 1, R.rate[k].dropAt)
  }

  function Add(R: Redis, L: Limits, k: Subject, token: Token): Redis {
    R.(active := R.active[k := Tokens(Scores(R, k)[token := R.clock + L.leaseMs], R.clock + L.leaseMs + 1_000)],
       rate := R.rate[k := Incremented(R, k)])
  }

  function AddAll(R: Redis, L: Limits, keys: seq<Subject>, token: Token): Redis {
    if keys == [] then R else Add(AddAll(R, L, keys[..|keys| - 1], token), L, keys[|keys| - 1], token)
  }

  /** The first subject that refuses, or the number of subjects. */
  function FirstRefusal(R: Redis, L: Limits, keys: seq<Subject>): (j: nat)
    ensures j <= |keys|
    ensures forall i :: 0 <= i < j ==> !Refuses(R, L, keys[i])
    ensures j < |keys| ==> Refuses(R, L, keys[j])
  {
    if keys == [] then 0
    else
      var j := FirstRefusal(R, L, keys[..|keys| - 1]);
      if j < |keys| - 1 then j else if Refuses(R, L, keys[j]) then j else j + 1
  }

  predicate Granted(R: Redis, L: Limits, keys: seq<Subject>) { FirstRefusal(R, L, keys) == |keys| }

  function Acquire(R: Redis, L: Limits, keys: seq<Subject>, token: Token): Redis {
    var j := FirstRefusal(R, L, keys);
    if j == |keys| then AddAll(Prepare(R, keys), L, keys, token)
    else if Crowded(R, L, keys[j]) then Purge(Prepare(R, keys[..j]), keys[j])
    else Prepare(R, keys[..j + 1])
  }

  // ---- the release script -----------------------------------------------

  function Remove(R: Redis, k: Subject, token: Token): Redis {
    var kept := Scores(R, k) - {token};
    if kept == map[] then R.(active := R.active - {k}) else R.(active := R.active[k := R.active[k].(scores := kept)])
  }

  function Release(R: Redis, keys: seq<Subject>, token: Token): Redis {
    if keys == [] then R else Remove(Release(R, keys[..|keys| - 1], token), keys[|keys| - 1], token)
  }

  // ---- what the scripts change ------------------------------------------

  /** No client can tell the two states apart. */
  ghost predicate SameView(R: Redis, S: Redis) {
    R.clock == S.clock && (forall k :: Live(R, k) == Live(S, k)) && (forall k :: Count(R, k) == Count(S, k))
  }

  lemma PurgeIsInvisible(R: Redis, k: Subject)
    ensures SameView(R, Purge(R, k))
    ensures Scores(Purge(R, k), k).Keys == Live(R, k)
  {
    var S := Purge(R, k);
    forall j ensures Live(R, j) == Live(S, j) {}
  }

  lemma RepairIsInvisible(R: Redis, k: Subject)
    ensures SameView(R, Repair(R, k))
    ensures Repair(R, k).active == R.active
  {}

  lemma {:induction false} PrepareIsInvisible(R: Redis, keys: seq<Subject>)
    ensures SameView(R, Prepare(R, keys))
  {
    if keys != [] {
      var n := |keys| - 1;
      PrepareIsInvisible(R, keys[..n]);
      PurgeIsInvisible(Prepare(R, keys[..n]), keys[n]);
      RepairIsInvisible(Purge(Prepare(R, keys[..n]), keys[n]), keys[n]);
    }
  }

  lemma AddOne(R: Redis, L: Limits, k: Subject, token: Token)
    requires L.leaseMs > 0
    ensures var S := Add(R, L, k, token);
            && S.clock == R.clock
            && Live(S, k) == Live(R, k) + {token} && Count(S, k) == Count(R, k) + 1
            && (forall j :: j != k ==> Live(S, j) == Live(R, j) && Count(S, j) == Count(R, j))
  {
    var S := Add(R, L, k, token);
    assert Scores(S, k) == Scores(R, k)[token := R.clock + L.leaseMs];
    forall j | j != k ensures Live(S, j) == Live(R, j) { assert Scores(S, j) == Scores(R, j); }
  }

  predicate Distinct(keys: seq<Subject>) {
    forall i, j :: 0 <= i < j < |keys| ==> keys[i] != keys[j]
  }

  lemma {:induction false} AddAllViews(R: Redis, L: Limits, keys: seq<Subject>, token: Token)
    requires L.leaseMs > 0 && Distinct(keys)
    ensures var S := AddAll(R, L, keys, token);
            && S.clock == R.clock
            && (forall k :: Live(S, k) == if k in keys then Live(R, k) + {token} else Live(R, k))
            && (forall k :: Count(S, k) == if k in keys then Count(R, k) + 1 else Count(R, k))
  {
    if keys != [] {
      var n := |keys| - 1;
      AddAllViews(R, L, keys[..n], token);
      AddOne(AddAll(R, L, keys[..n], token), L, keys[n], token);
      assert keys == keys[..n] + [keys[n]];
    }
  }

  /**
   * Acquisition is all or nothing. It is granted iff every subject has a free slot and a free place in its
   * window; then each subject gains exactly this token and one count, and otherwise nothing visible changes.
   */
  lemma AcquireIsAllOrNothing(R: Redis, L: Limits, keys: seq<Subject>, token: Token)
    requires ValidLimits(L) && Distinct(keys)
    ensures var S := Acquire(R, L, keys, token);
            && (Granted(R, L, keys) <==> forall k :: k in keys ==> |Live(R, k)| < L.maxConcurrent && Count(R, k) < L.maxPerMinute)
            && S.clock == R.clock
            && (!Granted(R, L, keys) ==> SameView(R, S))
            && (Granted(R, L, keys) ==>
                  && (forall k :: Live(S, k) == if k in keys then Live(R, k) + {token} else Live(R, k))
                  && (forall k :: Count(S, k) == if k in keys then Count(R, k) + 1 else Count(R, k)))
  {
    var j := FirstRefusal(R, L, keys);
    if j == |keys| {
      PrepareIsInvisible(R, keys);
      AddAllViews(Prepare(R, keys), L, keys, token);
    } else {
      assert keys[j] in keys && Refuses(R, L, keys[j]);
      PrepareIsInvisible(R, keys[..j]);
      PrepareIsInvisible(R, keys[..j + 1]);
      PurgeIsInvisible(Prepare(R, keys[..j]), keys[j]);
    }
  }

  lemma RemoveOne(R: Redis, k: Subject, token: Token)
    ensures var S := Remove(R, k, token);
            && S.clock == R.clock && S.rate == R.rate
            && Live(S, k) == Live(R, k) - {token}
            && (forall j :: j != k ==> Live(S, j) == Live(R, j))
  {
    var S := Remove(R, k, token);
    assert Scores(S, k) == Scores(R, k) - {token};
    forall j | j != k ensures Live(S, j) == Live(R, j) { assert Scores(S, j) == Scores(R, j); }
  }

  /** A release takes away its own token from its own subjects, and nothing else. */
  lemma {:induction false} ReleaseRemovesOnlyItsToken(R: Redis, keys: seq<Subject>, token: Token)
    ensures var S := Release(R, keys, token);
            && S.clock == R.clock && S.rate == R.rate
            && (forall k :: Live(S, k) == if k in keys then Live(R, k) - {token} else Live(R, k))
  {
    if keys != [] {
      var n := |keys| - 1;
      ReleaseRemovesOnlyItsToken(R, keys[..n], token);
      RemoveOne(Release(R, keys[..n], token), keys[n], token);
      assert keys == keys[..n] + [keys[n]];
    }
  }

  // ---- runs -------------------------------------------------------------

  datatype Op = AcquireOp(keys: seq<Subject>, token: Token) | ReleaseOp(keys: seq<Subject>, token: Token)

  datatype Event = Event(now: Time, op: Op)

  function Apply(R: Redis, L: Limits, e: Event): Redis {
    var S := R.(clock := e.now);
    match e.op
    case AcquireOp(keys, token) => Acquire(S, L, keys, token)
    case ReleaseOp(keys, token) => Release(S, keys, token)
  }

  function Run(start: Time, L: Limits, events: seq<Event>): Redis {
    if events == [] then Redis(start, map[], map[])
    else Apply(Run(start, L, events[..|events| - 1]), L, events[|events| - 1])
  }

  function ClockAfter(start: Time, events: seq<Event>): Time {
    if events == [] then start else events[|events| - 1].now
  }

  /** Scripts run one after another on a clock that never goes back, over distinct subjects. */
  ghost predicate Timely(start: Time, events: seq<Event>) {
    events == []
    || (var prefix, e := events[..|events| - 1], events[|events| - 1];
        Timely(start, prefix) && e.now >= ClockAfter(start, prefix) && Distinct(e.op.keys))
  }

  lemma RunClock(start: Time, L: Limits, events: seq<Event>)
    requires ValidLimits(L) && Timely(start, events)
    ensures Run(start, L, events).clock == ClockAfter(start, events)
  {
    if events != [] {
      var S, e := Run(start, L, events[..|events| - 1]).(clock := events[|events| - 1].now), events[|events| - 1];
      if e.op.AcquireOp? { AcquireIsAllOrNothing(S, L, e.op.keys, e.op.token); }
      else { ReleaseRemovesOnlyItsToken(S, e.op.keys, e.op.token); }
    }
  }

  // ---- concurrency ------------------------------------------------------

  /** A key outlives every token in it. */
  ghost predicate Covered(R: Redis) {
    forall k, t :: k in R.active && t in R.active[k].scores ==> R.active[k].scores[t] < R.active[k].dropAt
  }

  /** No token outlives one lease from now. */
  ghost predicate Bounded(R: Redis, L: Limits) {
    forall k, t :: k in R.active && t in R.active[k].scores ==> R.active[k].scores[t] <= R.clock + L.leaseMs
  }

  ghost predicate Inv(R: Redis, L: Limits) {
    Covered(R) && Bounded(R, L) && (forall k :: |Live(R, k)| <= L.maxConcurrent)
  }

  lemma SubsetSize<T>(a: set<T>, b: set<T>)
    requires a <= b
    ensures |a| <= |b|
  {
    if a != {} {
      var x :| x in a;
      SubsetSize(a - {x}, b - {x});
    }
  }

  lemma TickKeeps(R: Redis, L: Limits, now: Time)
    requires Inv(R, L) && now >= R.clock
    ensures Inv(R.(clock := now), L)
    ensures forall k, t :: t in Live(R.(clock := now), k) <==> t in Live(R, k) && R.active[k].scores[t] > now
  {
    var S := R.(clock := now);
    forall k ensures |Live(S, k)| <= L.maxConcurrent { SubsetSize(Live(S, k), Live(R, k)); }
  }

  lemma {:induction false} PrepareKeepsTokens(R: Redis, L: Limits, keys: seq<Subject>)
    requires Covered(R) && Bounded(R, L)
    ensures var S := Prepare(R, keys); Covered(S) && Bounded(S, L) && S.clock == R.clock
  {
    if keys != [] {
      var n := |keys| - 1;
      PrepareKeepsTokens(R, L, keys[..n]);
      PurgeKeepsTokens(Prepare(R, keys[..n]), L, keys[n]);
    }
  }

  lemma PurgeKeepsTokens(R: Redis, L: Limits, k: Subject)
    requires Covered(R) && Bounded(R, L)
    ensures Covered(Purge(R, k)) && Bounded(Purge(R, k), L)
  {}

  lemma {:induction false} AddAllKeepsTokens(R: Redis, L: Limits, keys: seq<Subject>, token: Token)
    requires Covered(R) && Bounded(R, L) && L.leaseMs > 0
    ensures var S := AddAll(R, L, keys, token); Covered(S) && Bounded(S, L) && S.clock == R.clock
  {
    if keys != [] { AddAllKeepsTokens(R, L, keys[..|keys| - 1], token); }
  }

  lemma {:induction false} ReleaseKeepsTokens(R: Redis, L: Limits, keys: seq<Subject>, token: Token)
    requires Covered(R) && Bounded(R, L)
    ensures var S := Release(R, keys, token); Covered(S) && Bounded(S, L) && S.clock == R.clock
  {
    if keys != [] { ReleaseKeepsTokens(R, L, keys[..|keys| - 1], token); }
  }

  lemma AcquireKeeps(R: Redis, L: Limits, keys: seq<Subject>, token: Token)
    requires ValidLimits(L) && Distinct(keys) && Inv(R, L)
    ensures Inv(Acquire(R, L, keys, token), L)
  {
    AcquireIsAllOrNothing(R, L, keys, token);
    var S, j := Acquire(R, L, keys, token), FirstRefusal(R, L, keys);
    if j == |keys| {
      PrepareKeepsTokens(R, L, keys);
      AddAllKeepsTokens(Prepare(R, keys), L, keys, token);
      forall k ensures |Live(S, k)| <= L.maxConcurrent {
        if k in keys { SubsetSize(Live(R, k) - {token}, Live(R, k)); }
      }
    } else {
      PrepareKeepsTokens(R, L, keys[..j]);
      PrepareKeepsTokens(R, L, keys[..j + 1]);
      PurgeKeepsTokens(Prepare(R, keys[..j]), L, keys[j]);
    }
  }

  lemma ReleaseKeeps(R: Redis, L: Limits, keys: seq<Subject>, token: Token)
    requires Inv(R, L)
    ensures Inv(Release(R, keys, token), L)
  {
    ReleaseKeepsTokens(R, L, keys, token);
    ReleaseRemovesOnlyItsToken(R, keys, token);
    forall k ensures |Live(Release(R, keys, token), k)| <= L.maxConcurrent {
      SubsetSize(Live(Release(R, keys, token), k), Live(R, k));
    }
  }

  /**
   * Concurrency. In every run with one lease length, at every instant, each subject has at most maxConcurrent
   * unexpired tokens, and no unexpired token is lost to the key's own time to live.
   */
  lemma {:induction false} ConcurrencyIsBounded(start: Time, L: Limits, events: seq<Event>)
    requires ValidLimits(L) && Timely(start, events)
    ensures var R := Run(start, L, events);
            && Inv(R, L)
            && (forall k :: |Live(R, k)| <= L.maxConcurrent)
            && (forall k, t :: k in R.active && t in R.active[k].scores && R.active[k].scores[t] > R.clock ==> t in Live(R, k))
  {
    if events != [] {
      var R, e := Run(start, L, events[..|events| - 1]), events[|events| - 1];
      ConcurrencyIsBounded(start, L, events[..|events| - 1]);
      RunClock(start, L, events[..|events| - 1]);
      TickKeeps(R, L, e.now);
      if e.op.AcquireOp? { AcquireKeeps(R.(clock := e.now), L, e.op.keys, e.op.token); }
      else { ReleaseKeeps(R.(clock := e.now), L, e.op.keys, e.op.token); }
    }
  }
}
