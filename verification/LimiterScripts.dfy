/** The two scripts as Redis runs them, key by key, and the subjects a destination is limited by. */
module LimiterScripts {
  import opened Domain
  import opened DestinationLimiter

  datatype Refusal = TooManyActive | TooManyInWindow

  /** Looking at one subject does not change what the next one shows. */
  lemma NextPrepared(R: Redis, L: Limits, keys: seq<Subject>, i: nat)
    requires i < |keys|
    ensures Prepare(R, keys[..i + 1]) == Repair(Purge(Prepare(R, keys[..i]), keys[i]), keys[i])
    ensures Refuses(Prepare(R, keys[..i]), L, keys[i]) == Refuses(R, L, keys[i])
    ensures Crowded(Prepare(R, keys[..i]), L, keys[i]) == Crowded(R, L, keys[i])
  {
    assert keys[..i + 1][..i] == keys[..i];
    PrepareIsInvisible(R, keys[..i]);
  }

  lemma Decides(R: Redis, L: Limits, keys: seq<Subject>, i: nat)
    requires i < |keys| && i <= FirstRefusal(R, L, keys)
    ensures Refuses(Prepare(R, keys[..i]), L, keys[i]) <==> FirstRefusal(R, L, keys) == i
  {
    NextPrepared(R, L, keys, i);
  }

  /** What the first loop leaves when it stops at subject i, or at the end. */
  ghost function Checked(R: Redis, L: Limits, keys: seq<Subject>, i: nat): Redis
    requires i <= |keys|
  {
    if i == |keys| then Prepare(R, keys)
    else
      var P := Prepare(R, keys[..i]);
      if Crowded(P, L, keys[i]) then Purge(P, keys[i]) else Repair(Purge(P, keys[i]), keys[i])
  }

  lemma CheckedIsAcquired(R: Redis, L: Limits, keys: seq<Subject>, token: Token)
    ensures var i := FirstRefusal(R, L, keys);
            Acquire(R, L, keys, token) == if i == |keys| then AddAll(Checked(R, L, keys, i), L, keys, token) else Checked(R, L, keys, i)
  {
    var i := FirstRefusal(R, L, keys);
    if i < |keys| { NextPrepared(R, L, keys, i); }
  }

  ghost predicate Oldest(scores: map<Token, Time>, t: Token) {
    t in scores && forall u :: u in scores ==> scores[t] <= scores[u]
  }

  /** The oldest token of a subject expires at t. */
  ghost predicate FreesAt(active: map<Subject, Tokens>, k: Subject, t: Time) {
    k in active && exists u :: Oldest(active[k].scores, u) && active[k].scores[u] == t
  }

  /** The window of a subject is over at t, give or take its last millisecond. */
  ghost predicate ReopensAt(rate: map<Subject, Counter>, now: Time, k: Subject, t: Time) {
    k in rate && rate[k].dropAt.Some? && t == if rate[k].dropAt.value > now then rate[k].dropAt.value else now + 1
  }

  /** The subjects among keys that hold the token. */
  function Holders(R: Redis, keys: seq<Subject>, token: Token): set<Subject> {
    set k | k in keys && token in Scores(R, k)
  }

  lemma OneMoreHolder(R: Redis, keys: seq<Subject>, token: Token, i: nat)
    requires i < |keys|
    ensures |Holders(R, keys[..i + 1], token)| == |Holders(R, keys[..i], token)|
              + if keys[i] !in keys[..i] && token in Scores(R, keys[i]) then 1 else 0
  {
    var one: set<Subject> := if token in Scores(R, keys[i]) then {keys[i]} else {};
    assert keys[..i + 1] == keys[..i] + [keys[i]];
    assert Holders(R, keys[..i + 1], token) == Holders(R, keys[..i], token) + one;
  }

  /** A release takes the token from its subjects, expired or not, and leaves all others alone. */
  lemma {:induction false} ReleasedScores(R: Redis, keys: seq<Subject>, token: Token, k: Subject)
    ensures Scores(Release(R, keys, token), k) == if k in keys then Scores(R, k) - {token} else Scores(R, k)
  {
    if keys != [] {
      var n := |keys| - 1;
      ReleasedScores(R, keys[..n], token, k);
      RemovedScores(Release(R, keys[..n], token), keys[n], token, k);
      assert keys == keys[..n] + [keys[n]];
    }
  }

  lemma RemovedScores(R: Redis, j: Subject, token: Token, k: Subject)
    ensures Scores(Remove(R, j, token), k) == if k == j then Scores(R, k) - {token} else Scores(R, k)
  {}

  class Server {
    var clock: Time
    var active: map<Subject, Tokens>
    var rate: map<Subject, Counter>

    ghost function Value(): Redis
      reads this
    {
      Redis(clock, active, rate)
    }

    constructor (start: Time)
      ensures Value() == Redis(start, map[], map[])
    {
      clock, active, rate := start, map[], map[];
    }

    /** ZRANGE 0 0: a token with the least expiry. */
    method OldestToken(k: Subject) returns (t: Token)
      requires k in active && active[k].scores != map[]
      ensures Oldest(active[k].scores, t)
    {
      var scores := active[k].scores;
      assert scores.Keys != {};
      t :| t in scores;
      var todo := scores.Keys - {t};
      while todo != {}
        invariant t in scores && todo <= scores.Keys
        invariant forall u :: u in scores && u !in todo ==> scores[t] <= scores[u]
        decreases |todo|
      {
        var u :| u in todo;
        if scores[u] < scores[t] { t := u; }
        todo := todo - {u};
      }
    }

    /** ZREMRANGEBYSCORE key -inf now. */
    method RemoveExpired(k: Subject)
      modifies this`active
      ensures Value() == Purge(old(Value()), k)
    {
      if k !in active || clock > active[k].dropAt {
        active := active - {k};
        return;
      }
      var scores := active[k].scores;
      var kept := map t | t in scores && scores[t] > clock :: scores[t];
      if kept == map[] {
        active := active - {k};
      } else {
        active := active[k := active[k].(scores := kept)];
      }
    }

    /** The first loop's work on one subject. */
    method CheckSubject(L: Limits, k: Subject) returns (refusal: Option<Refusal>, retryAfter: int)
      requires ValidLimits(L)
      modifies this`active, this`rate
      ensures Value() == if Crowded(old(Value()), L, k) then Purge(old(Value()), k) else Repair(Purge(old(Value()), k), k)
      ensures refusal == Some(TooManyActive) <==> Crowded(old(Value()), L, k)
      ensures refusal.Some? <==> Refuses(old(Value()), L, k)
      ensures refusal.Some? ==> retryAfter >= 1
      ensures refusal == Some(TooManyActive) ==> FreesAt(active, k, clock + retryAfter)
      ensures refusal == Some(TooManyInWindow) ==> ReopensAt(rate, clock, k, clock + retryAfter)
    {
      PurgeIsInvisible(Value(), k);
      RemoveExpired(k);
      ghost var P := Value();
      var members := if k in active then active[k].scores.Keys else {};
      assert members == Live(P, k);
      if |members| >= L.maxConcurrent {
        var oldest := OldestToken(k);
        assert oldest in Live(P, k);
        return Some(TooManyActive), active[k].scores[oldest] - clock;
      }
      var count := if k in rate && (rate[k].dropAt.None? || clock <= rate[k].dropAt.value) then rate[k].count else 0;
      RepairIsInvisible(P, k);
      if k in rate && rate[k].count > 0 && rate[k].dropAt.None? {
        rate := rate[k := rate[k].(dropAt := Some(clock + WINDOW_MS))];
      }
      if count >= L.maxPerMinute {
        var ttl := rate[k].dropAt.value - clock;
        return Some(TooManyInWindow), if ttl > 1 then ttl else 1;
      }
      return None, 0;
    }

    /** The first loop: looks at the subjects in order and stops at the first that refuses. */
    method CheckAll(L: Limits, keys: seq<Subject>) returns (i: nat, refusal: Option<Refusal>, retryAfter: int)
      requires ValidLimits(L)
      modifies this`active, this`rate
      ensures i == FirstRefusal(old(Value()), L, keys) && (refusal.Some? <==> i < |keys|)
      ensures Value() == Checked(old(Value()), L, keys, i)
      ensures refusal == Some(TooManyActive) ==> i < |keys| && FreesAt(active, keys[i], clock + retryAfter)
      ensures refusal == Some(TooManyInWindow) ==> i < |keys| && ReopensAt(rate, clock, keys[i], clock + retryAfter)
      ensures refusal.Some? ==> retryAfter >= 1
    {
      ghost var S := Value();
      i, refusal, retryAfter := 0, None, 0;
      assert keys[..0] == [];
      while i < |keys|
        invariant 0 <= i <= |keys| && refusal == None
        invariant Value() == Prepare(S, keys[..i])
        invariant i <= FirstRefusal(S, L, keys)
      {
        NextPrepared(S, L, keys, i);
        Decides(S, L, keys, i);
        refusal, retryAfter := CheckSubject(L, keys[i]);
        if refusal.Some? { break; }
        i := i + 1;
      }
      if i == |keys| { assert keys[..i] == keys; }
    }

    /** The acquire script. A refusal comes from the first refusing subject and says when that one may be free. */
    method RunAcquire(L: Limits, keys: seq<Subject>, token: Token) returns (refusal: Option<Refusal>, retryAfter: int)
      requires ValidLimits(L)
      modifies this`active, this`rate
      ensures Value() == Acquire(old(Value()), L, keys, token)
      ensures refusal.None? <==> Granted(old(Value()), L, keys)
      ensures refusal == Some(TooManyActive) ==> exists k :: k in keys && FreesAt(active, k, clock + retryAfter)
      ensures refusal == Some(TooManyInWindow) ==> exists k :: k in keys && ReopensAt(rate, clock, k, clock + retryAfter)
      ensures refusal.Some? ==> retryAfter >= 1
    {
      var at;
      at, refusal, retryAfter := CheckAll(L, keys);
      CheckedIsAcquired(old(Value()), L, keys, token);
      if refusal.Some? {
        assert keys[at] in keys;
        return;
      }
      AddTokens(L, keys, token);
    }

    /** The second loop. */
    method AddTokens(L: Limits, keys: seq<Subject>, token: Token)
      modifies this`active, this`rate
      ensures Value() == AddAll(old(Value()), L, keys, token)
    {
      ghost var P := Value();
      var i := 0;
      while i < |keys|
        invariant 0 <= i <= |keys|
        invariant Value() == AddAll(P, L, keys[..i], token)
      {
        assert keys[..i + 1][..i] == keys[..i];
        AddToken(L, keys[i], token);
        i := i + 1;
      }
      assert keys[..i] == keys;
    }

    /** ZADD, PEXPIRE, INCR and, for a new window, PEXPIRE. */
    method AddToken(L: Limits, k: Subject, token: Token)
      modifies this`active, this`rate
      ensures Value() == Add(old(Value()), L, k, token)
    {
      var scores := if k in active && clock <= active[k].dropAt then active[k].scores else map[];
      active := active[k := Tokens(scores[token := clock + L.leaseMs], clock + L.leaseMs + 1_000)];
      var alive := k in rate && (rate[k].dropAt.None? || clock <= rate[k].dropAt.value);
      var count := (if alive then rate[k].count else 0) + 1;
      if count == 1 || rate[k].dropAt.None? {
        rate := rate[k := Counter(count, Some(clock + WINDOW_MS))];
      } else {
        rate := rate[k := rate[k].(count := count)];
      }
    }

    /** The release script; the number of distinct subjects that held the token. */
    method RunRelease(keys: seq<Subject>, token: Token) returns (removed: nat)
      modifies this`active
      ensures Value() == Release(old(Value()), keys, token)
      ensures removed == |Holders(old(Value()), keys, token)|
    {
      ghost var S := Value();
      removed := 0;
      var i := 0;
      while i < |keys|
        invariant 0 <= i <= |keys|
        invariant Value() == Release(S, keys[..i], token)
        invariant removed == |Holders(S, keys[..i], token)|
      {
        assert keys[..i + 1][..i] == keys[..i];
        var k := keys[i];
        ReleasedScores(S, keys[..i], token, k);
        OneMoreHolder(S, keys, token, i);
        var scores := if k in active && clock <= active[k].dropAt then active[k].scores else map[];
        if token in scores { removed := removed + 1; }
        var kept := scores - {token};
        if kept == map[] {
          active := active - {k};
        } else {
          active := active[k := active[k].(scores := kept)];
        }
        i := i + 1;
      }
      assert keys[..i] == keys;
    }
  }

  // ---- the subjects of a destination ------------------------------------

  const MAX_DESTINATION_ADDRESSES: nat := 64

  datatype SubjectError = TooManyAddresses | UnusableAddress

  /** destinationSubjects: the host and every address, in canonical form, each once. */
  method DestinationSubjects(host: Subject, addresses: seq<Option<Subject>>) returns (r: Result<seq<Subject>, SubjectError>)
    ensures r.Ok? <==> |addresses| <= 64 && None !in addresses
    ensures r == Err(TooManyAddresses) <==> |addresses| > 64
    ensures r.Ok? ==> Distinct(r.value) && (forall k :: k in r.value <==> k == host || Some(k) in addresses)
  {
    if |addresses| > MAX_DESTINATION_ADDRESSES { return Err(TooManyAddresses); }
    var subjects := [host];
    var i := 0;
    while i < |addresses|
      invariant 0 <= i <= |addresses|
      invariant None !in addresses[..i] && Distinct(subjects)
      invariant forall k :: k in subjects <==> k == host || Some(k) in addresses[..i]
    {
      if addresses[i].None? { return Err(UnusableAddress); }
      if addresses[i].value !in subjects { subjects := subjects + [addresses[i].value]; }
      assert addresses[..i + 1] == addresses[..i] + [addresses[i]];
      i := i + 1;
    }
    assert addresses[..i] == addresses;
    r := Ok(subjects);
  }
}
