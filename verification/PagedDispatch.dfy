/**
 * The dispatcher's paged loop. When nobody else writes, re-querying after each page is one pass over the
 * backlog in the order (availableAt, createdAt, id).
 */
module PagedDispatch {
  import opened Domain
  import opened Outbox
  import opened OutboxStore

  const SCAN_MULTIPLIER: int := 5
  const MAX_SCAN: int := 5_000

  function ScanBudget(limit: int): int {
    var wide := if limit * SCAN_MULTIPLIER < MAX_SCAN then limit * SCAN_MULTIPLIER else MAX_SCAN;
    if limit > wide then limit else wide
  }

  /** Five rows are looked at for each that may be sent, at most five thousand, and never fewer than may be sent. */
  lemma ScanBudgetIs(limit: int)
    requires limit > 0
    ensures ScanBudget(limit) == if limit <= 1_000 then 5 * limit else if limit <= 5_000 then 5_000 else limit
  {}

  // ---- what one pass does to one row ------------------------------------

  datatype Verdict = ChannelIsOff | MustWait | Undelivered | MayGo

  function VerdictOf(S: Outbox, k: Key): Verdict
    requires k in S.rows
  {
    if !ChannelOn(S, k.channel) then ChannelIsOff
    else if IsRecovery(S, k) then
      match RecoveryPrerequisite(DownStatus(S, k))
      case Wait => MustWait
      case MustCancel => Undelivered
      case Ready => MayGo
    else MayGo
  }

  /** A dispatcher's own settings, and which jobs the queue accepts. */
  datatype Pass = Pass(owner: Owner, asOf: Time, leaseMs: nat, accepts: Key -> bool)

  function Outcome(S: Outbox, p: Pass, k: Key): Row
    requires k in S.rows
  {
    var r := S.rows[k];
    match VerdictOf(S, k)
    case ChannelIsOff => Cancel(r, OtherReason)
    case MustWait => r.(availableAt := p.asOf + RECOVERY_RECHECK_DELAY_MS)
    case Undelivered => Cancel(r, DownNotDelivered)
    case MayGo =>
      if p.accepts(k) then r.(status := Enqueued, lease := Some(Lease(p.owner, p.asOf + p.leaseMs)))
      else r.(status := Retry, availableAt := p.asOf + 2_000, lease := None, reason := OtherReason)
  }

  predicate Sends(S: Outbox, p: Pass, k: Key) { k in S.rows && VerdictOf(S, k).MayGo? && p.accepts(k) }

  /** How many of the first n rows of b are sent to the queue. */
  function Dispatched(S: Outbox, p: Pass, b: seq<Key>, n: nat): nat
    requires n <= |b|
  {
    if n == 0 then 0 else Dispatched(S, p, b, n - 1) + if Sends(S, p, b[n - 1]) then 1 else 0
  }

  /** The outbox after the rows in b were handled, each once, each as the state before the pass decides. */
  ghost predicate Passed(S: Outbox, p: Pass, b: seq<Key>, T: Outbox) {
    && T == S.(rows := T.rows) && T.rows.Keys == S.rows.Keys
    && (forall k :: k in S.rows ==> T.rows[k] == if k in b then Outcome(S, p, k) else S.rows[k])
  }

  // ---- the backlog ------------------------------------------------------

  /** The order of the page query. Identifiers are distinct and totally ordered. */
  predicate Before(rows: map<Key, Row>, id: Key -> nat, j: Key, k: Key)
    requires j in rows && k in rows
  {
    || rows[j].availableAt < rows[k].availableAt
    || (rows[j].availableAt == rows[k].availableAt
        && (rows[j].createdAt < rows[k].createdAt || (rows[j].createdAt == rows[k].createdAt && id(j) < id(k))))
  }

  /** r is available before s, or with it and created no later. */
  predicate NoLater(r: Row, s: Row) {
    r.availableAt < s.availableAt || (r.availableAt == s.availableAt && r.createdAt <= s.createdAt)
  }

  ghost predicate Identifies(rows: map<Key, Row>, id: Key -> nat) {
    forall j, k :: j in rows && k in rows && j != k ==> id(j) != id(k)
  }

  /** b begins the sorted list of available rows: sorted, all available, and nothing available is missed before its end. */
  ghost predicate Leads(rows: map<Key, Row>, id: Key -> nat, asOf: Time, b: seq<Key>) {
    && (forall i :: 0 <= i < |b| ==> b[i] in rows && Available(rows[b[i]], asOf))
    && (forall i, j :: 0 <= i < j < |b| ==> Before(rows, id, b[i], b[j]))
    && (forall k, i :: k in rows && Available(rows[k], asOf) && k !in b && 0 <= i < |b| ==> Before(rows, id, b[i], k))
  }

  /** b is the whole sorted list. */
  ghost predicate Backlog(rows: map<Key, Row>, id: Key -> nat, asOf: Time, b: seq<Key>) {
    Leads(rows, id, asOf, b) && forall k :: k in rows && Available(rows[k], asOf) ==> k in b
  }

  /** Two beginnings of one sorted list agree where both are defined. */
  lemma {:induction false} LeadsAgree(rows: map<Key, Row>, id: Key -> nat, asOf: Time, a: seq<Key>, b: seq<Key>, i: nat)
    requires Leads(rows, id, asOf, a) && Leads(rows, id, asOf, b) && i < |a| && i < |b|
    ensures a[i] == b[i]
  {
    forall j | 0 <= j < i ensures a[j] == b[j] { LeadsAgree(rows, id, asOf, a, b, j); }
    NotEarlier(rows, id, asOf, a, b, i);
    NotEarlier(rows, id, asOf, b, a, i);
  }

  /** After a common part, the next element of one beginning is not earlier than that of the other. */
  lemma NotEarlier(rows: map<Key, Row>, id: Key -> nat, asOf: Time, a: seq<Key>, b: seq<Key>, i: nat)
    requires Leads(rows, id, asOf, a) && Leads(rows, id, asOf, b) && i < |a| && i < |b|
    requires forall j :: 0 <= j < i ==> a[j] == b[j]
    ensures a[i] == b[i] || Before(rows, id, b[i], a[i])
  {
    forall j | 0 <= j < i ensures a[j] != a[i] { assert Before(rows, id, a[j], a[i]); }
    if a[i] in b {
      var j :| 0 <= j < |b| && b[j] == a[i];
      assert j >= i;
    }
  }

  // ---- handling rows does not disturb the others ------------------------

  lemma HandledIsUnavailable(S: Outbox, p: Pass, k: Key)
    requires k in S.rows
    ensures !Available(Outcome(S, p, k), p.asOf)
  {}

  /** After the first n rows of the backlog, the backlog is the rest. */
  lemma RestIsBacklog(S: Outbox, p: Pass, id: Key -> nat, b: seq<Key>, n: nat, T: Outbox)
    requires Backlog(S.rows, id, p.asOf, b) && n <= |b| && Passed(S, p, b[..n], T)
    ensures Backlog(T.rows, id, p.asOf, b[n..])
  {
    forall i, j | 0 <= i < j < |b| ensures b[i] != b[j] { assert Before(S.rows, id, b[i], b[j]); }
    forall i | n <= i < |b| ensures b[i] !in b[..n] && T.rows[b[i]] == S.rows[b[i]] {}
    forall k | k in T.rows && Available(T.rows[k], p.asOf) ensures k in b[n..] {
      if k in b[..n] { HandledIsUnavailable(S, p, k); }
      assert k in b;
    }
  }

  lemma PageFits(rows: map<Key, Row>, id: Key -> nat, asOf: Time, page: seq<Key>, rest: seq<Key>)
    requires Leads(rows, id, asOf, page) && Backlog(rows, id, asOf, rest)
    ensures |page| <= |rest|
  {
    if |page| > |rest| {
      assert page[|rest|] in rest;
      forall i | 0 <= i < |rest| ensures page[i] == rest[i] && page[i] != page[|rest|] {
        LeadsAgree(rows, id, asOf, page, rest, i);
        assert Before(rows, id, page[i], page[|rest|]);
      }
    }
  }

  lemma PageIsNext(S: Outbox, p: Pass, id: Key -> nat, b: seq<Key>, n: nat, T: Outbox, page: seq<Key>)
    requires Backlog(S.rows, id, p.asOf, b) && n <= |b| && Passed(S, p, b[..n], T)
    requires Leads(T.rows, id, p.asOf, page)
    ensures n + |page| <= |b| && page == b[n..n + |page|]
  {
    var rest := b[n..];
    RestIsBacklog(S, p, id, b, n, T);
    PageFits(T.rows, id, p.asOf, page, rest);
    forall i | 0 <= i < |page| ensures page[i] == rest[i] { LeadsAgree(T.rows, id, p.asOf, page, rest, i); }
  }

  /** A row's verdict does not depend on which other rows the pass has handled. */
  lemma VerdictIsStable(S: Outbox, p: Pass, b: seq<Key>, T: Outbox, k: Key)
    requires Passed(S, p, b, T) && k in S.rows && k !in b
    requires forall j :: j in b ==> j in S.rows && !Terminal(S.rows[j].status)
    ensures VerdictOf(T, k) == VerdictOf(S, k) && Outcome(T, p, k) == Outcome(S, p, k)
  {
    if IsRecovery(S, k) && ChannelOn(S, k.channel) {
      var down := First(k.incident, k.channel);
      if down in S.rows && down in b {
        assert VerdictOf(S, down).MayGo?;
        assert T.rows[down] == Outcome(S, p, down);
      }
    }
  }

  lemma PassOne(S: Outbox, p: Pass, b: seq<Key>, T: Outbox, k: Key, U: Outbox)
    requires Passed(S, p, b, T) && k in S.rows && k !in b
    requires forall j :: j in b ==> j in S.rows && !Terminal(S.rows[j].status)
    requires U == T.(rows := T.rows[k := Outcome(T, p, k)])
    ensures Passed(S, p, b + [k], U)
  {
    VerdictIsStable(S, p, b, T, k);
  }

  /** The rows of a page can all be handled. */
  ghost predicate Handleable(rows: map<Key, Row>, asOf: Time, page: seq<Key>) {
    && (forall i :: 0 <= i < |page| ==> page[i] in rows && Available(rows[page[i]], asOf))
    && (forall i, j :: 0 <= i < j < |page| ==> page[i] != page[j])
  }

  lemma LeadsHandleable(rows: map<Key, Row>, id: Key -> nat, asOf: Time, page: seq<Key>)
    requires Leads(rows, id, asOf, page)
    ensures Handleable(rows, asOf, page)
  {
    forall i, j | 0 <= i < j < |page| ensures page[i] != page[j] { assert Before(rows, id, page[i], page[j]); }
  }

  /** The next row of a page is still available, and handling it extends the pass. */
  lemma NextInPass(S: Outbox, p: Pass, page: seq<Key>, n: nat, T: Outbox)
    requires Handleable(S.rows, p.asOf, page) && n < |page| && Passed(S, p, page[..n], T)
    ensures page[n] in T.rows && Available(T.rows[page[n]], p.asOf)
    ensures Dispatched(S, p, page, n + 1) == Dispatched(S, p, page, n) + if Sends(T, p, page[n]) then 1 else 0
    ensures Passed(S, p, page[..n + 1], T.(rows := T.rows[page[n] := Outcome(T, p, page[n])]))
  {
    assert page[..n + 1] == page[..n] + [page[n]];
    assert page[n] !in page[..n];
    VerdictIsStable(S, p, page[..n], T, page[n]);
    PassOne(S, p, page[..n], T, page[n], T.(rows := T.rows[page[n] := Outcome(T, p, page[n])]));
  }

  /** A pass over the next page continues the pass so far. */
  lemma PassContinues(S: Outbox, p: Pass, done: seq<Key>, T: Outbox, page: seq<Key>, U: Outbox)
    requires Passed(S, p, done, T) && Passed(T, p, page, U)
    requires forall k :: k in done ==> k in S.rows && k !in page && !Terminal(S.rows[k].status)
    requires forall k :: k in page ==> k in S.rows
    ensures Passed(S, p, done + page, U)
    ensures forall k :: k in page ==> (Sends(T, p, k) <==> Sends(S, p, k))
  {
    forall k | k in page ensures VerdictOf(T, k) == VerdictOf(S, k) && Outcome(T, p, k) == Outcome(S, p, k) {
      VerdictIsStable(S, p, done, T, k);
    }
  }

  lemma {:induction false} SameSends(S: Outbox, T: Outbox, p: Pass, b: seq<Key>, n: nat, page: seq<Key>, i: nat)
    requires i <= |page| && n + |page| <= |b| && page == b[n..n + |page|]
    requires forall k :: k in page ==> (Sends(T, p, k) <==> Sends(S, p, k))
    ensures Dispatched(T, p, page, i) == Dispatched(S, p, b, n + i) - Dispatched(S, p, b, n)
  {
    if i > 0 {
      SameSends(S, T, p, b, n, page, i - 1);
      assert page[i - 1] in page && page[i - 1] == b[n + i - 1];
      assert Sends(T, p, page[i - 1]) <==> Sends(S, p, b[n + i - 1]);
    }
  }

  /** The page of a backlog, handled, is the backlog's next stretch handled. */
  lemma PageHandled(S: Outbox, p: Pass, b: seq<Key>, n: nat, T: Outbox, page: seq<Key>, U: Outbox)
    requires Handleable(S.rows, p.asOf, b) && n + |page| <= |b| && page == b[n..n + |page|]
    requires Passed(S, p, b[..n], T) && Passed(T, p, page, U)
    ensures Passed(S, p, b[..n + |page|], U)
    ensures forall k :: k in page ==> (Sends(T, p, k) <==> Sends(S, p, k))
  {
    assert b[..n + |page|] == b[..n] + page;
    forall k | k in b[..n] ensures k in S.rows && k !in page && !Terminal(S.rows[k].status) {}
    PassContinues(S, p, b[..n], T, page, U);
  }

  // ---- where a pass ends ------------------------------------------------

  /** A pass over b handles exactly its first n rows: it ends at the limit-th send, the budget, or the end. */
  ghost predicate EndsAt(S: Outbox, p: Pass, b: seq<Key>, limit: int, n: nat)
  {
    && n <= |b|
    && (limit <= 0 ==> n == 0)
    && (limit > 0 ==>
          && n <= ScanBudget(limit) && Dispatched(S, p, b, n) <= limit
          && (n == |b| || n == ScanBudget(limit) || Dispatched(S, p, b, n) == limit)
          && (n > 0 ==> Dispatched(S, p, b, n - 1) < limit))
  }

  lemma {:induction false} DispatchedGrows(S: Outbox, p: Pass, b: seq<Key>, i: nat, j: nat)
    requires i <= j <= |b|
    ensures Dispatched(S, p, b, i) <= Dispatched(S, p, b, j) <= Dispatched(S, p, b, i) + (j - i)
  {
    if i < j {
      DispatchedGrows(S, p, b, i, j - 1);
    }
  }

  /** Where a pass ends is determined by the backlog. */
  lemma EndIsUnique(S: Outbox, p: Pass, b: seq<Key>, limit: int, n: nat, m: nat)
    requires EndsAt(S, p, b, limit, n) && EndsAt(S, p, b, limit, m)
    ensures n == m
  {
    if 0 < n < m {
      DispatchedGrows(S, p, b, n, m - 1);
    } else if 0 < m < n {
      DispatchedGrows(S, p, b, m, n - 1);
    }
  }

  /**
   * Waiting recoveries and rows of switched-off channels never hide ready work: a row within the scan budget is
   * handled iff fewer than limit rows before it were sent.
   */
  lemma ReadyRowsAreReached(S: Outbox, p: Pass, b: seq<Key>, limit: int, n: nat, i: nat)
    requires limit > 0 && EndsAt(S, p, b, limit, n)
    requires i < |b| && i < ScanBudget(limit)
    ensures i < n <==> Dispatched(S, p, b, i) < limit
  {
    if i < n {
      DispatchedGrows(S, p, b, i, n - 1);
    } else {
      DispatchedGrows(S, p, b, n, i);
    }
  }

  /** What a page is: the next stretch of the backlog, empty only at its end. */
  lemma PageFound(S: Outbox, p: Pass, id: Key -> nat, b: seq<Key>, n: nat, T: Outbox, page: seq<Key>)
    requires Backlog(S.rows, id, p.asOf, b) && n <= |b| && Passed(S, p, b[..n], T)
    requires Leads(T.rows, id, p.asOf, page) && (page == [] ==> Backlog(T.rows, id, p.asOf, page))
    ensures Handleable(T.rows, p.asOf, page) && n + |page| <= |b| && page == b[n..n + |page|]
    ensures page == [] ==> n == |b|
  {
    LeadsHandleable(T.rows, id, p.asOf, page);
    PageIsNext(S, p, id, b, n, T, page);
    RestIsBacklog(S, p, id, b, n, T);
    if n < |b| { assert b[n..][0] in T.rows; }
  }

  /** A handled page moves the pass on and sends what it sent. */
  lemma PageAdvances(S: Outbox, p: Pass, b: seq<Key>, n: nat, T: Outbox, page: seq<Key>, U: Outbox) returns (m: nat)
    requires Handleable(S.rows, p.asOf, b) && n + |page| <= |b| && page == b[n..n + |page|]
    requires Passed(S, p, b[..n], T) && Passed(T, p, page, U)
    ensures m == n + |page| && Passed(S, p, b[..m], U)
    ensures Dispatched(S, p, b, n) <= Dispatched(S, p, b, m) <= Dispatched(S, p, b, n) + |page|
    ensures Dispatched(S, p, b, m) == Dispatched(S, p, b, n) + Dispatched(T, p, page, |page|)
  {
    PageHandled(S, p, b, n, T, page, U);
    m := PageCounts(S, p, b, n, T, page);
  }

  lemma PageCounts(S: Outbox, p: Pass, b: seq<Key>, n: nat, T: Outbox, page: seq<Key>) returns (m: nat)
    requires n + |page| <= |b| && page == b[n..n + |page|]
    requires forall k :: k in page ==> (Sends(T, p, k) <==> Sends(S, p, k))
    ensures m == n + |page|
    ensures Dispatched(S, p, b, n) <= Dispatched(S, p, b, m) <= Dispatched(S, p, b, n) + |page|
    ensures Dispatched(S, p, b, m) == Dispatched(S, p, b, n) + Dispatched(T, p, page, |page|)
  {
    m := n + |page|;
    SameSends(S, T, p, b, n, page, |page|);
    DispatchedGrows(S, p, b, n, m);
  }

  /** How a pass ends: the last page started below the limit and could not overshoot it. */
  lemma PassEnds(S: Outbox, p: Pass, b: seq<Key>, limit: int, last: nat, n: nat)
    requires limit > 0 && n <= |b| && n <= ScanBudget(limit) && Dispatched(S, p, b, n) <= limit
    requires n > 0 ==> last < n && Dispatched(S, p, b, last) + (n - last) <= limit
    requires n == |b| || n == ScanBudget(limit) || Dispatched(S, p, b, n) == limit
    ensures EndsAt(S, p, b, limit, n)
  {
    if n > 0 { DispatchedGrows(S, p, b, last, n - 1); }
  }

  // ---- the loop ---------------------------------------------------------

  class Dispatcher {
    const store: Store
    const owner: Owner
    const leaseMs: nat
    const id: Key -> nat
    const accepts: Key -> bool

    constructor (store: Store, owner: Owner, leaseMs: nat, id: Key -> nat, accepts: Key -> bool)
      ensures this.store == store && this.owner == owner && this.leaseMs == leaseMs
      ensures this.id == id && this.accepts == accepts
    {
      this.store, this.owner, this.leaseMs, this.id, this.accepts := store, owner, leaseMs, id, accepts;
    }

    /** The query: at most `take` available rows in order. */
    method FindPage(asOf: Time, take: int) returns (page: seq<Key>)
      requires take >= 0 && Identifies(store.rows, id)
      ensures Leads(store.rows, id, asOf, page) && |page| <= take
      ensures |page| < take ==> Backlog(store.rows, id, asOf, page)
      ensures forall i, k :: 0 <= i < |page| && k in store.rows && Available(store.rows[k], asOf) && k !in page ==>
                NoLater(store.rows[page[i]], store.rows[k])
      ensures forall i, j :: 0 <= i < j < |page| ==> NoLater(store.rows[page[i]], store.rows[page[j]])
    {
      page := [];
      var todo := set k | k in store.rows && Available(store.rows[k], asOf);
      while |page| < take && todo != {}
        invariant |page| <= take && todo <= store.rows.Keys
        invariant forall k :: k in store.rows && Available(store.rows[k], asOf) <==> k in todo || k in page
        invariant forall k :: k in page ==> k !in todo
        invariant Leads(store.rows, id, asOf, page)
      {
        var next := Earliest(todo);
        page := page + [next];
        todo := todo - {next};
      }
    }

    method Earliest(keys: set<Key>) returns (next: Key)
      requires keys != {} && keys <= store.rows.Keys && Identifies(store.rows, id)
      ensures next in keys && forall k :: k in keys && k != next ==> Before(store.rows, id, next, k)
    {
      next :| next in keys;
      var todo := keys - {next};
      while todo != {}
        invariant next in keys && todo <= keys && next !in todo
        invariant forall k :: k in keys && k !in todo && k != next ==> Before(store.rows, id, next, k)
        decreases |todo|
      {
        var k :| k in todo;
        todo := todo - {k};
        if Before(store.rows, id, k, next) { next := k; }
      }
    }

    /** One candidate of a page: cancel it, put it off, or claim it, enqueue it and mark it. */
    method HandleCandidate(k: Key, asOf: Time) returns (progress: bool, sent: bool)
      requires k in store.rows && Available(store.rows[k], asOf) && Permit(owner, k) !in store.cleared
      modifies store`rows, store`cleared
      ensures var S, p := old(store.Value()), Pass(owner, asOf, leaseMs, accepts);
              store.Value() == S.(rows := S.rows[k := Outcome(S, p, k)]) && progress && (sent <==> Sends(S, p, k))
    {
      progress := store.InspectCandidate(owner, k, asOf);
      if progress { return progress, false; }
      progress := store.TakeCandidate(owner, k, asOf, leaseMs);
      if !progress { return progress, false; }
      store.FinishCandidate(owner, k, asOf, leaseMs, accepts(k));
      sent := accepts(k);
      assert store.cleared == old(store.cleared);
    }

    /** The candidates of a page, in order. */
    method HandlePage(page: seq<Key>, asOf: Time) returns (sentHere: int, progress: bool)
      requires Handleable(store.rows, asOf, page)
      requires forall k :: Permit(owner, k) !in store.cleared
      modifies store`rows, store`cleared
      ensures var S, p := old(store.Value()), Pass(owner, asOf, leaseMs, accepts);
              Passed(S, p, page, store.Value()) && sentHere == Dispatched(S, p, page, |page|)
      ensures progress <==> page != []
    {
      ghost var S, p := store.Value(), Pass(owner, asOf, leaseMs, accepts);
      sentHere, progress := 0, false;
      var i := 0;
      while i < |page|
        invariant 0 <= i <= |page|
        invariant Passed(S, p, page[..i], store.Value())
        invariant sentHere == Dispatched(S, p, page, i)
        invariant progress <==> i > 0
      {
        NextInPass(S, p, page, i, store.Value());
        var moved, sent := HandleCandidate(page[i], asOf);
        progress := moved || progress;
        if sent { sentHere := sentHere + 1; }
        i := i + 1;
      }
      assert page[..i] == page;
    }

    /** One page: the next stretch of the backlog is found and handled, without overshooting the limit. */
    method DispatchPage(asOf: Time, take: int, limit: int, ghost S: Outbox, ghost b: seq<Key>, ghost n: nat)
      returns (found: nat, sentHere: int, progress: bool, ghost m: nat)
      requires take >= 1 && Identifies(store.rows, id) && Backlog(S.rows, id, asOf, b) && n <= |b|
      requires Passed(S, Pass(owner, asOf, leaseMs, accepts), b[..n], store.Value())
      requires Dispatched(S, Pass(owner, asOf, leaseMs, accepts), b, n) + take <= limit
      requires forall k :: Permit(owner, k) !in store.cleared
      modifies store`rows, store`cleared
      ensures var p := Pass(owner, asOf, leaseMs, accepts);
              && m == n + found <= |b| && found <= take && Passed(S, p, b[..m], store.Value())
              && Dispatched(S, p, b, m) == Dispatched(S, p, b, n) + sentHere <= limit
      ensures found == 0 ==> n == |b|
      ensures progress <==> found > 0
    {
      ghost var p := Pass(owner, asOf, leaseMs, accepts);
      var page := FindPage(asOf, take);
      ghost var T := store.Value();
      PageFound(S, p, id, b, n, T, page);
      found, sentHere, progress, m := |page|, 0, false, n;
      if page == [] { return; }
      sentHere, progress := HandlePage(page, asOf);
      LeadsHandleable(S.rows, id, asOf, b);
      m := PageAdvances(S, p, b, n, T, page, store.Value());
    }

    /** dispatch: the re-querying loop is one pass over the backlog b, ending where EndsAt says. */
    method Dispatch(asOf: Time, limit: int, ghost b: seq<Key>) returns (dispatched: int, ghost n: nat)
      requires Identifies(store.rows, id) && Backlog(store.rows, id, asOf, b)
      requires forall k :: Permit(owner, k) !in store.cleared
      modifies store`rows, store`cleared
      ensures var S, p := old(store.Value()), Pass(owner, asOf, leaseMs, accepts);
              && EndsAt(S, p, b, limit, n) && Passed(S, p, b[..n], store.Value())
              && dispatched == Dispatched(S, p, b, n)
    {
      ghost var S, p := store.Value(), Pass(owner, asOf, leaseMs, accepts);
      dispatched, n := 0, 0;
      assert b[..0] == [];
      if limit <= 0 { return; }
      var scanned := 0;
      var scanBudget := ScanBudget(limit);
      ghost var last: nat := 0;
      while dispatched < limit && scanned < scanBudget
        invariant 0 <= n == scanned <= scanBudget && n <= |b|
        invariant Passed(S, p, b[..n], store.Value())
        invariant dispatched <= limit
        invariant dispatched == Dispatched(S, p, b, n)
        invariant n > 0 ==> last < n && Dispatched(S, p, b, last) + (n - last) <= limit
        decreases scanBudget - scanned
      {
        var take := if limit - dispatched < scanBudget - scanned then limit - dispatched else scanBudget - scanned;
        var found, sentHere, batchMadeProgress;
        ghost var start := n;
        found, sentHere, batchMadeProgress, n := DispatchPage(asOf, take, limit, S, b, n);
        if found == 0 { break; }
        last := start;
        scanned := scanned + found;
        dispatched := dispatched + sentHere;
        if !batchMadeProgress { break; }
      }
      PassEnds(S, p, b, limit, last, n);
    }
  }
}
