/**
 * checkUrl's loop over redirects and the destination leases it holds. Resolver, limiter, transport and body are
 * oracles: a world says what they do at each hop and at each call of release.
 */
module CheckerLease {
  import opened Domain
  import opened HealthState

  // ---- errors -----------------------------------------------------------

  datatype RawError =
    | HeadersTimeout | ConnectTimedOut | Refused | TlsFault | HeaderOverflow | BodyTimeout | SocketFault | AbortCode | OtherFault

  /** What can be thrown: a failure of the target, one of the special failures, or an error from a library. */
  datatype Thrown =
    | UrlPolicyError
    | RedirectPolicyError
    | DestinationLimiterError
    | TargetFault(errorType: CheckErrorType)
    | Raw(error: RawError)

  datatype Verdict = Verdict(outcome: CheckOutcome, errorType: Option<CheckErrorType>)

  function Classify(e: Thrown, aborted: bool): (v: Verdict)
    ensures !v.outcome.Success? && v.errorType.Some?
  {
    match e
    case UrlPolicyError => Verdict(Inconclusive, Some(DnsError))
    case RedirectPolicyError => Verdict(TargetFailure, Some(RedirectError))
    case DestinationLimiterError => Verdict(PlatformError, Some(PlatformFault))
    case TargetFault(errorType) => Verdict(TargetFailure, Some(errorType))
    case Raw(error) =>
      if aborted || error.AbortCode? then Verdict(TargetFailure, Some(RequestTimeout))
      else
        match error
        case HeadersTimeout => Verdict(TargetFailure, Some(TtfbTimeout))
        case ConnectTimedOut => Verdict(TargetFailure, Some(ConnectTimeout))
        case Refused => Verdict(TargetFailure, Some(ConnectionRefused))
        case TlsFault => Verdict(TargetFailure, Some(TlsError))
        case HeaderOverflow => Verdict(TargetFailure, Some(ResponseLimitExceeded))
        case BodyTimeout => Verdict(TargetFailure, Some(RequestTimeout))
        case SocketFault => Verdict(TargetFailure, Some(NetworkError))
        case _ => Verdict(PlatformError, Some(PlatformFault))
  }

  /** A destination refused by policy is the monitored site's fault only if one of its redirects led there. */
  function Judge(e: Thrown, redirects: nat, aborted: bool): (v: Verdict)
    ensures !v.outcome.Success? && v.errorType.Some?
  {
    Classify(if e.UrlPolicyError? && redirects > 0 then RedirectPolicyError else e, aborted)
  }

  // ---- configuration ----------------------------------------------------

  datatype Config = Config(
    head: bool,
    timeoutMs: int,
    statusMin: int,
    statusMax: int,
    keywordBytes: Option<nat>,   // None when the keyword is absent or blank
    followRedirects: bool,
    maxRedirects: int)

  const DEFAULT_MAX_REDIRECTS: int := 5
  const MAX_HEADER_BYTES: int := 32_768

  predicate Acceptable(c: Config) {
    && 500 <= c.timeoutMs <= 30_000
    && 100 <= c.statusMin <= c.statusMax <= 599
    && 0 <= c.maxRedirects <= DEFAULT_MAX_REDIRECTS
    && (c.keywordBytes.Some? ==> !c.head && c.keywordBytes.value <= 4_096)
  }

  predicate RedirectStatus(status: int) { status in {301, 302, 303, 307, 308} }

  // ---- the world --------------------------------------------------------

  datatype Location = NoLocation | BadLocation | GoodLocation

  datatype Response = Response(
    status: int,
    headerBytes: int,
    location: Location,
    keyword: Result<bool, Thrown>,
    closing: Option<Thrown>)          // what response.close() throws

  datatype Hop = Hop(
    destination: Result<nat, Thrown>, // identifies the URL and the cookies sent to it
    granted: bool,
    response: Result<Response, Thrown>)

  datatype World = World(
    limited: bool,                    // a limiter is configured
    hops: nat -> Hop,
    releases: nat -> bool,            // does the n-th call of release succeed?
    aborted: bool)                    // has the overall timeout fired when the outcome is decided?

  // ---- the trace --------------------------------------------------------

  type Lease = nat

  datatype Event = Acquired(lease: Lease) | Requested(hop: nat) | Released(lease: Lease, ok: bool)

  function Requests(t: seq<Event>): nat {
    if t == [] then 0 else Requests(t[..|t| - 1]) + if t[|t| - 1].Requested? then 1 else 0
  }

  /** Leases whose release has not succeeded. */
  function Held(t: seq<Event>): set<Lease> {
    if t == [] then {}
    else
      var before := Held(t[..|t| - 1]);
      match t[|t| - 1]
      case Acquired(l) => before + {l}
      case Released(l, true) => before - {l}
      case _ => before
  }

  /** Leases that were acquired and never passed to release. */
  function Forgotten(t: seq<Event>): set<Lease> {
    if t == [] then {}
    else
      var before := Forgotten(t[..|t| - 1]);
      match t[|t| - 1]
      case Acquired(l) => before + {l}
      case Released(l, _) => before - {l}
      case _ => before
  }

  function ReleaseCalls(t: seq<Event>): nat {
    if t == [] then 0 else ReleaseCalls(t[..|t| - 1]) + if t[|t| - 1].Released? then 1 else 0
  }

  ghost predicate SomeReleaseFailed(t: seq<Event>) {
    exists i :: 0 <= i < |t| && t[i].Released? && !t[i].ok
  }

  /** Never more than one lease, and with a limiter no request without the lease of its own hop. */
  ghost predicate Disciplined(t: seq<Event>, limited: bool) {
    t == []
    || (&& Disciplined(t[..|t| - 1], limited)
        && |Held(t)| <= 1
        && (t[|t| - 1].Requested? && limited ==> Held(t) == {t[|t| - 1].hop}))
  }

  lemma TraceGrows(t: seq<Event>, e: Event, limited: bool)
    ensures Requests(t + [e]) == Requests(t) + if e.Requested? then 1 else 0
    ensures ReleaseCalls(t + [e]) == ReleaseCalls(t) + if e.Released? then 1 else 0
    ensures Held(t + [e]) == match e case Acquired(l) => Held(t) + {l} case Released(l, true) => Held(t) - {l} case _ => Held(t)
    ensures Forgotten(t + [e]) == match e case Acquired(l) => Forgotten(t) + {l} case Released(l, _) => Forgotten(t) - {l} case _ => Forgotten(t)
    ensures SomeReleaseFailed(t + [e]) <==> SomeReleaseFailed(t) || (e.Released? && !e.ok)
    ensures Disciplined(t + [e], limited)
       <==> Disciplined(t, limited) && |Held(t + [e])| <= 1 && (e.Requested? && limited ==> Held(t + [e]) == {e.hop})
  {
    var u := t + [e];
    assert u[..|t|] == t;
    if SomeReleaseFailed(t) {
      var i :| 0 <= i < |t| && t[i].Released? && !t[i].ok;
      assert u[i] == t[i];
    }
    if e.Released? && !e.ok { assert u[|t|] == e; }
  }

  // ---- what success means -----------------------------------------------

  predicate Obtained(w: World, n: nat) {
    w.hops(n).destination.Ok? && (w.limited ==> w.hops(n).granted) && w.hops(n).response.Ok?
    && w.hops(n).response.value.headerBytes <= MAX_HEADER_BYTES
  }

  predicate AsksForRedirect(c: Config, r: Response) {
    c.followRedirects && RedirectStatus(r.status) && !r.location.NoLocation?
  }

  /** Hop n answers with a redirect that can be followed, and lets go of its lease. */
  predicate Redirected(c: Config, w: World, n: nat) {
    && Obtained(w, n)
    && var r := w.hops(n).response.value;
       AsksForRedirect(c, r) && r.location.GoodLocation? && r.closing.None? && (w.limited ==> w.releases(n))
  }

  /** Hop n answers as the monitor expects, and lets go of its lease. */
  predicate Served(c: Config, w: World, n: nat) {
    && Obtained(w, n)
    && var r := w.hops(n).response.value;
       && !AsksForRedirect(c, r) && c.statusMin <= r.status <= c.statusMax
       && (c.keywordBytes.Some? ==> r.keyword == Ok(true))
       && r.closing.None? && (w.limited ==> w.releases(n))
  }

  /** No hop up to n repeats an earlier request. */
  ghost predicate Fresh(w: World, n: nat) {
    forall i, j :: 0 <= i < j <= n && w.hops(i).destination.Ok? && w.hops(j).destination.Ok? ==>
      w.hops(i).destination.value != w.hops(j).destination.value
  }

  ghost predicate Arrives(c: Config, w: World, n: nat) {
    n <= c.maxRedirects && (forall i :: 0 <= i < n ==> Redirected(c, w, i)) && Served(c, w, n) && Fresh(w, n)
  }

  /** The check has followed r redirects and no more can be said for hop r. */
  ghost predicate StuckAt(c: Config, w: World, r: nat) {
    && (forall i :: 0 <= i < r ==> Redirected(c, w, i))
    && !(Served(c, w, r) && Fresh(w, r))
    && !(Redirected(c, w, r) && Fresh(w, r) && r < c.maxRedirects)
  }

  lemma StuckNeverArrives(c: Config, w: World, r: nat, n: nat)
    requires StuckAt(c, w, r) && r <= c.maxRedirects
    ensures !Arrives(c, w, n)
  {
    assert n < r ==> Redirected(c, w, n);
    assert Arrives(c, w, n) && n > r ==> Redirected(c, w, r);
  }

  // ---- what each verdict means ------------------------------------------

  /** Something at fault on the target's side. */
  predicate Blamed(v: Verdict, errorType: CheckErrorType) { v == Verdict(TargetFailure, Some(errorType)) }

  /** Something at fault on our side. */
  predicate OurFault(v: Verdict) { v == Verdict(PlatformError, Some(PlatformFault)) }

  /** The verdict about a check that ended with the error e after r redirects. */
  predicate Blames(e: Thrown, r: nat, aborted: bool, v: Verdict) {
    && (e.UrlPolicyError? ==> if r == 0 then v == Verdict(Inconclusive, Some(DnsError)) else Blamed(v, RedirectError))
    && (e.RedirectPolicyError? ==> Blamed(v, RedirectError))
    && (e.DestinationLimiterError? ==> OurFault(v))
    && (e.TargetFault? ==> Blamed(v, e.errorType))
    && (e.Raw? && (aborted || e.error.AbortCode? || e.error.BodyTimeout?) ==> Blamed(v, RequestTimeout))
    && (e.Raw? && !aborted ==>
          && (e.error.HeadersTimeout? ==> Blamed(v, TtfbTimeout))
          && (e.error.ConnectTimedOut? ==> Blamed(v, ConnectTimeout))
          && (e.error.Refused? ==> Blamed(v, ConnectionRefused))
          && (e.error.TlsFault? ==> Blamed(v, TlsError))
          && (e.error.HeaderOverflow? ==> Blamed(v, ResponseLimitExceeded))
          && (e.error.SocketFault? ==> Blamed(v, NetworkError))
          && (e.error.OtherFault? ==> OurFault(v)))
  }

  /** An earlier hop made the same request. */
  ghost predicate Repeats(w: World, n: nat) {
    w.hops(n).destination.Ok? && exists i :: 0 <= i < n && w.hops(i).destination == w.hops(n).destination
  }

  /** Hop n holds a lease. */
  ghost predicate Leased(w: World, n: nat) {
    w.limited && w.hops(n).destination.Ok? && !Repeats(w, n) && w.hops(n).granted
  }

  /** The verdict about the answer of hop n, when its lease was given back. */
  ghost predicate AnswerDecides(c: Config, w: World, n: nat, a: Response, v: Verdict) {
    if a.headerBytes > 32_768 then Blamed(v, ResponseLimitExceeded)
    else if c.followRedirects && a.status in {301, 302, 303, 307, 308} && !a.location.NoLocation? then
      if n >= c.maxRedirects || a.location.BadLocation? then Blamed(v, RedirectError)
      else a.closing.Some? && Blames(a.closing.value, n, w.aborted, v)
    else if a.status < c.statusMin || a.status > c.statusMax then Blamed(v, HttpStatusMismatch)
    else if c.keywordBytes.Some? && a.keyword.Err? then Blames(a.keyword.error, n, w.aborted, v)
    else if c.keywordBytes.Some? && !a.keyword.value then Blamed(v, ContentMismatch)
    else if a.closing.Some? then Blames(a.closing.value, n, w.aborted, v)
    else v == Verdict(Success, None)
  }

  /** The verdict about a check that goes no further than hop n, told from what the world does there. */
  ghost predicate HopDecides(c: Config, w: World, n: nat, v: Verdict) {
    var h := w.hops(n);
    if h.destination.Err? then Blames(h.destination.error, n, w.aborted, v)
    else if Repeats(w, n) then Blamed(v, RedirectError)
    else if w.limited && !h.granted then OurFault(v)
    else if w.limited && !w.releases(n) then OurFault(v)
    else if h.response.Err? then Blames(h.response.error, n, w.aborted, v)
    else AnswerDecides(c, w, n, h.response.value, v)
  }

  /** The error e explains what hop n did, unless releasing its lease fails as well. */
  ghost predicate Faults(c: Config, w: World, n: nat, e: Thrown) {
    (Leased(w, n) ==> w.releases(n)) ==> HopDecides(c, w, n, Judge(e, n, w.aborted))
  }

  /** The check follows the redirects of the first n hops and goes no further. */
  ghost predicate EndsAt(c: Config, w: World, n: nat) {
    && n <= c.maxRedirects && (forall i :: 0 <= i < n ==> Redirected(c, w, i)) && (n > 0 ==> Fresh(w, n - 1))
    && !(n < c.maxRedirects && Redirected(c, w, n) && !Repeats(w, n))
  }

  lemma JudgeBlames(e: Thrown, r: nat, aborted: bool)
    ensures Blames(e, r, aborted, Judge(e, r, aborted))
  {}

  /** A check ends at one hop only. */
  lemma EndIsUnique(c: Config, w: World, n: nat, m: nat)
    requires EndsAt(c, w, n) && EndsAt(c, w, m)
    ensures n == m
  {
    if n < m { NoRepeatBefore(w, n, m); } else if m < n { NoRepeatBefore(w, m, n); }
  }

  lemma NoRepeatBefore(w: World, n: nat, m: nat)
    requires n < m && Fresh(w, m - 1)
    ensures !Repeats(w, n)
  {}

  // ---- the loop ---------------------------------------------------------

  /** How the try block ends. The lease is the one still in hand. */
  datatype End = Finished | Threw(error: Thrown, lease: Option<Lease>)

  /** The trace while no release has failed and `lease` is the one in hand. */
  ghost predicate InHand(t: seq<Event>, w: World, lease: Option<Lease>) {
    && Disciplined(t, w.limited) && !SomeReleaseFailed(t)
    && Held(t) == Forgotten(t) == (if lease.Some? then {lease.value} else {})
  }

  /** The trace after a failed release: the lease stays held until it expires, and nothing was acquired since. */
  ghost predicate Broken(t: seq<Event>, w: World, lease: Lease) {
    Disciplined(t, w.limited) && SomeReleaseFailed(t) && Held(t) <= {lease} && Forgotten(t) == {}
  }

  /** releaseDestinationLease: nothing without a lease, else one call of release; false when it throws. */
  method ReleaseLease(w: World, lease: Option<Lease>, t: seq<Event>) returns (ok: bool, u: seq<Event>)
    requires InHand(t, w, lease) || (lease.Some? && Broken(t, w, lease.value))
    ensures lease.None? ==> ok && u == t
    ensures lease.Some? ==> ok == w.releases(ReleaseCalls(t)) && ReleaseCalls(u) == ReleaseCalls(t) + 1
    ensures Requests(u) == Requests(t)
    ensures InHand(t, w, lease) && ok ==> InHand(u, w, None)
    ensures lease.Some? && (!ok || Broken(t, w, lease.value)) ==> Broken(u, w, lease.value)
  {
    if lease.None? { return true, t; }
    ok := w.releases(ReleaseCalls(t));
    u := t + [Released(lease.value, ok)];
    TraceGrows(t, Released(lease.value, ok), w.limited);
  }

  lemma AcquiringIsDisciplined(w: World, n: nat, t: seq<Event>)
    requires InHand(t, w, None)
    ensures var u := t + [Acquired(n)]; InHand(u, w, Some(n)) && ReleaseCalls(u) == ReleaseCalls(t) && Requests(u) == Requests(t)
  {
    TraceGrows(t, Acquired(n), w.limited);
    assert Held(t + [Acquired(n)]) == {n};
  }

  lemma RequestingIsDisciplined(w: World, n: nat, lease: Option<Lease>, t: seq<Event>)
    requires InHand(t, w, lease) && lease == if w.limited then Some(n) else None
    ensures var u := t + [Requested(n)]; InHand(u, w, lease) && ReleaseCalls(u) == ReleaseCalls(t) && Requests(u) == Requests(t) + 1
  {
    TraceGrows(t, Requested(n), w.limited);
    assert |Held(t)| <= 1;
  }

  /** One hop up to its response headers. */
  method Request(c: Config, w: World, n: nat, t: seq<Event>) returns (r: Result<Response, Thrown>, lease: Option<Lease>, u: seq<Event>)
    requires InHand(t, w, None) && !Repeats(w, n)
    ensures InHand(u, w, lease) && ReleaseCalls(u) == ReleaseCalls(t) && (lease.Some? <==> Leased(w, n))
    ensures Requests(t) <= Requests(u) <= Requests(t) + 1
    ensures Obtained(w, n) <==> r.Ok?
    ensures r.Ok? ==> r == w.hops(n).response && (w.limited ==> lease.Some?)
    ensures r.Err? ==> Faults(c, w, n, r.error)
  {
    var hop := w.hops(n);
    lease, u := None, t;
    if hop.destination.Err? {
      JudgeBlames(hop.destination.error, n, w.aborted);
      return Err(hop.destination.error), None, t;
    }
    if w.limited {
      if !hop.granted { return Err(DestinationLimiterError), None, t; }
      lease := Some(n);
      AcquiringIsDisciplined(w, n, u);
      u := u + [Acquired(n)];
    }
    RequestingIsDisciplined(w, n, lease, u);
    u := u + [Requested(n)];
    if hop.response.Err? {
      JudgeBlames(hop.response.error, n, w.aborted);
      return Err(hop.response.error), lease, u;
    }
    if hop.response.value.headerBytes > MAX_HEADER_BYTES { return Err(TargetFault(ResponseLimitExceeded)), lease, u; }
    r := hop.response;
  }

  /** The trace after hop n threw something: its lease is still in hand, or releasing it is what failed. */
  ghost predicate Interrupted(t: seq<Event>, w: World, n: nat, error: Thrown, lease: Option<Lease>) {
    && (lease.Some? <==> Leased(w, n))
    && ( || (InHand(t, w, lease) && (w.limited ==> ReleaseCalls(t) == n))
         || (lease.Some? && Broken(t, w, lease.value) && error.DestinationLimiterError? && !w.releases(n)))
  }

  /** A redirect answer: refuse it, or close it, release the lease and go on. */
  method TakeRedirect(c: Config, w: World, n: nat, response: Response, lease: Option<Lease>, t: seq<Event>)
    returns (error: Option<Thrown>, u: seq<Event>)
    requires Obtained(w, n) && w.hops(n).response == Ok(response) && AsksForRedirect(c, response) && !Repeats(w, n)
    requires InHand(t, w, lease) && (lease.Some? <==> w.limited) && (w.limited ==> ReleaseCalls(t) == n)
    ensures error.None? <==> n < c.maxRedirects && Redirected(c, w, n)
    ensures error.None? ==> InHand(u, w, None) && (w.limited ==> ReleaseCalls(u) == n + 1)
    ensures error.Some? ==> Interrupted(u, w, n, error.value, lease) && Faults(c, w, n, error.value)
    ensures Requests(u) == Requests(t)
  {
    if n >= c.maxRedirects || response.location.BadLocation? { return Some(RedirectPolicyError), t; }
    if response.closing.Some? {
      JudgeBlames(response.closing.value, n, w.aborted);
      return response.closing, t;
    }
    var ok;
    ok, u := ReleaseLease(w, lease, t);
    error := if ok then None else Some(DestinationLimiterError);
  }

  /** A final answer: complain about it, or close it and release the lease. */
  method Conclude(c: Config, w: World, n: nat, response: Response, lease: Option<Lease>, t: seq<Event>)
    returns (error: Option<Thrown>, u: seq<Event>)
    requires Obtained(w, n) && w.hops(n).response == Ok(response) && !AsksForRedirect(c, response) && !Repeats(w, n)
    requires InHand(t, w, lease) && (lease.Some? <==> w.limited) && (w.limited ==> ReleaseCalls(t) == n)
    ensures error.None? <==> Served(c, w, n)
    ensures error.None? ==> InHand(u, w, None)
    ensures error.Some? ==> Interrupted(u, w, n, error.value, lease) && Faults(c, w, n, error.value)
    ensures Requests(u) == Requests(t)
  {
    if response.status < c.statusMin || response.status > c.statusMax { return Some(TargetFault(HttpStatusMismatch)), t; }
    if c.keywordBytes.Some? {
      if response.keyword.Err? {
        JudgeBlames(response.keyword.error, n, w.aborted);
        return Some(response.keyword.error), t;
      }
      if !response.keyword.value { return Some(TargetFault(ContentMismatch)), t; }
    }
    if response.closing.Some? {
      JudgeBlames(response.closing.value, n, w.aborted);
      return response.closing, t;
    }
    var ok;
    ok, u := ReleaseLease(w, lease, t);
    error := if ok then None else Some(DestinationLimiterError);
  }

  /** The requests made at the first n hops. */
  ghost function Visited(w: World, n: nat): set<nat> {
    set i | 0 <= i < n && w.hops(i).destination.Ok? :: w.hops(i).destination.value
  }

  lemma NextVisit(w: World, n: nat)
    requires n > 0 ==> Fresh(w, n - 1)
    ensures Fresh(w, n) <==> w.hops(n).destination.Err? || w.hops(n).destination.value !in Visited(w, n)
    ensures Repeats(w, n) <==> w.hops(n).destination.Ok? && w.hops(n).destination.value in Visited(w, n)
    ensures Visited(w, n + 1) == Visited(w, n) + if w.hops(n).destination.Ok? then {w.hops(n).destination.value} else {}
  {}

  /** The first n hops redirected, and visited is what they requested. */
  ghost predicate Followed(c: Config, w: World, n: nat, visited: set<nat>) {
    (forall i :: 0 <= i < n ==> Redirected(c, w, i)) && visited == Visited(w, n) && (n > 0 ==> Fresh(w, n - 1))
  }

  lemma FollowedMeans(c: Config, w: World, n: nat, visited: set<nat>)
    requires Followed(c, w, n, visited) && n <= c.maxRedirects
    ensures var d := w.hops(n).destination;
            var seen := d.Ok? && d.value in visited;
            && (!seen && Served(c, w, n) ==> Arrives(c, w, n))
            && (seen || (!Served(c, w, n) && !(n < c.maxRedirects && Redirected(c, w, n))) ==> StuckAt(c, w, n))
            && (seen <==> Repeats(w, n))
            && (seen || !(n < c.maxRedirects && Redirected(c, w, n)) ==> EndsAt(c, w, n))
            && (!seen && Redirected(c, w, n) ==> Followed(c, w, n + 1, visited + {d.value}))
  {
    NextVisit(w, n);
  }

  /** One turn of the loop: None when a redirect was followed. */
  method OneHop(c: Config, w: World, n: nat, seen: bool, t: seq<Event>) returns (end: Option<End>, u: seq<Event>)
    requires n <= c.maxRedirects && InHand(t, w, None) && (w.limited ==> ReleaseCalls(t) == n)
    requires seen <==> Repeats(w, n)
    ensures end.None? ==> n < c.maxRedirects && Redirected(c, w, n) && !seen
    ensures end.None? ==> InHand(u, w, None) && (w.limited ==> ReleaseCalls(u) == n + 1)
    ensures end == Some(Finished) ==> Served(c, w, n) && InHand(u, w, None) && !seen
    ensures end.Some? && end.value.Threw? ==> seen || (!Served(c, w, n) && !(n < c.maxRedirects && Redirected(c, w, n)))
    ensures end.Some? && end.value.Threw? ==>
              Interrupted(u, w, n, end.value.error, end.value.lease) && Faults(c, w, n, end.value.error)
    ensures Requests(u) <= Requests(t) + 1
  {
    if seen { return Some(Threw(RedirectPolicyError, None)), t; }
    var answer, lease, error;
    answer, lease, u := Request(c, w, n, t);
    if answer.Err? { return Some(Threw(answer.error, lease)), u; }
    if AsksForRedirect(c, answer.value) {
      error, u := TakeRedirect(c, w, n, answer.value, lease, u);
      end := if error.Some? then Some(Threw(error.value, lease)) else None;
    } else {
      error, u := Conclude(c, w, n, answer.value, lease, u);
      end := Some(if error.Some? then Threw(error.value, lease) else Finished);
    }
  }

  /** The try block: follows redirects until a response is accepted or something is thrown. */
  method FollowRedirects(c: Config, w: World) returns (end: End, redirects: nat, t: seq<Event>)
    requires Acceptable(c)
    ensures EndsAt(c, w, redirects) && Requests(t) <= redirects + 1
    ensures end.Finished? ==> InHand(t, w, None) && Arrives(c, w, redirects) && !Repeats(w, redirects)
    ensures end.Threw? ==> StuckAt(c, w, redirects) && Interrupted(t, w, redirects, end.error, end.lease)
    ensures end.Threw? ==> Faults(c, w, redirects, end.error)
  {
    redirects, t := 0, [];
    var visited: set<nat> := {};
    while true
      invariant 0 <= redirects <= c.maxRedirects && Requests(t) <= redirects
      invariant InHand(t, w, None) && (w.limited ==> ReleaseCalls(t) == redirects)
      invariant Followed(c, w, redirects, visited)
      decreases c.maxRedirects - redirects
    {
      FollowedMeans(c, w, redirects, visited);
      var destination := w.hops(redirects).destination;
      var hopEnd;
      hopEnd, t := OneHop(c, w, redirects, destination.Ok? && destination.value in visited, t);
      if hopEnd.Some? { return hopEnd.value, redirects, t; }
      visited := visited + {destination.value};
      redirects := redirects + 1;
    }
  }

  lemma ArrivalSucceeds(c: Config, w: World, n: nat)
    requires Arrives(c, w, n) && !Repeats(w, n)
    ensures HopDecides(c, w, n, Verdict(Success, None)) && (Leased(w, n) ==> w.releases(n))
  {}

  /**
   * checkUrl. For every behaviour of resolver, limiter, transport and body: at most maxRedirects + 1 requests, never two
   * leases, no lease without a call of release. The check follows redirects to exactly one hop, and what the world does
   * there decides the verdict: a release that fails, or a refused lease, is a platform error; otherwise each fault of the
   * answer, of the redirects or of the connection has its own. It succeeds iff some number of followable redirects leads
   * to an acceptable response.
   */
  method CheckUrl(c: Config, w: World) returns (v: Verdict, redirects: nat, t: seq<Event>)
    ensures !Acceptable(c) ==> t == [] && v == Verdict(Inconclusive, Some(DnsError))
    ensures Acceptable(c) ==> EndsAt(c, w, redirects) && forall n :: EndsAt(c, w, n) ==> n == redirects
    ensures Acceptable(c) ==> HopDecides(c, w, redirects, v)
    ensures Acceptable(c) ==> Requests(t) <= redirects + 1 <= c.maxRedirects + 1
    ensures Disciplined(t, w.limited) && Forgotten(t) == {}
    ensures SomeReleaseFailed(t) <==> Acceptable(c) && Leased(w, redirects) && !w.releases(redirects)
    ensures SomeReleaseFailed(t) ==> v == Verdict(PlatformError, Some(PlatformFault))
    ensures !SomeReleaseFailed(t) ==> Held(t) == {}
    ensures v.outcome.Success? <==> Acceptable(c) && exists n :: Arrives(c, w, n)
  {
    if !Acceptable(c) { return Classify(UrlPolicyError, false), 0, []; }
    var end;
    end, redirects, t := FollowRedirects(c, w);
    forall n | EndsAt(c, w, n) ensures n == redirects { EndIsUnique(c, w, n, redirects); }
    if end.Finished? {
      ArrivalSucceeds(c, w, redirects);
      return Verdict(Success, None), redirects, t;
    }
    forall n ensures !Arrives(c, w, n) { StuckNeverArrives(c, w, redirects, n); }
    v, t := HandleError(c, w, end.error, end.lease, redirects, t);
  }

  /** The catch block: a failed release supersedes whatever was thrown. */
  method HandleError(c: Config, w: World, error: Thrown, lease: Option<Lease>, redirects: nat, t: seq<Event>)
    returns (v: Verdict, u: seq<Event>)
    requires Interrupted(t, w, redirects, error, lease) && Faults(c, w, redirects, error)
    ensures Disciplined(u, w.limited) && Forgotten(u) == {} && Requests(u) == Requests(t)
    ensures HopDecides(c, w, redirects, v)
    ensures SomeReleaseFailed(u) <==> Leased(w, redirects) && !w.releases(redirects)
    ensures SomeReleaseFailed(u) ==> v == Verdict(PlatformError, Some(PlatformFault))
    ensures !SomeReleaseFailed(u) ==> Held(u) == {} && v == Judge(error, redirects, w.aborted)
    ensures !v.outcome.Success?
  {
    var ok;
    ok, u := ReleaseLease(w, lease, t);
    v := Judge(if ok then error else DestinationLimiterError, redirects, w.aborted);
  }

  // ---- what a verdict does to the monitor -------------------------------

  /** The input the worker feeds to the state machine for a verdict. */
  function InputOf(v: Verdict, i: CheckInput): CheckInput {
    i.(outcome := v.outcome, error := v.errorType)
  }

  /** The result counts for the monitor: it is active, and the check was a scheduled one of its version. */
  predicate CountsFor(s: MonitorState, i: CheckInput) {
    s.lifecycle.Active? && i.source.Scheduled? && i.configVersion == s.configVersion
  }

  /** One more failure in a row: the first of them is remembered, and an incident opens with the F-th. */
  ghost predicate MovesAsFailure(s: MonitorState, i: CheckInput, e: CheckErrorType, t: Transition) {
    && t.state.failures == s.failures + 1 && t.state.successes == 0
    && (t.state.health.Down? || t.state.health.Suspect?)
    && (t.state.health.Down? <==> s.health.Down? || s.health.Recovering? || s.failures + 1 >= i.failureThreshold)
    && (s.failures == 0 ==> t.state.streakStartedAt == Some(i.checkedAt) && t.state.streakFirstError == Some(e))
    && (t.effect.OpenIncident? <==> !s.health.Down? && !s.health.Recovering? && s.failures + 1 >= i.failureThreshold)
    && (t.effect.OpenIncident? ==> t.effect.detectedAt == i.checkedAt && t.effect.lastError == Some(e))
    && (s.health.Down? || s.health.Recovering? ==> t.effect == UpdateIncident(Some(e)))
  }

  /** A verdict about the target counts as a failure of it. */
  lemma TargetFaultCounts(s: MonitorState, i: CheckInput, v: Verdict, e: CheckErrorType)
    requires Blamed(v, e) && CountsFor(s, i) && ApplyCheckResult(s, InputOf(v, i)).Ok?
    ensures MovesAsFailure(s, i, e, ApplyCheckResult(s, InputOf(v, i)).value)
  {}

  /** Any other verdict but success leaves health, counters and incidents alone. */
  lemma OtherVerdictsKeepHealth(s: MonitorState, i: CheckInput, v: Verdict)
    requires !v.outcome.Success? && !v.outcome.TargetFailure? && ApplyCheckResult(s, InputOf(v, i)).Ok?
    ensures var r := ApplyCheckResult(s, InputOf(v, i)).value; r.state == s && r.effect == NoEffect
  {
    IgnoredKeepsState(s, InputOf(v, i));
  }

  /** Hop n answers, its headers fit, its lease is given back, and it asks for no redirect. */
  ghost predicate AnswersAt(c: Config, w: World, n: nat) {
    && EndsAt(c, w, n) && !Repeats(w, n) && Obtained(w, n) && (w.limited ==> w.releases(n))
    && !AsksForRedirect(c, w.hops(n).response.value)
  }

  /**
   * What the world must do for a failure of the monitored site to count, whatever else it does: an answer with an
   * unexpected status, or without the keyword, a cycle, one redirect too many or a broken one. And what never counts:
   * a lease that was refused or could not be given back, and an address of the monitor itself that must not be checked.
   */
  lemma SiteFaultsCount(c: Config, w: World, n: nat, v: Verdict, s: MonitorState, i: CheckInput)
    requires Acceptable(c) && EndsAt(c, w, n) && HopDecides(c, w, n, v)
    requires CountsFor(s, i) && ApplyCheckResult(s, InputOf(v, i)).Ok?
    ensures var t := ApplyCheckResult(s, InputOf(v, i)).value;
            && (AnswersAt(c, w, n) && !(c.statusMin <= w.hops(n).response.value.status <= c.statusMax) ==>
                  MovesAsFailure(s, i, HttpStatusMismatch, t))
            && (AnswersAt(c, w, n) && c.statusMin <= w.hops(n).response.value.status <= c.statusMax
                && c.keywordBytes.Some? && w.hops(n).response.value.keyword == Ok(false) ==>
                  MovesAsFailure(s, i, ContentMismatch, t))
            && (Repeats(w, n) ==> MovesAsFailure(s, i, RedirectError, t))
            && (!Repeats(w, n) && Obtained(w, n) && (w.limited ==> w.releases(n)) && AsksForRedirect(c, w.hops(n).response.value)
                && (n == c.maxRedirects || w.hops(n).response.value.location.BadLocation?) ==>
                  MovesAsFailure(s, i, RedirectError, t))
            && (n > 0 && w.hops(n).destination == Err(UrlPolicyError) ==> MovesAsFailure(s, i, RedirectError, t))
            && (n == 0 && w.hops(n).destination == Err(UrlPolicyError) ==> t.state == s && t.effect == NoEffect)
            && (w.limited && w.hops(n).destination.Ok? && !Repeats(w, n) && (!w.hops(n).granted || !w.releases(n)) ==>
                  t.state == s && t.effect == NoEffect)
  {
    if v.errorType.Some? && Blamed(v, v.errorType.value) { TargetFaultCounts(s, i, v, v.errorType.value); }
    if !v.outcome.Success? && !v.outcome.TargetFailure? { OtherVerdictsKeepHealth(s, i, v); }
  }

  /** An infrastructure fault never moves the health state: neither a failed release nor a refused acquisition. */
  lemma PlatformFaultKeepsHealth(s: MonitorState, i: CheckInput, redirects: nat, aborted: bool)
    requires ApplyCheckResult(s, InputOf(Judge(DestinationLimiterError, redirects, aborted), i)).Ok?
    ensures var r := ApplyCheckResult(s, InputOf(Judge(DestinationLimiterError, redirects, aborted), i)).value;
            r.state == s && r.effect == NoEffect
  {
    IgnoredKeepsState(s, InputOf(Judge(DestinationLimiterError, redirects, aborted), i));
  }
}
