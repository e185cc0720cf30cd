/**
  The proxy's upstream retry wrapper and its five GET route handlers
  (search, song, playlist, album, lyrics).

  The HTTP client is a scripted transport: `transport(url, k)` is what the k-th
  call (counting from 0) to `url` yields. The awaited sleep between attempts is
  not performed; its length is recorded in the trace instead.
 */
module SearchRoutes {
  import opened Wrappers
  import Js

  /** The upstream API's base URL. It already ends in a slash, and every route adds one more. */
  const ApiBase: string := "https://jiosaavnapi-bok7.onrender.com/"

  const DefaultMaxRetries: int := 5
  const DefaultInitialTimeout: int := 60000
  /** Timeout of the single call made by the playlist, album and lyrics routes. */
  const SingleShotTimeout: int := 10000
  const BackoffBase: int := 5000
  const BackoffCap: int := 30000

  /** An HTTP client response; the handlers forward only its `data`. */
  datatype Response = Response(data: Js.Json)

  /**
    What one call of the HTTP client yields. `Timeout` stands for every failure
    whose code is 'ECONNABORTED'; `OtherError` for every other failure.
   */
  datatype Outcome = Success(response: Response) | Timeout | OtherError(message: string)

  /** The k-th call (from 0) to a URL yields `transport(url, k)`. */
  type Transport = (string, nat) -> Outcome

  /** The value a failed fetch throws. */
  datatype Thrown =
    | Undefined              // the initial `lastError`, never assigned
    | Aborted(timeout: int)  // code 'ECONNABORTED': "timeout of <timeout>ms exceeded"
    | Failed(message: string)

  /** How a fetch ends: it returns a response or it throws. */
  datatype Fetch = Returned(response: Response) | Threw(error: Thrown)

  /** One transport call: the timeout it was given and the wait that followed it, if any. */
  datatype Attempt = Attempt(timeout: int, wait: Option<int>)

  // ---------------------------------------------------------------------------
  // Retry schedule
  // ---------------------------------------------------------------------------

  function Pow2(i: nat): (p: nat)
    ensures p >= 1
  {
    if i == 0 then 1 else 2 * Pow2(i - 1)
  }

  /** Timeout of attempt `i`: `initialTimeout * (i + 1)`. */
  function AttemptTimeout(initialTimeout: int, i: nat): int {
    initialTimeout * (i + 1)
  }

  /** Wait after timed-out attempt `i`: `Math.min(30000, 5000 * 2^i)`. */
  function Backoff(i: nat): (d: int)
    ensures BackoffBase <= d <= BackoffCap
  {
    var grown := BackoffBase * Pow2(i);
    if grown < BackoffCap then grown else BackoffCap
  }

  lemma {:induction false} Pow2Monotone(i: nat, j: nat)
    requires i <= j
    ensures Pow2(i) <= Pow2(j)
    decreases j
  {
    if i < j {
      Pow2Monotone(i, j - 1);
    }
  }

  /** The wait never shrinks from one attempt to the next. */
  lemma BackoffMonotone(i: nat, j: nat)
    requires i <= j
    ensures Backoff(i) <= Backoff(j)
  {
    Pow2Monotone(i, j);
  }

  /** The wait doubles from 5000 ms for the first three attempts and is capped at 30000 ms from the fourth on. */
  lemma BackoffClosedForm(i: nat)
    ensures i < 3 ==> Backoff(i) == BackoffBase * Pow2(i)
    ensures i >= 3 ==> Backoff(i) == BackoffCap
    ensures [Backoff(0), Backoff(1), Backoff(2), Backoff(3), Backoff(4)] == [5000, 10000, 20000, 30000, 30000]
  {
    assert Pow2(3) == 8;
    if i >= 3 {
      Pow2Monotone(3, i);
    }
  }

  /** With a positive base, attempt timeouts strictly increase and never exceed `initialTimeout * maxRetries`. */
  lemma AttemptTimeoutsIncrease(initialTimeout: int, maxRetries: int, i: nat, j: nat)
    requires 0 < initialTimeout
    requires i < j < maxRetries
    ensures AttemptTimeout(initialTimeout, i) < AttemptTimeout(initialTimeout, j)
    ensures AttemptTimeout(initialTimeout, j) <= initialTimeout * maxRetries
  {
    MulIncreasing(initialTimeout, i + 1, j + 1);
    if j + 1 < maxRetries {
      MulIncreasing(initialTimeout, j + 1, maxRetries);
    }
  }

  /** Multiplying by a positive factor keeps a strict order. */
  lemma {:induction false} MulIncreasing(a: int, x: nat, y: nat)
    requires 0 < a && x < y
    ensures a * x < a * y
    decreases y - x
  {
    assert a * y == a * (y - 1) + a;
    if x + 1 < y {
      MulIncreasing(a, x, y - 1);
    }
  }

  // ---------------------------------------------------------------------------
  // What a retrying fetch does, stated over the transport
  // ---------------------------------------------------------------------------

  /**
    Number of calls made once calls `0 .. i-1` have all timed out: calls go on
    while they time out, and stop after the first call that does not, or when
    `maxRetries` calls have been made.
   */
  function CallsFrom(url: string, transport: Transport, maxRetries: int, i: nat): (n: nat)
    ensures i <= n
    ensures i < maxRetries ==> i < n <= maxRetries
    ensures maxRetries <= i ==> n == i
    ensures forall k: nat :: i <= k && k + 1 < n ==> transport(url, k).Timeout?
    ensures n < maxRetries ==> i < n && !transport(url, n - 1).Timeout?
    decreases maxRetries - i
  {
    if i >= maxRetries then i
    else if transport(url, i).Timeout? then CallsFrom(url, transport, maxRetries, i + 1)
    else i + 1
  }

  /**
    Number of transport calls a retrying fetch makes: at most `maxRetries`
    (none when it is not positive); every call but the last timed out; and it
    stops before `maxRetries` only right after a call that did not time out.
   */
  function Calls(url: string, transport: Transport, maxRetries: int): (n: nat)
    ensures maxRetries <= 0 ==> n == 0
    ensures 0 < maxRetries ==> 0 < n <= maxRetries
    ensures forall k: nat :: k + 1 < n ==> transport(url, k).Timeout?
    ensures n < maxRetries ==> 0 < n && !transport(url, n - 1).Timeout?
  {
    CallsFrom(url, transport, maxRetries, 0)
  }

  /** The properties in the contract of `Calls` determine it. */
  lemma CallsUnique(url: string, transport: Transport, maxRetries: int, m: nat)
    requires maxRetries <= 0 ==> m == 0
    requires 0 < maxRetries ==> m <= maxRetries
    requires forall k: nat :: k + 1 < m ==> transport(url, k).Timeout?
    requires m < maxRetries ==> 0 < m && !transport(url, m - 1).Timeout?
    ensures m == Calls(url, transport, maxRetries)
  {
    var n := Calls(url, transport, maxRetries);
    assert forall k: nat :: k + 1 == m < n ==> transport(url, k).Timeout?;
    assert forall k: nat :: k + 1 == n < m ==> transport(url, k).Timeout?;
  }

  /** How the fetch ends: with the last call's response, or by throwing the last call's error (the initial `undefined` when no call was made). */
  function FetchResult(url: string, transport: Transport, maxRetries: int, initialTimeout: int): Fetch {
    var n := Calls(url, transport, maxRetries);
    if n == 0 then Threw(Undefined)
    else match transport(url, n - 1)
      case Success(r) => Returned(r)
      case Timeout => Threw(Aborted(AttemptTimeout(initialTimeout, n - 1)))
      case OtherError(m) => Threw(Failed(m))
  }

  /** Attempt `k`: its timeout, and a backoff wait exactly when it timed out. */
  function AttemptRecord(url: string, transport: Transport, initialTimeout: int, k: nat): Attempt {
    Attempt(AttemptTimeout(initialTimeout, k),
            if transport(url, k).Timeout? then Some(Backoff(k)) else None)
  }

  /** The attempts a retrying fetch makes, in order. */
  function RetryTrace(url: string, transport: Transport, maxRetries: int, initialTimeout: int): (t: seq<Attempt>)
    ensures |t| == Calls(url, transport, maxRetries)
    ensures forall k: nat :: k < |t| ==> t[k] == AttemptRecord(url, transport, initialTimeout, k)
  {
    seq(Calls(url, transport, maxRetries), k requires 0 <= k => AttemptRecord(url, transport, initialTimeout, k))
  }

  /**
    `makeRequestWithRetry(url, maxRetries, initialTimeout)`: attempt `i` calls
    the transport with timeout `initialTimeout * (i + 1)`; a success is returned
    at once; a failure whose code is not 'ECONNABORTED' is rethrown at once;
    after a timeout it waits `min(30000, 5000 * 2^i)` (also after the last
    attempt) and goes on. When the attempts run out, the last error is thrown.
   */
  method MakeRequestWithRetry(url: string, transport: Transport, maxRetries: int, initialTimeout: int)
    returns (result: Fetch, trace: seq<Attempt>)
    ensures result == FetchResult(url, transport, maxRetries, initialTimeout)
    ensures trace == RetryTrace(url, transport, maxRetries, initialTimeout)
  {
    var lastError := Undefined;
    trace := [];
    var i: nat := 0;
    while i < maxRetries
      invariant i == 0 || i <= maxRetries
      invariant CallsFrom(url, transport, maxRetries, i) == Calls(url, transport, maxRetries)
      invariant 0 < i ==> transport(url, i - 1).Timeout?
      invariant |trace| == i
      invariant forall k: nat :: k < i ==> trace[k] == AttemptRecord(url, transport, initialTimeout, k)
      invariant lastError == if i == 0 then Undefined else Aborted(AttemptTimeout(initialTimeout, i - 1))
      decreases maxRetries - i
    {
      var timeout := initialTimeout * (i + 1);
      var outcome := transport(url, i);
      if outcome.Success? {
        trace := trace + [Attempt(timeout, None)];
        result := Returned(outcome.response);
        return;
      }
      lastError := if outcome.Timeout? then Aborted(timeout) else Failed(outcome.message);
      if !outcome.Timeout? {
        trace := trace + [Attempt(timeout, None)];
        result := Threw(lastError);
        return;
      }
      var delay := Backoff(i);
      trace := trace + [Attempt(timeout, Some(delay))];
      i := i + 1;
    }
    result := Threw(lastError);
  }

  // ---------------------------------------------------------------------------
  // Properties of a retrying fetch
  // ---------------------------------------------------------------------------

  /** The first success is returned, and no call follows it. */
  lemma FirstSuccessReturned(url: string, transport: Transport, maxRetries: int, initialTimeout: int, k: nat)
    requires k < maxRetries
    requires transport(url, k).Success?
    requires forall j: nat :: j < k ==> transport(url, j).Timeout?
    ensures Calls(url, transport, maxRetries) == k + 1
    ensures FetchResult(url, transport, maxRetries, initialTimeout) == Returned(transport(url, k).response)
    ensures RetryTrace(url, transport, maxRetries, initialTimeout)[k] == Attempt(AttemptTimeout(initialTimeout, k), None)
  {
    CallsUnique(url, transport, maxRetries, k + 1);
  }

  /** A failure other than a timeout is rethrown at once: no wait follows it and no further call is made. */
  lemma OtherErrorRethrown(url: string, transport: Transport, maxRetries: int, initialTimeout: int, k: nat)
    requires k < maxRetries
    requires transport(url, k).OtherError?
    requires forall j: nat :: j < k ==> transport(url, j).Timeout?
    ensures Calls(url, transport, maxRetries) == k + 1
    ensures FetchResult(url, transport, maxRetries, initialTimeout) == Threw(Failed(transport(url, k).message))
    ensures RetryTrace(url, transport, maxRetries, initialTimeout)[k].wait == None
  {
    CallsUnique(url, transport, maxRetries, k + 1);
  }

  /**
    When every call times out, exactly `maxRetries` calls are made, each is
    followed by its backoff wait (the last one too), and the last call's
    timeout error is thrown.
   */
  lemma AllTimeoutsExhaust(url: string, transport: Transport, maxRetries: int, initialTimeout: int)
    requires 0 < maxRetries
    requires forall k: nat :: k < maxRetries ==> transport(url, k).Timeout?
    ensures Calls(url, transport, maxRetries) == maxRetries
    ensures FetchResult(url, transport, maxRetries, initialTimeout) == Threw(Aborted(initialTimeout * maxRetries))
    ensures forall k: nat :: k < maxRetries ==>
      RetryTrace(url, transport, maxRetries, initialTimeout)[k] == Attempt(initialTimeout * (k + 1), Some(Backoff(k)))
  {
    var n := Calls(url, transport, maxRetries);
    assert 0 < n ==> transport(url, n - 1).Timeout?;
  }

  /** With no attempts allowed, nothing is called and the initial `undefined` is thrown. */
  lemma NoAttemptsThrowUndefined(url: string, transport: Transport, maxRetries: int, initialTimeout: int)
    requires maxRetries <= 0
    ensures FetchResult(url, transport, maxRetries, initialTimeout) == Threw(Undefined)
    ensures RetryTrace(url, transport, maxRetries, initialTimeout) == []
  {
  }

  /**
    Along a trace, timeouts strictly increase (for a positive base) and stay
    within `initialTimeout * maxRetries`; waits come exactly after timeouts,
    never shrink and never exceed 30000 ms.
   */
  lemma TraceSchedule(url: string, transport: Transport, maxRetries: int, initialTimeout: int, i: nat, j: nat)
    requires 0 < initialTimeout
    requires i < j < |RetryTrace(url, transport, maxRetries, initialTimeout)|
    ensures var t := RetryTrace(url, transport, maxRetries, initialTimeout);
      && t[i].timeout < t[j].timeout <= initialTimeout * maxRetries
      && t[i].wait.Some? && t[i].wait.value <= BackoffCap
      && (t[j].wait.Some? <==> transport(url, j).Timeout?)
      && (t[j].wait.Some? ==> t[i].wait.value <= t[j].wait.value <= BackoffCap)
  {
    var t := RetryTrace(url, transport, maxRetries, initialTimeout);
    assert t[i] == AttemptRecord(url, transport, initialTimeout, i);
    assert t[j] == AttemptRecord(url, transport, initialTimeout, j);
    AttemptTimeoutsIncrease(initialTimeout, maxRetries, i, j);
    BackoffMonotone(i, j);
  }

  /** With the defaults, a fully cold upstream sees five calls of 60..300 s, waits of 5, 10, 20, 30, 30 s, then a timeout error. */
  lemma DefaultsAllTimeouts(url: string, transport: Transport)
    requires forall k: nat :: k < DefaultMaxRetries ==> transport(url, k).Timeout?
    ensures FetchResult(url, transport, DefaultMaxRetries, DefaultInitialTimeout) == Threw(Aborted(300000))
    ensures RetryTrace(url, transport, DefaultMaxRetries, DefaultInitialTimeout)
         == [Attempt(60000, Some(5000)), Attempt(120000, Some(10000)), Attempt(180000, Some(20000)),
             Attempt(240000, Some(30000)), Attempt(300000, Some(30000))]
  {
    AllTimeoutsExhaust(url, transport, DefaultMaxRetries, DefaultInitialTimeout);
    BackoffClosedForm(0);
    var t := RetryTrace(url, transport, DefaultMaxRetries, DefaultInitialTimeout);
    assert t[0] == Attempt(60000, Some(5000));
    assert t[1] == Attempt(120000, Some(10000));
    assert t[2] == Attempt(180000, Some(20000));
    assert t[3] == Attempt(240000, Some(30000));
    assert t[4] == Attempt(300000, Some(30000));
  }

  /** Two timeouts then a success: three calls with timeouts t, 2t, 3t and the success returned. */
  lemma TwoTimeoutsThenSuccess(url: string, transport: Transport, maxRetries: int, initialTimeout: int, r: Response)
    requires 3 <= maxRetries
    requires transport(url, 0) == Timeout && transport(url, 1) == Timeout && transport(url, 2) == Success(r)
    ensures FetchResult(url, transport, maxRetries, initialTimeout) == Returned(r)
    ensures RetryTrace(url, transport, maxRetries, initialTimeout)
         == [Attempt(initialTimeout, Some(5000)), Attempt(2 * initialTimeout, Some(10000)), Attempt(3 * initialTimeout, None)]
  {
    FirstSuccessReturned(url, transport, maxRetries, initialTimeout, 2);
    BackoffClosedForm(0);
    var t := RetryTrace(url, transport, maxRetries, initialTimeout);
    assert t[0] == Attempt(initialTimeout, Some(5000));
    assert t[1] == Attempt(2 * initialTimeout, Some(10000));
  }

  // ---------------------------------------------------------------------------
  // Route handlers
  // ---------------------------------------------------------------------------

  datatype Route = Search | Song | Playlist | Album | Lyrics

  /** The word naming the route in its missing-query message. */
  function QueryName(route: Route): string {
    match route
    case Search => "search"
    case Song => "song"
    case Playlist => "playlist"
    case Album => "album"
    case Lyrics => "lyrics"
  }

  /** The upstream path segment of the route. */
  function UpstreamPath(route: Route): string {
    match route
    case Search => "result"
    case Song => "song"
    case Playlist => "playlist"
    case Album => "album"
    case Lyrics => "lyrics"
  }

  /** Search and song go through the retry wrapper; the others make one call. */
  predicate Retrying(route: Route) {
    route == Search || route == Song
  }

  /** Song, playlist and album ask the upstream for lyrics too. */
  predicate WithLyrics(route: Route) {
    route == Song || route == Playlist || route == Album
  }

  /** `${ApiBase}/<path>/?query=${encodeURIComponent(query)}`, plus `&lyrics=true` where the route asks for it. */
  function UpstreamUrl(route: Route, encodedQuery: string): string {
    ApiBase + "/" + UpstreamPath(route) + "/?query=" + encodedQuery
      + (if WithLyrics(route) then "&lyrics=true" else "")
  }

  /**
    The URL as it is sent: it starts with the base, a double slash follows the
    host, the route's path comes next, and the encoded query can be read back
    after `/?query=`, followed only by the lyrics flag where the route sets it.
   */
  lemma UpstreamUrlParts(route: Route, e: string)
    ensures var u := UpstreamUrl(route, e);
      var q := |ApiBase| + |UpstreamPath(route)| + 9;
      && u[..|ApiBase|] == ApiBase
      && u[|ApiBase| - 1..|ApiBase| + 1] == "//"
      && u[|ApiBase| + 1..|ApiBase| + 1 + |UpstreamPath(route)|] == UpstreamPath(route)
      && q + |e| <= |u|
      && u[q - 8..q] == "/?query="
      && u[q..q + |e|] == e
      && u[q + |e|..] == (if WithLyrics(route) then "&lyrics=true" else "")
  {
    var u := UpstreamUrl(route, e);
    var path := UpstreamPath(route);
    var head := ApiBase + "/" + path + "/?query=";
    var tail := if WithLyrics(route) then "&lyrics=true" else "";
    assert u == head + e + tail;
    assert |head| == |ApiBase| + |path| + 9;
    assert head[..|ApiBase|] == ApiBase;
    assert head[|ApiBase| - 1..|ApiBase| + 1] == "//";
    assert head[|ApiBase| + 1..|ApiBase| + 1 + |path|] == path;
    assert head[|head| - 8..] == "/?query=";
  }

  /** The URL determines the route and the encoded query: distinct requests never reach the same upstream URL. */
  lemma UpstreamUrlInjective(r1: Route, e1: string, r2: Route, e2: string)
    requires UpstreamUrl(r1, e1) == UpstreamUrl(r2, e2)
    ensures r1 == r2 && e1 == e2
  {
    var u := UpstreamUrl(r1, e1);
    var b := |ApiBase| + 1;
    assert u[b] == UpstreamPath(r1)[0];
    assert UpstreamUrl(r2, e2)[b] == UpstreamPath(r2)[0];
    assert r1 == r2;
    var prefix := ApiBase + "/" + UpstreamPath(r1) + "/?query=";
    var suffix := if WithLyrics(r1) then "&lyrics=true" else "";
    assert u == prefix + e1 + suffix;
    assert u == prefix + e2 + suffix;
    assert |e1| == |e2|;
    assert e1 == u[|prefix|..|prefix| + |e1|];
    assert e2 == u[|prefix|..|prefix| + |e2|];
  }

  /** `!query`: the query parameter is absent or empty. */
  predicate HasQuery(query: Option<string>) {
    query.Some? && query.value != ""
  }

  /** A JSON response body: the upstream data, or `{error, details?}`. */
  datatype Body = Data(json: Js.Json) | Error(error: string, details: Option<string>)

  datatype Reply = Reply(status: int, body: Body)

  const WakingUp: string := "The server is waking up from inactivity. Please try again in a few moments."
  const WakingUpDetails: string := "This is normal behavior for the first request after 15 minutes of inactivity."

  /** The generic 500 message of each route. */
  function FailureMessage(route: Route): string {
    match route
    case Search => "Failed to fetch data from JioSaavn API"
    case Song => "Failed to fetch song data from JioSaavn API"
    case Playlist => "Failed to fetch playlist data from JioSaavn API"
    case Album => "Failed to fetch album data from JioSaavn API"
    case Lyrics => "Failed to fetch lyrics from JioSaavn API"
  }

  /** The 400 reply to a request without a query. */
  function MissingQuery(route: Route): (r: Reply)
    ensures r.status == 400 && r.body.Error? && r.body.details == None
    ensures r.body.error == "Missing " + QueryName(route) + " query parameter"
  {
    Reply(400, Error("Missing " + QueryName(route) + " query parameter", None))
  }

  /** One plain call with the fixed 10 s timeout. */
  function SingleShot(outcome: Outcome): (f: Fetch)
    ensures f.Returned? <==> outcome.Success?
    ensures outcome.Success? ==> f.response == outcome.response
    ensures f.Threw? ==> !f.error.Undefined?
  {
    match outcome
    case Success(r) => Returned(r)
    case Timeout => Threw(Aborted(SingleShotTimeout))
    case OtherError(m) => Threw(Failed(m))
  }

  /**
    The reply for a fetch that has ended. Success forwards the upstream data
    with 200. Search and song read the error's code: a timeout gives 504 with
    the waking-up advisory, anything else 500 with the error's message as
    details (an `undefined` error would make that read itself throw). The
    other routes give 500 with their generic message for every failure.
   */
  function ReplyFor(route: Route, fetched: Fetch): (r: Reply)
    requires Retrying(route) ==> fetched != Threw(Undefined)
    ensures r.status == 200 || r.status == 500 || r.status == 504
    ensures r.status == 200 <==> fetched.Returned?
    ensures fetched.Returned? ==> r.body == Data(fetched.response.data)
    ensures r.status == 504 <==> Retrying(route) && fetched.Threw? && fetched.error.Aborted?
    ensures r.status == 504 ==> r.body == Error(WakingUp, Some(WakingUpDetails))
    ensures r.status == 500 <==> fetched.Threw? && (!Retrying(route) || fetched.error.Failed?)
    ensures r.status == 500 ==> r.body.Error? && r.body.error == FailureMessage(route)
    ensures r.status == 500 && Retrying(route) ==> r.body.details == Some(fetched.error.message)
    ensures r.status == 500 && !Retrying(route) ==> r.body.details == None
  {
    match fetched
    case Returned(resp) => Reply(200, Data(resp.data))
    case Threw(e) =>
      if !Retrying(route) then Reply(500, Error(FailureMessage(route), None))
      else if e.Aborted? then Reply(504, Error(WakingUp, Some(WakingUpDetails)))
      else Reply(500, Error(FailureMessage(route), Some(e.message)))
  }

  /**
    A GET handler: a 400 without any upstream call when the query is missing;
    otherwise the upstream URL is fetched (search and song through the retry
    wrapper with its defaults, the others with one 10 s call) and the outcome
    is mapped to a reply.
   */
  method Handle(route: Route, query: Option<string>, encode: string -> string, transport: Transport)
    returns (reply: Reply, trace: seq<Attempt>)
    ensures reply.status == 400 <==> !HasQuery(query)
    ensures !HasQuery(query) ==> reply == MissingQuery(route) && trace == []
    ensures HasQuery(query) && Retrying(route) ==>
      var url := UpstreamUrl(route, encode(query.value));
      && reply == ReplyFor(route, FetchResult(url, transport, DefaultMaxRetries, DefaultInitialTimeout))
      && trace == RetryTrace(url, transport, DefaultMaxRetries, DefaultInitialTimeout)
    ensures HasQuery(query) && !Retrying(route) ==>
      var url := UpstreamUrl(route, encode(query.value));
      && reply == ReplyFor(route, SingleShot(transport(url, 0)))
      && trace == [Attempt(SingleShotTimeout, None)]
  {
    if !HasQuery(query) {
      return MissingQuery(route), [];
    }
    var url := UpstreamUrl(route, encode(query.value));
    if Retrying(route) {
      var fetched, attempts := MakeRequestWithRetry(url, transport, DefaultMaxRetries, DefaultInitialTimeout);
      reply := ReplyFor(route, fetched);
      trace := attempts;
    } else {
      reply := ReplyFor(route, SingleShot(transport(url, 0)));
      trace := [Attempt(SingleShotTimeout, None)];
    }
  }

  /**
    For search and song: 504 exactly when all five calls timed out, 200
    exactly when some call succeeded after only timeouts, and 500 otherwise.
   */
  lemma RetryingRouteStatus(route: Route, url: string, transport: Transport)
    requires Retrying(route)
    ensures var r := ReplyFor(route, FetchResult(url, transport, DefaultMaxRetries, DefaultInitialTimeout));
      && (r.status == 504 <==> forall k: nat :: k < DefaultMaxRetries ==> transport(url, k).Timeout?)
      && (r.status == 200 <==> exists k: nat :: k < DefaultMaxRetries && transport(url, k).Success?
                                  && forall j: nat :: j < k ==> transport(url, j).Timeout?)
  {
    var n := Calls(url, transport, DefaultMaxRetries);
    var f := FetchResult(url, transport, DefaultMaxRetries, DefaultInitialTimeout);
    var r := ReplyFor(route, f);
    if forall k: nat :: k < DefaultMaxRetries ==> transport(url, k).Timeout? {
      AllTimeoutsExhaust(url, transport, DefaultMaxRetries, DefaultInitialTimeout);
    }
    if exists k: nat :: k < DefaultMaxRetries && transport(url, k).Success?
                         && forall j: nat :: j < k ==> transport(url, j).Timeout? {
      var k: nat :| k < DefaultMaxRetries && transport(url, k).Success?
                    && forall j: nat :: j < k ==> transport(url, j).Timeout?;
      FirstSuccessReturned(url, transport, DefaultMaxRetries, DefaultInitialTimeout, k);
    }
    if r.status == 200 {
      assert transport(url, n - 1).Success?;
      assert forall j: nat :: j < n - 1 ==> transport(url, j).Timeout?;
    }
    if r.status == 504 {
      assert transport(url, n - 1).Timeout?;
      assert n == DefaultMaxRetries;
    }
  }
}
