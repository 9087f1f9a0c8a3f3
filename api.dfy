/**
 * The axios instance of the client: the request interceptor that attaches
 * the stored access token, and the response interceptor that turns a 401
 * into one shared refresh call and replays every request that waited on it.
 *
 * The event loop is modelled as a sequence of discrete events: a request
 * fails, the refresh call resolves, the refresh call rejects.
 */
module Api {
  import opened Wrappers

  /** The session pair kept in `localStorage['authToken']`. */
  datatype TokenPair = TokenPair(access: string, refresh: string)

  /** An axios request config as the interceptors see it; `retry` is `_retry`. */
  datatype Request = Request(
    id: nat,
    verb: string,
    url: string,
    headers: map<string, string>,
    body: string,
    retry: bool)

  /** A rejected response: `error.config` and `error.response?.status` (`None` without a response). */
  datatype HttpError = HttpError(config: Request, status: Option<int>)

  const AuthorizationHeader: string := "Authorization"
  const LoginPath: string := "/login"

  function Bearer(access: string): string {
    "Bearer " + access
  }

  /** `authToken?.access` is truthy. */
  predicate HasAccess(stored: Option<TokenPair>) {
    stored.Some? && stored.value.access != ""
  }

  /** `authToken?.refresh` is truthy. */
  predicate HasRefresh(stored: Option<TokenPair>) {
    stored.Some? && stored.value.refresh != ""
  }

  /** Sets one header and leaves every other field and header as it was. */
  function WithHeader(r: Request, name: string, value: string): (out: Request)
    ensures out.id == r.id && out.verb == r.verb && out.url == r.url && out.body == r.body && out.retry == r.retry
    ensures name in out.headers && out.headers[name] == value
    ensures forall h :: h != name ==> (h in out.headers <==> h in r.headers)
    ensures forall h :: h != name && h in r.headers ==> out.headers[h] == r.headers[h]
  {
    r.(headers := r.headers[name := value])
  }

  /**
   * The request interceptor: with a stored access token the request carries
   * `Authorization: Bearer <access>`; without one it goes out untouched.
   */
  function AttachBearer(stored: Option<TokenPair>, config: Request): (r: Request)
    ensures HasAccess(stored) ==> r == WithHeader(config, AuthorizationHeader, Bearer(stored.value.access))
    ensures !HasAccess(stored) ==> r == config
  {
    if HasAccess(stored) then WithHeader(config, AuthorizationHeader, Bearer(stored.value.access))
    else config
  }

  /**
   * A request sent through the instance: axios merges the instance's
   * default headers under the request's own, then the interceptor runs.
   */
  function Outgoing(defaults: map<string, string>, stored: Option<TokenPair>, req: Request): Request {
    AttachBearer(stored, req.(headers := defaults + req.headers))
  }

  /** One call to `/api/token/refresh/`: the refresh token it posted and how it ended. */
  datatype CallStatus = InFlight | Resolved(access: string) | Failed
  datatype RefreshCall = RefreshCall(refresh: string, status: CallStatus)

  /** What a request that awaited the refresh ends with. */
  datatype Settlement =
    | Replayed(request: Request)          // resent once with plain `axios`
    | Rejected(request: Request, cause: string)

  /**
   * The state the interceptors share: the stored pair, the page location,
   * the lock `refreshTokenPromise` (holding the refresh token its call
   * posted), the requests suspended on it, and the log of what went out.
   */
  datatype ApiState = ApiState(
    stored: Option<TokenPair>,
    location: string,
    lock: Option<string>,
    waiters: seq<Request>,
    calls: seq<RefreshCall>,
    settled: seq<Settlement>)

  /** How the response interceptor answers a failed request. */
  datatype Handling =
    | Propagate(error: HttpError)   // `Promise.reject(error)` with the original error
    | Await(request: Request)       // suspended on the shared refresh

  /** The three conditions of the refresh path. */
  predicate RefreshApplies(stored: Option<TokenPair>, err: HttpError) {
    HasRefresh(stored) && err.status == Some(401) && !err.config.retry
  }

  /**
   * The response interceptor's synchronous part: mark the request, start a
   * refresh only if none is in flight, and suspend the request on the lock.
   */
  function OnError(s: ApiState, err: HttpError): (r: (ApiState, Handling))
    ensures r.1.Propagate? <==> !RefreshApplies(s.stored, err)
    ensures r.1.Propagate? ==> r.0 == s && r.1.error == err
    ensures r.1.Await? ==>
      && r.1.request == err.config.(retry := true)
      && r.0.waiters == s.waiters + [r.1.request]
      && r.0.lock.Some?
      && (s.lock.Some? ==> r.0.lock == s.lock && r.0.calls == s.calls)
    ensures r.0.stored == s.stored && r.0.location == s.location && r.0.settled == s.settled
  {
    if RefreshApplies(s.stored, err) then
      var marked := err.config.(retry := true);
      var started :=
        if s.lock.None? then
          s.(lock := Some(s.stored.value.refresh),
             calls := s.calls + [RefreshCall(s.stored.value.refresh, InFlight)])
        else s;
      (started.(waiters := started.waiters + [marked]), Await(marked))
    else
      (s, Propagate(err))
  }

  /** The log with its last call given its outcome. */
  function SettleLast(calls: seq<RefreshCall>, status: CallStatus): (r: seq<RefreshCall>)
    ensures |r| == |calls|
    ensures calls != [] ==> r == calls[..|calls| - 1] + [calls[|calls| - 1].(status := status)]
  {
    if calls == [] then [] else calls[..|calls| - 1] + [calls[|calls| - 1].(status := status)]
  }

  /** Every waiter resent with the new access token in its `Authorization` header. */
  function Replays(waiters: seq<Request>, access: string): (r: seq<Settlement>)
    ensures |r| == |waiters|
    ensures forall i :: 0 <= i < |waiters| ==>
      r[i] == Replayed(WithHeader(waiters[i], AuthorizationHeader, Bearer(access)))
  {
    if waiters == [] then []
    else [Replayed(WithHeader(waiters[0], AuthorizationHeader, Bearer(access)))] + Replays(waiters[1..], access)
  }

  /** Every waiter rejected with the refresh call's error. */
  function Rejections(waiters: seq<Request>, cause: string): (r: seq<Settlement>)
    ensures |r| == |waiters|
    ensures forall i :: 0 <= i < |waiters| ==> r[i] == Rejected(waiters[i], cause)
  {
    if waiters == [] then [] else [Rejected(waiters[0], cause)] + Rejections(waiters[1..], cause)
  }

  /**
   * The refresh call resolves with `access`: the lock is cleared, the stored
   * pair becomes the posted refresh token with the new access token, and
   * every waiter is replayed. Without a call in flight there is nothing to resolve.
   */
  function OnRefreshResolved(s: ApiState, access: string): (r: ApiState)
    ensures s.lock.None? ==> r == s
    ensures s.lock.Some? ==>
      && r.stored == Some(TokenPair(access, s.lock.value))
      && r.lock.None? && r.waiters == [] && r.location == s.location
      && |r.calls| == |s.calls|
      && |r.settled| == |s.settled| + |s.waiters| && r.settled[..|s.settled|] == s.settled
      && (forall i :: 0 <= i < |s.waiters| ==>
            r.settled[|s.settled| + i] == Replayed(WithHeader(s.waiters[i], AuthorizationHeader, Bearer(access))))
  {
    if s.lock.None? then s
    else
      ApiState(Some(TokenPair(access, s.lock.value)), s.location, None, [],
               SettleLast(s.calls, Resolved(access)), s.settled + Replays(s.waiters, access))
  }

  /**
   * The refresh call rejects: the lock is cleared, the stored session is
   * removed, the page goes to the login route, and every waiter is rejected.
   */
  function OnRefreshRejected(s: ApiState, cause: string): (r: ApiState)
    ensures s.lock.None? ==> r == s
    ensures s.lock.Some? ==>
      && r.stored.None? && r.location == LoginPath
      && r.lock.None? && r.waiters == []
      && |r.calls| == |s.calls|
      && |r.settled| == |s.settled| + |s.waiters| && r.settled[..|s.settled|] == s.settled
      && (forall i :: 0 <= i < |s.waiters| ==> r.settled[|s.settled| + i] == Rejected(s.waiters[i], cause))
  {
    if s.lock.None? then s
    else
      ApiState(None, LoginPath, None, [], SettleLast(s.calls, Failed), s.settled + Rejections(s.waiters, cause))
  }

  datatype Event =
    | RequestFailed(error: HttpError)
    | RefreshSucceeded(access: string)
    | RefreshFailed(cause: string)

  function Step(s: ApiState, e: Event): ApiState {
    match e
    case RequestFailed(err) => OnError(s, err).0
    case RefreshSucceeded(access) => OnRefreshResolved(s, access)
    case RefreshFailed(cause) => OnRefreshRejected(s, cause)
  }

  /** The state after a sequence of events, applied oldest first. */
  function Run(s: ApiState, events: seq<Event>): ApiState {
    if events == [] then s else Step(Run(s, events[..|events| - 1]), events[|events| - 1])
  }

  /**
   * The coordinator's invariant: the lock is held exactly while some request
   * waits on it; while it is held, the last logged call is the one in
   * flight and posted the lock's refresh token; no other call is in flight;
   * and every request that waited or was replayed carries `_retry`.
   */
  ghost predicate Invariant(s: ApiState) {
    && (s.lock.Some? <==> s.waiters != [])
    && (s.lock.Some? ==> s.calls != [] && s.calls[|s.calls| - 1] == RefreshCall(s.lock.value, InFlight))
    && (forall i :: 0 <= i < |s.calls| && (s.lock.None? || i < |s.calls| - 1) ==> !s.calls[i].status.InFlight?)
    && (forall i :: 0 <= i < |s.waiters| ==> s.waiters[i].retry)
    && (forall i :: 0 <= i < |s.settled| ==> s.settled[i].request.retry)
  }

  /** The calls still in flight. */
  function InFlightCalls(calls: seq<RefreshCall>): set<nat> {
    set i: nat | i < |calls| && calls[i].status.InFlight?
  }

  /** At most one refresh is in flight, and one is exactly while the lock is held. */
  lemma AtMostOneInFlight(s: ApiState)
    requires Invariant(s)
    ensures |InFlightCalls(s.calls)| <= 1
    ensures |InFlightCalls(s.calls)| == 1 <==> s.lock.Some?
  {
    var f := InFlightCalls(s.calls);
    if s.lock.Some? {
      assert f == {|s.calls| - 1};
    } else {
      assert f == {};
    }
  }

  lemma StepKeepsInvariant(s: ApiState, e: Event)
    requires Invariant(s)
    ensures Invariant(Step(s, e))
  {
    match e
    case RequestFailed(err) =>
    case RefreshSucceeded(access) =>
    case RefreshFailed(cause) =>
  }

  lemma {:induction false} RunKeepsInvariant(s: ApiState, events: seq<Event>)
    requires Invariant(s)
    ensures Invariant(Run(s, events))
  {
    if events != [] {
      RunKeepsInvariant(s, events[..|events| - 1]);
      StepKeepsInvariant(Run(s, events[..|events| - 1]), events[|events| - 1]);
    }
  }

  /**
   * A failure that does not meet all three conditions propagates unchanged
   * and changes nothing; in particular a request already marked `_retry`
   * never starts or joins a refresh.
   */
  lemma PropagatesUnlessRefreshApplies(s: ApiState, err: HttpError)
    requires !RefreshApplies(s.stored, err)
    ensures OnError(s, err) == (s, Propagate(err))
  {
  }

  /**
   * On the refresh path the request is marked `_retry` and suspended; a call
   * to the refresh endpoint, with the stored refresh token, is made only
   * when no refresh is in flight, and otherwise the request joins the one
   * that is.
   */
  lemma RefreshPathStartsOrJoins(s: ApiState, err: HttpError)
    requires RefreshApplies(s.stored, err)
    ensures var (t, h) := OnError(s, err);
      && h == Await(err.config.(retry := true))
      && t.waiters == s.waiters + [err.config.(retry := true)]
      && t.stored == s.stored && t.location == s.location && t.settled == s.settled
      && (s.lock.None? ==> t.lock == Some(s.stored.value.refresh)
                           && t.calls == s.calls + [RefreshCall(s.stored.value.refresh, InFlight)])
      && (s.lock.Some? ==> t.lock == s.lock && t.calls == s.calls)
  {
  }

  /**
   * A resolved refresh keeps the refresh token it posted: the stored pair
   * becomes `{refresh: <posted refresh>, access: <new access>}`.
   */
  lemma ResolveKeepsRefreshToken(s: ApiState, access: string)
    requires Invariant(s) && s.lock.Some?
    ensures var t := OnRefreshResolved(s, access);
      && t.stored == Some(TokenPair(access, s.calls[|s.calls| - 1].refresh))
      && t.calls[|t.calls| - 1] == RefreshCall(s.calls[|s.calls| - 1].refresh, Resolved(access))
      && t.lock.None? && t.waiters == [] && t.location == s.location
  {
  }

  /**
   * A failed refresh clears the lock and the stored session, sends the page
   * to the login route and rejects every waiter with the refresh error.
   */
  lemma RejectClearsSession(s: ApiState, cause: string)
    requires Invariant(s) && s.lock.Some?
    ensures var t := OnRefreshRejected(s, cause);
      && t.stored.None? && t.lock.None? && t.waiters == [] && t.location == LoginPath
      && t.settled == s.settled + Rejections(s.waiters, cause)
      && t.calls[|t.calls| - 1] == RefreshCall(s.calls[|s.calls| - 1].refresh, Failed)
  {
  }

  /**
   * The `_retry` guard: a replayed request carries the mark, so were its
   * failure ever handed to this interceptor it would propagate and start no
   * second refresh. Replays go out through plain `axios`, so the instance's
   * interceptor does not in fact see them; this states what the mark alone
   * guarantees.
   */
  lemma ReplayedRequestNeverRefreshesAgain(s: ApiState, i: nat, status: Option<int>)
    requires Invariant(s) && i < |s.settled| && s.settled[i].Replayed?
    ensures OnError(s, HttpError(s.settled[i].request, status)) == (s, Propagate(HttpError(s.settled[i].request, status)))
  {
  }

  /** One 401 failure per request. */
  function Unauthorized(reqs: seq<Request>): (evs: seq<Event>)
    ensures |evs| == |reqs|
    ensures forall i :: 0 <= i < |reqs| ==> evs[i] == RequestFailed(HttpError(reqs[i], Some(401)))
  {
    seq(|reqs|, i requires 0 <= i < |reqs| => RequestFailed(HttpError(reqs[i], Some(401))))
  }

  /** The requests as the interceptor leaves them, marked `_retry`. */
  function Marked(reqs: seq<Request>): (r: seq<Request>)
    ensures |r| == |reqs|
    ensures forall i :: 0 <= i < |reqs| ==> r[i] == reqs[i].(retry := true)
  {
    seq(|reqs|, i requires 0 <= i < |reqs| => reqs[i].(retry := true))
  }

  /** While 401s keep arriving from idle, one call is in flight and every request waits on it. */
  lemma {:induction false} ArrivalsShareOneCall(s: ApiState, reqs: seq<Request>)
    requires Invariant(s) && s.lock.None? && HasRefresh(s.stored) && |reqs| > 0
    requires forall i :: 0 <= i < |reqs| ==> !reqs[i].retry
    ensures Run(s, Unauthorized(reqs)) ==
      s.(lock := Some(s.stored.value.refresh),
         waiters := Marked(reqs),
         calls := s.calls + [RefreshCall(s.stored.value.refresh, InFlight)])
  {
    var n := |reqs|;
    var evs := Unauthorized(reqs);
    assert evs[..n - 1] == Unauthorized(reqs[..n - 1]);
    if n == 1 {
      assert evs[..0] == [];
      assert Marked(reqs) == [reqs[0].(retry := true)];
    } else {
      ArrivalsShareOneCall(s, reqs[..n - 1]);
      assert Marked(reqs) == Marked(reqs[..n - 1]) + [reqs[n - 1].(retry := true)];
    }
  }

  /**
   * N requests failing with 401 while a refresh token is stored cause
   * exactly one call to the refresh endpoint, posting the stored refresh
   * token; when it resolves, all N are replayed once with the same new
   * access token and otherwise unchanged, and the stored pair keeps its
   * refresh token.
   */
  lemma ConcurrentUnauthorizedShareOneRefresh(s: ApiState, reqs: seq<Request>, access: string)
    requires Invariant(s) && s.lock.None? && HasRefresh(s.stored) && |reqs| > 0
    requires forall i :: 0 <= i < |reqs| ==> !reqs[i].retry
    ensures var t := Run(s, Unauthorized(reqs) + [RefreshSucceeded(access)]);
      && t.calls == s.calls + [RefreshCall(s.stored.value.refresh, Resolved(access))]
      && t.settled == s.settled + Replays(Marked(reqs), access)
      && t.stored == Some(TokenPair(access, s.stored.value.refresh))
      && t.lock.None? && t.waiters == []
  {
    var evs := Unauthorized(reqs) + [RefreshSucceeded(access)];
    assert evs[..|evs| - 1] == Unauthorized(reqs);
    ArrivalsShareOneCall(s, reqs);
  }

  /** The browser state shared by every part of the client. */
  class Browser {
    var storedToken: Option<TokenPair>   // `localStorage['authToken']`, parsed
    var location: string                 // `window.location.href`

    constructor (stored: Option<TokenPair>, location: string)
      ensures storedToken == stored && this.location == location
    {
      storedToken := stored;
      this.location := location;
    }
  }

  /** The axios instance and the module-level lock of `api.js`. */
  class ApiClient {
    const browser: Browser
    var defaultHeaders: map<string, string>      // `api.defaults.headers.common`
    var refreshTokenPromise: Option<string>
    var waiters: seq<Request>
    var refreshCalls: seq<RefreshCall>
    var settled: seq<Settlement>

    function State(): ApiState
      reads this, browser
    {
      ApiState(browser.storedToken, browser.location, refreshTokenPromise, waiters, refreshCalls, settled)
    }

    ghost predicate Valid()
      reads this, browser
    {
      Invariant(State())
    }

    constructor (browser: Browser)
      ensures this.browser == browser && defaultHeaders == map[]
      ensures State() == ApiState(browser.storedToken, browser.location, None, [], [], [])
      ensures Valid()
    {
      this.browser := browser;
      defaultHeaders := map[];
      refreshTokenPromise := None;
      waiters := [];
      refreshCalls := [];
      settled := [];
    }

    /** The request interceptor, reading the stored pair at send time. */
    method InterceptRequest(config: Request) returns (out: Request)
      ensures out == AttachBearer(browser.storedToken, config)
    {
      out := config;
      var authToken := browser.storedToken;
      if authToken.Some? && authToken.value.access != "" {
        out := out.(headers := out.headers[AuthorizationHeader := Bearer(authToken.value.access)]);
      }
    }

    /** The response interceptor's error handler, up to its `await`. */
    method HandleResponseError(err: HttpError) returns (h: Handling)
      requires Valid()
      modifies this
      ensures Valid() && defaultHeaders == old(defaultHeaders)
      ensures (State(), h) == OnError(old(State()), err)
    {
      var authToken := browser.storedToken;
      if authToken.Some? && authToken.value.refresh != "" && err.status == Some(401) && !err.config.retry {
        var originalRequest := err.config.(retry := true);
        if refreshTokenPromise.None? {
          refreshTokenPromise := Some(authToken.value.refresh);
          refreshCalls := refreshCalls + [RefreshCall(authToken.value.refresh, InFlight)];
        }
        waiters := waiters + [originalRequest];
        assert waiters != [];
        return Await(originalRequest);
      }
      return Propagate(err);
    }

    /**
     * The refresh call resolves: its `.then` clears the lock and stores the
     * new pair, then each suspended request resumes and is resent once.
     */
    method ResolveRefresh(access: string)
      requires Valid() && refreshTokenPromise.Some?
      modifies this, browser
      ensures Valid() && defaultHeaders == old(defaultHeaders)
      ensures State() == OnRefreshResolved(old(State()), access)
    {
      var refresh := refreshTokenPromise.value;
      refreshTokenPromise := None;
      browser.storedToken := Some(TokenPair(access, refresh));
      refreshCalls := SettleLast(refreshCalls, Resolved(access));
      var resumed := waiters;
      var replays: seq<Settlement> := [];
      var i := 0;
      while i < |resumed|
        invariant 0 <= i <= |resumed|
        invariant replays == Replays(resumed[..i], access)
      {
        var originalRequest := resumed[i];
        originalRequest := originalRequest.(headers := originalRequest.headers[AuthorizationHeader := Bearer(access)]);
        replays := replays + [Replayed(originalRequest)];
        i := i + 1;
      }
      assert resumed[..i] == resumed;
      settled := settled + replays;
      waiters := [];
    }

    /** The refresh call rejects: its `.catch` clears everything and every waiter is rejected. */
    method RejectRefresh(cause: string)
      requires Valid() && refreshTokenPromise.Some?
      modifies this, browser
      ensures Valid() && defaultHeaders == old(defaultHeaders)
      ensures State() == OnRefreshRejected(old(State()), cause)
    {
      refreshTokenPromise := None;
      browser.storedToken := None;
      browser.location := LoginPath;
      refreshCalls := SettleLast(refreshCalls, Failed);
      settled := settled + Rejections(waiters, cause);
      waiters := [];
    }
  }
}
