/** `AuthInterceptor`: the request gateway. It attaches the bearer token to
    every request outside the four authentication endpoints and, on a 401,
    runs one refresh on behalf of every failing request and replays them with
    the new token.

    The recovery is a sequential state machine over the events that reach
    the interceptor one at a time: a 401 passes the recovery test, the
    refresh succeeds or fails, the request that started the refresh is done
    with its replay, a waiting subscriber goes away. `Gateway` and `Step` are
    the pure description, `AuthInterceptor` the object whose fields the
    methods update and whose methods follow `Step`.

    The published slot is a `BehaviorSubject`: a subscriber receives the
    current value at once, and a waiting request stays subscribed after its
    replay, so every later non-null publication replays it again. */
module Interceptor {
  import opened Models
  import Auth

  /** The unauthenticated endpoints. */
  const EXCLUDED_URLS: seq<string> :=
    ["/api/v1/auth/login", "/api/v1/auth/register", "/api/v1/auth/refresh", "/api/v1/auth/logout"]

  /** Prefix every excluded URL shares. */
  const AUTH_BASE: string := "/api/v1/auth/"

  const AUTHORIZATION: string := "Authorization"

  /** An outgoing request: target, headers, and everything else lumped as `body`. */
  datatype Request = Request(url: string, headers: map<string, string>, body: string)

  // ---------------------------------------------------------------------
  // URL matching

  /** `sub` occurs in `s` at position `k`. */
  predicate OccursAt(sub: string, s: string, k: int)
  {
    0 <= k && k + |sub| <= |s| && s[k..k + |sub|] == sub
  }

  /** `sub` occurs in `s` at some position. */
  predicate IsSubstring(sub: string, s: string)
  {
    exists k :: 0 <= k <= |s| && OccursAt(sub, s, k)
  }

  /** A substring of the tail is a substring, and when the string does not
      start with `sub` every occurrence lies in the tail. */
  lemma SubstringOfTail(sub: string, s: string)
    requires |s| > 0
    ensures IsSubstring(sub, s[1..]) ==> IsSubstring(sub, s)
    ensures IsSubstring(sub, s) && !(|sub| <= |s| && s[..|sub|] == sub) ==> IsSubstring(sub, s[1..])
  {
    if IsSubstring(sub, s[1..]) {
      var k :| 0 <= k <= |s[1..]| && OccursAt(sub, s[1..], k);
      assert s[k + 1..k + 1 + |sub|] == s[1..][k..k + |sub|];
      assert OccursAt(sub, s, k + 1);
    }
    if IsSubstring(sub, s) && !(|sub| <= |s| && s[..|sub|] == sub) {
      var k :| 0 <= k <= |s| && OccursAt(sub, s, k);
      assert s[..|sub|] == s[0..|sub|];
      assert k != 0;
      assert s[1..][k - 1..k - 1 + |sub|] == s[k..k + |sub|];
      assert OccursAt(sub, s[1..], k - 1);
    }
  }

  /** `s.includes(sub)`, scanning from the left. */
  function Includes(s: string, sub: string): (b: bool)
    ensures b <==> IsSubstring(sub, s)
    decreases |s|
  {
    if |sub| > |s| then false
    else if s[..|sub|] == sub then
      assert OccursAt(sub, s, 0);
      true
    else
      SubstringOfTail(sub, s);
      Includes(s[1..], sub)
  }

  /** `list.some(u => url.includes(u))`. */
  function SomeIncluded(url: string, list: seq<string>): (b: bool)
    ensures b <==> exists i :: 0 <= i < |list| && IsSubstring(list[i], url)
    decreases |list|
  {
    if list == [] then false
    else Includes(url, list[0]) || SomeIncluded(url, list[1..])
  }

  /** `isExcludedUrl`: the URL contains one of the four endpoint paths. */
  function IsExcludedUrl(url: string): (b: bool)
    ensures b <==> exists i :: 0 <= i < |EXCLUDED_URLS| && IsSubstring(EXCLUDED_URLS[i], url)
  {
    SomeIncluded(url, EXCLUDED_URLS)
  }

  lemma SubstringTransitive(a: string, b: string, c: string)
    requires IsSubstring(a, b) && IsSubstring(b, c)
    ensures IsSubstring(a, c)
  {
    var k1 :| 0 <= k1 <= |b| && OccursAt(a, b, k1);
    var k2 :| 0 <= k2 <= |c| && OccursAt(b, c, k2);
    forall j | 0 <= j < |a|
      ensures c[k2 + k1 + j] == a[j]
    {
      assert a[j] == b[k1 + j];
      assert b[k1 + j] == c[k2 + k1 + j];
    }
    assert c[k2 + k1..k2 + k1 + |a|] == a;
    assert OccursAt(a, c, k2 + k1);
  }

  /** A string is a substring of itself, and a prefix is a substring. */
  lemma PrefixIsSubstring(p: string, s: string)
    requires p <= s
    ensures IsSubstring(p, s)
  {
    assert OccursAt(p, s, 0);
  }

  /** Each endpoint path is excluded. */
  lemma EndpointsExcluded()
    ensures forall i :: 0 <= i < |EXCLUDED_URLS| ==> IsExcludedUrl(EXCLUDED_URLS[i])
  {
    forall i | 0 <= i < |EXCLUDED_URLS|
      ensures IsSubstring(EXCLUDED_URLS[i], EXCLUDED_URLS[i])
    {
      PrefixIsSubstring(EXCLUDED_URLS[i], EXCLUDED_URLS[i]);
    }
  }

  /** Matching is by substring, so only a URL containing the authentication
      base path can be excluded. */
  lemma ExcludedUnderAuthBase(url: string)
    ensures IsExcludedUrl(url) ==> IsSubstring(AUTH_BASE, url)
  {
    if IsExcludedUrl(url) {
      var i :| 0 <= i < |EXCLUDED_URLS| && IsSubstring(EXCLUDED_URLS[i], url);
      assert AUTH_BASE <= EXCLUDED_URLS[i] by {
        if i == 0 {} else if i == 1 {} else if i == 2 {} else {}
      }
      PrefixIsSubstring(AUTH_BASE, EXCLUDED_URLS[i]);
      SubstringTransitive(AUTH_BASE, EXCLUDED_URLS[i], url);
    }
  }

  /** `/auth/me`, which needs the token, is not excluded. */
  lemma CurrentUserNotExcluded()
    ensures !IsExcludedUrl("/api/v1/auth/me")
  {
    forall i | 0 <= i < |EXCLUDED_URLS|
      ensures !IsSubstring(EXCLUDED_URLS[i], "/api/v1/auth/me")
    {
      assert |EXCLUDED_URLS[i]| > |"/api/v1/auth/me"|;
    }
  }

  // ---------------------------------------------------------------------
  // Attaching the token

  /** The request carries `Authorization: Bearer <token>`. */
  predicate Bearer(r: Request, token: string)
  {
    AUTHORIZATION in r.headers && r.headers[AUTHORIZATION] == "Bearer " + token
  }

  /** `addToken`: a copy of the request with the bearer header set. */
  function AddToken(request: Request, token: string): (r: Request)
    ensures Bearer(r, token)
  {
    request.(headers := request.headers[AUTHORIZATION := "Bearer " + token])
  }

  /** The copy keeps the target, the body and every other header, and adds
      no header but `Authorization`. */
  lemma AddTokenKeepsRequest(request: Request, token: string)
    ensures var r := AddToken(request, token);
      && r.url == request.url && r.body == request.body
      && r.headers.Keys == request.headers.Keys + {AUTHORIZATION}
      && forall h :: h in request.headers && h != AUTHORIZATION ==> r.headers[h] == request.headers[h]
  {
  }

  /** The first half of `intercept`: the request handed to the next handler. */
  function Prepare(request: Request, accessToken: Option<string>): Request
  {
    if Present(accessToken) && !IsExcludedUrl(request.url) then AddToken(request, accessToken.value)
    else request
  }

  /** A request without an `Authorization` header of its own leaves with the
      bearer header exactly when a token is stored and its URL is not
      excluded; otherwise it leaves unchanged. */
  lemma BearerIffStoredAndNotExcluded(request: Request, accessToken: Option<string>)
    requires AUTHORIZATION !in request.headers
    ensures var r := Prepare(request, accessToken);
      && (AUTHORIZATION in r.headers <==> Present(accessToken) && !IsExcludedUrl(request.url))
      && (AUTHORIZATION in r.headers ==> Bearer(r, accessToken.value) && r.url == request.url && r.body == request.body)
      && (AUTHORIZATION !in r.headers ==> r == request)
  {
    if accessToken.Some? {
      AddTokenKeepsRequest(request, accessToken.value);
    }
  }

  /** The test in `catchError`: a 401, on a non-excluded URL, with a refresh
      token stored. Anything else is rethrown untouched. */
  predicate StartsRecovery(status: int, url: string, refreshToken: Option<string>)
  {
    status == 401 && !IsExcludedUrl(url) && Present(refreshToken)
  }

  /** An error on an authentication endpoint never enters recovery. */
  lemma NoRecoveryOnAuthEndpoints(status: int, i: nat, refreshToken: Option<string>)
    requires i < |EXCLUDED_URLS|
    ensures !StartsRecovery(status, EXCLUDED_URLS[i], refreshToken)
  {
    EndpointsExcluded();
  }

  // ---------------------------------------------------------------------
  // The recovery state machine

  /** `isRefreshing`, the value of `refreshTokenSubject`, the request whose 401
      started the running cycle, and the requests subscribed to the subject. */
  datatype Gateway = Gateway(
    isRefreshing: bool,
    slot: Option<AuthResponseDTO>,
    initiator: Option<Request>,
    waiters: seq<Request>)

  const Idle: Gateway := Gateway(false, None, None, [])

  datatype GatewayEvent =
    | Unauthorized(request: Request, refreshToken: string)  // a 401 that passed `StartsRecovery`
    | RefreshSucceeded(response: AuthResponseDTO)
    | RefreshFailed
    | RefreshAbandoned                                      // the initiator's caller unsubscribed before the answer
    | ReplayFinished                                        // the initiator's replay completed, failed or was unsubscribed
    | WaiterDropped(index: nat)                             // a waiter's replay failed, or its caller unsubscribed

  /** What a step issues: the refresh calls and the requests handed to the next handler. */
  datatype StepOut = StepOut(next: Gateway, refreshCalls: seq<string>, sent: seq<Request>)

  /** A cycle runs exactly while there is an initiator. */
  predicate Inv(g: Gateway)
  {
    g.isRefreshing <==> g.initiator.Some?
  }

  /** The refresh call of the running cycle has not been answered yet. */
  predicate Outstanding(g: Gateway)
  {
    g.isRefreshing && g.slot.None?
  }

  /** The events that can reach the gateway in state `g`. */
  predicate Enabled(g: Gateway, e: GatewayEvent)
  {
    match e
    case Unauthorized(_, _) => true
    case RefreshSucceeded(_) => Outstanding(g)
    case RefreshFailed => Outstanding(g)
    case RefreshAbandoned => Outstanding(g)
    case ReplayFinished => g.isRefreshing && g.slot.Some?
    case WaiterDropped(k) => k < |g.waiters|
  }

  /** The requests the subscribed waiters send when `token` is published, in
      subscription order. */
  function Replays(waiters: seq<Request>, token: string): (r: seq<Request>)
    ensures |r| == |waiters|
    ensures forall i :: 0 <= i < |r| ==> r[i] == AddToken(waiters[i], token)
    decreases |waiters|
  {
    if waiters == [] then [] else [AddToken(waiters[0], token)] + Replays(waiters[1..], token)
  }

  /** `handle401Error` and the callbacks of the refresh pipeline. */
  function Step(g: Gateway, e: GatewayEvent): (o: StepOut)
    requires Inv(g) && Enabled(g, e)
    ensures Inv(o.next)
  {
    match e
    case Unauthorized(request, token) =>
      if !g.isRefreshing then
        StepOut(Gateway(true, None, Some(request), g.waiters), [token], [])
      else if g.slot.Some? then
        StepOut(g.(waiters := g.waiters + [request]), [], [AddToken(request, g.slot.value.accessToken)])
      else
        StepOut(g.(waiters := g.waiters + [request]), [], [])
    case RefreshSucceeded(response) =>
      StepOut(g.(slot := Some(response)), [],
              Replays(g.waiters, response.accessToken) + [AddToken(g.initiator.value, response.accessToken)])
    case RefreshFailed =>
      StepOut(g.(isRefreshing := false, initiator := None), [], [])
    case RefreshAbandoned =>
      StepOut(g.(isRefreshing := false, initiator := None), [], [])
    case ReplayFinished =>
      StepOut(g.(isRefreshing := false, initiator := None), [], [])
    case WaiterDropped(k) =>
      StepOut(g.(waiters := g.waiters[..k] + g.waiters[k + 1..]), [], [])
  }

  /** What one step guarantees. */
  lemma StepGuarantees(g: Gateway, e: GatewayEvent)
    requires Inv(g) && Enabled(g, e)
    // one refresh call, and only from a 401 that finds no cycle running
    ensures Step(g, e).refreshCalls == (if e.Unauthorized? && !g.isRefreshing then [e.refreshToken] else [])
    // the flag goes down on every exit of a cycle and on nothing else
    ensures Step(g, e).next.isRefreshing <==>
      (e.Unauthorized? || (g.isRefreshing && !e.RefreshFailed? && !e.RefreshAbandoned? && !e.ReplayFinished?))
    // a new cycle opens with the slot reset to null and sends nothing yet
    ensures e.Unauthorized? && !g.isRefreshing ==>
      Step(g, e).next.slot.None? && Step(g, e).next.initiator == Some(e.request) && Step(g, e).sent == []
    // a 401 during an outstanding refresh waits and sends nothing
    ensures e.Unauthorized? && Outstanding(g) ==>
      Step(g, e).sent == [] && Step(g, e).next.waiters == g.waiters + [e.request]
    // whatever is replayed carries the access token of the published, non-null response
    ensures var o := Step(g, e);
      forall i :: 0 <= i < |o.sent| ==> o.next.slot.Some? && Bearer(o.sent[i], o.next.slot.value.accessToken)
    // a failed or abandoned refresh replays nothing, and leaves the waiters
    // subscribed to a null slot
    ensures e.RefreshFailed? || e.RefreshAbandoned? ==>
      Step(g, e).sent == [] && Step(g, e).next.slot.None? && Step(g, e).next.waiters == g.waiters
  {
  }

  predicate Runnable(g: Gateway, es: seq<GatewayEvent>)
    requires Inv(g)
    decreases |es|
  {
    es == [] || (Enabled(g, es[0]) && Runnable(Step(g, es[0]).next, es[1..]))
  }

  /** A run: the final state, and everything issued along the way, in order. */
  function Run(g: Gateway, es: seq<GatewayEvent>): (o: StepOut)
    requires Inv(g) && Runnable(g, es)
    ensures Inv(o.next)
    decreases |es|
  {
    if es == [] then StepOut(g, [], [])
    else
      var first := Step(g, es[0]);
      var rest := Run(first.next, es[1..]);
      StepOut(rest.next, first.refreshCalls + rest.refreshCalls, first.sent + rest.sent)
  }

  /** The events that end an outstanding refresh call: its two answers,
      and its cancellation. */
  function Resolutions(es: seq<GatewayEvent>): nat
    decreases |es|
  {
    if es == [] then 0
    else (if es[0].RefreshSucceeded? || es[0].RefreshFailed? || es[0].RefreshAbandoned? then 1 else 0)
         + Resolutions(es[1..])
  }

  function Pending(g: Gateway): nat
  {
    if Outstanding(g) then 1 else 0
  }

  /** Single flight: along any run, the refresh calls the interceptor
      issues minus the calls ended (answered or cancelled) is the change in
      the number of outstanding calls, which is 0 or 1. So the interceptor
      never has more than one refresh of its own in flight, and from a
      state with none outstanding its calls exceed the ended ones by at
      most one. Refreshes the service starts from its timer or at start-up
      are not counted here. */
  lemma {:induction false} SingleFlight(g: Gateway, es: seq<GatewayEvent>)
    requires Inv(g) && Runnable(g, es)
    ensures |Run(g, es).refreshCalls| + Pending(g) == Resolutions(es) + Pending(Run(g, es).next)
    ensures !Outstanding(g) ==> |Run(g, es).refreshCalls| <= Resolutions(es) + 1
    decreases |es|
  {
    if es != [] {
      StepGuarantees(g, es[0]);
      SingleFlight(Step(g, es[0]).next, es[1..]);
    }
  }

  /** A burst of 401s, all with the stored refresh token. */
  function Burst(requests: seq<Request>, token: string): seq<GatewayEvent>
    decreases |requests|
  {
    if requests == [] then [] else [Unauthorized(requests[0], token)] + Burst(requests[1..], token)
  }

  /** Running one event, then a trace. */
  lemma RunCons(g: Gateway, e: GatewayEvent, es: seq<GatewayEvent>)
    requires Inv(g) && Enabled(g, e) && Runnable(Step(g, e).next, es)
    ensures Runnable(g, [e] + es)
    ensures var s := Step(g, e); var r := Run(s.next, es);
      Run(g, [e] + es) == StepOut(r.next, s.refreshCalls + r.refreshCalls, s.sent + r.sent)
  {
    assert ([e] + es)[0] == e;
    assert ([e] + es)[1..] == es;
  }

  /** While the refresh is outstanding, further 401s only queue up. */
  lemma {:induction false} BurstWhileOutstanding(g: Gateway, requests: seq<Request>, token: string)
    requires Inv(g) && Outstanding(g)
    ensures Runnable(g, Burst(requests, token))
    ensures Run(g, Burst(requests, token)) == StepOut(g.(waiters := g.waiters + requests), [], [])
    decreases |requests|
  {
    if requests != [] {
      var es := Burst(requests, token);
      var e := Unauthorized(requests[0], token);
      assert es[0] == e && es[1..] == Burst(requests[1..], token);
      var h := g.(waiters := g.waiters + [requests[0]]);
      assert Step(g, e) == StepOut(h, [], []);
      BurstWhileOutstanding(h, requests[1..], token);
      assert h.waiters + requests[1..] == g.waiters + requests;
    }
  }

  /** N concurrent 401s collapse into exactly one refresh call, made with
      the stored refresh token; when it succeeds every one of them is
      replayed once with the new token. The waiters go first, in arrival
      order, and the request that started the cycle goes last; waiters left
      from earlier cycles are replayed too. */
  lemma ConcurrentUnauthorized(g: Gateway, requests: seq<Request>, token: string, response: AuthResponseDTO)
    requires Inv(g) && !g.isRefreshing && |requests| >= 1
    ensures Runnable(g, Burst(requests, token))
    ensures var burst := Run(g, Burst(requests, token));
      && burst.refreshCalls == [token] && burst.sent == []
      && burst.next == Gateway(true, None, Some(requests[0]), g.waiters + requests[1..])
      && Enabled(burst.next, RefreshSucceeded(response))
      && Step(burst.next, RefreshSucceeded(response)).sent
         == Replays(g.waiters + requests[1..], response.accessToken) + [AddToken(requests[0], response.accessToken)]
  {
    var e := Unauthorized(requests[0], token);
    var rest := Burst(requests[1..], token);
    assert Burst(requests, token) == [e] + rest;
    var h := Gateway(true, None, Some(requests[0]), g.waiters);
    assert Step(g, e) == StepOut(h, [token], []);
    BurstWhileOutstanding(h, requests[1..], token);
    RunCons(g, e, rest);
  }

  /** A request that waited in one cycle stays subscribed and is sent again
      in the next successful cycle, with that cycle's token: waiter `b` is
      replayed in both cycles below. */
  lemma WaiterReplayedEachCycle(a: Request, b: Request, c: Request, token: string,
                                first: AuthResponseDTO, second: AuthResponseDTO)
    ensures Runnable(Idle, [Unauthorized(a, token), Unauthorized(b, token), RefreshSucceeded(first), ReplayFinished])
    ensures var one := Run(Idle, [Unauthorized(a, token), Unauthorized(b, token), RefreshSucceeded(first), ReplayFinished]);
      && one.refreshCalls == [token] && !one.next.isRefreshing
      && one.sent == [AddToken(b, first.accessToken), AddToken(a, first.accessToken)]
      && Runnable(one.next, [Unauthorized(c, token), RefreshSucceeded(second)])
      && Run(one.next, [Unauthorized(c, token), RefreshSucceeded(second)]).refreshCalls == [token]
      && Run(one.next, [Unauthorized(c, token), RefreshSucceeded(second)]).sent
         == [AddToken(b, second.accessToken), AddToken(c, second.accessToken)]
  {
    var g4 := Gateway(false, Some(first), None, [b]);
    CycleOne(a, b, token, first);
    CycleTwo(g4, b, c, token, second);
  }

  lemma CycleOne(a: Request, b: Request, token: string, first: AuthResponseDTO)
    ensures var es := [Unauthorized(a, token), Unauthorized(b, token), RefreshSucceeded(first), ReplayFinished];
      && Runnable(Idle, es)
      && Run(Idle, es) == StepOut(Gateway(false, Some(first), None, [b]), [token],
                                  [AddToken(b, first.accessToken), AddToken(a, first.accessToken)])
  {
    var e1, e2 := Unauthorized(a, token), Unauthorized(b, token);
    var e3, e4 := RefreshSucceeded(first), ReplayFinished;
    var g1 := Gateway(true, None, Some(a), []);
    var g2 := Gateway(true, None, Some(a), [b]);
    CycleOneReplay(g2, a, b, first);
    assert Step(g1, e2) == StepOut(g2, [], []);
    assert Runnable(g1, [e2, e3, e4]) && Run(g1, [e2, e3, e4]) == Run(g2, [e3, e4]);
    assert Step(Idle, e1) == StepOut(g1, [token], []);
  }

  lemma CycleOneReplay(g: Gateway, a: Request, b: Request, first: AuthResponseDTO)
    requires g == Gateway(true, None, Some(a), [b])
    ensures Runnable(g, [RefreshSucceeded(first), ReplayFinished])
    ensures Run(g, [RefreshSucceeded(first), ReplayFinished])
      == StepOut(Gateway(false, Some(first), None, [b]), [], [AddToken(b, first.accessToken), AddToken(a, first.accessToken)])
  {
    var e3, e4 := RefreshSucceeded(first), ReplayFinished;
    var g3 := Gateway(true, Some(first), Some(a), [b]);
    var g4 := Gateway(false, Some(first), None, [b]);
    var sent := [AddToken(b, first.accessToken), AddToken(a, first.accessToken)];
    assert Replays([b], first.accessToken) == [AddToken(b, first.accessToken)];
    assert Step(g3, e4) == StepOut(g4, [], []);
    assert Runnable(g3, [e4]) && Run(g3, [e4]) == StepOut(g4, [], []);
    assert Step(g, e3) == StepOut(g3, [], sent);
  }

  lemma CycleTwo(g: Gateway, b: Request, c: Request, token: string, second: AuthResponseDTO)
    requires g.isRefreshing == false && g.initiator.None? && g.waiters == [b]
    ensures var es := [Unauthorized(c, token), RefreshSucceeded(second)];
      && Runnable(g, es)
      && Run(g, es).refreshCalls == [token]
      && Run(g, es).sent == [AddToken(b, second.accessToken), AddToken(c, second.accessToken)]
  {
    var e5, e6 := Unauthorized(c, token), RefreshSucceeded(second);
    var g5 := Gateway(true, None, Some(c), [b]);
    var g6 := Gateway(true, Some(second), Some(c), [b]);
    var sent := [AddToken(b, second.accessToken), AddToken(c, second.accessToken)];
    assert Replays([b], second.accessToken) == [AddToken(b, second.accessToken)];
    assert Step(g5, e6) == StepOut(g6, [], sent);
    assert Runnable(g5, [e6]) && Run(g5, [e6]) == StepOut(g6, [], sent);
    assert Step(g, e5) == StepOut(g5, [token], []);
  }

  /** A 401 that arrives after the refresh succeeded but before the starting
      request's replay finished is replayed at once with the published token
      (the subject hands its current value to a new subscriber), without a
      new refresh call. */
  lemma LateUnauthorizedReplaysAtOnce(g: Gateway, request: Request, token: string)
    requires Inv(g) && g.isRefreshing && g.slot.Some?
    ensures Step(g, Unauthorized(request, token)).refreshCalls == []
    ensures Step(g, Unauthorized(request, token)).sent == [AddToken(request, g.slot.value.accessToken)]
  {
  }

  // ---------------------------------------------------------------------
  // The interceptor object

  /** What the caller of a failed request gets back. */
  datatype Reaction = Rethrow(status: int) | Recover

  class AuthInterceptor {
    const auth: Auth.AuthService

    var isRefreshing: bool
    var slot: Option<AuthResponseDTO>   // value of `refreshTokenSubject`
    var initiator: Option<Request>      // the request the running refresh will replay
    var waiters: seq<Request>           // requests subscribed to `refreshTokenSubject`
    var sent: seq<Request>              // every request handed to the next handler, in order

    function State(): Gateway
      reads this
    {
      Gateway(isRefreshing, slot, initiator, waiters)
    }

    /** The cycle invariant, and the service's own invariant. */
    ghost predicate Valid()
      reads this, auth
    {
      Inv(State()) && auth.Valid()
    }

    constructor (auth: Auth.AuthService)
      requires auth.Valid()
      ensures this.auth == auth && State() == Idle && sent == [] && Valid()
    {
      this.auth := auth;
      isRefreshing := false;
      slot := None;
      initiator := None;
      waiters := [];
      sent := [];
    }

    /** `intercept`, up to `next.handle(request)`. */
    method Intercept(request: Request) returns (outgoing: Request)
      requires Valid()
      modifies this
      ensures Valid()
      ensures outgoing == Prepare(request, auth.accessToken)
      ensures sent == old(sent) + [outgoing] && State() == old(State())
    {
      var accessToken := auth.accessToken;
      outgoing := request;
      if Present(accessToken) && !IsExcludedUrl(request.url) {
        outgoing := AddToken(request, accessToken.value);
      }
      sent := sent + [outgoing];
    }

    /** The `catchError` of `intercept`: `request` is the request that was
        sent and came back with `status`. */
    method OnErrorResponse(request: Request, status: int) returns (reaction: Reaction)
      requires Valid()
      modifies this, auth
      ensures Valid()
      ensures !StartsRecovery(status, request.url, old(auth.refreshToken)) ==>
        && reaction == Rethrow(status) && State() == old(State()) && sent == old(sent)
        && auth.Snapshot() == old(auth.Snapshot())
      ensures StartsRecovery(status, request.url, old(auth.refreshToken)) ==>
        var o := Step(old(State()), Unauthorized(request, old(auth.refreshToken).value));
        && reaction == Recover && State() == o.next && sent == old(sent) + o.sent
        && auth.Snapshot() == (if o.refreshCalls == [] then old(auth.Snapshot())
                               else Auth.WithRefreshRequest(old(auth.Snapshot()), old(auth.refreshToken).value))
    {
      if status == 401 && !IsExcludedUrl(request.url) && Present(auth.refreshToken) {
        Handle401Error(request);
        reaction := Recover;
      } else {
        reaction := Rethrow(status);
      }
    }

    /** `handle401Error`. */
    method Handle401Error(request: Request)
      requires Valid() && Present(auth.refreshToken)
      modifies this, auth
      ensures Valid()
      ensures var o := Step(old(State()), Unauthorized(request, old(auth.refreshToken).value));
        && State() == o.next && sent == old(sent) + o.sent
        && auth.Snapshot() == (if o.refreshCalls == [] then old(auth.Snapshot())
                               else Auth.WithRefreshRequest(old(auth.Snapshot()), old(auth.refreshToken).value))
    {
      if !isRefreshing {
        isRefreshing := true;
        slot := None;
        var token := auth.refreshToken.value;
        initiator := Some(request);
        auth.RequestRefresh(token);
      } else {
        waiters := waiters + [request];
        if slot.Some? {
          sent := sent + [AddToken(request, slot.value.accessToken)];
        }
      }
    }

    /** The refresh answered with `response`: the service stores it, the
        subject publishes it (the waiters resend at once), then the request
        that started the cycle is resent. */
    method OnRefreshSucceeded(response: AuthResponseDTO, now: int)
      requires Valid() && Outstanding(State())
      modifies this, auth
      ensures Valid()
      ensures var o := Step(old(State()), RefreshSucceeded(response));
        State() == o.next && sent == old(sent) + o.sent
      ensures auth.Snapshot() == Auth.WithAuth(old(auth.Snapshot()), response, auth.parseClaims, now)
    {
      var _ := auth.CompleteRefresh(Success(response), now);
      slot := Some(response);
      sent := sent + Replays(waiters, response.accessToken);
      sent := sent + [AddToken(initiator.value, response.accessToken)];
    }

    /** The refresh failed: the service ends the session, the refresh error is
        rethrown to the starting request, `finalize` lowers the flag. */
    method OnRefreshFailed(error: HttpError, now: int) returns (rethrown: HttpError)
      requires Valid() && Outstanding(State())
      modifies this, auth
      ensures Valid() && !isRefreshing && rethrown == error
      ensures State() == Step(old(State()), RefreshFailed).next && sent == old(sent)
      ensures auth.Snapshot() == Auth.RefreshCompleted(old(auth.Snapshot()), Failure(error), auth.parseClaims, now).0
    {
      var r := auth.CompleteRefresh(Failure(error), now);
      rethrown := r.error;
      isRefreshing := false;
      initiator := None;
    }

    /** The caller of the starting request unsubscribed while the refresh
        was outstanding: the refresh call is cancelled before it reaches the
        service, `finalize` lowers the flag. */
    method OnRefreshAbandoned()
      requires Valid() && Outstanding(State())
      modifies this
      ensures Valid() && !isRefreshing
      ensures State() == Step(old(State()), RefreshAbandoned).next && sent == old(sent)
    {
      isRefreshing := false;
      initiator := None;
    }

    /** The starting request's replay completed, failed or was unsubscribed: `finalize`. */
    method OnReplayFinished()
      requires Valid() && isRefreshing && slot.Some?
      modifies this
      ensures Valid() && !isRefreshing
      ensures State() == Step(old(State()), ReplayFinished).next && sent == old(sent)
    {
      isRefreshing := false;
      initiator := None;
    }

    /** Waiter `k` unsubscribes (its replay failed, or its caller went away). */
    method OnWaiterDropped(k: nat)
      requires Valid() && k < |waiters|
      modifies this
      ensures Valid()
      ensures State() == Step(old(State()), WaiterDropped(k)).next && sent == old(sent)
    {
      waiters := waiters[..k] + waiters[k + 1..];
    }
  }
}
