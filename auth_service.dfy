/** `AuthService`: the session store. It keeps three persisted keys (access
    token, refresh token, role), publishes an authenticated flag and the
    role, schedules a proactive refresh five minutes before the access token
    expires, and reconciles the stored session at start-up.

    The state is modelled twice, on purpose: the datatype `Store` with pure
    functions, one per operation, which the lemmas reason about; and the
    class `AuthService`, whose fields the methods update in place and whose
    every method promises that its new state is the matching function of
    the old one. Time is the parameter `now` (milliseconds, `Date.now()`),
    pending `setTimeout`s are the sequence `timers` of their delays, and the
    router and the refresh endpoint leave their traces in `effects`. */
module Auth {
  import opened Models
  import Jwt

  /** The refresh fires this many milliseconds (5 minutes) before expiry. */
  const REFRESH_LEAD_MS: int := 300000
  const LOGIN_ROUTE: string := "/login"

  /** What the store makes other components do, in order. */
  datatype Effect =
    | Navigated(path: string, loggedIn: bool)  // `router.navigate`, with the flag published at that moment
    | RefreshRequested(refreshToken: string)    // a `POST /auth/refresh` carrying this token

  /** The state of the service: the three storage keys, the values of the
      two subjects, the pending timers and the effects issued so far. */
  datatype Store = Store(
    accessToken: Option<string>,
    refreshToken: Option<string>,
    userRole: Option<string>,
    authenticated: bool,
    publishedRole: Option<string>,
    timers: seq<int>,
    effects: seq<Effect>)
  {
    /** The published role is the stored one, the flag is raised only with a
        stored access token, and every pending timer has a positive delay. */
    predicate Valid()
    {
      && publishedRole == userRole
      && (authenticated ==> accessToken.Some?)
      && forall i :: 0 <= i < |timers| ==> timers[i] > 0
    }

    /** No partial session: the three keys are all stored or all absent. */
    predicate KeysTogether()
    {
      (accessToken.Some? && refreshToken.Some? && userRole.Some?)
      || (accessToken.None? && refreshToken.None? && userRole.None?)
    }
  }

  // ---------------------------------------------------------------------
  // Pure queries

  /** `payload?.exp ... * 1000`: the expiry of a token in milliseconds when
      its payload decodes to a truthy `exp`, else `None` (a 0 claim is falsy). */
  function ExpirationMs(parse: Jwt.ClaimsParser, token: string): (ms: Option<int>)
    ensures ms.Some? ==> '.' in token && ms.value != 0 && ms.value % 1000 == 0
    ensures ms.Some? <==> (Jwt.DecodeExp(parse, token).Some? && Jwt.DecodeExp(parse, token).value != 0)
    ensures ms.Some? ==> ms.value == Jwt.DecodeExp(parse, token).value * 1000
  {
    match Jwt.DecodeExp(parse, token)
    case Some(exp) => if exp != 0 then Some(exp * 1000) else None
    case None => None
  }

  /** `hasValidToken`: a stored, non-empty access token whose expiry lies
      after `now`. */
  function HasValidToken(accessToken: Option<string>, parse: Jwt.ClaimsParser, now: int): (valid: bool)
    ensures !Present(accessToken) ==> !valid
    ensures Present(accessToken) && ExpirationMs(parse, accessToken.value).None? ==> !valid
    ensures Present(accessToken) && ExpirationMs(parse, accessToken.value).Some? ==>
      (valid <==> now < ExpirationMs(parse, accessToken.value).value)
    ensures valid ==> '.' in accessToken.value
  {
    if !Present(accessToken) then false
    else
      match ExpirationMs(parse, accessToken.value)
      case Some(ms) => now < ms
      case None => false
  }

  /** `requiredRoles.includes(name)`. */
  function Includes(roles: seq<Ruolo>, name: string): (b: bool)
    ensures b <==> exists i :: 0 <= i < |roles| && RoleName(roles[i]) == name
    decreases |roles|
  {
    if roles == [] then false
    else RoleName(roles[0]) == name || Includes(roles[1..], name)
  }

  /** `hasRole`: false without a (non-empty) stored role, membership otherwise. */
  function HasRole(storedRole: Option<string>, requiredRoles: seq<Ruolo>): (b: bool)
    ensures storedRole.None? ==> !b
    ensures storedRole.Some? ==>
      (b <==> exists i :: 0 <= i < |requiredRoles| && RoleName(requiredRoles[i]) == storedRole.value)
  {
    if Present(storedRole) then Includes(requiredRoles, storedRole.value) else false
  }

  /** `isUserAdmin`: the stored role is exactly "ADMIN", which is `hasRole(['ADMIN'])`. */
  function IsUserAdmin(storedRole: Option<string>): (b: bool)
    ensures b == HasRole(storedRole, [ADMIN])
  {
    storedRole == Some("ADMIN")
  }

  /** The delay `scheduleTokenRefresh` computes, as a timer list: one timer
      when the delay is positive, none otherwise. Its timer goes off exactly
      five minutes before the expiry. */
  function RefreshTimers(expirationMs: int, now: int): (t: seq<int>)
    ensures |t| <= 1
    ensures t != [] <==> expirationMs - now > REFRESH_LEAD_MS
    ensures t != [] ==> t[0] > 0 && now + t[0] + REFRESH_LEAD_MS == expirationMs
  {
    var refreshTime := expirationMs - now - REFRESH_LEAD_MS;
    if refreshTime > 0 then [refreshTime] else []
  }

  /** The branch `checkTokenValidity` takes. */
  datatype StartupBranch =
    | NoToken                                 // clear the session
    | ExpiredWithRefresh(refreshToken: string) // refresh now, log out if that fails
    | StillValid(expirationMs: int)            // schedule the proactive refresh
    | ExpiredWithoutRefresh                    // clear the session locally
    | NoExpiry                                 // token kept, nothing scheduled

  /** The nested tests of `checkTokenValidity`, in the source's order, with
      the clock read once as `now` (the source reads it afresh for each
      test). With a single reading the third inner test always holds when
      it is reached. */
  function StartupCheck(accessToken: Option<string>, refreshToken: Option<string>,
                        parse: Jwt.ClaimsParser, now: int): (b: StartupBranch)
    ensures b.NoToken? <==> !Present(accessToken)
    ensures b.StillValid? <==> HasValidToken(accessToken, parse, now)
    ensures b.StillValid? ==> b.expirationMs - now > 0
    ensures b.ExpiredWithRefresh? <==>
      Present(accessToken) && ExpirationMs(parse, accessToken.value).Some?
      && !HasValidToken(accessToken, parse, now) && Present(refreshToken)
    ensures b.ExpiredWithRefresh? ==> refreshToken == Some(b.refreshToken)
    ensures b.ExpiredWithoutRefresh? <==>
      Present(accessToken) && ExpirationMs(parse, accessToken.value).Some?
      && !HasValidToken(accessToken, parse, now) && !Present(refreshToken)
    ensures b.NoExpiry? <==> Present(accessToken) && ExpirationMs(parse, accessToken.value).None?
  {
    if !Present(accessToken) then NoToken
    else
      match ExpirationMs(parse, accessToken.value)
      case None => NoExpiry
      case Some(expirationTime) =>
        if now >= expirationTime && Present(refreshToken) then ExpiredWithRefresh(refreshToken.value)
        else if now < expirationTime then StillValid(expirationTime)
        else if now >= expirationTime && !Present(refreshToken) then ExpiredWithoutRefresh
        else assert false; NoExpiry
  }

  // ---------------------------------------------------------------------
  // The operations on the store

  /** The state right after construction: the persisted keys as found, the
      flag from `hasValidToken` and the role from storage. */
  function Initial(storedAccess: Option<string>, storedRefresh: Option<string>, storedRole: Option<string>,
                   parse: Jwt.ClaimsParser, now: int): (s: Store)
    ensures s.Valid() && s.timers == [] && s.effects == []
    ensures s.authenticated == HasValidToken(storedAccess, parse, now)
    ensures s.accessToken == storedAccess && s.refreshToken == storedRefresh && s.userRole == storedRole
    ensures s.publishedRole == storedRole
  {
    Store(storedAccess, storedRefresh, storedRole, HasValidToken(storedAccess, parse, now), storedRole, [], [])
  }

  /** `clearAuthData`. */
  function Cleared(s: Store): Store
  {
    s.(accessToken := None, refreshToken := None, userRole := None,
       authenticated := false, publishedRole := None)
  }

  /** `router.navigate([path])`. */
  function WithNavigation(s: Store, path: string): Store
  {
    s.(effects := s.effects + [Navigated(path, s.authenticated)])
  }

  /** `scheduleTokenRefresh(expirationMs)`. */
  function WithTimer(s: Store, expirationMs: int, now: int): Store
  {
    s.(timers := s.timers + RefreshTimers(expirationMs, now))
  }

  /** `handleSuccessfulAuth(response)`: store, publish, then schedule. */
  function WithAuth(s: Store, response: AuthResponseDTO, parse: Jwt.ClaimsParser, now: int): Store
  {
    var stored := s.(accessToken := Some(response.accessToken), refreshToken := Some(response.refreshToken),
                     userRole := Some(response.ruolo));
    var published := stored.(authenticated := true, publishedRole := Some(response.ruolo));
    match ExpirationMs(parse, response.accessToken)
    case Some(ms) => WithTimer(published, ms, now)
    case None => published
  }

  /** `login`: the success path of `handleSuccessfulAuth`; a failure is
      rethrown and touches nothing. */
  function LoginCompleted(s: Store, outcome: Result<AuthResponseDTO, HttpError>,
                          parse: Jwt.ClaimsParser, now: int): (Store, Result<AuthResponseDTO, HttpError>)
  {
    match outcome
    case Success(response) => (WithAuth(s, response, parse, now), outcome)
    case Failure(_) => (s, outcome)
  }

  /** Subscribing to `refreshToken(token)` issues the refresh request. */
  function WithRefreshRequest(s: Store, token: string): Store
  {
    s.(effects := s.effects + [RefreshRequested(token)])
  }

  /** The refresh response arrives: success behaves like a login; failure
      clears, navigates to the login page and rethrows. */
  function RefreshCompleted(s: Store, outcome: Result<AuthResponseDTO, HttpError>,
                            parse: Jwt.ClaimsParser, now: int): (Store, Result<AuthResponseDTO, HttpError>)
  {
    match outcome
    case Success(response) => (WithAuth(s, response, parse, now), outcome)
    case Failure(_) => (WithNavigation(Cleared(s), LOGIN_ROUTE), outcome)
  }

  /** `refreshToken(token)` from request to response, as the timer and the
      start-up check use it. */
  function Refreshed(s: Store, token: string, outcome: Result<AuthResponseDTO, HttpError>,
                     parse: Jwt.ClaimsParser, now: int): (Store, Result<AuthResponseDTO, HttpError>)
  {
    RefreshCompleted(WithRefreshRequest(s, token), outcome, parse, now)
  }

  /** `logout`: read the refresh token, clear, navigate. The second component
      is the `POST /auth/logout` body the returned observable would send
      once subscribed (its error is swallowed into `null`). */
  function LoggedOut(s: Store): (Store, Option<string>)
  {
    (WithNavigation(Cleared(s), LOGIN_ROUTE),
     if Present(s.refreshToken) then Some(s.refreshToken.value) else None)
  }

  /** `checkTokenValidity`. The refresh it may start (and the `logout()` on
      its failure, whose observable nobody subscribes) complete in one step
      with the given `refresh` outcome. */
  function StartupChecked(s: Store, parse: Jwt.ClaimsParser, now: int,
                          refresh: Result<AuthResponseDTO, HttpError>): Store
  {
    match StartupCheck(s.accessToken, s.refreshToken, parse, now)
    case NoToken => Cleared(s)
    case ExpiredWithRefresh(token) =>
      var p := Refreshed(s, token, refresh, parse, now);
      if p.1.Failure? then LoggedOut(p.0).0 else p.0
    case StillValid(ms) => WithTimer(s, ms, now)
    case ExpiredWithoutRefresh => Cleared(s)
    case NoExpiry => s
  }

  /** The `setTimeout` callback of timer `k`: refresh with the stored token
      and log out if that fails; log out at once without a token. The
      `logout()` observables are not subscribed. */
  function TimerFired(s: Store, k: nat, parse: Jwt.ClaimsParser, now: int,
                      refresh: Result<AuthResponseDTO, HttpError>): Store
    requires k < |s.timers|
  {
    var s1 := s.(timers := s.timers[..k] + s.timers[k + 1..]);
    if Present(s1.refreshToken) then
      var p := Refreshed(s1, s1.refreshToken.value, refresh, parse, now);
      if p.1.Failure? then LoggedOut(p.0).0 else p.0
    else LoggedOut(s1).0
  }

  // ---------------------------------------------------------------------
  // Properties of the operations

  /** After a successful login or refresh the three keys hold the response,
      the flag is raised and the role is published; a timer is added exactly
      when the token carries an expiry more than five minutes away. */
  lemma SuccessfulAuthStoresSession(s: Store, response: AuthResponseDTO, parse: Jwt.ClaimsParser, now: int)
    ensures var r := WithAuth(s, response, parse, now);
      && r.accessToken == Some(response.accessToken)
      && r.refreshToken == Some(response.refreshToken)
      && r.userRole == Some(response.ruolo)
      && r.authenticated && r.publishedRole == Some(response.ruolo)
      && r.KeysTogether() && r.effects == s.effects
      && (s.Valid() ==> r.Valid())
      && |s.timers| <= |r.timers| <= |s.timers| + 1 && r.timers[..|s.timers|] == s.timers
      && (|r.timers| > |s.timers| <==>
            ExpirationMs(parse, response.accessToken).Some?
            && ExpirationMs(parse, response.accessToken).value - now > REFRESH_LEAD_MS)
      && (|r.timers| > |s.timers| ==>
            now + r.timers[|s.timers|] + REFRESH_LEAD_MS == ExpirationMs(parse, response.accessToken).value)
  {
    var r := WithAuth(s, response, parse, now);
    match ExpirationMs(parse, response.accessToken)
    case Some(ms) =>
      assert r.timers == s.timers + RefreshTimers(ms, now);
      assert r.timers[..|s.timers|] == s.timers;
    case None =>
      assert r.timers == s.timers;
  }

  /** A timer is scheduled after a successful authentication only for a
      token that is valid at that moment; a token without a payload segment
      (no dot) schedules nothing. */
  lemma TimerOnlyForValidToken(s: Store, response: AuthResponseDTO, parse: Jwt.ClaimsParser, now: int)
    ensures |WithAuth(s, response, parse, now).timers| > |s.timers| ==>
      HasValidToken(Some(response.accessToken), parse, now)
    ensures '.' !in response.accessToken ==> WithAuth(s, response, parse, now).timers == s.timers
  {
    var t := response.accessToken;
    match ExpirationMs(parse, t)
    case Some(ms) =>
      assert '.' in t;
      assert t != "";
      assert Present(Some(t));
    case None =>
  }

  /** A failed refresh ends the session: keys gone, `false`/`null` published,
      one navigation to the login page made after the clear, and the refresh
      error is what the caller sees. Pending timers are not cancelled. */
  lemma RefreshFailureEndsSession(s: Store, token: string, error: HttpError, parse: Jwt.ClaimsParser, now: int)
    ensures var p := Refreshed(s, token, Failure(error), parse, now);
      && p.1 == Failure(error)
      && p.0.accessToken.None? && p.0.refreshToken.None? && p.0.userRole.None?
      && !p.0.authenticated && p.0.publishedRole.None?
      && p.0.timers == s.timers
      && p.0.effects == s.effects + [RefreshRequested(token), Navigated(LOGIN_ROUTE, false)]
  {
  }

  /** A failed login changes no state at all and rethrows its error. */
  lemma LoginFailureChangesNothing(s: Store, error: HttpError, parse: Jwt.ClaimsParser, now: int)
    ensures LoginCompleted(s, Failure(error), parse, now) == (s, Failure(error))
  {
  }

  /** `logout` reads the refresh token before clearing (the backend request
      carries it exactly when one is stored) and navigates after clearing
      (the navigation sees the flag down). Logging out twice leaves the same
      session, with no backend request the second time. */
  lemma LogoutOrder(s: Store)
    ensures var (r, backend) := LoggedOut(s);
      && (backend.Some? <==> Present(s.refreshToken))
      && (backend.Some? ==> s.refreshToken == Some(backend.value))
      && r == WithNavigation(Cleared(s), LOGIN_ROUTE)
      && r.effects == s.effects + [Navigated(LOGIN_ROUTE, false)]
      && LoggedOut(r).1.None?
      && LoggedOut(r).0 == r.(effects := r.effects + [Navigated(LOGIN_ROUTE, false)])
  {
  }

  /** The start-up check: no token clears; an expired token with a refresh
      token refreshes (and the session ends if that fails); a valid token
      schedules; an expired token without a refresh token clears; a token
      without an expiry is left as it is. */
  lemma StartupBranches(s: Store, parse: Jwt.ClaimsParser, now: int, refresh: Result<AuthResponseDTO, HttpError>)
    ensures var r := StartupChecked(s, parse, now, refresh);
      && (!Present(s.accessToken) ==> r == Cleared(s))
      && (HasValidToken(s.accessToken, parse, now) ==>
            r == WithTimer(s, ExpirationMs(parse, s.accessToken.value).value, now) && r.effects == s.effects)
      && (Present(s.accessToken) && ExpirationMs(parse, s.accessToken.value).None? ==> r == s)
      && (Present(s.accessToken) && ExpirationMs(parse, s.accessToken.value).Some?
          && !HasValidToken(s.accessToken, parse, now) ==>
            if Present(s.refreshToken) then
              |r.effects| > |s.effects| && r.effects[|s.effects|] == RefreshRequested(s.refreshToken.value)
              && (refresh.Failure? ==> r.accessToken.None? && !r.authenticated)
              && (refresh.Success? ==> r.accessToken == Some(refresh.value.accessToken) && r.authenticated)
            else r == Cleared(s))
  {
    var r := StartupChecked(s, parse, now, refresh);
    match StartupCheck(s.accessToken, s.refreshToken, parse, now)
    case ExpiredWithRefresh(token) =>
      var p := Refreshed(s, token, refresh, parse, now);
      assert p.0.effects[..|s.effects| + 1] == s.effects + [RefreshRequested(token)];
      assert r.effects[..|p.0.effects|] == p.0.effects;
    case NoToken =>
    case StillValid(ms) =>
    case ExpiredWithoutRefresh =>
    case NoExpiry =>
  }

  /** The timer callback: with a stored refresh token it requests a refresh
      with that token, and the session survives only if the refresh
      succeeds; without one it logs out at once and requests nothing. The
      fired timer is gone either way. */
  lemma TimerCallback(s: Store, k: nat, parse: Jwt.ClaimsParser, now: int, refresh: Result<AuthResponseDTO, HttpError>)
    requires k < |s.timers|
    ensures var r := TimerFired(s, k, parse, now, refresh);
      && |r.timers| >= |s.timers| - 1
      && r.timers[..|s.timers| - 1] == s.timers[..k] + s.timers[k + 1..]
      && (Present(s.refreshToken) ==>
            |r.effects| > |s.effects| && r.effects[|s.effects|] == RefreshRequested(s.refreshToken.value)
            && (refresh.Failure? ==>
                  r.accessToken.None? && !r.authenticated
                  && r.effects == s.effects + [RefreshRequested(s.refreshToken.value),
                                               Navigated(LOGIN_ROUTE, false), Navigated(LOGIN_ROUTE, false)])
            && (refresh.Success? ==> r.accessToken == Some(refresh.value.accessToken) && r.authenticated))
      && (!Present(s.refreshToken) ==>
            r.accessToken.None? && !r.authenticated
            && r.effects == s.effects + [Navigated(LOGIN_ROUTE, false)])
  {
    var s1 := s.(timers := s.timers[..k] + s.timers[k + 1..]);
    var r := TimerFired(s, k, parse, now, refresh);
    if Present(s1.refreshToken) {
      var p := Refreshed(s1, s1.refreshToken.value, refresh, parse, now);
      assert p.0.effects[..|s.effects| + 1] == s.effects + [RefreshRequested(s1.refreshToken.value)];
      assert r.effects[..|p.0.effects|] == p.0.effects;
      assert p.0.timers[..|s1.timers|] == s1.timers;
      assert r.timers[..|p.0.timers|] == p.0.timers;
    }
  }

  // ---------------------------------------------------------------------
  // Runs of the service

  /** What can happen to the service after start-up, in any order. */
  datatype SessionEvent =
    | LoginAnswered(login: Result<AuthResponseDTO, HttpError>, at: int)
    | RefreshRequestIssued(token: string)
    | RefreshAnswered(refresh: Result<AuthResponseDTO, HttpError>, at: int)
    | LogoutCalled
    | TimerElapsed(index: nat, timerRefresh: Result<AuthResponseDTO, HttpError>, at: int)

  predicate Enabled(s: Store, e: SessionEvent)
  {
    e.TimerElapsed? ==> e.index < |s.timers|
  }

  function Apply(s: Store, parse: Jwt.ClaimsParser, e: SessionEvent): Store
    requires Enabled(s, e)
  {
    match e
    case LoginAnswered(login, at) => LoginCompleted(s, login, parse, at).0
    case RefreshRequestIssued(token) => WithRefreshRequest(s, token)
    case RefreshAnswered(refresh, at) => RefreshCompleted(s, refresh, parse, at).0
    case LogoutCalled => LoggedOut(s).0
    case TimerElapsed(k, refresh, at) => TimerFired(s, k, parse, at, refresh)
  }

  predicate Runnable(s: Store, parse: Jwt.ClaimsParser, es: seq<SessionEvent>)
    decreases |es|
  {
    es == [] || (Enabled(s, es[0]) && Runnable(Apply(s, parse, es[0]), parse, es[1..]))
  }

  function Run(s: Store, parse: Jwt.ClaimsParser, es: seq<SessionEvent>): Store
    requires Runnable(s, parse, es)
    decreases |es|
  {
    if es == [] then s else Run(Apply(s, parse, es[0]), parse, es[1..])
  }

  /** One event keeps the invariant and never splits the three keys. */
  lemma ApplyPreserves(s: Store, parse: Jwt.ClaimsParser, e: SessionEvent)
    requires s.Valid() && Enabled(s, e)
    ensures Apply(s, parse, e).Valid()
    ensures s.KeysTogether() ==> Apply(s, parse, e).KeysTogether()
  {
    match e
    case LoginAnswered(login, at) =>
      if login.Success? { SuccessfulAuthStoresSession(s, login.value, parse, at); }
    case RefreshRequestIssued(token) =>
    case RefreshAnswered(refresh, at) =>
      if refresh.Success? { SuccessfulAuthStoresSession(s, refresh.value, parse, at); }
    case LogoutCalled =>
    case TimerElapsed(k, refresh, at) =>
      var s1 := s.(timers := s.timers[..k] + s.timers[k + 1..]);
      assert s1.Valid();
      if Present(s1.refreshToken) && refresh.Success? {
        SuccessfulAuthStoresSession(WithRefreshRequest(s1, s1.refreshToken.value), refresh.value, parse, at);
      }
  }

  /** Along every run the published role mirrors storage, the flag is up
      only with a stored token, all pending delays are positive, and a run
      that starts without a partial session never creates one. */
  lemma {:induction false} RunPreserves(s: Store, parse: Jwt.ClaimsParser, es: seq<SessionEvent>)
    requires s.Valid() && Runnable(s, parse, es)
    ensures Run(s, parse, es).Valid()
    ensures s.KeysTogether() ==> Run(s, parse, es).KeysTogether()
    decreases |es|
  {
    if es != [] {
      ApplyPreserves(s, parse, es[0]);
      RunPreserves(Apply(s, parse, es[0]), parse, es[1..]);
    }
  }

  /** Start-up from whatever storage holds yields a valid store. */
  lemma StartupValid(storedAccess: Option<string>, storedRefresh: Option<string>, storedRole: Option<string>,
                     parse: Jwt.ClaimsParser, now: int, refresh: Result<AuthResponseDTO, HttpError>)
    ensures StartupChecked(Initial(storedAccess, storedRefresh, storedRole, parse, now), parse, now, refresh).Valid()
  {
    var s := Initial(storedAccess, storedRefresh, storedRole, parse, now);
    match StartupCheck(s.accessToken, s.refreshToken, parse, now)
    case ExpiredWithRefresh(token) =>
      if refresh.Success? {
        SuccessfulAuthStoresSession(WithRefreshRequest(s, token), refresh.value, parse, now);
      }
    case _ =>
  }

  // ---------------------------------------------------------------------
  // The service object

  class AuthService {
    /** The foreign half of `decodeJwtToken`. */
    const parseClaims: Jwt.ClaimsParser

    var accessToken: Option<string>    // storage key 'accessToken'
    var refreshToken: Option<string>   // storage key 'refreshToken'
    var userRole: Option<string>       // storage key 'userRole'
    var authenticated: bool            // value of `isAuthenticatedSubject`
    var publishedRole: Option<string>  // value of `userRoleSubject`
    var timers: seq<int>               // delays of the `setTimeout`s registered, never cancelled
    var effects: seq<Effect>           // navigations and refresh requests, in order

    function Snapshot(): Store
      reads this
    {
      Store(accessToken, refreshToken, userRole, authenticated, publishedRole, timers, effects)
    }

    ghost predicate Valid()
      reads this
    {
      Snapshot().Valid()
    }

    /** Field initialisers read storage and the clock; the constructor body
        runs `checkTokenValidity`. */
    constructor (parse: Jwt.ClaimsParser, storedAccess: Option<string>, storedRefresh: Option<string>,
                 storedRole: Option<string>, now: int, startupRefresh: Result<AuthResponseDTO, HttpError>)
      ensures parseClaims == parse
      ensures Snapshot() == StartupChecked(Initial(storedAccess, storedRefresh, storedRole, parse, now),
                                           parse, now, startupRefresh)
      ensures Valid()
    {
      parseClaims := parse;
      accessToken, refreshToken, userRole := storedAccess, storedRefresh, storedRole;
      authenticated := HasValidToken(storedAccess, parse, now);
      publishedRole := storedRole;
      timers, effects := [], [];
      new;
      CheckTokenValidity(now, startupRefresh);
      StartupValid(storedAccess, storedRefresh, storedRole, parse, now, startupRefresh);
    }

    /** `isLoggedIn`: the value last published on the authenticated flag. */
    function IsLoggedIn(): bool
      reads this
    {
      authenticated
    }

    method StoreTokens(access: string, refresh: string)
      modifies this
      ensures accessToken == Some(access) && refreshToken == Some(refresh)
      ensures Snapshot() == old(Snapshot()).(accessToken := Some(access), refreshToken := Some(refresh))
    {
      accessToken := Some(access);
      refreshToken := Some(refresh);
    }

    method StoreUserRole(role: string)
      modifies this
      ensures userRole == Some(role)
      ensures Snapshot() == old(Snapshot()).(userRole := Some(role))
    {
      userRole := Some(role);
    }

    method ClearAuthData()
      modifies this
      ensures accessToken.None? && refreshToken.None? && userRole.None?
      ensures !authenticated && publishedRole.None?
      ensures timers == old(timers) && effects == old(effects)
      ensures Snapshot() == Cleared(old(Snapshot()))
    {
      accessToken, refreshToken, userRole := None, None, None;
      authenticated := false;
      publishedRole := None;
    }

    /** `router.navigate([path])`, recorded. */
    method Navigate(path: string)
      modifies this
      ensures effects == old(effects) + [Navigated(path, old(authenticated))]
      ensures Snapshot() == WithNavigation(old(Snapshot()), path)
    {
      effects := effects + [Navigated(path, authenticated)];
    }

    method ScheduleTokenRefresh(expirationMs: int, now: int)
      modifies this
      ensures timers == old(timers) + RefreshTimers(expirationMs, now)
      ensures Snapshot() == WithTimer(old(Snapshot()), expirationMs, now)
    {
      var refreshTime := expirationMs - now - REFRESH_LEAD_MS;
      if refreshTime > 0 {
        timers := timers + [refreshTime];
      }
    }

    method HandleSuccessfulAuth(response: AuthResponseDTO, now: int)
      modifies this
      ensures accessToken == Some(response.accessToken) && refreshToken == Some(response.refreshToken)
      ensures userRole == Some(response.ruolo) && publishedRole == Some(response.ruolo) && authenticated
      ensures Snapshot() == WithAuth(old(Snapshot()), response, parseClaims, now)
    {
      StoreTokens(response.accessToken, response.refreshToken);
      StoreUserRole(response.ruolo);
      authenticated := true;
      publishedRole := Some(response.ruolo);
      var exp := ExpirationMs(parseClaims, response.accessToken);
      if exp.Some? {
        ScheduleTokenRefresh(exp.value, now);
      }
    }

    /** `login(credentials)` once the backend has answered with `outcome`. */
    method Login(outcome: Result<AuthResponseDTO, HttpError>, now: int) returns (r: Result<AuthResponseDTO, HttpError>)
      requires Valid()
      modifies this
      ensures Valid()
      ensures (Snapshot(), r) == LoginCompleted(old(Snapshot()), outcome, parseClaims, now)
      ensures outcome.Failure? ==> r == outcome && Snapshot() == old(Snapshot())
    {
      ghost var before := Snapshot();
      if outcome.Success? {
        HandleSuccessfulAuth(outcome.value, now);
      }
      r := outcome;
      ApplyPreserves(before, parseClaims, LoginAnswered(outcome, now));
    }

    /** Subscribing to `refreshToken(token)`: the request goes out. */
    method RequestRefresh(token: string)
      requires Valid()
      modifies this
      ensures Valid()
      ensures effects == old(effects) + [RefreshRequested(token)]
      ensures Snapshot() == WithRefreshRequest(old(Snapshot()), token)
    {
      effects := effects + [RefreshRequested(token)];
    }

    /** The refresh response arrives (the `tap` or the `catchError` of `refreshToken`). */
    method CompleteRefresh(outcome: Result<AuthResponseDTO, HttpError>, now: int)
      returns (r: Result<AuthResponseDTO, HttpError>)
      requires Valid()
      modifies this
      ensures Valid()
      ensures (Snapshot(), r) == RefreshCompleted(old(Snapshot()), outcome, parseClaims, now)
      ensures r == outcome
    {
      ghost var before := Snapshot();
      if outcome.Success? {
        HandleSuccessfulAuth(outcome.value, now);
      } else {
        ClearAuthData();
        Navigate(LOGIN_ROUTE);
      }
      r := outcome;
      ApplyPreserves(before, parseClaims, RefreshAnswered(outcome, now));
    }

    /** `refreshToken(token)` from request to response. */
    method Refresh(token: string, outcome: Result<AuthResponseDTO, HttpError>, now: int)
      returns (r: Result<AuthResponseDTO, HttpError>)
      requires Valid()
      modifies this
      ensures Valid()
      ensures (Snapshot(), r) == Refreshed(old(Snapshot()), token, outcome, parseClaims, now)
    {
      RequestRefresh(token);
      r := CompleteRefresh(outcome, now);
    }

    /** `logout()`; `backend` is the body of the logout request the returned
        observable sends when subscribed. */
    method Logout() returns (backend: Option<string>)
      requires Valid()
      modifies this
      ensures Valid()
      ensures backend == (if Present(old(refreshToken)) then Some(old(refreshToken).value) else None)
      ensures (Snapshot(), backend) == LoggedOut(old(Snapshot()))
    {
      ghost var before := Snapshot();
      var token := refreshToken;
      ClearAuthData();
      Navigate(LOGIN_ROUTE);
      if Present(token) {
        backend := Some(token.value);
      } else {
        backend := None;
      }
      ApplyPreserves(before, parseClaims, LogoutCalled);
    }

    method CheckTokenValidity(now: int, refresh: Result<AuthResponseDTO, HttpError>)
      requires Valid()
      modifies this
      ensures Valid()
      ensures Snapshot() == StartupChecked(old(Snapshot()), parseClaims, now, refresh)
    {
      var token := accessToken;
      var storedRefresh := refreshToken;
      if Present(token) {
        var exp := ExpirationMs(parseClaims, token.value);
        if exp.Some? {
          var expirationTime := exp.value;
          if now >= expirationTime && Present(storedRefresh) {
            var r := Refresh(storedRefresh.value, refresh, now);
            if r.Failure? {
              var _ := Logout();
            }
          } else if now < expirationTime {
            ScheduleTokenRefresh(expirationTime, now);
          } else if now >= expirationTime && !Present(storedRefresh) {
            ClearAuthData();
          }
        }
      } else {
        ClearAuthData();
      }
    }

    /** Timer `k` goes off. */
    method FireTimer(k: nat, now: int, refresh: Result<AuthResponseDTO, HttpError>)
      requires Valid() && k < |timers|
      modifies this
      ensures Valid()
      ensures Snapshot() == TimerFired(old(Snapshot()), k, parseClaims, now, refresh)
    {
      ghost var before := timers;
      timers := timers[..k] + timers[k + 1..];
      assert forall i :: 0 <= i < |timers| ==> timers[i] in before;
      var token := refreshToken;
      if Present(token) {
        var r := Refresh(token.value, refresh, now);
        if r.Failure? {
          var _ := Logout();
        }
      } else {
        var _ := Logout();
      }
    }
  }
}
