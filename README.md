# Authentication core of the user-management front end

This project models the client-side authentication core of an Angular front
end for a user-management backend, and proves properties of the model. It
covers four parts of that core.

- **The session store** (`AuthService`, module `Auth`). It keeps three
  persisted keys: the access token, the refresh token and the role. It
  publishes an authenticated flag and the role, and it schedules a
  proactive refresh five minutes before the access token expires. At
  start-up it reconciles whatever storage holds. The state is a datatype
  `Store` with one pure function per operation, and the lemmas are stated
  over it. The class `AuthService` has the same fields; every method
  updates them in place and promises that its new state is the matching
  function of the old one.
- **The request gateway** (`AuthInterceptor`, module `Interceptor`). It
  attaches `Authorization: Bearer <token>` to every request except those
  to the four authentication endpoints. On a 401 it runs one refresh on
  behalf of all failing requests and replays each of them with the new
  token. The recovery is a state machine `Step` over the events that reach
  the interceptor, with runs and a single-flight theorem. The class
  `AuthInterceptor` follows `Step` field by field.
- **The role guard** (`roleGuard`, module `RoleGuards`). It lets a route be
  entered only when the stored role is one of the roles the route lists.
  Everyone else is redirected to `/home?accessDenied=true`.
- **The registration form** (`RegisterComponent`, module `Register`). This
  part covers:
  - the cross-field password check;
  - the codice fiscale pattern and the password-strength pattern, read as
    JavaScript regular expressions;
  - the validity of the whole form;
  - the three outcomes of `onSubmit`: an invalid form, a failed
    registration, and a successful one followed by an automatic login.

Supporting modules:
- `Models` holds the shared DTOs and the JavaScript truthiness of a
  `string | null` (`Present`).
- `Jwt` holds the string half of `decodeJwtToken`. It takes the payload
  segment with `split('.')` and maps the base64url alphabet onto the
  standard one (section 5 of RFC 4648).

Effects are recorded as data, not performed:
- time is the parameter `now`, in milliseconds;
- pending `setTimeout`s are the list of their delays;
- navigations and refresh calls are a list of `Effect`s;
- requests handed to the next HTTP handler are the sequence `sent`;
- an HTTP answer is an outcome passed to the method that handles it.

## Model

| member | source | states |
|---|---|---|
| Models.RoleName | src/app/shared/models/models.ts:1 | Each of the two roles has a non-empty wire name. |
| Models.Present | src/app/core/auth/auth.service.ts:170-177 | No ensures of its own: JavaScript truthiness of a stored string (`if (!token)`), true exactly for a non-empty string. Its role is stated by the contracts that use it: `Auth.HasValidToken`, `Auth.StartupCheck`, `Auth.LogoutOrder` and `Interceptor.BearerIffStoredAndNotExcluded`. |
| Jwt.Split | src/app/core/auth/auth.service.ts:205 | `split('.')` gives at least one piece, gives exactly one when the separator is absent, and no piece contains the separator. |
| Jwt.JoinSplit | src/app/core/auth/auth.service.ts:205 | Joining the pieces of a split with the separator gives back the original string. |
| Jwt.SplitCons | src/app/core/auth/auth.service.ts:205 | A leading non-separator character is prepended to the first piece and leaves the other pieces alone. |
| Jwt.SplitFreePrefix | src/app/core/auth/auth.service.ts:205 | A separator-free prefix joins the first piece of the split of the rest. |
| Jwt.SplitJoin | src/app/core/auth/auth.service.ts:205 | Splitting a join of separator-free pieces gives back exactly those pieces (the other round trip). |
| Jwt.PayloadSegment | src/app/core/auth/auth.service.ts:205 | A payload segment exists exactly when the token contains a dot, and it contains no dot itself. |
| Jwt.ReplaceAll | src/app/core/auth/auth.service.ts:206 | A global one-character replace keeps the length and changes exactly the occurrences of the replaced character. |
| Jwt.Base64UrlToBase64 | src/app/core/auth/auth.service.ts:206 | Position by position, `-` becomes `+` and `_` becomes `/`; no URL-safe character is left over. |
| Jwt.Base64ToBase64Url | src/app/core/auth/auth.service.ts:206 | The inverse substitution: `+` becomes `-` and `/` becomes `_`, position by position. |
| Jwt.UrlAlphabetRoundTrip | src/app/core/auth/auth.service.ts:206 | A string free of `+` and `/` survives standard-then-URL-safe conversion unchanged. |
| Jwt.StandardAlphabetRoundTrip | src/app/core/auth/auth.service.ts:206 | A string free of `-` and `_` survives URL-safe-then-standard conversion unchanged. |
| Jwt.DecodeThreePartToken | src/app/core/auth/auth.service.ts:201-220 | For a header, payload and signature without dots, joined with dots, the payload segment is the middle piece and the expiry is the parser's reading of its standard-alphabet form. |
| Jwt.DecodeExp | src/app/core/auth/auth.service.ts:201-220 | A token without a dot decodes to no expiry. Otherwise the expiry is what the claims parser makes of the converted second segment. |
| Auth.ExpirationMs | src/app/core/auth/auth.service.ts:136-139 | A millisecond expiry exists exactly when the decoded `exp` is present and non-zero (a 0 claim is falsy). It is then the decoded `exp` times 1000 (so non-zero), and the token has a dot. |
| Auth.HasValidToken | src/app/core/auth/auth.service.ts:170-177 | False without a truthy token or without an expiry; otherwise true exactly when `now` is before the expiry. A valid token contains a dot. |
| Auth.Includes | src/app/core/auth/auth.service.ts:272-276 | `includes` is true exactly when some listed role has the given name. |
| Auth.HasRole | src/app/core/auth/auth.service.ts:272-276 | False without a stored role; otherwise true exactly when the stored role is one of the required roles. |
| Auth.IsUserAdmin | src/app/core/auth/auth.service.ts:237-240 | Comparing the stored role with `'ADMIN'` is the same as `hasRole(['ADMIN'])`. |
| Auth.RefreshTimers | src/app/core/auth/auth.service.ts:179-186 | At most one timer is set, and exactly when the expiry is more than five minutes away. That timer fires exactly five minutes before the expiry, with a positive delay. |
| Auth.StartupCheck | src/app/core/auth/auth.service.ts:129-168 | The five start-up branches are characterised one by one: no token; valid (same as `hasValidToken`, positive remaining time); expired with a refresh token (carrying it); expired without one; no expiry. |
| Auth.Initial | src/app/core/auth/auth.service.ts:25-36 | The store after the field initialisers holds the three stored keys as found, publishes the stored role, and has `hasValidToken` as its flag. It is valid, with no timers and no effects. |
| Auth.WithNavigation | src/app/core/auth/auth.service.ts:64-82 | No ensures of its own: `router.navigate([path])` on the store value, recorded with the flag as it stands. Its effect is stated by `LogoutOrder` and `RefreshFailureEndsSession` (the navigation comes after the clear and sees the flag down), and by the `Navigate` method's contract. |
| Auth.WithTimer | src/app/core/auth/auth.service.ts:179-199 | No ensures of its own: `scheduleTokenRefresh` on the store value. Its effect is stated by `RefreshTimers`, `SuccessfulAuthStoresSession` and `StartupBranches`, and by the `ScheduleTokenRefresh` method's contract. |
| Auth.WithRefreshRequest | src/app/core/auth/auth.service.ts:109-113 | No ensures of its own: the refresh request going out. Its effect is stated by `RefreshFailureEndsSession`, `StartupBranches` and `TimerCallback` (the request carries the stored refresh token), and by the `RequestRefresh` method's contract. |
| Auth.Cleared | src/app/core/auth/auth.service.ts:258-265 | No ensures of its own: `clearAuthData` on the store value. Its effect is stated by `RefreshFailureEndsSession`, `LogoutOrder` and `StartupBranches`, and by the `ClearAuthData` method's contract. |
| Auth.WithAuth | src/app/core/auth/auth.service.ts:95-107 | No ensures of its own: `handleSuccessfulAuth` on the store value. Its properties are stated by `SuccessfulAuthStoresSession` and `TimerOnlyForValidToken`. |
| Auth.LoginCompleted | src/app/core/auth/auth.service.ts:38-51 | No ensures of its own: `login` once answered. Its properties are stated by `LoginFailureChangesNothing`, `SuccessfulAuthStoresSession` and `ApplyPreserves`. |
| Auth.RefreshCompleted | src/app/core/auth/auth.service.ts:113-122 | No ensures of its own: the `tap` and `catchError` of `refreshToken`. Its properties are stated by `RefreshFailureEndsSession` and `ApplyPreserves`. |
| Auth.Refreshed | src/app/core/auth/auth.service.ts:109-123 | No ensures of its own: `refreshToken` from request to answer. Its properties are stated by `RefreshFailureEndsSession`. |
| Auth.LoggedOut | src/app/core/auth/auth.service.ts:64-82 | No ensures of its own: `logout` on the store value. Its properties are stated by `LogoutOrder`. |
| Auth.StartupChecked | src/app/core/auth/auth.service.ts:129-168 | No ensures of its own: `checkTokenValidity` on the store value. Its properties are stated by `StartupBranches` and `StartupValid`. |
| Auth.TimerFired | src/app/core/auth/auth.service.ts:187-197 | No ensures of its own: the timer callback on the store value. Its properties are stated by `TimerCallback` and `ApplyPreserves`. |
| Auth.AuthService.IsLoggedIn | src/app/core/auth/auth.service.ts:242-245 | No ensures of its own: the last value published on the authenticated flag. Its relation to storage is the invariant `Store.Valid` (the flag implies a stored access token), kept by `RunPreserves`. |
| Auth.SuccessfulAuthStoresSession | src/app/core/auth/auth.service.ts:95-107 | After a successful authentication the store holds all three keys of the response, the flag is up and the role is published. The store stays valid and no effect is issued. Old timers are kept, and one timer is added exactly when the expiry is more than five minutes away. The new timer fires exactly five minutes before the expiry. |
| Auth.TimerOnlyForValidToken | src/app/core/auth/auth.service.ts:101-106 | A refresh is scheduled only for a token valid at that moment; a token without a dot schedules nothing. |
| Auth.RefreshFailureEndsSession | src/app/core/auth/auth.service.ts:109-123 | A failed refresh issues the request with the given token, then clears all keys and publishes `false`/`null`. It then navigates to `/login` with the flag down and rethrows the error. Timers are left pending. |
| Auth.LoginFailureChangesNothing | src/app/core/auth/auth.service.ts:38-51 | A failed login leaves the store exactly as it was and rethrows the error. |
| Auth.LogoutOrder | src/app/core/auth/auth.service.ts:64-82 | The backend request carries the refresh token read before the clear, and is prepared exactly when one is stored. Logout clears, then navigates to `/login`, which sees the flag down. A second logout prepares no backend request and only navigates again. |
| Auth.StartupBranches | src/app/core/auth/auth.service.ts:129-168 | Start-up leaves one of five results. No token clears. A valid token schedules the refresh and issues nothing. No expiry leaves the store unchanged. Expired with a refresh token requests a refresh with it, and the session survives only if it succeeds. Expired without one clears. |
| Auth.TimerCallback | src/app/core/auth/auth.service.ts:187-198 | The fired timer is removed. With a refresh token the callback refreshes with that token, and on failure it ends the session with two navigations to `/login`. Without a refresh token it logs out at once. |
| Auth.ApplyPreserves | src/app/core/auth/auth.service.ts:95-107 | Every operation keeps the invariant: the published role mirrors storage, the flag implies a stored token, delays are positive. No operation creates a partial session. |
| Auth.RunPreserves | src/app/core/auth/auth.service.ts:38-198 | The same invariant and the absence of partial sessions hold along every run of logins, refreshes, logouts and timer callbacks. |
| Auth.StartupValid | src/app/core/auth/auth.service.ts:25-36 | Start-up from any storage contents yields a valid store. |
| Auth.AuthService.constructor | src/app/core/auth/auth.service.ts:25-36 | The new service's state is the start-up check applied to the initial store; it is valid. |
| Auth.AuthService.StoreTokens | src/app/core/auth/auth.service.ts:247-251 | Both tokens are stored and nothing else changes. |
| Auth.AuthService.StoreUserRole | src/app/core/auth/auth.service.ts:253-256 | The role is stored and nothing else changes. |
| Auth.AuthService.ClearAuthData | src/app/core/auth/auth.service.ts:258-265 | All three keys are removed and `false`/`null` are published; timers and effects are kept. |
| Auth.AuthService.Navigate | src/app/core/auth/auth.service.ts:68 | One navigation is recorded together with the flag published at that moment. |
| Auth.AuthService.ScheduleTokenRefresh | src/app/core/auth/auth.service.ts:179-199 | The pending timers grow by exactly `RefreshTimers`. |
| Auth.AuthService.HandleSuccessfulAuth | src/app/core/auth/auth.service.ts:95-107 | The tokens and the role are stored and published, and the state is as `SuccessfulAuthStoresSession` describes. |
| Auth.AuthService.Login | src/app/core/auth/auth.service.ts:38-51 | The outcome is handled as on success, or left untouched and returned on failure. The service invariant `Valid()` is kept. |
| Auth.AuthService.RequestRefresh | src/app/core/auth/auth.service.ts:109-113 | Exactly one refresh call with the given token is recorded. The service invariant `Valid()` is kept. |
| Auth.AuthService.CompleteRefresh | src/app/core/auth/auth.service.ts:113-122 | A success is stored; a failure clears and navigates to `/login`; the outcome is returned. The service invariant `Valid()` is kept. |
| Auth.AuthService.Refresh | src/app/core/auth/auth.service.ts:109-123 | The request, then the completion, in that order. The service invariant `Valid()` is kept. |
| Auth.AuthService.Logout | src/app/core/auth/auth.service.ts:64-82 | The backend body is the stored refresh token when it is truthy. The state is then cleared and navigated. The service invariant `Valid()` is kept. |
| Auth.AuthService.CheckTokenValidity | src/app/core/auth/auth.service.ts:129-168 | The state follows the start-up branches of `StartupBranches`. The service invariant `Valid()` is kept. |
| Auth.AuthService.FireTimer | src/app/core/auth/auth.service.ts:187-198 | The state follows the timer callback of `TimerCallback`. The service invariant `Valid()` is kept. |
| Interceptor.SubstringOfTail | src/app/core/interceptors/auth.interceptor.ts:66-69 | A substring of the tail is a substring of the whole. When the whole does not start with it, every occurrence lies in the tail. |
| Interceptor.Includes | src/app/core/interceptors/auth.interceptor.ts:68 | `url.includes(sub)` is true exactly when `sub` occurs somewhere in `url`. |
| Interceptor.SomeIncluded | src/app/core/interceptors/auth.interceptor.ts:68 | `some(...)` is true exactly when some listed path occurs in the URL. |
| Interceptor.IsExcludedUrl | src/app/core/interceptors/auth.interceptor.ts:66-69 | A URL is excluded exactly when one of the four authentication endpoints occurs in it. |
| Interceptor.SubstringTransitive | src/app/core/interceptors/auth.interceptor.ts:66-69 | A substring of a substring is a substring. |
| Interceptor.PrefixIsSubstring | src/app/core/interceptors/auth.interceptor.ts:66-69 | A prefix is a substring. |
| Interceptor.EndpointsExcluded | src/app/core/interceptors/auth.interceptor.ts:15-21 | Each of the four authentication endpoints is excluded. |
| Interceptor.ExcludedUnderAuthBase | src/app/core/interceptors/auth.interceptor.ts:15-21 | Only a URL that contains `/api/v1/auth/` can be excluded. |
| Interceptor.CurrentUserNotExcluded | src/app/core/interceptors/auth.interceptor.ts:15-21 | `/api/v1/auth/me` is not excluded, so it receives the token. |
| Interceptor.AddToken | src/app/core/interceptors/auth.interceptor.ts:56-64 | The copy carries `Authorization: Bearer <token>`. |
| Interceptor.AddTokenKeepsRequest | src/app/core/interceptors/auth.interceptor.ts:56-64 | The copy keeps the URL, the body and every other header, and adds no header except `Authorization`. |
| Interceptor.Bearer | src/app/core/interceptors/auth.interceptor.ts:56-64 | No ensures of its own: the request carries `Authorization: Bearer <token>`. It is what `AddToken` ensures, and what `BearerIffStoredAndNotExcluded` and `StepGuarantees` state of the requests that leave. |
| Interceptor.Prepare | src/app/core/interceptors/auth.interceptor.ts:37-42 | No ensures of its own: the request handed to the next handler. Its properties are stated by `BearerIffStoredAndNotExcluded`. |
| Interceptor.StartsRecovery | src/app/core/interceptors/auth.interceptor.ts:47 | No ensures of its own: the recovery test of `catchError`. Its properties are stated by `NoRecoveryOnAuthEndpoints` and by the `OnErrorResponse` contract. |
| Interceptor.BearerIffStoredAndNotExcluded | src/app/core/interceptors/auth.interceptor.ts:35-44 | The outgoing request gets the bearer header exactly when a truthy token is stored and the URL is not excluded. It is otherwise unchanged. |
| Interceptor.NoRecoveryOnAuthEndpoints | src/app/core/interceptors/auth.interceptor.ts:45-52 | An error on an authentication endpoint never enters the refresh path. |
| Interceptor.Replays | src/app/core/interceptors/auth.interceptor.ts:100-110 | Each subscribed waiter is resent exactly once with the published token, in subscription order. |
| Interceptor.Step | src/app/core/interceptors/auth.interceptor.ts:71-111 | A refresh cycle runs exactly while it has a starting request; every step keeps this. |
| Interceptor.StepGuarantees | src/app/core/interceptors/auth.interceptor.ts:71-111 | A refresh call is issued only by a 401 that finds no cycle running, and that 401 resets the slot to null. A 401 during an outstanding refresh only waits. The flag goes down exactly on failure, abandonment or the end of the starting request's replay. Every resend carries the published token. A failed refresh resends nothing. |
| Interceptor.Run | src/app/core/interceptors/auth.interceptor.ts:71-111 | Every run keeps the cycle invariant. |
| Interceptor.SingleFlight | src/app/core/interceptors/auth.interceptor.ts:73-99 | Along any run, the interceptor's refresh calls issued minus calls answered or cancelled equals the change in outstanding calls (0 or 1). So at most one refresh started by the interceptor is in flight. Refreshes the service starts itself are not counted. |
| Interceptor.RunCons | src/app/core/interceptors/auth.interceptor.ts:71-111 | A run of one event followed by a trace is the step followed by the run of the trace. |
| Interceptor.BurstWhileOutstanding | src/app/core/interceptors/auth.interceptor.ts:100-110 | 401s arriving while the refresh is outstanding only queue up, in order, without issuing or resending anything. |
| Interceptor.ConcurrentUnauthorized | src/app/core/interceptors/auth.interceptor.ts:71-111 | N concurrent 401s cause exactly one refresh call, with the stored refresh token. On success each is resent once with the new token: waiters first in arrival order, then the starting request. |
| Interceptor.WaiterReplayedEachCycle | src/app/core/interceptors/auth.interceptor.ts:100-110 | A request that waited in one cycle stays subscribed and is resent again in the next successful cycle, with that cycle's token. |
| Interceptor.CycleOne | src/app/core/interceptors/auth.interceptor.ts:71-111 | The first cycle of that scenario: one refresh call; the waiter, then the starting request, are resent; the waiter stays subscribed. |
| Interceptor.CycleOneReplay | src/app/core/interceptors/auth.interceptor.ts:83-97 | Success of that cycle, then the end of its starting request's replay. |
| Interceptor.CycleTwo | src/app/core/interceptors/auth.interceptor.ts:71-110 | The second cycle: a new refresh call, and the old waiter is resent before the new starting request. |
| Interceptor.LateUnauthorizedReplaysAtOnce | src/app/core/interceptors/auth.interceptor.ts:100-110 | A 401 that arrives after success but before the starting request's replay ends is resent at once with the published token, without a new refresh. |
| Interceptor.AuthInterceptor.constructor | src/app/core/interceptors/auth.interceptor.ts:27-33 | The gateway starts idle, with nothing sent. It needs a service that keeps its invariant, and its own invariant then includes the service's. |
| Interceptor.AuthInterceptor.Intercept | src/app/core/interceptors/auth.interceptor.ts:35-44 | The outgoing request is `Prepare` of the stored token, it is recorded as sent, and the gateway state is unchanged. The service invariant and the cycle invariant are kept. |
| Interceptor.AuthInterceptor.OnErrorResponse | src/app/core/interceptors/auth.interceptor.ts:45-52 | Outside the recovery test the error is rethrown with its own status and nothing changes. Otherwise the gateway takes the 401 step, and the service records a refresh call exactly when the step issues one. |
| Interceptor.AuthInterceptor.Handle401Error | src/app/core/interceptors/auth.interceptor.ts:71-111 | The state, the requests sent and the refresh call follow the 401 step. |
| Interceptor.AuthInterceptor.OnRefreshSucceeded | src/app/core/interceptors/auth.interceptor.ts:83-88 | The service stores the response. The slot publishes it, the waiters are resent, then the starting request. |
| Interceptor.AuthInterceptor.OnRefreshFailed | src/app/core/interceptors/auth.interceptor.ts:89-97 | The service ends the session, the refresh error is rethrown, `finalize` lowers the flag, and nothing is resent. |
| Interceptor.AuthInterceptor.OnRefreshAbandoned | src/app/core/interceptors/auth.interceptor.ts:94-97 | Unsubscribing while the refresh is outstanding lowers the flag and resends nothing. |
| Interceptor.AuthInterceptor.OnReplayFinished | src/app/core/interceptors/auth.interceptor.ts:94-97 | `finalize` after the starting request's replay lowers the flag. |
| Interceptor.AuthInterceptor.OnWaiterDropped | src/app/core/interceptors/auth.interceptor.ts:100-110 | An unsubscribed waiter leaves the subscriber list. |
| RoleGuards.RoleGuard | src/app/core/guards/role.guard.ts:7-34 | A route without roles, or with an empty list, admits everyone. Otherwise a user enters exactly when the stored role is one of the listed ones. Everyone else is redirected to `/home` with `accessDenied`. |
| RoleGuards.DecidedByHasRole | src/app/core/guards/role.guard.ts:18-24 | The guard sees the stored role only through `hasRole`. |
| RoleGuards.AdminOnlyRoute | src/app/core/guards/role.guard.ts:7-34 | An admin-only route admits exactly the stored role `ADMIN`, which is what `isUserAdmin` reports. |
| RoleGuards.BothRolesRoute | src/app/core/guards/role.guard.ts:7-34 | A route for both roles admits exactly `ADMIN` and `UTENTE`, and turns away a visitor with no stored role or an unknown role string. |
| Register.Control.constructor | src/app/core/auth/register/register.component.ts:63-86 | A control holds the given value and error keys. |
| Register.ConfirmedPasswordValidator | src/app/core/auth/register/register.component.ts:17-39 | A missing control or a null value gives no verdict and touches nothing. Different values fail the group, and the confirmation holds exactly `mismatch`. Equal values pass, and clear the confirmation's errors only when `mismatch` was among them. |
| Register.MatchesPieces | src/app/core/auth/register/register.component.ts:69 | No ensures of its own: an anchored regular expression made of `[class]{n}` pieces. Its meaning is stated by `MatchesPiecesLayout`, and for the codice fiscale pattern by `CodiceFiscaleLayout`. |
| Register.MatchesPiecesLayout | src/app/core/auth/register/register.component.ts:69 | An anchored sequence of `[class]{n}` pieces matches exactly the strings of the total length with the required class at each position. |
| Register.CodiceFiscaleLayout | src/app/core/auth/register/register.component.ts:69 | The codice fiscale pattern accepts exactly the 16-character strings with letters at positions 0-5, 8, 11 and 15 and digits elsewhere, in either case. |
| Register.CodiceFiscaleLength | src/app/core/auth/register/register.component.ts:69 | The pattern spans 16 characters. |
| Register.CodiceFiscaleSlot | src/app/core/auth/register/register.component.ts:69 | The class the pattern demands at each position. |
| Register.Required | src/app/core/auth/register/register.component.ts:63-86 | No ensures of its own: `Validators.required` on a string control, true for a non-empty value. Its consequences are stated by `ValidFormFields` and `PasswordFieldIsStrength`. |
| Register.CodiceFiscaleFieldValid | src/app/core/auth/register/register.component.ts:66-70 | No ensures of its own: the codice fiscale control, `required` and then the pattern. Its meaning is stated by `CodiceFiscaleExample`, `CodiceFiscaleIgnoresCase`, `CodiceFiscaleMonthLetter` and `ValidFormFields`. |
| Register.CodiceFiscaleExample | src/app/core/auth/register/register.component.ts:66-70 | A well-formed upper-case codice fiscale passes the control. |
| Register.CodiceFiscaleIgnoresCase | src/app/core/auth/register/register.component.ts:69 | The `i` flag: the same code in lower case passes too. |
| Register.CodiceFiscaleMonthLetter | src/app/core/auth/register/register.component.ts:69 | A digit in the month-letter position is refused. |
| Register.LookaheadOverAllowed | src/app/core/auth/register/register.component.ts:79 | Over allowed characters only, a `(?=.*[k])` lookahead is plain existence of a character of kind `k`. |
| Register.KindPresent | src/app/core/auth/register/register.component.ts:79 | Existence of a character of each kind, in the form the strength rule states it. |
| Register.PasswordPattern | src/app/core/auth/register/register.component.ts:79 | No ensures of its own: the password expression, written as its lookaheads and its character class. Its meaning is stated by `PasswordPatternIsStrength`. |
| Register.PasswordPatternIsStrength | src/app/core/auth/register/register.component.ts:79 | The password expression accepts exactly strings of eight or more allowed characters with a lowercase letter, an uppercase letter, a digit and one of `@$!%*?&`. |
| Register.PasswordFieldValid | src/app/core/auth/register/register.component.ts:76-80 | No ensures of its own: the password control, `required`, `minLength(8)` and the pattern. Its meaning is stated by `PasswordFieldIsStrength`. |
| Register.PasswordFieldIsStrength | src/app/core/auth/register/register.component.ts:76-80 | `required` and `minLength(8)` add nothing to the pattern: the control accepts exactly the strong passwords. |
| Register.FormValid | src/app/core/auth/register/register.component.ts:63-86 | No ensures of its own: the validity of the whole form, tested on line 114. Its consequences are stated by `ValidFormFields`, and the `Submit` contract ties the request to it. |
| Register.ValidFormFields | src/app/core/auth/register/register.component.ts:63-86 | A valid form has a 16-character codice fiscale of the right layout, a strong password and a matching confirmation. |
| Register.RegistrationErrorMessage | src/app/core/auth/register/register.component.ts:142-156 | The message is never empty. It is the backend's message when that is non-empty; otherwise the 409 text for status 409 and the generic text for any other status. |
| Register.StatusOnlyMattersWithoutMessage | src/app/core/auth/register/register.component.ts:146-153 | With a non-empty backend message the status does not change the message shown. |
| Register.RegisterComponent.constructor | src/app/core/auth/register/register.component.ts:49-61 | The component starts with no spinner, no message and no calls made. |
| Register.RegisterComponent.Submit | src/app/core/auth/register/register.component.ts:113-137 | The registration call is made exactly when the form is valid. An invalid form marks every control touched, shows the form message and calls nothing. A valid form shows the spinner, clears the message and issues exactly one registration request built from the form. |
| Register.RegisterComponent.OnRegistrationError | src/app/core/auth/register/register.component.ts:139-156 | The message is `RegistrationErrorMessage` of the error, and the spinner stops. |
| Register.RegisterComponent.OnRegistrationSucceeded | src/app/core/auth/register/register.component.ts:123-169 | Exactly one automatic login is issued, with the codice fiscale and password of the registration request that was just sent. The spinner stops. |
| Register.RegisterComponent.OnAutoLoginAnswered | src/app/core/auth/register/register.component.ts:169-182 | The component's service handles the login outcome. The component then goes to `/dashboard` on success, or to `/login?registered=true` on failure. The service invariant is kept. |

## Left out

- HTTP transport: which request gets which answer from the backend is not modelled. Answers arrive as outcomes passed to the methods (`Login`, `CompleteRefresh`, `OnRefreshSucceeded`, and so on).
- `register()` and `getCurrentUserDetails()` of the service: they are transport only, with no state of their own. So is the `catchError` in `register()`, which only logs and rethrows.
- Browser storage is reduced to the three storage keys held as fields of each `AuthService` object, so storage shared between instances is not modelled. The registration component has its own service instance (`providers: [AuthService]`, register.component.ts:45; `RegisterComponent.auth`). It shares `localStorage` with the root instance used by the interceptor and the guards, but not that instance's subjects. In the model the two instances keep separate copies of the keys, so a login through `RegisterComponent.auth` is not seen by `AuthInterceptor.auth`. Other pages or tabs sharing the storage are not modelled either.
- The router is a recorded list of navigations. Route configuration and `UrlTree` construction are not modelled.
- RxJS scheduling is reduced to one event at a time. Concurrency is the interleaving of the gateway's events; real asynchrony and thread timing are not modelled.
- `switchMap` cancelling a waiter's in-flight replay when a later token is published: a replay is recorded as sent when it is issued and is never withdrawn.
- `setTimeout` is reduced to a list of delays that fire in any order the caller chooses. Clamping of large delays and the browser's timer resolution are not modelled. Timers are never cancelled, exactly as in the code.
- One clock reading per step. The source calls `Date.now()` separately at auth.service.ts:142, 153 and 158 (and at 176 and 181); the model reads a single `now` per operation. Three things follow:
  - Auth.StartupCheck cannot show the clock passing the expiry between the test on line 142 and the one on line 153. With a refresh token stored, none of the three inner tests then holds and nothing happens; without one, the third test (line 158) holds and the session is cleared. The model reads `now` once and takes one consistent branch instead: it schedules when `now` is before the expiry, and refreshes or clears when it is after. With one reading the third test always holds when it is reached.
  - Auth.StartupChecked and Auth.TimerFired handle the refresh response at the `now` of the start-up check or of the timer. The timer scheduled after a successful refresh is therefore computed from the time the request went out, not the time the answer arrived. The interceptor path, `OnRefreshSucceeded`, takes its own `now`.
  - Auth.HasValidToken and Auth.RefreshTimers read the same `now` as the step that calls them.
- `atob`, `decodeURIComponent` and `JSON.parse` are foreign calls. They stand behind `Jwt.ClaimsParser`, an arbitrary function from the standard-alphabet payload to an optional integer `exp`.
- Auth.ExpirationMs: a fractional `exp` claim is not modelled; the claim is an integer number of seconds.
- `dateOfBirthValidator` compares against the current date and parses `Date`s. Its verdict is the parameter `dateOfBirthOk`, and the ISO date string sent to the backend is the parameter `formattedDate`.
- Angular forms and the template (touched/dirty display logic, `isFieldInvalid`, the password visibility toggles) are not modelled; form state is a `RegisterForm` value.
- Register.Control: error maps are modelled as sets of error keys, and `setErrors(null)` as the empty set.
- `console` logging is left out everywhere.
- Header names: a request's headers are a map from names to values, compared case-sensitively. Angular's `HttpHeaders` compare names case-insensitively, so `setHeaders` would also replace an existing lowercase `authorization` header, which the model keeps beside `Authorization`. None of the modelled files sets a header before the interceptor runs.
- The login component, the other UI components, the plain authentication guard and the user-management service are not part of this model.
- `ngOnDestroy` unsubscribing the pending registration is not modelled.

Behaviours of the code as written, which the model keeps:

- `scheduleTokenRefresh` with a non-positive delay schedules nothing and logs nobody out. Scheduling itself never logs out. The timer callback logs out when it finds no refresh token (auth.service.ts:194-196) or when the refresh it starts fails (line 192).
- A failed refresh clears the session but does not cancel pending timers; a stale timer can fire later and log out again.
- The start-up check leaves a token without a decodable expiry in storage. The flag at construction is `hasValidToken`, so for such a token it is `false`.
- When a refresh the interceptor started fails, only the request that started it sees the error (auth.interceptor.ts:88-92). Its waiters get no error: they stay subscribed to the null slot until some later cycle succeeds.
- After a refresh succeeds, the waiting requests are resent before the request that started the refresh, not in arrival order. Waiting requests stay subscribed and are resent again in every later successful cycle.
- The service's timer callback (auth.service.ts:187-193) and its start-up refresh (line 145) call `refreshToken` without looking at the interceptor's `isRefreshing`. A timer-driven refresh can therefore land while a refresh the interceptor started for a 401 is outstanding. The model allows that interleaving, since `Auth.TimerFired` has no link to the gateway state. It does not allow the reverse: `Auth.TimerFired` and `Auth.StartupChecked` send their refresh and handle its answer in one step, so an interceptor cycle can neither start nor finish while a refresh of the service's own is outstanding. Only the interceptor's refresh can be outstanding around a timer step.
- `logout()` returns an observable that none of the modelled callers subscribes to, so the backend logout request is prepared (`Logout` returns its body) but never sent.
