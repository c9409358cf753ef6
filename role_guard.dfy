/** `roleGuard`: whether a route may be entered, given the roles its data
    asks for and the role held in storage. */
module RoleGuards {
  import opened Models
  import Auth

  const HOME_ROUTE: string := "/home"

  /** The guard returns `true` or a URL tree for `/home?accessDenied=true`. */
  datatype GuardResult = Allow | RedirectTo(path: string, accessDenied: bool)

  /** `route.data['roles']` is `None` when the route declares no roles. */
  function RoleGuard(expectedRoles: Option<seq<Ruolo>>, storedRole: Option<string>): (r: GuardResult)
    // a route without roles, or with an empty list, is open to everyone
    ensures expectedRoles.None? || expectedRoles.value == [] ==> r == Allow
    // otherwise exactly the users whose stored role is one of the listed ones enter
    ensures expectedRoles.Some? && expectedRoles.value != [] ==>
      (r == Allow <==>
        (storedRole.Some? &&
         exists i :: 0 <= i < |expectedRoles.value| && RoleName(expectedRoles.value[i]) == storedRole.value))
    // and everyone else is sent home with the access-denied flag
    ensures r != Allow ==> r == RedirectTo(HOME_ROUTE, true)
  {
    if expectedRoles.None? || |expectedRoles.value| == 0 then Allow
    else if Auth.HasRole(storedRole, expectedRoles.value) then Allow
    else RedirectTo(HOME_ROUTE, true)
  }

  /** The decision sees the stored role only through `hasRole`: two users
      that `hasRole` cannot tell apart get the same answer. */
  lemma DecidedByHasRole(expectedRoles: Option<seq<Ruolo>>, a: Option<string>, b: Option<string>)
    requires expectedRoles.Some? ==> Auth.HasRole(a, expectedRoles.value) == Auth.HasRole(b, expectedRoles.value)
    ensures RoleGuard(expectedRoles, a) == RoleGuard(expectedRoles, b)
  {
  }

  /** An admin-only route admits exactly the stored role "ADMIN", which is
      what `isUserAdmin` reports. */
  lemma AdminOnlyRoute(storedRole: Option<string>)
    ensures RoleGuard(Some([ADMIN]), storedRole) == Allow <==> storedRole == Some("ADMIN")
    ensures RoleGuard(Some([ADMIN]), storedRole) == Allow <==> Auth.IsUserAdmin(storedRole)
  {
    if storedRole == Some("ADMIN") {
      assert RoleName([ADMIN][0]) == storedRole.value;
    }
  }

  /** A route open to both roles still turns away a visitor with no stored
      role, or with a role string the backend does not know. */
  lemma BothRolesRoute(storedRole: Option<string>)
    ensures RoleGuard(Some([ADMIN, UTENTE]), storedRole) == Allow <==>
      storedRole == Some("ADMIN") || storedRole == Some("UTENTE")
  {
    var roles := [ADMIN, UTENTE];
    if storedRole == Some("ADMIN") {
      assert RoleName(roles[0]) == storedRole.value;
    } else if storedRole == Some("UTENTE") {
      assert RoleName(roles[1]) == storedRole.value;
    }
  }
}
