/** The two route guards: what a guarded route renders, given the state of
    the authentication context. */
module RouteGuards {
  import opened Wrappers
  import opened AuthContext

  datatype View = Spinner | RedirectTo(path: string) | Children

  const LoginPath: string := "/login"
  const DashboardPath: string := "/dashboard"

  /** `requiredRoles.some((role) => hasRole(role))` */
  function HoldsSomeRole(userRoles: seq<string>, requiredRoles: seq<string>): (r: bool)
    ensures r <==> exists i :: 0 <= i < |requiredRoles| && HasRole(userRoles, requiredRoles[i])
    decreases |requiredRoles|
  {
    if requiredRoles == [] then false
    else HasRole(userRoles, requiredRoles[0]) || HoldsSomeRole(userRoles, requiredRoles[1..])
  }

  /** `ProtectedRoute`, with `requiredRoles` defaulting to the empty list. */
  function ProtectedView(loading: bool, currentUser: Option<User>, userRoles: seq<string>, requiredRoles: seq<string>): (v: View)
    ensures loading ==> v == Spinner
    ensures !loading && currentUser.None? ==> v == RedirectTo(LoginPath)
    ensures !loading && currentUser.Some? && requiredRoles == [] ==> v == Children
    ensures !loading && currentUser.Some? && IsAdmin(userRoles) ==> v == Children
    ensures !loading && currentUser.Some? && requiredRoles != [] && !IsAdmin(userRoles) ==>
      (v == Children <==> exists i :: 0 <= i < |requiredRoles| && requiredRoles[i] in userRoles)
    ensures !loading && currentUser.Some? && requiredRoles != [] && !IsAdmin(userRoles) && !HoldsSomeRole(userRoles, requiredRoles) ==>
      v == RedirectTo(DashboardPath)
    ensures v == Spinner || v == Children || v == RedirectTo(LoginPath) || v == RedirectTo(DashboardPath)
  {
    if loading then Spinner
    else if currentUser.None? then RedirectTo(LoginPath)
    else if |requiredRoles| > 0 && !IsAdmin(userRoles) && !HoldsSomeRole(userRoles, requiredRoles) then
      RedirectTo(DashboardPath)
    else Children
  }

  /** `AdminRoute`; it never consults `loading`. */
  function AdminView(currentUser: Option<User>, userRoles: seq<string>): (v: View)
    ensures currentUser.None? ==> v == RedirectTo(LoginPath)
    ensures currentUser.Some? && !IsAdmin(userRoles) ==> v == RedirectTo(DashboardPath)
    ensures currentUser.Some? && IsAdmin(userRoles) ==> v == Children
  {
    if currentUser.None? then RedirectTo(LoginPath)
    else if !IsAdmin(userRoles) then RedirectTo(DashboardPath)
    else Children
  }

  /** Once loading has finished, the admin guard agrees with the protected
      guard asked for the admin roles: a user holding "ADMIN" or "ROLE_ADMIN"
      passes both, anyone else is sent to the same place by both. */
  lemma AdminRouteIsProtectedForAdminRoles(currentUser: Option<User>, userRoles: seq<string>)
    ensures AdminView(currentUser, userRoles) == ProtectedView(false, currentUser, userRoles, ["ADMIN", "ROLE_ADMIN"])
  {
  }
}
