/** The route guard (core/guards/auth.guard.ts): a route opens for a signed-in user whose
    token has not expired and who holds the route's role, if it names one. */
module AuthGuard {
  import opened Wrappers
  import opened Models
  import opened Auth

  const UnauthorizedRoute := "unauthorized"

  /** What `canActivate` answers: `true`, or `false` together with where it navigates. */
  datatype GuardDecision = Allow | DenyRole | RedirectToLogin(returnUrl: string)

  /** The route a refused navigation goes to. */
  function RedirectRoute(d: GuardDecision): (route: Option<string>)
    ensures route.None? <==> d == Allow
  {
    match d
    case Allow => None
    case DenyRole => Some(UnauthorizedRoute)
    case RedirectToLogin(_) => Some(LoginRoute)
  }

  /** `canActivate` for a route whose data names `requiredRole` (an empty name counts as
      none) and a navigation to `url`, with the token decoder and the clock as parameters. */
  function CanActivate(auth: AuthService, requiredRole: Option<string>, url: string,
                       decode: string -> Option<TokenPayload>, nowMs: int): (d: GuardDecision)
    reads auth, auth.storage
    ensures d == Allow <==>
      auth.isAuthenticated && !auth.IsTokenExpired(decode, nowMs)
      && (requiredRole.None? || requiredRole.value == "" || auth.HasRole(requiredRole.value))
    ensures d.RedirectToLogin? <==> !auth.isAuthenticated || auth.IsTokenExpired(decode, nowMs)
    ensures d.RedirectToLogin? ==> d.returnUrl == url
  {
    if auth.isAuthenticated && !auth.IsTokenExpired(decode, nowMs) then
      if requiredRole.Some? && requiredRole.value != "" && !auth.HasRole(requiredRole.value) then DenyRole
      else Allow
    else RedirectToLogin(url)
  }

  /** An `admin` route lets in exactly the signed-in administrators with a live token. */
  lemma AdminRouteAdmitsAdmins(auth: AuthService, url: string, decode: string -> Option<TokenPayload>, nowMs: int)
    ensures CanActivate(auth, Some("admin"), url, decode, nowMs) == Allow <==>
      auth.isAuthenticated && !auth.IsTokenExpired(decode, nowMs)
      && auth.currentUser.Some? && auth.currentUser.value.role == AdminRole
  {
    assert auth.HasRole("admin") == auth.IsAdmin();
  }

  /** Without a stored token every route sends the visitor to the login page. */
  lemma NoTokenMeansLogin(auth: AuthService, role: Option<string>, url: string,
                          decode: string -> Option<TokenPayload>, nowMs: int)
    requires TokenKey !in auth.storage.items
    ensures CanActivate(auth, role, url, decode, nowMs) == RedirectToLogin(url)
  {
    assert auth.IsTokenExpired(decode, nowMs);
  }
}
