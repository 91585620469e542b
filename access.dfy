/**
  The access decisions of the Farmlytic client shell: the route guard that
  wraps every protected page, the home-page redirector mounted at `/`, and the
  check that forces a reload when the signed-in user differs from the one
  remembered in the browser.

  Roles and paths are strings, as in the application: a user may carry a role
  outside the three the application knows, and the decisions say what happens
  then.
 */
module Access {
  import opened Wrappers

  type UserId = string

  /** The signed-in user as the authentication provider reports it. */
  datatype User = User(id: UserId, role: string)

  /** What the authentication provider exposes to the guard and the redirector. */
  datatype AuthState = AuthState(isAuthenticated: bool, isLoading: bool, user: Option<User>)

  /** The navigation location the guard sees (only its path matters for routing). */
  datatype Location = Location(pathname: string, search: string, hash: string)

  /** The four outcomes of one evaluation of the route guard. */
  datatype GuardDecision =
    | Loading                       // the loading placeholder
    | RedirectLogin(from: Location) // go to /login, remembering where the visitor came from
    | Redirect(to: string)          // go to the user's role-specific home
    | Render                        // show the wrapped page

  /** The three outcomes of the home-page redirector. */
  datatype HomeDecision =
    | HomeLoading
    | ShowIndex
    | HomeRedirect(to: string)

  const LoginPath: string := "/login"
  const RootPath: string := "/"

  /** The landing page of each role the application knows. */
  const RoleHomes: map<string, string> :=
    map["farmer" := "/farmer", "supplier" := "/supplier", "specialist" := "/specialist"]

  /**
    Where a user of `role` belongs: farmer, supplier and specialist each have a
    landing page of their own; every other role belongs at the site root.
   */
  function HomeOf(role: string): (home: string)
    ensures role in RoleHomes <==> role == "farmer" || role == "supplier" || role == "specialist"
    ensures role == "farmer" ==> home == "/farmer"
    ensures role == "supplier" ==> home == "/supplier"
    ensures role == "specialist" ==> home == "/specialist"
    ensures role !in RoleHomes ==> home == RootPath
  {
    if role in RoleHomes then RoleHomes[role] else RootPath
  }

  /**
    The access rule of a guarded route, stated on its own: an empty allow-list
    admits every authenticated visitor, and so does a missing user object;
    otherwise the user's role must be listed.
   */
  predicate Admits(allowedRoles: seq<string>, user: Option<User>) {
    |allowedRoles| == 0 || user.None? || user.value.role in allowedRoles
  }

  /**
    The route guard. Loading comes first, then authentication, then the role
    check; the role check redirects through its own chain of role names.
   */
  function Guard(s: AuthState, allowedRoles: seq<string>, here: Location): (d: GuardDecision)
    ensures s.isLoading ==> d == Loading
    ensures d.Loading? ==> s.isLoading
    ensures d.RedirectLogin? <==> !s.isLoading && !s.isAuthenticated
    ensures d.RedirectLogin? ==> d.from == here
    ensures d.Render? <==> !s.isLoading && s.isAuthenticated && Admits(allowedRoles, s.user)
    ensures d.Redirect? ==>
              s.user.Some? && s.user.value.role !in allowedRoles && d.to == HomeOf(s.user.value.role)
  {
    if s.isLoading then Loading
    else if !s.isAuthenticated then RedirectLogin(here)
    else if |allowedRoles| > 0 && s.user.Some? && s.user.value.role !in allowedRoles then
      var role := s.user.value.role;
      if role == "farmer" then Redirect("/farmer")
      else if role == "supplier" then Redirect("/supplier")
      else if role == "specialist" then Redirect("/specialist")
      else Redirect(RootPath)
    else Render
  }

  /**
    The home-page redirector: the public landing page for visitors and for
    users without a known role, the role's landing page otherwise.
   */
  function Home(s: AuthState): (d: HomeDecision)
    ensures s.isLoading <==> d == HomeLoading
    ensures d.HomeRedirect? <==>
              !s.isLoading && s.isAuthenticated && s.user.Some? && s.user.value.role in RoleHomes
    ensures d.HomeRedirect? ==> d.to == RoleHomes[s.user.value.role]
  {
    if s.isLoading then HomeLoading
    else if !s.isAuthenticated then ShowIndex
    else if s.user.Some? && s.user.value.role == "farmer" then HomeRedirect("/farmer")
    else if s.user.Some? && s.user.value.role == "supplier" then HomeRedirect("/supplier")
    else if s.user.Some? && s.user.value.role == "specialist" then HomeRedirect("/specialist")
    else ShowIndex
  }

  /**
    The session-bleed check run when the resolved user changes: reload when a
    previously stored user and a current user are both present and their ids
    differ. `stored` is the id of the stored user, already parsed.
   */
  function ShouldReload(stored: Option<UserId>, current: Option<User>): bool {
    match (stored, current)
    case (Some(storedId), Some(user)) => storedId != user.id
    case _ => false
  }

  /**
    The reload follows the identity of the user and nothing else: the same id
    with a different role never reloads, a different id always does, and with
    nothing stored or nobody signed in there is no reload.
   */
  lemma ReloadOnIdentityChange(u: User, role: string, v: User, stored: Option<UserId>)
    ensures !ShouldReload(Some(u.id), Some(u))
    ensures !ShouldReload(Some(u.id), Some(User(u.id, role)))
    ensures v.id != u.id ==> ShouldReload(Some(u.id), Some(v))
    ensures !ShouldReload(None, Some(v)) && !ShouldReload(stored, None)
  {
  }

  /**
    The guard and the redirector send a user of a known role to the same page:
    whenever both redirect, they agree; a user of any other role is sent to the
    site root by the guard, where the redirector shows the landing page instead
    of redirecting again.
   */
  lemma GuardAndHomeAgree(s: AuthState, allowedRoles: seq<string>, here: Location)
    requires Guard(s, allowedRoles, here).Redirect?
    ensures s.user.value.role in RoleHomes ==>
              Home(s) == HomeRedirect(Guard(s, allowedRoles, here).to)
    ensures s.user.value.role !in RoleHomes ==>
              Guard(s, allowedRoles, here).to == RootPath && Home(s) == ShowIndex
  {
  }

  /** While the authentication state resolves, neither decision redirects, whatever else holds. */
  lemma LoadingTakesPrecedence(s: AuthState, allowedRoles: seq<string>, here: Location)
    requires s.isLoading
    ensures Guard(s, allowedRoles, here) == Loading && Home(s) == HomeLoading
  {
  }

  /** A guard with the default empty allow-list renders for every authenticated, loaded state. */
  lemma EmptyAllowListRenders(s: AuthState, here: Location)
    requires !s.isLoading && s.isAuthenticated
    ensures Guard(s, [], here) == Render
  {
  }
}
