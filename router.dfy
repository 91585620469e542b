/**
  The router shell of the Farmlytic client: the static table from paths to
  pages, each entry public or wrapped in the route guard with an allow-list of
  roles, and a catch-all entry declared last that sends every other path to
  the not-found page. Matching is exact equality of paths, first entry first.
 */
module Router {
  import opened Wrappers
  import opened Access

  datatype Page =
    | Index | Login | Register | Fields | Crops | Weather | Analytics
    | Farmer | Supplier | Specialist | NotFound

  /** What an entry mounts: the home-page redirector, or a page. */
  datatype Element = HomeRedirector | PageElement(page: Page)

  /** An entry is public, or guarded with an allow-list (empty: any authenticated user). */
  datatype GuardSpec = Public | Protected(allowedRoles: seq<string>)

  datatype Pattern = Exact(path: string) | CatchAll

  datatype Route = Route(pattern: Pattern, element: Element, guard: GuardSpec)

  /** What the visitor ends up with for one location. */
  datatype View =
    | Spinner
    | Show(page: Page)
    | Navigate(to: string, from: Option<Location>)

  predicate Matches(p: Pattern, path: string) {
    p.CatchAll? || p.path == path
  }

  /** The route table of the application, in declaration order. */
  function AppRoutes(): (routes: seq<Route>)
    ensures WellFormed(routes)
  {
    [ Route(Exact("/"), HomeRedirector, Public),
      Route(Exact("/login"), PageElement(Login), Public),
      Route(Exact("/register"), PageElement(Register), Public),
      Route(Exact("/fields"), PageElement(Fields), Protected(["farmer"])),
      Route(Exact("/crops"), PageElement(Crops), Protected(["farmer"])),
      Route(Exact("/weather"), PageElement(Weather), Protected([])),
      Route(Exact("/analytics"), PageElement(Analytics), Protected([])),
      Route(Exact("/farmer"), PageElement(Farmer), Protected(["farmer"])),
      Route(Exact("/supplier"), PageElement(Supplier), Protected(["supplier"])),
      Route(Exact("/specialist"), PageElement(Specialist), Protected(["specialist"])),
      Route(CatchAll, PageElement(NotFound), Public) ]
  }

  /**
    A table is well formed when its declared paths are distinct and the
    catch-all entry is its last entry and its only one.
   */
  predicate WellFormed(routes: seq<Route>) {
    && |routes| > 0
    && routes[|routes| - 1].pattern == CatchAll
    && (forall i :: 0 <= i < |routes| - 1 ==> routes[i].pattern.Exact?)
    && (forall i, j :: 0 <= i < j < |routes| ==> routes[i].pattern != routes[j].pattern)
  }

  /** Whether `path` is one of the paths a table declares explicitly. */
  predicate Declared(routes: seq<Route>, path: string) {
    exists i :: 0 <= i < |routes| && routes[i].pattern == Exact(path)
  }

  /** The position of the first entry whose pattern matches `path`, if any. */
  function MatchIndex(routes: seq<Route>, path: string): (r: Option<nat>)
    ensures r.Some? ==> r.value < |routes| && Matches(routes[r.value].pattern, path)
    ensures r.Some? ==> forall j :: 0 <= j < r.value ==> !Matches(routes[j].pattern, path)
    ensures r.None? ==> forall j :: 0 <= j < |routes| ==> !Matches(routes[j].pattern, path)
  {
    if routes == [] then None
    else if Matches(routes[0].pattern, path) then Some(0)
    else
      match MatchIndex(routes[1..], path)
      case None => None
      case Some(k) => Some(k + 1)
  }

  /**
    In a well-formed table every path finds an entry: its own entry when the
    table declares it, the catch-all entry otherwise.
   */
  lemma WellFormedMatch(routes: seq<Route>, path: string)
    requires WellFormed(routes)
    ensures MatchIndex(routes, path).Some?
    ensures Declared(routes, path) ==>
              routes[MatchIndex(routes, path).value].pattern == Exact(path)
    ensures !Declared(routes, path) ==> MatchIndex(routes, path).value == |routes| - 1
  {
    var last := |routes| - 1;
    assert Matches(routes[last].pattern, path);
    var k := MatchIndex(routes, path).value;
    if Declared(routes, path) {
      var i :| 0 <= i < |routes| && routes[i].pattern == Exact(path);
      assert Matches(routes[i].pattern, path);
      assert k <= i;
    } else {
      forall j | 0 <= j < last ensures !Matches(routes[j].pattern, path) {
        assert routes[j].pattern != Exact(path);
      }
    }
  }

  /** The entry the application's router picks for `path`. */
  function Lookup(path: string): (r: Route)
    ensures r in AppRoutes()
    ensures Declared(AppRoutes(), path) ==> r.pattern == Exact(path)
    ensures !Declared(AppRoutes(), path) ==> r.pattern == CatchAll && r.element == PageElement(NotFound)
  {
    WellFormedMatch(AppRoutes(), path);
    AppRoutes()[MatchIndex(AppRoutes(), path).value]
  }

  /** Each of the declared paths resolves to its own entry of the table. */
  lemma DeclaredPathsResolve(i: nat)
    requires i < |AppRoutes()| - 1
    ensures Lookup(AppRoutes()[i].pattern.path) == AppRoutes()[i]
  {
    var path := AppRoutes()[i].pattern.path;
    assert Declared(AppRoutes(), path);
    var r := Lookup(path);
    var j :| 0 <= j < |AppRoutes()| && AppRoutes()[j] == r;
    assert AppRoutes()[j].pattern == AppRoutes()[i].pattern;
  }

  /** The view the visitor gets at `here` in authentication state `s`. */
  function Resolve(here: Location, s: AuthState): (v: View)
    ensures !Declared(AppRoutes(), here.pathname) ==> v == Show(NotFound)
    ensures v.Navigate? ==> !s.isLoading && s.isAuthenticated != (v.to == LoginPath)
    ensures v.Navigate? && v.to == LoginPath ==> v.from == Some(here)
    ensures v.Navigate? && s.isAuthenticated ==>
              s.user.Some? && v.to == HomeOf(s.user.value.role) && v.from.None?
    ensures s.isLoading && (Lookup(here.pathname).guard.Protected? || Lookup(here.pathname).element == HomeRedirector) ==>
              v == Spinner
    ensures Lookup(here.pathname).guard.Protected? && v.Show? ==>
              !s.isLoading && s.isAuthenticated && Admits(Lookup(here.pathname).guard.allowedRoles, s.user)
  {
    var route := Lookup(here.pathname);
    var shown :=
      match route.element
      case PageElement(p) => Show(p)
      case HomeRedirector =>
        match Home(s)
        case HomeLoading => Spinner
        case ShowIndex => Show(Index)
        case HomeRedirect(to) => Navigate(to, None);
    match route.guard
    case Public => shown
    case Protected(roles) =>
      match Guard(s, roles, here)
      case Loading => Spinner
      case RedirectLogin(from) => Navigate(LoginPath, Some(from))
      case Redirect(to) => Navigate(to, None)
      case Render => shown
  }

  /** The page of the landing entry of each known role. */
  function PageFor(role: string): Page {
    if role == "farmer" then Farmer else if role == "supplier" then Supplier else Specialist
  }

  /** The location a redirect to `path` produces. */
  function Target(path: string): Location {
    Location(path, "", "")
  }

  /** The entries of the landing pages and of the login page, found by path. */
  lemma LandingEntries()
    ensures Lookup(RootPath) == Route(Exact("/"), HomeRedirector, Public)
    ensures Lookup(LoginPath) == Route(Exact("/login"), PageElement(Login), Public)
    ensures Lookup("/farmer") == Route(Exact("/farmer"), PageElement(Farmer), Protected(["farmer"]))
    ensures Lookup("/supplier") == Route(Exact("/supplier"), PageElement(Supplier), Protected(["supplier"]))
    ensures Lookup("/specialist") ==
              Route(Exact("/specialist"), PageElement(Specialist), Protected(["specialist"]))
  {
    DeclaredPathsResolve(0);
    DeclaredPathsResolve(1);
    DeclaredPathsResolve(7);
    DeclaredPathsResolve(8);
    DeclaredPathsResolve(9);
  }

  /**
    A role mismatch sends a user of a known role to a guarded entry whose
    allow-list holds that role, so the guard there renders; a user of any other
    role goes to the site root, which is public.
   */
  lemma RoleHomeIsEnterable(role: string)
    ensures role in RoleHomes ==>
              Lookup(HomeOf(role)).guard.Protected? && role in Lookup(HomeOf(role)).guard.allowedRoles
    ensures role !in RoleHomes ==> Lookup(HomeOf(role)).guard == Public
  {
    if role == "farmer" {
      DeclaredPathsResolve(7);
    } else if role == "supplier" {
      DeclaredPathsResolve(8);
    } else if role == "specialist" {
      DeclaredPathsResolve(9);
    } else {
      DeclaredPathsResolve(0);
    }
  }

  /** The login page is public, so a visitor sent there sees it. */
  lemma ArriveAtLogin(s: AuthState)
    ensures Resolve(Target(LoginPath), s) == Show(Login)
  {
    LandingEntries();
  }

  /** A user of a known role sent to the home of that role sees the role's own page. */
  lemma ArriveAtKnownHome(s: AuthState)
    requires !s.isLoading && s.isAuthenticated && s.user.Some? && s.user.value.role in RoleHomes
    ensures Resolve(Target(HomeOf(s.user.value.role)), s) == Show(PageFor(s.user.value.role))
  {
    var role := s.user.value.role;
    var i := if role == "farmer" then 7 else if role == "supplier" then 8 else 9;
    assert AppRoutes()[i].pattern == Exact(HomeOf(role));
    ShownWhenAdmitted(i, s);
  }

  /** A loaded, authenticated user admitted by a guarded page entry sees that page. */
  lemma ShownWhenAdmitted(i: nat, s: AuthState)
    requires i < |AppRoutes()| - 1
    requires AppRoutes()[i].element.PageElement? && AppRoutes()[i].guard.Protected?
    requires !s.isLoading && s.isAuthenticated && Admits(AppRoutes()[i].guard.allowedRoles, s.user)
    ensures Resolve(Target(AppRoutes()[i].pattern.path), s) == Show(AppRoutes()[i].element.page)
  {
    DeclaredPathsResolve(i);
  }

  /** A user of any other role is sent to the site root, where the landing page shows. */
  lemma ArriveAtRoot(s: AuthState)
    requires !s.isLoading && s.isAuthenticated && s.user.Some? && s.user.value.role !in RoleHomes
    ensures Resolve(Target(HomeOf(s.user.value.role)), s) == Show(Index)
  {
    LandingEntries();
  }

  /**
    No redirect loop: whatever the location and the authentication state, a
    redirect lands on a location that shows a page, without a second redirect
    and without a loading placeholder.
   */
  lemma NoRedirectChain(here: Location, s: AuthState)
    ensures Resolve(here, s).Navigate? ==> Resolve(Target(Resolve(here, s).to), s).Show?
  {
    var v := Resolve(here, s);
    if v.Navigate? {
      if v.to == LoginPath && !s.isAuthenticated {
        ArriveAtLogin(s);
      } else if s.user.value.role in RoleHomes {
        ArriveAtKnownHome(s);
      } else {
        ArriveAtRoot(s);
      }
    }
  }

  /**
    An unauthenticated visitor at any guarded entry is sent to the login page,
    with the location they came from; the guarded page is not shown.
   */
  lemma GuardedNeedsLogin(i: nat, here: Location, s: AuthState)
    requires i < |AppRoutes()| && AppRoutes()[i].pattern == Exact(here.pathname)
    requires AppRoutes()[i].guard.Protected?
    requires !s.isLoading && !s.isAuthenticated
    ensures Resolve(here, s) == Navigate(LoginPath, Some(here))
  {
    DeclaredPathsResolve(i);
  }

  /**
    An authenticated user whose role is outside a non-empty allow-list is sent
    to the home of that role and never sees the guarded page.
   */
  lemma MismatchGoesHome(i: nat, here: Location, s: AuthState)
    requires i < |AppRoutes()| && AppRoutes()[i].pattern == Exact(here.pathname)
    requires AppRoutes()[i].guard.Protected? && |AppRoutes()[i].guard.allowedRoles| > 0
    requires !s.isLoading && s.isAuthenticated && s.user.Some?
    requires s.user.value.role !in AppRoutes()[i].guard.allowedRoles
    ensures Resolve(here, s) == Navigate(HomeOf(s.user.value.role), None)
  {
    DeclaredPathsResolve(i);
  }

  /** A farmer who opens /supplier is sent to /farmer. */
  lemma FarmerAtSupplierPage(s: AuthState, here: Location)
    requires !s.isLoading && s.isAuthenticated && s.user.Some? && s.user.value.role == "farmer"
    requires here.pathname == "/supplier"
    ensures Resolve(here, s) == Navigate("/farmer", None)
  {
    MismatchGoesHome(8, here, s);
  }

  /** A visitor who opens /crops is sent to /login, and the redirect remembers /crops. */
  lemma VisitorAtCropsPage(s: AuthState, here: Location)
    requires !s.isLoading && !s.isAuthenticated
    requires here.pathname == "/crops"
    ensures Resolve(here, s) == Navigate(LoginPath, Some(here))
    ensures Resolve(here, s).from.value.pathname == "/crops"
  {
    DeclaredPathsResolve(4);
  }

  /** A specialist who opens /weather, which has no role restriction, sees the page. */
  lemma SpecialistAtWeatherPage(s: AuthState, here: Location)
    requires !s.isLoading && s.isAuthenticated && s.user.Some? && s.user.value.role == "specialist"
    requires here.pathname == "/weather"
    ensures Resolve(here, s) == Show(Weather)
  {
    DeclaredPathsResolve(5);
  }

  /** A supplier who opens the site root is sent to /supplier. */
  lemma SupplierAtRoot(s: AuthState, here: Location)
    requires !s.isLoading && s.isAuthenticated && s.user.Some? && s.user.value.role == "supplier"
    requires here.pathname == RootPath
    ensures Resolve(here, s) == Navigate("/supplier", None)
  {
    LandingEntries();
  }
}
