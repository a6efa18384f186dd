/** The dashboard's route table and the navigation guard that runs before
    every route transition. The guard reads the stored session token and the
    target route's metadata and decides between redirecting to the login page,
    redirecting to the home page, and letting the navigation through. */
module Router {
  import opened Wrappers
  import opened JsValues

  /** The page layout a route is rendered in. */
  datatype Layout = UILayoutV2 | AuthLayout

  /** Route metadata; a flag that a route does not set reads as false. */
  datatype Meta = Meta(requiresAuth: bool, noAuth: bool, layout: Option<Layout>)

  /** The metadata of a route declared without any, and of a path no route
      matches: the router then supplies an empty `meta` object. */
  const NoMeta := Meta(false, false, None)

  const Protected := Meta(true, false, Some(UILayoutV2))

  datatype Route = Route(path: string, name: string, meta: Meta)

  /** The table, in declaration order. */
  const Routes: seq<Route> := [
    Route("/subscriptions", "Subscriptions", Protected),
    Route("/invoices", "Invoices", Protected),
    Route("/payments", "Payments", Protected),
    Route("/quotes", "Quotes", Protected),
    Route("/login", "Login", Meta(false, true, Some(AuthLayout))),
    Route("/login-success", "LoginCallback", NoMeta),
    Route("/", "Dashboard", Protected),
    Route("/contacts", "Contacts", Protected),
    Route("/companies", "Companies", Protected),
    Route("/deals", "Deals", Protected),
    Route("/products", "Products", Protected)
  ]

  /** The first route of `routes` whose path is exactly `path`. */
  function FindRoute(routes: seq<Route>, path: string): (r: Option<Route>)
    ensures r.Some? ==> r.value in routes && r.value.path == path
    ensures r.None? ==> forall i :: 0 <= i < |routes| ==> routes[i].path != path
  {
    if routes == [] then None
    else if routes[0].path == path then Some(routes[0])
    else FindRoute(routes[1..], path)
  }

  ghost predicate DistinctPaths(routes: seq<Route>) {
    forall i, j :: 0 <= i < j < |routes| ==> routes[i].path != routes[j].path
  }

  /** With distinct paths, looking up a route's own path finds that route. */
  lemma FindRouteAt(routes: seq<Route>, i: nat)
    requires DistinctPaths(routes) && i < |routes|
    ensures FindRoute(routes, routes[i].path) == Some(routes[i])
  {
  }

  /** The metadata the guard sees when navigating to `path`. */
  function MetaOf(path: string): (m: Meta)
    ensures (forall i :: 0 <= i < |Routes| ==> Routes[i].path != path) ==> m == NoMeta
  {
    match FindRoute(Routes, path)
    case Some(r) => r.meta
    case None => NoMeta
  }

  // ---------------------------------------------------------------------------
  // The guard.

  datatype Decision = ToLogin | ToHome | Proceed

  /** The `beforeEach` decision for a target with metadata `meta` while the
      token store holds `storedToken` (`None` when nothing is stored). */
  function Guard(meta: Meta, storedToken: Option<string>): (d: Decision)
    ensures d == ToLogin <==> meta.requiresAuth && !Truthy(storedToken)
    ensures d == ToHome <==> meta.noAuth && Truthy(storedToken)
    ensures d == Proceed <==>
      !(meta.requiresAuth && !Truthy(storedToken)) && !(meta.noAuth && Truthy(storedToken))
  {
    if meta.requiresAuth && !Truthy(storedToken) then ToLogin
    else if meta.noAuth && Truthy(storedToken) then ToHome
    else Proceed
  }

  /** The three-way table stated case by case: requires authentication, is a
      no-authentication-only route, a token is present. */
  function DecisionTable(requiresAuth: bool, noAuth: bool, present: bool): Decision {
    match (requiresAuth, noAuth, present)
    case (true, _, false) => ToLogin
    case (true, true, true) => ToHome
    case (true, false, true) => Proceed
    case (false, true, true) => ToHome
    case (false, true, false) => Proceed
    case (false, false, _) => Proceed
  }

  lemma GuardMatchesTable(meta: Meta, storedToken: Option<string>)
    ensures Guard(meta, storedToken) == DecisionTable(meta.requiresAuth, meta.noAuth, Truthy(storedToken))
  {
  }

  /** Only the presence of a non-empty token matters: an empty stored token
      is treated exactly like no token, and any two non-empty tokens alike. */
  lemma GuardTokenTruthiness(meta: Meta, t1: Option<string>, t2: Option<string>)
    requires Truthy(t1) == Truthy(t2)
    ensures Guard(meta, t1) == Guard(meta, t2)
    ensures Guard(meta, Some("")) == Guard(meta, None)
  {
  }

  /** Navigating to `path`: the guard applied to the matched route's metadata. */
  function Navigate(path: string, storedToken: Option<string>): (d: Decision)
    ensures (forall i :: 0 <= i < |Routes| ==> Routes[i].path != path) ==> d == Proceed
  {
    Guard(MetaOf(path), storedToken)
  }

  /** Where the navigation lands after the guard's decision. */
  function Target(path: string, storedToken: Option<string>): (r: string)
    ensures Navigate(r, storedToken) == Proceed
    ensures Navigate(path, storedToken) == Proceed ==> r == path
    ensures Navigate(path, storedToken) == ToLogin ==> r == "/login"
    ensures Navigate(path, storedToken) == ToHome ==> r == "/"
  {
    MetaOfLogin();
    match Navigate(path, storedToken)
    case ToLogin => "/login"
    case ToHome => "/"
    case Proceed => path
  }

  // ---------------------------------------------------------------------------
  // Invariants of the table.

  lemma RoutePathsDistinct()
    ensures DistinctPaths(Routes)
  {
  }

  /** Every route but the login page and its callback requires authentication,
      and no route sets both flags. */
  lemma ProtectedRoutes()
    ensures forall i :: 0 <= i < |Routes| && Routes[i].path != "/login" && Routes[i].path != "/login-success" ==>
      Routes[i].meta.requiresAuth
    ensures forall i :: 0 <= i < |Routes| ==> !(Routes[i].meta.requiresAuth && Routes[i].meta.noAuth)
  {
  }

  lemma MetaOfLogin()
    ensures MetaOf("/login") == Meta(false, true, Some(AuthLayout))
    ensures MetaOf("/login-success") == NoMeta
    ensures MetaOf("/") == Protected
  {
    RoutePathsDistinct();
    FindRouteAt(Routes, 4);
    FindRouteAt(Routes, 5);
    FindRouteAt(Routes, 6);
  }

  /** The login callback has no metadata, so the guard always lets it through. */
  lemma LoginSuccessAlwaysProceeds(storedToken: Option<string>)
    ensures Navigate("/login-success", storedToken) == Proceed
  {
    MetaOfLogin();
  }

  /** Every protected route of the table redirects to the login page without a
      token and is entered with one. */
  lemma ProtectedRouteDecision(i: nat, storedToken: Option<string>)
    requires i < |Routes| && Routes[i].path != "/login" && Routes[i].path != "/login-success"
    ensures Navigate(Routes[i].path, storedToken) == if Truthy(storedToken) then Proceed else ToLogin
  {
    RoutePathsDistinct();
    FindRouteAt(Routes, i);
    ProtectedRoutes();
  }

  /** A redirect target passes the guard under the same token state, so one
      redirect always settles the navigation. */
  lemma RedirectSettles(path: string, storedToken: Option<string>)
    ensures Navigate(Target(path, storedToken), storedToken) == Proceed
  {
    MetaOfLogin();
  }
}
