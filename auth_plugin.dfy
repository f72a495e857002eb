/**
 * The auth plugin (app/plugins/auth.ts): on the client it restores the session
 * from storage, and it registers a guard evaluated before every navigation.
 */
module NavigationGuard {
  import opened Routing
  import opened Auth

  /** `['/login', '/register'].includes(path)`: exact matches only. */
  predicate IsAuthRoute(path: string): (r: bool)
    ensures r ==> !(LoginPath < path) && !(RegisterPath < path)
  {
    assert LoginPath[1] == 'l' && RegisterPath[1] == 'r';
    path == LoginPath || path == RegisterPath
  }

  /** `path.startsWith('/admin')`: a string prefix, so `/administrator` counts. */
  predicate IsAdminRoute(path: string): (r: bool)
    ensures r <==> |path| >= |AdminPrefix| && path[..|AdminPrefix|] == AdminPrefix
  {
    AdminPrefix <= path
  }

  /**
   * The `beforeEach` callback: three rules tried in order, over the target path
   * and the store's two flags at the moment of navigation.
   */
  function BeforeEach(to: Route, from: Route, isAuthenticated: bool, isAdmin: bool): (d: Decision)
    ensures d.RedirectTo? ==> d.target == LoginPath || d.target == HomePath
    ensures d == Allow && !isAuthenticated ==> IsAuthRoute(to.path)
    ensures d == Allow && IsAdminRoute(to.path) ==> isAuthenticated && isAdmin
  {
    AuthAndAdminRoutesAreDisjoint(to.path);
    var isAdminRoute := IsAdminRoute(to.path);
    var isAuthRoute := IsAuthRoute(to.path);
    if !isAuthenticated && !isAuthRoute then RedirectTo(LoginPath)
    else if isAuthenticated && isAuthRoute then RedirectTo(HomePath)
    else if isAdminRoute && !isAdmin then RedirectTo(HomePath)
    else Allow
  }

  /** No path is both an auth route and an admin route. */
  lemma AuthAndAdminRoutesAreDisjoint(path: string)
    ensures !(IsAuthRoute(path) && IsAdminRoute(path))
    ensures IsAdminRoute(path) ==> path != HomePath
  {
    if IsAdminRoute(path) {
      assert path[1] == AdminPrefix[1] == 'a';
      assert LoginPath[1] == 'l' && RegisterPath[1] == 'r';
    }
  }

  /**
   * The rule table without its order: each outcome stated by the conditions
   * that produce it.
   */
  lemma DecisionTable(to: Route, from: Route, isAuthenticated: bool, isAdmin: bool)
    ensures var d := BeforeEach(to, from, isAuthenticated, isAdmin);
      && (d == RedirectTo(LoginPath) <==> !isAuthenticated && !IsAuthRoute(to.path))
      && (d == RedirectTo(HomePath) <==>
            (isAuthenticated && IsAuthRoute(to.path)) || (isAuthenticated && IsAdminRoute(to.path) && !isAdmin))
      && (d == Allow <==>
            (!isAuthenticated && IsAuthRoute(to.path))
            || (isAuthenticated && !IsAuthRoute(to.path) && (IsAdminRoute(to.path) ==> isAdmin)))
  {
    AuthAndAdminRoutesAreDisjoint(to.path);
  }

  /** Following a redirect with the same flags is allowed: the guard never loops. */
  lemma NoRedirectLoop(to: Route, from: Route, isAuthenticated: bool, isAdmin: bool, next: Route)
    requires BeforeEach(to, from, isAuthenticated, isAdmin) == RedirectTo(next.path)
    ensures BeforeEach(next, to, isAuthenticated, isAdmin) == Allow
  {
    AuthAndAdminRoutesAreDisjoint(to.path);
    AuthAndAdminRoutesAreDisjoint(next.path);
  }

  /** The decision reads only the target's path: not `from`, not query or hash. */
  lemma DecisionReadsOnlyPath(to1: Route, from1: Route, to2: Route, from2: Route, isAuthenticated: bool, isAdmin: bool)
    requires to1.path == to2.path
    ensures BeforeEach(to1, from1, isAuthenticated, isAdmin) == BeforeEach(to2, from2, isAuthenticated, isAdmin)
  {
  }

  /** A sample of the table, including a path that only shares the prefix. */
  lemma DecisionExamples(from: Route)
    ensures BeforeEach(Route("/admin/x", "", ""), from, false, false) == RedirectTo(LoginPath)
    ensures BeforeEach(Route("/admin/x", "", ""), from, true, false) == RedirectTo(HomePath)
    ensures BeforeEach(Route("/admin/x", "", ""), from, true, true) == Allow
    ensures BeforeEach(Route("/administrator", "", ""), from, true, false) == RedirectTo(HomePath)
    ensures BeforeEach(Route("/login", "", ""), from, true, false) == RedirectTo(HomePath)
    ensures BeforeEach(Route("/login", "", ""), from, false, false) == Allow
    ensures BeforeEach(Route("/login/", "", ""), from, false, false) == RedirectTo(LoginPath)
    ensures BeforeEach(Route("/", "", ""), from, false, true) == RedirectTo(LoginPath)
    ensures BeforeEach(Route("/", "", ""), from, true, false) == Allow
  {
    AuthAndAdminRoutesAreDisjoint(LoginPath);
    assert IsAdminRoute("/admin/x") && IsAdminRoute("/administrator");
    assert !IsAuthRoute("/admin/x") && !IsAuthRoute("/administrator") && !IsAuthRoute("/login/");
  }

  /**
   * The plugin body: restore the session when running on the client, then
   * register the guard. Returns whether JSON.parse threw and whether the guard
   * was registered; an exception from initAuth ends the plugin before that.
   */
  method InstallPlugin(store: AuthStore) returns (threw: bool, guardRegistered: bool)
    modifies store
    ensures store.State() == (if store.env.client then AfterInitAuth(old(store.State()), store.env) else old(store.State()))
    ensures threw == (store.env.client && InitAuthThrows(old(store.State()), store.env))
    ensures guardRegistered <==> !threw
  {
    threw := false;
    if store.env.client {
      threw := store.InitAuth();
    }
    guardRegistered := !threw;
  }

  /** One navigation: the registered callback applied to the store's current flags. */
  method Navigate(store: AuthStore, to: Route, from: Route) returns (d: Decision)
    ensures d == BeforeEach(to, from, store.isAuthenticated, store.isAdmin)
    ensures d == Allow && !store.isAuthenticated ==> IsAuthRoute(to.path)
  {
    var isAuthenticated := store.isAuthenticated;
    d := BeforeEach(to, from, isAuthenticated, store.isAdmin);
  }
}
