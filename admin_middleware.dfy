/**
 * The admin route middleware (app/middleware/admin.ts). It reads the user of
 * the Sanctum authentication layer, not the session store's user, so its
 * input here is that user and nothing of the store.
 */
module AdminMiddleware {
  import opened Wrappers
  import opened Api
  import opened Routing
  import Auth
  import NavigationGuard

  /** `if (!user.value?.is_admin) return navigateTo('/')`; otherwise return nothing. */
  function AdminGate(to: Route, from: Route, sanctumUser: Option<User>): (d: Decision)
    ensures sanctumUser.None? ==> d == RedirectTo(HomePath)
    ensures sanctumUser.Some? ==> (d == Allow <==> sanctumUser.value.isAdmin == Some(true))
    ensures d == Allow || d == RedirectTo(HomePath)
  {
    if !(sanctumUser.Some? && IsAdmin(sanctumUser.value)) then RedirectTo(HomePath) else Allow
  }

  /** The decision ignores both routes. */
  lemma GateIgnoresRoutes(to1: Route, from1: Route, to2: Route, from2: Route, sanctumUser: Option<User>)
    ensures AdminGate(to1, from1, sanctumUser) == AdminGate(to2, from2, sanctumUser)
  {
  }

  /**
   * When the Sanctum user is the store's user and the store is consistent,
   * the gate admits exactly the sessions the store calls administrators.
   */
  lemma GateAgreesWithStoreOnSameUser(to: Route, from: Route, s: Auth.Session)
    requires Auth.Consistent(s)
    ensures AdminGate(to, from, s.user) == Allow <==> s.isAdmin
  {
  }

  /**
   * The two users are separate: a store signed in as an administrator lets the
   * navigation guard through to an admin page, while the gate, with no Sanctum
   * user loaded, sends the same navigation home.
   */
  lemma GateAndGuardCanDisagree(u: User, t: string, from: Route)
    requires IsAdmin(u)
    ensures var s := Auth.SignedIn(u, t);
      var to := Route(AdminPrefix, "", "");
      && NavigationGuard.BeforeEach(to, from, s.isAuthenticated, s.isAdmin) == Allow
      && AdminGate(to, from, None) == RedirectTo(HomePath)
  {
  }
}
