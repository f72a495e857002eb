# Session, guards and resource store of a service-booking front end

This project models the client-side core of a service-booking web front end and
proves properties about it in Dafny. The core has four parts:

- **Session store** (`app/stores/auth.ts`, module `Auth`). It holds four fields: `token`, `user`,
  `isAuthenticated` and `isAdmin`. It mirrors them into the browser's localStorage under
  `auth_token` and `user`. `setAuth`, `clearAuth`, `initAuth`, `login`, `register` and
  `logout` operate on it.
- **Navigation guard** (`app/plugins/auth.ts`, module `NavigationGuard`). It is an ordered
  table of three rules over the target path and the store's two flags. The plugin's
  client-only `initAuth` call is modelled too.
- **Admin middleware** (`app/middleware/admin.ts`, module `AdminMiddleware`). It is a
  predicate on the user held by the Sanctum authentication layer.
- **Resource store** (`app/stores/service.ts`, module `Resources`). It caches `services` and
  `bookings` and keeps `loading` and `error`. It does so through seven request operations
  that share one try/catch/finally protocol.

Both stores follow the same pattern:

- Pure functions give the effect of each operation (`AfterSetAuth`, `AfterInitAuth`, `Apply`, ...).
- Lemmas state what those effects promise: invariants, round-trips, failure behaviour and
  non-interference. Some of these hold only over sequences of operations.
- A class (`Auth.AuthStore`, `Resources.ServiceStore`) performs the operations field by field.
  Each of its methods is proved to have exactly the effect that function gives.

The framework's side is modelled as follows:

- Each HTTP request is replaced by its response, passed as an argument.
- `process.client` is a boolean.
- The browser's `localStorage` is an object holding a `map<string, string>`.
- `JSON.stringify`/`JSON.parse` is a supplied pair `Json.Codec`. Each lemma assumes only the
  law it uses, and each law is proved satisfiable:
  - `Json.ParsesToObjects`: whatever stringify writes parses as a user object (the
    consistency lemmas);
  - `Json.RoundTrips(json, u)`: parsing what stringify wrote for `u` gives `u` back, and the
    empty text is not JSON (the reload round-trip). It is stated per user, because `price`
    is a real and no stringify into finite text is one-to-one on all users.

Shared pieces: `Api` (entity records, error shape, `||` fallback), `Routing` (routes,
decisions, paths), `Wrappers` (`Option`).

Points where the code behaves in a way worth noting:

- `initAuth` restores a session only when both stored entries are truthy. An empty token
  left behind by `setAuth("")` is ignored.
- The token is assigned *before* `JSON.parse` runs. A corrupt user entry therefore does not
  simply leave the session signed out: the new token stays, while user and flags are
  unchanged (`Auth.CorruptUserEntryBreaksFlags`). This is why the invariant lemmas assume the
  stored user entry holds what `setAuth` wrote (`Auth.WellFormed`).
- The resource store never reads the session store's token. Authorization headers are left
  to the fetch helpers, so the two stores are independent.
- The admin middleware reads the Sanctum user, not the session store's user. So it can
  disagree with the navigation guard (`AdminMiddleware.GateAndGuardCanDisagree`).

## Model

| member | source | states |
|---|---|---|
| `Api.ErrorMessage` | app/stores/service.ts:18-19 | `message || fallback`: a non-empty server message is the result; a missing or empty one gives the fallback; never empty when the fallback is not |
| `Json.StringifiedIsNonEmpty` | app/stores/auth.ts:19 | under the round-trip law for `u`, the stringified `u` is non-empty, so `initAuth` finds it truthy |
| `Json.ParsesToObjectsIsSatisfiable` | app/stores/auth.ts:19-44 | some stringify/parse pair meets the consistency law, so the lemmas assuming it are not vacuous |
| `Json.RoundTripsIsSatisfiable` | app/stores/auth.ts:19-44 | for every user some stringify/parse pair meets the round-trip law |
| `Auth.AfterSetAuth` | app/stores/auth.ts:10-21 | setAuth authenticates with a consistent session; on the client both keys are present afterwards; off the client storage is untouched; no key is removed |
| `Auth.AfterClearAuth` | app/stores/auth.ts:23-34 | clearAuth signs out with a consistent session; on the client both keys are absent afterwards; no key is added |
| `Auth.AfterInitAuth` | app/stores/auth.ts:37-49 | initAuth never writes storage; off the client or without both truthy entries it changes nothing; otherwise the token becomes the stored one, whatever JSON.parse makes of the user (user object, `null`, or a throw); a session it signs in has a non-empty token |
| `Auth.AuthFailure` | app/stores/auth.ts:63-65 | login and register throw exactly when the response carries an error, and the message is non-empty when the fallback is |
| `Auth.AfterAuthResponse` | app/stores/auth.ts:63-69 | an error or an empty body changes nothing; otherwise the session is signed in as the response's user and token |
| `Auth.SetAuthSignsIn` | app/stores/auth.ts:10-21 | after setAuth(u, t): token t, user u, authenticated, isAdmin iff `is_admin` is true (missing means false), session consistent; on the client both keys hold t and the stringified user, and no other key changes; off the client storage is untouched |
| `Auth.ClearAuthSignsOut` | app/stores/auth.ts:23-34 | after clearAuth: token and user null, both flags false, both keys absent on the client, other keys kept, no key added; off the client storage is untouched; clearing twice equals clearing once |
| `Auth.InitAuthNeedsBothEntries` | app/stores/auth.ts:38-42 | off the client, or with either entry missing or empty, initAuth changes nothing and does not throw |
| `Auth.InitAuthReadsStorageOnly` | app/stores/auth.ts:37-49 | initAuth never writes localStorage |
| `Auth.ReloadRestoresSession` | app/stores/auth.ts:10-47 | after setAuth(u, t) with non-empty t on the client, a fresh signed-out store over that storage restores the same token, user and both flags without throwing |
| `Auth.EmptyTokenIsNotRestored` | app/stores/auth.ts:11-42 | setAuth(u, "") authenticates, but a fresh store's initAuth ignores the empty stored token and stays signed out |
| `Auth.CorruptUserEntryBreaksFlags` | app/stores/auth.ts:42-46 | when JSON.parse rejects the stored user, a signed-out store ends with the token set, no user and isAuthenticated false (flags no longer derived), and initAuth throws |
| `Auth.FailedAuthChangesNothing` | app/stores/auth.ts:63-65 | a response carrying an error leaves session and storage unchanged and throws the server message when non-empty, else the fallback |
| `Auth.EmptyAuthResponseChangesNothing` | app/stores/auth.ts:63-69 | no error and no data: nothing changes and nothing is thrown |
| `Auth.SuccessfulAuthIsSetAuth` | app/stores/auth.ts:67-69 | a successful login/register response has exactly the effect of setAuth(data.user, data.token) |
| `Auth.StepKeepsConsistent` | app/stores/auth.ts:10-94 | each operation keeps the session consistent (flags derived from token and user, user present iff token) and the stored user entry parseable |
| `Auth.RunKeepsConsistent` | app/stores/auth.ts:5-94 | any sequence of setAuth, clearAuth, initAuth, login, register and logout keeps that consistency |
| `Auth.FlagsStayDerived` | app/stores/auth.ts:5-47 | from the initial fields, over storage as setAuth writes it, every sequence keeps isAuthenticated == (token != null) and isAdmin ==> isAuthenticated |
| `Auth.AuthStore.constructor` | app/stores/auth.ts:5-8 | a new store starts signed out over the given storage |
| `Auth.AuthStore.SetAuth` | app/stores/auth.ts:10-21 | the fields and storage become exactly `AfterSetAuth` of the old ones |
| `Auth.AuthStore.ClearAuth` | app/stores/auth.ts:23-34 | the fields and storage become exactly `AfterClearAuth` of the old ones |
| `Auth.AuthStore.InitAuth` | app/stores/auth.ts:37-49 | the fields become `AfterInitAuth` of the old state, storage is not modified, and it reports whether JSON.parse threw |
| `Auth.AuthStore.Login` | app/stores/auth.ts:52-70 | throws exactly `AuthFailure(resp, "Login failed")` and ends in `AfterAuthResponse` of the old state |
| `Auth.AuthStore.Register` | app/stores/auth.ts:73-88 | throws exactly `AuthFailure(resp, "Registration failed")` and ends in `AfterAuthResponse` of the old state |
| `Auth.AuthStore.Logout` | app/stores/auth.ts:91-94 | the state becomes that of clearAuth and exactly one navigation, to `/login`, is requested |
| `Auth.ReloadAfterSignIn` | app/stores/auth.ts:10-47 | on the objects: sign in on one store, create a second over the same storage and initialise it; both stores hold the same signed-in fields |
| `NavigationGuard.IsAuthRoute` | app/plugins/auth.ts:15 | `includes` is an exact match: no proper extension of `/login` or `/register` is an auth route |
| `NavigationGuard.IsAdminRoute` | app/plugins/auth.ts:14 | `startsWith('/admin')`: the path's first six characters are `/admin` |
| `NavigationGuard.BeforeEach` | app/plugins/auth.ts:12-33 | the guard redirects only to `/login` or `/`; an unauthenticated user is allowed only onto `/login` or `/register`; an admin path is allowed only to an authenticated administrator |
| `NavigationGuard.AuthAndAdminRoutesAreDisjoint` | app/plugins/auth.ts:14-15 | no path is both an auth route and an `/admin`-prefixed route, and `/` is not an admin route |
| `NavigationGuard.DecisionTable` | app/plugins/auth.ts:18-32 | each of the three outcomes holds exactly when its conditions hold: `/login` iff unauthenticated off the auth routes, `/` iff authenticated on an auth route or on an admin path without admin flag, allow otherwise |
| `NavigationGuard.NoRedirectLoop` | app/plugins/auth.ts:18-32 | applying the guard to its own redirect target with the same flags allows the navigation |
| `NavigationGuard.DecisionReadsOnlyPath` | app/plugins/auth.ts:12-15 | two navigations with the same target path get the same decision whatever `from`, query or hash |
| `NavigationGuard.DecisionExamples` | app/plugins/auth.ts:14-32 | the rule table on concrete paths, including `/administrator` (prefix match) and `/login/` (not an exact match) |
| `NavigationGuard.InstallPlugin` | app/plugins/auth.ts:1-12 | on the client the plugin's effect is `initAuth`; off the client nothing changes; the guard is registered exactly when initAuth did not throw |
| `NavigationGuard.Navigate` | app/plugins/auth.ts:12-33 | a navigation's decision is the guard applied to the store's current flags |
| `AdminMiddleware.AdminGate` | app/middleware/admin.ts:3-8 | a missing Sanctum user redirects to `/`; a present one is allowed iff `is_admin` is true; the only redirect is to `/` |
| `AdminMiddleware.GateIgnoresRoutes` | app/middleware/admin.ts:3-7 | the decision does not depend on `to` or `from` |
| `AdminMiddleware.GateAgreesWithStoreOnSameUser` | app/middleware/admin.ts:4-6 | if the Sanctum user is the consistent store's user, the gate allows iff the store's isAdmin is set |
| `AdminMiddleware.GateAndGuardCanDisagree` | app/middleware/admin.ts:4-6 | with an admin signed into the store but no Sanctum user, the guard allows `/admin` while the gate redirects to `/` |
| `Resources.Raised` | app/stores/service.ts:10-176 | the message an operation throws is never empty |
| `Resources.ServicesFetched` | app/stores/service.ts:10-30 | fetchServices clears `loading`, leaves bookings alone, replaces services with a successful list, and on failure keeps them and records a non-empty error |
| `Resources.BookingsFetched` | app/stores/service.ts:108-127 | a bookings fetch clears `loading`, leaves services alone, replaces bookings with a successful list, and on failure keeps them and records an error (non-empty for a non-empty fallback) |
| `Resources.Mutated` | app/stores/service.ts:33-56 | an accepted mutation ends as its re-fetch does; a rejected one keeps both lists, clears `loading` and records an error |
| `Resources.Apply` | app/stores/service.ts:10-176 | every operation ends with `loading` false, and with an error recorded exactly when it throws |
| `Resources.ErrorIsThrownMessage` | app/stores/service.ts:10-29 | after every operation `loading` is false and `error` is exactly the message thrown (null after success) |
| `Resources.ThrownMessageSource` | app/stores/service.ts:18-19 | a thrown message is non-empty and is the failing request's server message or that request's own fallback; a failed re-fetch reports the fetch fallback |
| `Resources.FailureKeepsCaches` | app/stores/service.ts:44-48 | a failed operation (mutation or its re-fetch) leaves both lists unchanged |
| `Resources.ApplyReplacesCaches` | app/stores/service.ts:22 | a list changes only by being replaced wholesale with a successful response's list; something is stored iff nothing is thrown |
| `Resources.CachesDoNotInterfere` | app/stores/service.ts:10-176 | service operations never change bookings; booking operations never change services |
| `Resources.ApplyIsIdempotent` | app/stores/service.ts:22 | repeating an operation with the same responses leaves the same fields |
| `Resources.RefetchFailureAfterMutation` | app/stores/service.ts:44-54 | an accepted create or update whose re-fetch fails keeps the old list and reports the fetch's message; nothing is rolled back |
| `Resources.BookingListsShareOneCache` | app/stores/service.ts:119-168 | user bookings and all bookings land in one cache: whichever fetch came last wins |
| `Resources.CachesHoldLatest` | app/stores/service.ts:22-168 | after any sequence, each list is the one stored by the latest operation that stored one, or the initial list |
| `Resources.CachesAreIndependent` | app/stores/service.ts:10-176 | after any interleaving, services equals the result of the service operations alone, and bookings that of the booking operations alone |
| `Resources.ServiceStore.constructor` | app/stores/service.ts:4-7 | a new store has empty lists, loading false and no error |
| `Resources.ServiceStore.FetchServices` | app/stores/service.ts:10-30 | fields become `Apply` of `FetchServices`; throws exactly `Raised`; returns the response's list |
| `Resources.ServiceStore.CreateService` | app/stores/service.ts:33-56 | fields become `Apply` of `CreateService` (re-fetch through FetchServices); throws exactly `Raised`; returns the created service, not the list |
| `Resources.ServiceStore.UpdateService` | app/stores/service.ts:59-81 | as CreateService, with the update fallback, returning the updated service |
| `Resources.ServiceStore.DeleteService` | app/stores/service.ts:84-105 | fields become `Apply` of `DeleteService`; throws exactly `Raised`; returns nothing |
| `Resources.ServiceStore.FetchUserBookings` | app/stores/service.ts:108-127 | fields become `Apply` of `FetchUserBookings`; throws exactly `Raised`; returns the response's list |
| `Resources.ServiceStore.CreateBooking` | app/stores/service.ts:130-152 | fields become `Apply` of `CreateBooking` (re-fetch through FetchUserBookings); returns the created booking |
| `Resources.ServiceStore.FetchAllBookings` | app/stores/service.ts:155-176 | fields become `Apply` of `FetchAllBookings`, overwriting the same bookings cache |
| `Resources.FetchTwice` | app/stores/service.ts:10-30 | two fetches with the same response give identical fields whose list is that response |

## Left out

- HTTP transport (`useFetch`, `useSanctumFetch`, base URLs, runtime config): each request is a response argument, because these are framework calls.
- Request contents: the login credentials and the registration form appear as method parameters with no effect. The service data, service ids and booking data of `createService`, `updateService`, `deleteService` and `createBooking` are omitted: they are sent only to the server and nothing in the store depends on them.
- Vue reactivity and Pinia store definition: these become plain class fields.
- Router internals (`beforeEach` registration, `next`, `navigateTo`): these become returned `Decision` values and a returned list of navigations.
- Overlapping asynchronous calls: operations run one at a time. The early release of the shared `loading` flag by an overlapping call, and `loading` being true while a request is pending, are not represented.
- `JSON.parse` producing a value that is neither a user object nor `null` (a number, say): the codec maps every text to malformed, null or a user.
- A successful response with a null body (`services.value = null`) is not modelled: a successful response always carries its data.
- A login or register response whose data lacks a user is not modelled: `setAuth` would set token, user and isAuthenticated and then throw a TypeError reading `is_admin` of undefined. `AuthData` always has a user.
- A response whose data lacks a token is not modelled: `setAuth` would store token `undefined` with isAuthenticated true, and write the text "undefined", which a later initAuth restores as a truthy token. `AuthData.token` is always a string.
- A truthy non-boolean `is_admin` (such as `1`): `User.isAdmin` is an optional boolean, and only `true` grants admin.
- `price` carries no logic and is a `real`; there is no floating point.
- Build configuration (`nuxt.config.ts`) and the unused pagination type `ApiResponse` are not part of this model.
- Server-side authorization and token invalidation on logout are not part of this model.
