/**
 * The session store (app/stores/auth.ts): a token, a user and two flags
 * derived from them, mirrored into the browser's localStorage under the keys
 * `auth_token` and `user`.
 *
 * The first half gives the effect of each operation as a function of the
 * fields and the storage; the lemmas state what those effects promise; the
 * class at the end performs the operations field by field and is proved to
 * have exactly those effects.
 */
module Auth {
  import opened Wrappers
  import opened Api
  import opened Json
  import opened Routing

  const TokenKey: string := "auth_token"
  const UserKey: string := "user"
  const LoginFallback: string := "Login failed"
  const RegisterFallback: string := "Registration failed"

  /** The store's four fields. */
  datatype Session = Session(token: Option<string>, user: Option<User>, isAuthenticated: bool, isAdmin: bool)

  /** The fields' initial values, which clearAuth also writes back. */
  const SignedOut: Session := Session(None, None, false, false)

  /** localStorage: text under text keys. */
  type Storage = map<string, string>

  /** `process.client` and the JSON pair the store calls. */
  datatype Env = Env(client: bool, json: Codec)

  /** The fields together with the storage they are mirrored into. */
  datatype AuthState = AuthState(session: Session, storage: Storage)

  /** A string in a JavaScript condition: only the empty string is falsy. */
  predicate Truthy(s: string) {
    s != ""
  }

  /** `localStorage.getItem(key)`: `null` for an absent key. */
  function GetItem(st: Storage, key: string): Option<string> {
    if key in st then Some(st[key]) else None
  }

  /** The flags say what the token says. */
  predicate FlagsDerived(s: Session) {
    && s.isAuthenticated == s.token.Some?
    && (s.isAdmin ==> s.isAuthenticated)
  }

  /** Beyond the flags: a user exactly when a token, and isAdmin read off that user. */
  predicate Consistent(s: Session) {
    && FlagsDerived(s)
    && s.user.Some? == s.token.Some?
    && s.isAdmin == (s.user.Some? && IsAdmin(s.user.value))
  }

  /** A stored user entry, if any, is text that parses back to a user object. */
  ghost predicate WellFormed(st: Storage, json: Codec) {
    UserKey in st ==> json.parse(st[UserKey]).Object?
  }

  /** The signed-in fields for user `u` and token `t`. */
  function SignedIn(u: User, t: string): Session {
    Session(Some(t), Some(u), true, IsAdmin(u))
  }

  /** Effect of setAuth(u, t): sign in, and on the client write both keys. */
  function AfterSetAuth(a: AuthState, env: Env, u: User, t: string): (r: AuthState)
    ensures r.session.isAuthenticated && Consistent(r.session)
    ensures env.client ==> TokenKey in r.storage && UserKey in r.storage
    ensures !env.client ==> r.storage == a.storage
    ensures a.storage.Keys <= r.storage.Keys
  {
    AuthState(SignedIn(u, t),
              if env.client then a.storage[TokenKey := t][UserKey := env.json.stringify(u)] else a.storage)
  }

  /** Effect of clearAuth(): sign out, and on the client remove both keys. */
  function AfterClearAuth(a: AuthState, env: Env): (r: AuthState)
    ensures !r.session.isAuthenticated && Consistent(r.session)
    ensures env.client ==> TokenKey !in r.storage && UserKey !in r.storage
    ensures r.storage.Keys <= a.storage.Keys
  {
    AuthState(SignedOut, if env.client then a.storage - {TokenKey, UserKey} else a.storage)
  }

  /** `storedToken && storedUser`: both keys present with non-empty text. */
  predicate HasStoredSession(st: Storage) {
    && GetItem(st, TokenKey).Some? && Truthy(GetItem(st, TokenKey).value)
    && GetItem(st, UserKey).Some? && Truthy(GetItem(st, UserKey).value)
  }

  /**
   * Effect of initAuth(). The token is assigned before the user text is
   * parsed, so when JSON.parse throws the token has changed and nothing else.
   */
  function AfterInitAuth(a: AuthState, env: Env): (r: AuthState)
    ensures r.storage == a.storage
    ensures !env.client || !HasStoredSession(a.storage) ==> r == a
    ensures env.client && HasStoredSession(a.storage) ==> r.session.token == Some(a.storage[TokenKey])
    ensures r.session.isAuthenticated && !a.session.isAuthenticated ==> r.session.token.Some? && r.session.token.value != ""
  {
    if !env.client || !HasStoredSession(a.storage) then a
    else
      var t := a.storage[TokenKey];
      match env.json.parse(a.storage[UserKey])
      case Object(u) => a.(session := SignedIn(u, t))
      case Null => a.(session := Session(Some(t), None, true, false))
      case Malformed => a.(session := a.session.(token := Some(t)))
  }

  /** initAuth() ends with the exception JSON.parse throws. */
  predicate InitAuthThrows(a: AuthState, env: Env) {
    env.client && HasStoredSession(a.storage) && env.json.parse(a.storage[UserKey]).Malformed?
  }

  /** The `{ user, token }` body of a successful login or registration. */
  datatype AuthData = AuthData(user: User, token: string)

  /** The `{ data, error }` pair the login and register requests yield. */
  datatype AuthResponse = AuthResponse(data: Option<AuthData>, error: Option<FetchError>)

  /** The message login or register throws, if it throws. */
  function AuthFailure(resp: AuthResponse, fallback: string): (r: Option<string>)
    ensures r.Some? <==> resp.error.Some?
    ensures r.Some? && fallback != "" ==> r.value != ""
  {
    if resp.error.Some? then Some(ErrorMessage(resp.error.value.message, fallback)) else None
  }

  /** Effect of login or register once the response is in. */
  function AfterAuthResponse(a: AuthState, env: Env, resp: AuthResponse): (r: AuthState)
    ensures resp.error.Some? || resp.data.None? ==> r == a
    ensures resp.error.None? && resp.data.Some? ==>
      r.session == SignedIn(resp.data.value.user, resp.data.value.token)
  {
    if resp.error.Some? then a
    else if resp.data.Some? then AfterSetAuth(a, env, resp.data.value.user, resp.data.value.token)
    else a
  }

  /**
   * The public operations, for stating what any sequence of them keeps; the
   * credentials and form sent with login and register reach only the server.
   */
  datatype Op =
    | SetAuth(userData: User, authToken: string)
    | ClearAuth
    | InitAuth
    | Login(resp: AuthResponse)
    | Register(resp: AuthResponse)
    | Logout

  function Step(a: AuthState, env: Env, op: Op): AuthState {
    match op
    case SetAuth(u, t) => AfterSetAuth(a, env, u, t)
    case ClearAuth => AfterClearAuth(a, env)
    case InitAuth => AfterInitAuth(a, env)
    case Login(resp) => AfterAuthResponse(a, env, resp)
    case Register(resp) => AfterAuthResponse(a, env, resp)
    case Logout => AfterClearAuth(a, env)
  }

  function Run(a: AuthState, env: Env, ops: seq<Op>): AuthState
    decreases |ops|
  {
    if ops == [] then a else Run(Step(a, env, ops[0]), env, ops[1..])
  }

  // ---------------------------------------------------------------------
  // What the operations promise
  // ---------------------------------------------------------------------

  /** setAuth signs in with exactly the given user and token and mirrors both. */
  lemma SetAuthSignsIn(a: AuthState, env: Env, u: User, t: string)
    ensures var r := AfterSetAuth(a, env, u, t);
      && r.session.token == Some(t) && r.session.user == Some(u)
      && r.session.isAuthenticated && (r.session.isAdmin <==> u.isAdmin == Some(true))
      && Consistent(r.session)
      && (env.client ==>
            && GetItem(r.storage, TokenKey) == Some(t)
            && GetItem(r.storage, UserKey) == Some(env.json.stringify(u))
            && r.storage.Keys == a.storage.Keys + {TokenKey, UserKey})
      && (!env.client ==> r.storage == a.storage)
      && forall k :: k in a.storage && k != TokenKey && k != UserKey ==> GetItem(r.storage, k) == Some(a.storage[k])
  {
  }

  /** clearAuth signs out, removes both keys and nothing else, and is idempotent. */
  lemma ClearAuthSignsOut(a: AuthState, env: Env)
    ensures var r := AfterClearAuth(a, env);
      && r.session.token.None? && r.session.user.None?
      && !r.session.isAuthenticated && !r.session.isAdmin
      && Consistent(r.session)
      && (env.client ==> GetItem(r.storage, TokenKey).None? && GetItem(r.storage, UserKey).None?)
      && (!env.client ==> r.storage == a.storage)
      && r.storage.Keys <= a.storage.Keys
      && (forall k :: k in a.storage && k != TokenKey && k != UserKey ==> GetItem(r.storage, k) == Some(a.storage[k]))
      && AfterClearAuth(r, env) == r
  {
  }

  /** initAuth changes nothing off the client or without both entries truthy. */
  lemma InitAuthNeedsBothEntries(a: AuthState, env: Env)
    requires !env.client || GetItem(a.storage, TokenKey) in {None, Some("")} || GetItem(a.storage, UserKey) in {None, Some("")}
    ensures AfterInitAuth(a, env) == a
    ensures !InitAuthThrows(a, env)
  {
  }

  /** initAuth never writes the storage. */
  lemma InitAuthReadsStorageOnly(a: AuthState, env: Env)
    ensures AfterInitAuth(a, env).storage == a.storage
  {
  }

  /**
   * The round-trip: what setAuth leaves in storage, read by a freshly created
   * store, gives back the same token, user and flags, provided the token is
   * non-empty and the code runs on the client.
   */
  lemma ReloadRestoresSession(a: AuthState, env: Env, u: User, t: string)
    requires RoundTrips(env.json, u) && env.client && t != ""
    ensures var saved := AfterSetAuth(a, env, u, t);
      && AfterInitAuth(AuthState(SignedOut, saved.storage), env) == saved
      && !InitAuthThrows(AuthState(SignedOut, saved.storage), env)
  {
  }

  /** An empty token is stored by setAuth but, being falsy, never restored. */
  lemma EmptyTokenIsNotRestored(a: AuthState, env: Env, u: User)
    ensures var saved := AfterSetAuth(a, env, u, "");
      && saved.session.isAuthenticated
      && AfterInitAuth(AuthState(SignedOut, saved.storage), env).session == SignedOut
  {
  }

  /**
   * A user entry that JSON.parse rejects, read into a signed-out store, leaves
   * a token without a user and with isAuthenticated still false.
   */
  lemma CorruptUserEntryBreaksFlags(st: Storage, env: Env)
    requires env.client && HasStoredSession(st) && env.json.parse(st[UserKey]).Malformed?
    ensures var r := AfterInitAuth(AuthState(SignedOut, st), env).session;
      r.token == Some(st[TokenKey]) && r.user.None? && !r.isAuthenticated && !FlagsDerived(r)
    ensures InitAuthThrows(AuthState(SignedOut, st), env)
  {
  }

  /** A failed login or register throws its message and changes nothing. */
  lemma FailedAuthChangesNothing(a: AuthState, env: Env, resp: AuthResponse, fallback: string)
    requires resp.error.Some?
    ensures AfterAuthResponse(a, env, resp) == a
    ensures AuthFailure(resp, fallback) == Some(
      if resp.error.value.message.Some? && resp.error.value.message.value != ""
      then resp.error.value.message.value else fallback)
  {
  }

  /** A response with neither error nor data changes nothing and throws nothing. */
  lemma EmptyAuthResponseChangesNothing(a: AuthState, env: Env, resp: AuthResponse, fallback: string)
    requires resp.error.None? && resp.data.None?
    ensures AfterAuthResponse(a, env, resp) == a && AuthFailure(resp, fallback).None?
  {
  }

  /** A successful login or register is exactly setAuth of its user and token. */
  lemma SuccessfulAuthIsSetAuth(a: AuthState, env: Env, resp: AuthResponse, d: AuthData)
    requires resp == AuthResponse(Some(d), None)
    ensures AfterAuthResponse(a, env, resp) == AfterSetAuth(a, env, d.user, d.token)
    ensures AfterAuthResponse(a, env, resp).session == SignedIn(d.user, d.token)
  {
  }

  /** One operation keeps the session consistent and the storage well formed. */
  lemma StepKeepsConsistent(a: AuthState, env: Env, op: Op)
    requires ParsesToObjects(env.json)
    requires Consistent(a.session) && WellFormed(a.storage, env.json)
    ensures Consistent(Step(a, env, op).session) && WellFormed(Step(a, env, op).storage, env.json)
  {
  }

  /** Every sequence of operations keeps the session consistent. */
  lemma {:induction false} RunKeepsConsistent(a: AuthState, env: Env, ops: seq<Op>)
    requires ParsesToObjects(env.json)
    requires Consistent(a.session) && WellFormed(a.storage, env.json)
    ensures Consistent(Run(a, env, ops).session) && WellFormed(Run(a, env, ops).storage, env.json)
    decreases |ops|
  {
    if ops != [] {
      StepKeepsConsistent(a, env, ops[0]);
      RunKeepsConsistent(Step(a, env, ops[0]), env, ops[1..]);
    }
  }

  /**
   * From the initial fields and storage holding only what setAuth writes,
   * isAuthenticated tracks the token and isAdmin implies isAuthenticated
   * after any sequence of operations.
   */
  lemma FlagsStayDerived(st: Storage, env: Env, ops: seq<Op>)
    requires ParsesToObjects(env.json) && WellFormed(st, env.json)
    ensures var s := Run(AuthState(SignedOut, st), env, ops).session;
      s.isAuthenticated == s.token.Some? && (s.isAdmin ==> s.isAuthenticated)
  {
    RunKeepsConsistent(AuthState(SignedOut, st), env, ops);
  }

  // ---------------------------------------------------------------------
  // The store
  // ---------------------------------------------------------------------

  /** The browser's localStorage. */
  class LocalStorage {
    var items: Storage

    constructor (items: Storage)
      ensures this.items == items
    {
      this.items := items;
    }
  }

  class AuthStore {
    var token: Option<string>
    var user: Option<User>
    var isAuthenticated: bool
    var isAdmin: bool
    const storage: LocalStorage
    const env: Env

    /** The fields and the storage as a value. */
    function State(): AuthState
      reads this, storage
    {
      AuthState(Session(token, user, isAuthenticated, isAdmin), storage.items)
    }

    constructor (storage: LocalStorage, env: Env)
      ensures this.storage == storage && this.env.client == env.client && this.env.json == env.json
      ensures State() == AuthState(SignedOut, storage.items)
    {
      token := None;
      user := None;
      isAuthenticated := false;
      isAdmin := false;
      this.storage := storage;
      this.env := env;
    }

    method SetAuth(userData: User, authToken: string)
      modifies this, storage
      ensures State() == AfterSetAuth(old(State()), env, userData, authToken)
    {
      token := Some(authToken);
      user := Some(userData);
      isAuthenticated := true;
      isAdmin := userData.isAdmin == Some(true);
      if env.client {
        storage.items := storage.items[TokenKey := authToken];
        storage.items := storage.items[UserKey := env.json.stringify(userData)];
      }
    }

    method ClearAuth()
      modifies this, storage
      ensures State() == AfterClearAuth(old(State()), env)
    {
      token := None;
      user := None;
      isAuthenticated := false;
      isAdmin := false;
      if env.client {
        storage.items := storage.items - {TokenKey};
        storage.items := storage.items - {UserKey};
      }
    }

    /** Returns whether JSON.parse threw. */
    method InitAuth() returns (threw: bool)
      modifies this
      ensures State() == AfterInitAuth(old(State()), env)
      ensures threw == InitAuthThrows(old(State()), env)
    {
      threw := false;
      if env.client {
        var storedToken := GetItem(storage.items, TokenKey);
        var storedUser := GetItem(storage.items, UserKey);
        if storedToken.Some? && Truthy(storedToken.value) && storedUser.Some? && Truthy(storedUser.value) {
          token := storedToken;
          match env.json.parse(storedUser.value)
          case Malformed =>
            threw := true;
          case Null =>
            user := None;
            isAuthenticated := true;
            isAdmin := false;
          case Object(u) =>
            user := Some(u);
            isAuthenticated := true;
            isAdmin := u.isAdmin == Some(true);
        }
      }
    }

    /** Returns the message thrown, if any. */
    method Login(email: string, password: string, resp: AuthResponse) returns (thrown: Option<string>)
      modifies this, storage
      ensures thrown == AuthFailure(resp, LoginFallback)
      ensures State() == AfterAuthResponse(old(State()), env, resp)
    {
      if resp.error.Some? {
        return Some(ErrorMessage(resp.error.value.message, LoginFallback));
      }
      if resp.data.Some? {
        SetAuth(resp.data.value.user, resp.data.value.token);
      }
      return None;
    }

    /** `userData` is the registration form; returns the message thrown, if any. */
    method Register(userData: map<string, string>, resp: AuthResponse) returns (thrown: Option<string>)
      modifies this, storage
      ensures thrown == AuthFailure(resp, RegisterFallback)
      ensures State() == AfterAuthResponse(old(State()), env, resp)
    {
      if resp.error.Some? {
        return Some(ErrorMessage(resp.error.value.message, RegisterFallback));
      }
      if resp.data.Some? {
        SetAuth(resp.data.value.user, resp.data.value.token);
      }
      return None;
    }

    /** Returns the navigations it requested, in order. */
    method Logout() returns (navigations: seq<string>)
      modifies this, storage
      ensures State() == AfterClearAuth(old(State()), env)
      ensures navigations == [LoginPath]
    {
      ClearAuth();
      navigations := [LoginPath];
    }
  }

  /**
   * The round-trip on the store itself: sign in on one store, then create a
   * second store over the same storage (a page reload) and initialise it.
   * Returns both stores' fields.
   */
  method ReloadAfterSignIn(storage: LocalStorage, env: Env, u: User, t: string)
    returns (before: Session, after: Session)
    requires RoundTrips(env.json, u) && env.client && t != ""
    modifies storage
    ensures before == after == SignedIn(u, t)
  {
    var first := new AuthStore(storage, env);
    first.SetAuth(u, t);
    before := first.State().session;
    var second := new AuthStore(storage, env);
    ReloadRestoresSession(AuthState(SignedOut, old(storage.items)), env, u, t);
    var threw := second.InitAuth();
    after := second.State().session;
  }
}
