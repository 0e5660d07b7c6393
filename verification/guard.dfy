/** The access guard: the `protect` and `admin` Express middleware.

    `protect` reads the token from the `jwt` cookie, verifies it, and loads
    the user named by its `id` claim (password excluded) into `req.user`
    before handing on. `admin` hands on only when `req.user` is present and
    an administrator. Both refuse with status 401. */
module Guard {
  import opened Js
  import Token

  datatype User = User(id: string, name: string, email: string, password: string, isAdmin: bool)

  /** The user record as `select('-password')` returns it. */
  datatype UserView = UserView(id: string, name: string, email: string, isAdmin: bool)

  function View(u: User): (v: UserView)
    ensures v.id == u.id && v.name == u.name && v.email == u.email && v.isAdmin == u.isAdmin
  {
    UserView(u.id, u.name, u.email, u.isAdmin)
  }

  /** The user collection as `User.findById` sees it; `lookupThrows` stands
      for a lookup that raises (a lost connection, an id it cannot cast). */
  datatype UserStore = UserStore(users: map<string, User>, lookupThrows: bool)

  /** Process configuration and the moment the request is handled. */
  datatype Env = Env(jwtSecret: string, nowMs: nat, store: UserStore)

  /** A middleware's verdict: call `next` with `req.user` as given, or
      answer with an error status and message. */
  datatype Decision = Next(user: Option<UserView>) | Deny(status: int, message: string)

  const Unauthorized: int := 401
  const NoTokenMessage := "Not authorized, no token"
  const TokenFailedMessage := "Not authorized, token failed"
  const NotAdminMessage := "Not authorized as an admin"

  /** The cookie jar carries a truthy `jwt` cookie. No other cookie or
      header is ever consulted. */
  predicate HasToken(cookies: map<string, Token.CookieValue>)
  {
    "jwt" in cookies && cookies["jwt"] != Token.Raw("")
  }

  /** `User.findById(id).select('-password')`: `None` when no such user. */
  function FindUser(store: UserStore, id: string): Option<UserView>
  {
    if id in store.users then Some(View(store.users[id])) else None
  }

  /** The `protect` middleware. */
  function Protect(cookies: map<string, Token.CookieValue>, env: Env): (r: Decision)
    ensures !HasToken(cookies) ==> r == Deny(Unauthorized, NoTokenMessage)
    ensures HasToken(cookies) && Token.Verify(cookies["jwt"], env.jwtSecret, env.nowMs).Failure? ==>
      r == Deny(Unauthorized, TokenFailedMessage)
    ensures r.Deny? ==> r.status == Unauthorized
    ensures r.Next? <==>
      HasToken(cookies) && Token.Verify(cookies["jwt"], env.jwtSecret, env.nowMs).Success? && !env.store.lookupThrows
    ensures r.Next? ==>
      var id := Token.Verify(cookies["jwt"], env.jwtSecret, env.nowMs).value.id;
      (r.user.Some? <==> id in env.store.users) &&
      (r.user.Some? ==> r.user.value.id == env.store.users[id].id && r.user.value == View(env.store.users[id]))
  {
    if HasToken(cookies) then
      match Token.Verify(cookies["jwt"], env.jwtSecret, env.nowMs)
      case Failure(_) => Deny(Unauthorized, TokenFailedMessage)
      case Success(claims) =>
        if env.store.lookupThrows then Deny(Unauthorized, TokenFailedMessage)
        else Next(FindUser(env.store, claims.id))
    else
      Deny(Unauthorized, NoTokenMessage)
  }

  /** The `admin` middleware: a refusal is 401, the same status as a failed
      login, not 403. */
  function Admin(user: Option<UserView>): (r: Decision)
    ensures r.Next? <==> user.Some? && user.value.isAdmin
    ensures r.Next? ==> r.user == user
    ensures r.Deny? ==> r == Deny(Unauthorized, NotAdminMessage)
  {
    if user.Some? && user.value.isAdmin then Next(user) else Deny(Unauthorized, NotAdminMessage)
  }

  /** The middleware a route can list before its handler. */
  datatype Guard = RequireAuth | RequireAdmin

  /** Run a route's guards in order with `req.user` starting as `user`;
      the first refusal ends the chain. */
  function RunFrom(guards: seq<Guard>, cookies: map<string, Token.CookieValue>, env: Env, user: Option<UserView>): Decision
    decreases |guards|
  {
    if guards == [] then Next(user)
    else
      var d := if guards[0] == RequireAuth then Protect(cookies, env) else Admin(user);
      match d
      case Deny(_, _) => d
      case Next(u) => RunFrom(guards[1..], cookies, env, u)
  }

  /** A route's guard chain as Express runs it: `req.user` is unset at first. */
  function RunChain(guards: seq<Guard>, cookies: map<string, Token.CookieValue>, env: Env): Decision
  {
    RunFrom(guards, cookies, env, None)
  }

  /** Every refusal any chain of these guards produces is a 401. */
  lemma {:induction false} ChainDeniesWith401(guards: seq<Guard>, cookies: map<string, Token.CookieValue>, env: Env, user: Option<UserView>)
    ensures RunFrom(guards, cookies, env, user).Deny? ==> RunFrom(guards, cookies, env, user).status == Unauthorized
    decreases |guards|
  {
    if guards != [] {
      var d := if guards[0] == RequireAuth then Protect(cookies, env) else Admin(user);
      if d.Next? {
        ChainDeniesWith401(guards[1..], cookies, env, d.user);
      }
    }
  }

  /** A route with no guards is open to everyone, logged in or not. */
  lemma PublicChain(cookies: map<string, Token.CookieValue>, env: Env)
    ensures RunChain([], cookies, env) == Next(None)
  {
  }

  /** `protect` alone: passes exactly when `protect` does, with its user. */
  lemma ProtectChain(cookies: map<string, Token.CookieValue>, env: Env)
    ensures RunChain([RequireAuth], cookies, env) == Protect(cookies, env)
  {
    assert [RequireAuth][1..] == [];
  }

  /** `protect, admin`: passes exactly when the token verifies, the lookup
      works, and the user it finds exists and is an administrator. */
  lemma ProtectAdminChain(cookies: map<string, Token.CookieValue>, env: Env)
    ensures RunChain([RequireAuth, RequireAdmin], cookies, env).Next? <==>
      Protect(cookies, env).Next? && Protect(cookies, env).user.Some? && Protect(cookies, env).user.value.isAdmin
    ensures Protect(cookies, env).Deny? ==> RunChain([RequireAuth, RequireAdmin], cookies, env) == Protect(cookies, env)
    ensures Protect(cookies, env).Next? && RunChain([RequireAuth, RequireAdmin], cookies, env).Deny? ==>
      RunChain([RequireAuth, RequireAdmin], cookies, env) == Deny(Unauthorized, NotAdminMessage)
  {
    assert [RequireAuth, RequireAdmin][1..] == [RequireAdmin];
    assert [RequireAdmin][1..] == [];
  }

  /** `admin` without `protect` before it never passes: `req.user` is unset. */
  lemma AdminNeedsProtectFirst(cookies: map<string, Token.CookieValue>, env: Env)
    ensures RunChain([RequireAdmin], cookies, env) == Deny(Unauthorized, NotAdminMessage)
  {
  }

  /** Round trip through the guard: a token issued for `id` under the
      configured secret, presented in the `jwt` cookie before it expires,
      makes `protect` pass with the user whose id is `id`. */
  lemma IssuedTokenResolves(id: string, secret: string, issuedMs: nat, env: Env, cookies: map<string, Token.CookieValue>)
    requires secret != "" && env.jwtSecret == secret
    requires Token.Seconds(env.nowMs) < Token.Seconds(issuedMs) + Token.Lifetime
    requires !env.store.lookupThrows
    requires "jwt" in cookies && cookies["jwt"] == Token.Signed(Token.Issue(id, secret, issuedMs).value)
    ensures Protect(cookies, env).Next?
    ensures id in env.store.users ==> Protect(cookies, env).user == Some(View(env.store.users[id]))
    ensures id !in env.store.users ==> Protect(cookies, env).user == None
  {
    Token.IssueThenVerify(id, secret, issuedMs, env.nowMs);
  }

  /** A token presented once its thirty days are over takes the
      "token failed" path. */
  lemma ExpiredTokenFails(id: string, secret: string, issuedMs: nat, env: Env, cookies: map<string, Token.CookieValue>)
    requires secret != "" && env.jwtSecret == secret
    requires Token.Seconds(env.nowMs) >= Token.Seconds(issuedMs) + Token.Lifetime
    requires "jwt" in cookies && cookies["jwt"] == Token.Signed(Token.Issue(id, secret, issuedMs).value)
    ensures Protect(cookies, env) == Deny(Unauthorized, TokenFailedMessage)
  {
    Token.IssueThenVerify(id, secret, issuedMs, env.nowMs);
  }
}
