/** How the parts meet: a client call becomes a request, the request
    reaches a server route, the route's guards judge the session cookie,
    and the client's re-authenticating wrapper reacts to a refusal. Also
    how a settled payment shows on the order page.

    The server's answer to a request is only known where the guards refuse
    it; what a handler answers is not modelled. A refusal is sent by the
    error middleware, which is not part of this model; it is taken to
    answer with the status the guard set and a JSON body carrying the
    guard's message. */
module Pipeline {
  import opened Js
  import opened Http
  import Guard
  import Token
  import Routes
  import Client
  import Reauth
  import Orders
  import Webhook
  import Checkout

  /** The answer to a refused request, as the client receives it. */
  function Refusal(status: int, message: string): (r: Reauth.QueryResult)
    ensures r.Err? && r.error.status == Reauth.Http(status)
  {
    Reauth.Err(Reauth.QueryError(Reauth.Http(status), Some(Reauth.Obj(map["message" := Reauth.Str(message)]))))
  }

  /** What the server's guards make of a request sent with `cookies`: the
      refusal, or `None` when the request gets past them or reaches no
      modelled route. */
  function GuardAnswer(d: Descriptor, cookies: map<string, Token.CookieValue>, env: Guard.Env): Option<Reauth.QueryResult>
  {
    match Routes.Dispatch(d.verb, Segments(d.url))
    case Handler(_, route) =>
      (match Guard.RunChain(route.guards, cookies, env)
       case Deny(status, message) => Some(Refusal(status, message))
       case Next(_) => None)
    case _ => None
  }

  /** The scripted network answers call `i` the way the guards would,
      wherever they refuse it. */
  predicate Agrees(oracle: Reauth.Oracle, i: nat, d: Descriptor, cookies: map<string, Token.CookieValue>, env: Guard.Env)
  {
    GuardAnswer(d, cookies, env).Some? ==> oracle(i, d) == GuardAnswer(d, cookies, env).value
  }

  /** Every route a request can reach runs one of the three guard chains. */
  lemma {:induction false} DispatchFromWellFormed(m: Method, path: seq<string>, k: nat)
    requires k <= |Routes.App|
    ensures Routes.DispatchFrom(Routes.App, m, path, k).Handler? ==>
      Routes.WellFormedChain(Routes.DispatchFrom(Routes.App, m, path, k).route.guards)
    decreases |Routes.App| - k
  {
    Routes.AllChainsWellFormed();
    if k < |Routes.App| {
      DispatchFromWellFormed(m, path, k + 1);
    }
  }

  /** A refusal by any of the three chains is exactly the refusal the
      `protect, admin` chain gives. */
  lemma AdminChainRefusesAlike(g: seq<Guard.Guard>, cookies: map<string, Token.CookieValue>, env: Guard.Env)
    requires Routes.WellFormedChain(g) && Guard.RunChain(g, cookies, env).Deny?
    ensures Guard.RunChain(Routes.AuthAdmin, cookies, env) == Guard.RunChain(g, cookies, env)
  {
    Guard.ProtectChain(cookies, env);
    Guard.ProtectAdminChain(cookies, env);
  }

  /** The refresh URL is the users base URL with one more segment. */
  lemma RefreshUrlIsUsersUrl()
    ensures Reauth.RefreshUrl == Client.UsersUrl + Join(["refresh"])
    ensures PlainSegment("refresh")
  {
    Join1("refresh");
    assert "refresh" == ['r', 'e', 'f', 'r', 'e', 's', 'h'];
  }

  lemma RefreshPath()
    ensures Segments(Reauth.RefreshRequest().url) == ["api", "users", "refresh"]
  {
    RefreshUrlIsUsersUrl();
    var tail := ["refresh"];
    assert forall i :: 0 <= i < |tail| ==> PlainSegment(tail[i]);
    Client.UsersSegments(tail);
  }

  /** The refresh request has no route of its own: it reaches the
      administrators' user lookup, behind `protect` and `admin`. */
  lemma RefreshMeetsAdminGuard()
    ensures Routes.Dispatch(GET, Segments(Reauth.RefreshRequest().url)) ==
      Routes.Handler("users", Routes.Route(GET, [Routes.Param("id")], Routes.AuthAdmin, "getUserById"))
  {
    RefreshPath();
    Routes.RefreshIsAdminLookup();
  }

  /** The guards answer the refresh with `protect, admin`'s verdict. */
  lemma RefreshGuardAnswer(cookies: map<string, Token.CookieValue>, env: Guard.Env)
    ensures Guard.RunChain(Routes.AuthAdmin, cookies, env).Deny? ==>
      GuardAnswer(Reauth.RefreshRequest(), cookies, env) ==
        Some(Refusal(Guard.RunChain(Routes.AuthAdmin, cookies, env).status, Guard.RunChain(Routes.AuthAdmin, cookies, env).message))
    ensures Guard.RunChain(Routes.AuthAdmin, cookies, env).Next? ==> GuardAnswer(Reauth.RefreshRequest(), cookies, env).None?
  {
    RefreshMeetsAdminGuard();
  }

  /** The scripted network answers the refresh (call 1) the way the
      `protect, admin` chain it meets would, wherever that chain refuses. */
  predicate RefreshAgrees(oracle: Reauth.Oracle, cookies: map<string, Token.CookieValue>, env: Guard.Env)
  {
    var v := Guard.RunChain(Routes.AuthAdmin, cookies, env);
    v.Deny? ==> oracle(1, Reauth.RefreshRequest()) == Refusal(v.status, v.message)
  }

  /** Agreeing on the refresh through its route is agreeing with the
      guards the refresh request actually reaches. */
  lemma RefreshAgreesIsAgrees(oracle: Reauth.Oracle, cookies: map<string, Token.CookieValue>, env: Guard.Env)
    ensures RefreshAgrees(oracle, cookies, env) <==> Agrees(oracle, 1, Reauth.RefreshRequest(), cookies, env)
  {
    RefreshGuardAnswer(cookies, env);
  }

  /** A refusal by the guards is never recovered by the refresh. The
      refresh carries the same cookies to a `protect, admin` route and is
      refused in the same words, so the wrapper logs the user out and
      hands back that same refusal, without replaying the request. */
  lemma GuardRefusalEndsSession(args: Descriptor, oracle: Reauth.Oracle, cookies: map<string, Token.CookieValue>, env: Guard.Env)
    requires GuardAnswer(args, cookies, env).Some?
    requires Agrees(oracle, 0, args, cookies, env) && RefreshAgrees(oracle, cookies, env)
    ensures GuardAnswer(Reauth.RefreshRequest(), cookies, env) == GuardAnswer(args, cookies, env)
    ensures Reauth.Reauth(args, oracle) ==
      (Reauth.Returned(GuardAnswer(args, cookies, env).value),
       [Reauth.Call(args), Reauth.Call(Reauth.RefreshRequest()), Reauth.DispatchLogout])
  {
    var target := Routes.Dispatch(args.verb, Segments(args.url));
    DispatchFromWellFormed(args.verb, Segments(args.url), 0);
    var g := target.route.guards;
    Guard.ChainDeniesWith401(g, cookies, env, None);
    AdminChainRefusesAlike(g, cookies, env);
    RefreshGuardAnswer(cookies, env);
  }

  /** A logged-in customer who is not an administrator and triggers an
      administrators' call (one whose route runs `protect, admin`, such as
      opening the user list; `Client.CallGuards` names all seven) is
      logged out: `admin` refuses with 401, which the wrapper reads as an expired
      session, and the refresh is refused by `admin` again. */
  lemma CustomerLoggedOutByAdminCall(e: Client.Endpoint, oracle: Reauth.Oracle, cookies: map<string, Token.CookieValue>, env: Guard.Env)
    requires Client.SafeArg(e) && !e.UploadProductImage?
    requires Client.Target(e).Handler? && Client.Target(e).route.guards == Routes.AuthAdmin
    requires Guard.Protect(cookies, env).Next? && Guard.Protect(cookies, env).user.Some? && !Guard.Protect(cookies, env).user.value.isAdmin
    requires Agrees(oracle, 0, Client.Request(e), cookies, env) && RefreshAgrees(oracle, cookies, env)
    ensures Reauth.DispatchLogout in Reauth.Reauth(Client.Request(e), oracle).1
    ensures Reauth.Reauth(Client.Request(e), oracle).0 ==
      Reauth.Returned(Refusal(Guard.Unauthorized, Guard.NotAdminMessage))
  {
    Guard.ProtectAdminChain(cookies, env);
    assert GuardAnswer(Client.Request(e), cookies, env) == Some(Refusal(Guard.Unauthorized, Guard.NotAdminMessage));
    GuardRefusalEndsSession(Client.Request(e), oracle, cookies, env);
  }

  /** With no session cookie at all, any call to a guarded route ends in
      a logout, with the "no token" refusal handed back. */
  lemma NoCookieLoggedOut(e: Client.Endpoint, oracle: Reauth.Oracle, cookies: map<string, Token.CookieValue>, env: Guard.Env)
    requires Client.SafeArg(e) && !e.UploadProductImage?
    requires !(e.Login? || e.Register? || e.Logout? || e.GetProducts? || e.GetProductDetails? || e.GetTopProducts?)
    requires !Guard.HasToken(cookies)
    requires Agrees(oracle, 0, Client.Request(e), cookies, env) && RefreshAgrees(oracle, cookies, env)
    ensures Reauth.Reauth(Client.Request(e), oracle) ==
      (Reauth.Returned(Refusal(Guard.Unauthorized, Guard.NoTokenMessage)),
       [Reauth.Call(Client.Request(e)), Reauth.Call(Reauth.RefreshRequest()), Reauth.DispatchLogout])
  {
    Client.CallGuards(e);
    var g := Client.Target(e).route.guards;
    DispatchFromWellFormed(Client.Request(e).verb, Client.PathOf(e), 0);
    Guard.ProtectChain(cookies, env);
    Guard.ProtectAdminChain(cookies, env);
    assert Guard.RunChain(g, cookies, env) == Guard.Deny(Guard.Unauthorized, Guard.NoTokenMessage);
    GuardRefusalEndsSession(Client.Request(e), oracle, cookies, env);
  }

  /** Once the webhook has handled a success event for an order, the
      order page stops offering the card form, and offers an
      administrator the delivery button exactly while the order is
      undelivered. */
  lemma SettledOrderOnOrderPage(event: Webhook.Event, store: Webhook.Store, nowMs: int, admin: Checkout.UserInfo)
    requires event.kind == Webhook.SucceededKind && !store.findThrows && !store.saveThrows
    requires "orderId" in event.intent.metadata && event.intent.metadata["orderId"] in store.orders
    requires admin.isAdmin
    ensures var id := event.intent.metadata["orderId"];
      var after := Webhook.Handle(Webhook.Verified(event), store, nowMs).1[id];
      !Checkout.OffersPayment(after) &&
      (Checkout.OffersDelivery(Some(admin), after) <==> !store.orders[id].isDelivered)
  {
    Webhook.KnownOrderSettled(event, store, nowMs);
  }

  /** The same holds for the handler with the already-paid check, however
      often the event was delivered. */
  lemma SettledOrderOnOrderPageOnce(event: Webhook.Event, store: Webhook.Store, nowMs: int, admin: Checkout.UserInfo)
    requires event.kind == Webhook.SucceededKind && !store.findThrows && !store.saveThrows
    requires "orderId" in event.intent.metadata && event.intent.metadata["orderId"] in store.orders
    requires admin.isAdmin
    ensures var id := event.intent.metadata["orderId"];
      var after := Webhook.HandleOnce(Webhook.Verified(event), store, nowMs).1[id];
      !Checkout.OffersPayment(after) &&
      (Checkout.OffersDelivery(Some(admin), after) <==> !store.orders[id].isDelivered)
  {
    var id := event.intent.metadata["orderId"];
    if !store.orders[id].isPaid {
      Webhook.HandleOnceAgreesOnUnpaid(Webhook.Verified(event), store, nowMs);
      SettledOrderOnOrderPage(event, store, nowMs, admin);
    }
  }
}
