/** The server's routing: the three Express routers as ordered tables of
    (method, path pattern, guard chain, handler), the order in which the
    application mounts them, and Express's first-match dispatch.

    A path is a list of segments. The routers are created with no options
    and the application keeps its default settings, so every path, mount
    prefixes included, is compared case-insensitively: a literal pattern
    segment matches any segment that spells it up to the case of its ASCII
    letters, and a parameter (`:id`) matches any one non-empty segment.
    Within a router the first route whose method and pattern both fit
    wins; a router that fits nothing lets the application try its later
    layers. */
module Routes {
  import opened Js
  import opened Http
  import Guard

  datatype Seg = Lit(text: string) | Param(name: string)

  datatype Route = Route(verb: Method, pattern: seq<Seg>, guards: seq<Guard.Guard>, handler: string)

  const Auth: seq<Guard.Guard> := [Guard.RequireAuth]
  const AuthAdmin: seq<Guard.Guard> := [Guard.RequireAuth, Guard.RequireAdmin]
  const Open: seq<Guard.Guard> := []

  /** The user router, in declaration order (`router.route(p).m1(..).m2(..)`
      contributes one row per method). */
  const UserRoutes: seq<Route> := [
    Route(POST, [], Open, "registerUser"),
    Route(GET, [], AuthAdmin, "getUsers"),
    Route(POST, [Lit("login")], Open, "authUser"),
    Route(POST, [Lit("logout")], Open, "logoutUser"),
    Route(GET, [Lit("profile")], Auth, "getUserProfile"),
    Route(PUT, [Lit("profile")], Auth, "updateUserProfile"),
    Route(POST, [Lit("wishlist")], Auth, "addToWishlist"),
    Route(GET, [Lit("wishlist")], Auth, "getWishlist"),
    Route(DELETE, [Lit("wishlist"), Param("id")], Auth, "removeFromWishlist"),
    Route(GET, [Lit("myorders")], Auth, "getMyOrders"),
    Route(DELETE, [Param("id")], AuthAdmin, "deleteUser"),
    Route(GET, [Param("id")], AuthAdmin, "getUserById"),
    Route(PUT, [Param("id")], AuthAdmin, "updateUser")
  ]

  /** The order router, in declaration order. */
  const OrderRoutes: seq<Route> := [
    Route(POST, [], Auth, "addOrderItems"),
    Route(GET, [], AuthAdmin, "getOrders"),
    Route(GET, [Lit("myorders")], Auth, "getMyOrders"),
    Route(GET, [Param("id")], Auth, "getOrderById"),
    Route(PUT, [Param("id"), Lit("pay")], Auth, "updateOrderToPaid"),
    Route(PUT, [Param("id"), Lit("deliver")], AuthAdmin, "updateOrderToDelivered"),
    Route(POST, [Param("id"), Lit("create-payment-intent")], Auth, "createPaymentIntent")
  ]

  /** The product router, in declaration order. */
  const ProductRoutes: seq<Route> := [
    Route(GET, [], Open, "getProducts"),
    Route(GET, [Lit("top")], Open, "getTopProducts"),
    Route(GET, [Param("id")], Open, "getProductById"),
    Route(POST, [Param("id"), Lit("reviews")], Auth, "createProductReview"),
    Route(POST, [], AuthAdmin, "createProduct"),
    Route(DELETE, [Param("id")], AuthAdmin, "deleteProduct"),
    Route(PUT, [Param("id")], AuthAdmin, "updateProduct")
  ]

  /** One layer of the application stack. The upload router's own table is
      not part of this model, so its mount is opaque. */
  datatype Layer =
    | Mount(prefix: seq<string>, name: string, table: seq<Route>)
    | OpaqueMount(prefix: seq<string>, name: string)
    | AppRoute(route: Route)

  /** The application's layers in the order they are registered (the
      development-mode `GET /` banner included). */
  const App: seq<Layer> := [
    Mount(["api", "products"], "products", ProductRoutes),
    Mount(["api", "users"], "users", UserRoutes),
    Mount(["api", "orders"], "orders", OrderRoutes),
    OpaqueMount(["api", "upload"], "upload"),
    AppRoute(Route(POST, [Lit("webhook")], Open, "webhook")),
    AppRoute(Route(GET, [Lit("api"), Lit("config"), Lit("stripe")], Open, "stripeConfig")),
    AppRoute(Route(GET, [], Open, "apiRunning"))
  ]

  /** The case folding of a case-insensitive regular expression on the
      ASCII letters; every other character is left as it is. */
  function LowerChar(c: char): (r: char)
    ensures 'A' <= c <= 'Z' ==> r as int == c as int + 32
    ensures !('A' <= c <= 'Z') ==> r == c
  {
    if 'A' <= c <= 'Z' then (c as int + 32) as char else c
  }

  function Lower(s: string): (r: string)
    ensures |r| == |s|
    ensures forall i :: 0 <= i < |s| ==> r[i] == LowerChar(s[i])
  {
    seq(|s|, i requires 0 <= i < |s| => LowerChar(s[i]))
  }

  /** A text with no upper-case ASCII letter is its own folding. */
  lemma LowerCaseFixed(t: string)
    requires forall i :: 0 <= i < |t| ==> !('A' <= t[i] <= 'Z')
    ensures Lower(t) == t
  {
    assert forall i :: 0 <= i < |t| ==> Lower(t)[i] == t[i];
  }

  /** Folding neither empties a segment nor adds or removes a slash. */
  lemma LowerKeepsPlain(s: string)
    ensures PlainSegment(s) <==> PlainSegment(Lower(s))
  {
    if '/' in s {
      var i :| 0 <= i < |s| && s[i] == '/';
      assert Lower(s)[i] == '/';
    }
    if '/' in Lower(s) {
      var i :| 0 <= i < |s| && Lower(s)[i] == '/';
      assert s[i] == '/';
    }
  }

  /** Whether segment `s` spells the lower-case word `t` in some mix of
      cases: a segment written exactly as the word does at once, any other
      when its folding is the word. Every literal in the tables and every
      mount prefix is such a word. */
  predicate SpellsWord(s: string, t: string)
  {
    s == t || Lower(s) == t
  }

  /** For a lower-case word, spelling it is exactly folding to it. */
  lemma SpellsWordIsFolding(s: string, t: string)
    requires Lower(t) == t
    ensures SpellsWord(s, t) <==> Lower(s) == t
  {
  }

  predicate SegMatches(p: Seg, s: string)
  {
    match p
    case Lit(t) => SpellsWord(s, t)
    case Param(_) => s != ""
  }

  predicate PathMatches(pattern: seq<Seg>, path: seq<string>)
  {
    |pattern| == |path| &&
    (pattern == [] || (SegMatches(pattern[0], path[0]) && PathMatches(pattern[1..], path[1..])))
  }

  predicate Handles(r: Route, m: Method, path: seq<string>)
  {
    r.verb == m && PathMatches(r.pattern, path)
  }

  /** Index of the first route at or after `k` that handles the request. */
  function FirstMatchFrom(table: seq<Route>, m: Method, path: seq<string>, k: nat): (r: Option<nat>)
    requires k <= |table|
    ensures r.Some? ==> k <= r.value < |table| && Handles(table[r.value], m, path)
    ensures r.Some? ==> forall j :: k <= j < r.value ==> !Handles(table[j], m, path)
    ensures r.None? ==> forall j :: k <= j < |table| ==> !Handles(table[j], m, path)
    decreases |table| - k
  {
    if k == |table| then None
    else if Handles(table[k], m, path) then Some(k)
    else FirstMatchFrom(table, m, path, k + 1)
  }

  /** Express first-match: the earliest route of the table that handles the
      request, if any. */
  function FirstMatch(table: seq<Route>, m: Method, path: seq<string>): (r: Option<nat>)
    ensures r.Some? ==> r.value < |table| && Handles(table[r.value], m, path)
    ensures r.Some? ==> forall j :: 0 <= j < r.value ==> !Handles(table[j], m, path)
    ensures r.None? <==> forall j :: 0 <= j < |table| ==> !Handles(table[j], m, path)
  {
    FirstMatchFrom(table, m, path, 0)
  }

  /** The first-match result is pinned down by one handling route with no
      handling route before it. */
  lemma FirstMatchIs(table: seq<Route>, m: Method, path: seq<string>, k: nat)
    requires k < |table| && Handles(table[k], m, path)
    requires forall j :: 0 <= j < k ==> !Handles(table[j], m, path)
    ensures FirstMatch(table, m, path) == Some(k)
  {
    var r := FirstMatch(table, m, path);
    assert Handles(table[k], m, path);
    assert r.Some?;
    assert Handles(table[r.value], m, path);
  }

  /** The folding of every segment of a path. */
  function LowerAll(path: seq<string>): (r: seq<string>)
    ensures |r| == |path|
    ensures forall i :: 0 <= i < |path| ==> r[i] == Lower(path[i])
  {
    seq(|path|, i requires 0 <= i < |path| => Lower(path[i]))
  }

  /** A mount prefix, like every other path, is matched case-insensitively:
      the path starts with the prefix as written, or its folding does. */
  predicate HasPrefix(path: seq<string>, prefix: seq<string>)
  {
    |prefix| <= |path| && (path[..|prefix|] == prefix || LowerAll(path[..|prefix|]) == prefix)
  }

  /** For a lower-case prefix, that is exactly the folded comparison. */
  lemma HasPrefixIsFolding(path: seq<string>, prefix: seq<string>)
    requires LowerAll(prefix) == prefix
    ensures HasPrefix(path, prefix) <==> |prefix| <= |path| && LowerAll(path[..|prefix|]) == prefix
  {
  }

  /** Where a request ends up: a route of some router or of the application,
      the unmodelled upload router, or the not-found handler. */
  datatype Target =
    | Handler(layer: string, route: Route)
    | Unmodelled(layer: string)
    | NotFound

  function DispatchFrom(layers: seq<Layer>, m: Method, path: seq<string>, k: nat): Target
    requires k <= |layers|
    decreases |layers| - k
  {
    if k == |layers| then NotFound
    else match layers[k]
      case Mount(prefix, name, table) =>
        if HasPrefix(path, prefix) then
          match FirstMatch(table, m, path[|prefix|..])
          case Some(i) => Handler(name, table[i])
          case None => DispatchFrom(layers, m, path, k + 1)
        else DispatchFrom(layers, m, path, k + 1)
      case OpaqueMount(prefix, name) =>
        if HasPrefix(path, prefix) then Unmodelled(name) else DispatchFrom(layers, m, path, k + 1)
      case AppRoute(route) =>
        if Handles(route, m, path) then Handler("app", route) else DispatchFrom(layers, m, path, k + 1)
  }

  function Dispatch(m: Method, path: seq<string>): Target
  {
    DispatchFrom(App, m, path, 0)
  }

  /** A request under `/api/users/...` that the user router handles at row
      `k`, with no earlier row handling it, reaches that row. */
  lemma UsersRow(m: Method, rest: seq<string>, k: nat)
    requires k < |UserRoutes| && Handles(UserRoutes[k], m, rest)
    requires forall j :: 0 <= j < k ==> !Handles(UserRoutes[j], m, rest)
    ensures Dispatch(m, ["api", "users"] + rest) == Handler("users", UserRoutes[k])
  {
    FirstMatchIs(UserRoutes, m, rest, k);
    LowerCaseFixed("api");
    LowerCaseFixed("users");
    var path := ["api", "users"] + rest;
    assert path[..2] == ["api", "users"];
    assert path[2..] == rest;
    assert !HasPrefix(path, ["api", "products"]) by {
      assert LowerAll(path[..2])[1] == Lower("users");
    }
    assert Dispatch(m, path) == DispatchFrom(App, m, path, 1);
  }

  lemma ProductsRow(m: Method, rest: seq<string>, k: nat)
    requires k < |ProductRoutes| && Handles(ProductRoutes[k], m, rest)
    requires forall j :: 0 <= j < k ==> !Handles(ProductRoutes[j], m, rest)
    ensures Dispatch(m, ["api", "products"] + rest) == Handler("products", ProductRoutes[k])
  {
    FirstMatchIs(ProductRoutes, m, rest, k);
    LowerCaseFixed("api");
    LowerCaseFixed("products");
    var path := ["api", "products"] + rest;
    assert path[..2] == ["api", "products"];
    assert path[2..] == rest;
  }

  lemma OrdersRow(m: Method, rest: seq<string>, k: nat)
    requires k < |OrderRoutes| && Handles(OrderRoutes[k], m, rest)
    requires forall j :: 0 <= j < k ==> !Handles(OrderRoutes[j], m, rest)
    ensures Dispatch(m, ["api", "orders"] + rest) == Handler("orders", OrderRoutes[k])
  {
    FirstMatchIs(OrderRoutes, m, rest, k);
    LowerCaseFixed("api");
    LowerCaseFixed("orders");
    var path := ["api", "orders"] + rest;
    assert path[..2] == ["api", "orders"];
    assert path[2..] == rest;
    assert !HasPrefix(path, ["api", "products"]) by {
      assert LowerAll(path[..2])[1] == Lower("orders");
    }
    assert !HasPrefix(path, ["api", "users"]) by {
      assert LowerAll(path[..2])[1] == Lower("orders");
    }
    assert Dispatch(m, path) == DispatchFrom(App, m, path, 1);
    assert DispatchFrom(App, m, path, 1) == DispatchFrom(App, m, path, 2);
  }

  /* One lemma per route a request can reach, each pinning the dispatch of
     one request shape to its table row; the grouped lemmas below state
     the routing facts in terms of these. */

  /* A literal route is reached by its word in any mix of cases. */

  lemma GetProfileAnyCase(s: string)
    requires Lower(s) == "profile"
    ensures Dispatch(GET, ["api", "users", s]) == Handler("users", Route(GET, [Lit("profile")], Auth, "getUserProfile"))
  {
    UsersRow(GET, [s], 4);
    assert ["api", "users"] + [s] == ["api", "users", s];
  }

  lemma GetProfileRoute()
    ensures Dispatch(GET, ["api", "users", "profile"]) == Handler("users", Route(GET, [Lit("profile")], Auth, "getUserProfile"))
  {
    LowerCaseFixed("profile");
    GetProfileAnyCase("profile");
  }

  lemma GetWishlistAnyCase(s: string)
    requires Lower(s) == "wishlist"
    ensures Dispatch(GET, ["api", "users", s]) == Handler("users", Route(GET, [Lit("wishlist")], Auth, "getWishlist"))
  {
    LowerCaseFixed("profile");
    UsersRow(GET, [s], 7);
    assert ["api", "users"] + [s] == ["api", "users", s];
  }

  lemma GetWishlistRoute()
    ensures Dispatch(GET, ["api", "users", "wishlist"]) == Handler("users", Route(GET, [Lit("wishlist")], Auth, "getWishlist"))
  {
    LowerCaseFixed("wishlist");
    GetWishlistAnyCase("wishlist");
  }

  lemma GetMyOrdersAnyCase(s: string)
    requires Lower(s) == "myorders"
    ensures Dispatch(GET, ["api", "users", s]) == Handler("users", Route(GET, [Lit("myorders")], Auth, "getMyOrders"))
  {
    LowerCaseFixed("profile");
    LowerCaseFixed("wishlist");
    UsersRow(GET, [s], 9);
    assert ["api", "users"] + [s] == ["api", "users", s];
  }

  lemma GetMyOrdersRoute()
    ensures Dispatch(GET, ["api", "users", "myorders"]) == Handler("users", Route(GET, [Lit("myorders")], Auth, "getMyOrders"))
  {
    LowerCaseFixed("myorders");
    GetMyOrdersAnyCase("myorders");
  }

  lemma GetUserRoute(s: string)
    requires PlainSegment(s) && Lower(s) !in {"profile", "wishlist", "myorders"}
    ensures Dispatch(GET, ["api", "users", s]) == Handler("users", Route(GET, [Param("id")], AuthAdmin, "getUserById"))
  {
    LowerCaseFixed("profile");
    LowerCaseFixed("wishlist");
    LowerCaseFixed("myorders");
    UsersRow(GET, [s], 11);
    assert ["api", "users"] + [s] == ["api", "users", s];
  }

  lemma RegisterRoute()
    ensures Dispatch(POST, ["api", "users"]) == Handler("users", Route(POST, [], Open, "registerUser"))
  {
    UsersRow(POST, [], 0);
    assert ["api", "users"] + [] == ["api", "users"];
  }

  lemma GetUsersRoute()
    ensures Dispatch(GET, ["api", "users"]) == Handler("users", Route(GET, [], AuthAdmin, "getUsers"))
  {
    UsersRow(GET, [], 1);
    assert ["api", "users"] + [] == ["api", "users"];
  }

  lemma LoginRoute()
    ensures Dispatch(POST, ["api", "users", "login"]) == Handler("users", Route(POST, [Lit("login")], Open, "authUser"))
  {
    LowerCaseFixed("login");
    UsersRow(POST, ["login"], 2);
    assert ["api", "users"] + ["login"] == ["api", "users", "login"];
  }

  lemma LogoutRoute()
    ensures Dispatch(POST, ["api", "users", "logout"]) == Handler("users", Route(POST, [Lit("logout")], Open, "logoutUser"))
  {
    LowerCaseFixed("logout");
    UsersRow(POST, ["logout"], 3);
    assert ["api", "users"] + ["logout"] == ["api", "users", "logout"];
  }

  lemma UpdateProfileAnyCase(s: string)
    requires Lower(s) == "profile"
    ensures Dispatch(PUT, ["api", "users", s]) == Handler("users", Route(PUT, [Lit("profile")], Auth, "updateUserProfile"))
  {
    UsersRow(PUT, [s], 5);
    assert ["api", "users"] + [s] == ["api", "users", s];
  }

  lemma UpdateProfileRoute()
    ensures Dispatch(PUT, ["api", "users", "profile"]) == Handler("users", Route(PUT, [Lit("profile")], Auth, "updateUserProfile"))
  {
    LowerCaseFixed("profile");
    UpdateProfileAnyCase("profile");
  }

  lemma AddToWishlistRoute()
    ensures Dispatch(POST, ["api", "users", "wishlist"]) == Handler("users", Route(POST, [Lit("wishlist")], Auth, "addToWishlist"))
  {
    LowerCaseFixed("wishlist");
    UsersRow(POST, ["wishlist"], 6);
    assert ["api", "users"] + ["wishlist"] == ["api", "users", "wishlist"];
  }

  lemma RemoveFromWishlistRoute(id: string)
    requires PlainSegment(id)
    ensures Dispatch(DELETE, ["api", "users", "wishlist", id]) == Handler("users", Route(DELETE, [Lit("wishlist"), Param("id")], Auth, "removeFromWishlist"))
  {
    LowerCaseFixed("wishlist");
    UsersRow(DELETE, ["wishlist", id], 8);
    assert ["api", "users"] + ["wishlist", id] == ["api", "users", "wishlist", id];
  }

  lemma DeleteUserRoute(id: string)
    requires PlainSegment(id)
    ensures Dispatch(DELETE, ["api", "users", id]) == Handler("users", Route(DELETE, [Param("id")], AuthAdmin, "deleteUser"))
  {
    UsersRow(DELETE, [id], 10);
    assert ["api", "users"] + [id] == ["api", "users", id];
  }

  lemma UpdateUserRoute(id: string)
    requires PlainSegment(id) && Lower(id) != "profile"
    ensures Dispatch(PUT, ["api", "users", id]) == Handler("users", Route(PUT, [Param("id")], AuthAdmin, "updateUser"))
  {
    LowerCaseFixed("profile");
    UsersRow(PUT, [id], 12);
    assert ["api", "users"] + [id] == ["api", "users", id];
  }

  lemma AddOrderRoute()
    ensures Dispatch(POST, ["api", "orders"]) == Handler("orders", Route(POST, [], Auth, "addOrderItems"))
  {
    OrdersRow(POST, [], 0);
    assert ["api", "orders"] + [] == ["api", "orders"];
  }

  lemma GetOrdersRoute()
    ensures Dispatch(GET, ["api", "orders"]) == Handler("orders", Route(GET, [], AuthAdmin, "getOrders"))
  {
    OrdersRow(GET, [], 1);
    assert ["api", "orders"] + [] == ["api", "orders"];
  }

  lemma MyOrdersAnyCase(s: string)
    requires Lower(s) == "myorders"
    ensures Dispatch(GET, ["api", "orders", s]) == Handler("orders", Route(GET, [Lit("myorders")], Auth, "getMyOrders"))
  {
    OrdersRow(GET, [s], 2);
    assert ["api", "orders"] + [s] == ["api", "orders", s];
  }

  lemma MyOrdersRoute()
    ensures Dispatch(GET, ["api", "orders", "myorders"]) == Handler("orders", Route(GET, [Lit("myorders")], Auth, "getMyOrders"))
  {
    LowerCaseFixed("myorders");
    MyOrdersAnyCase("myorders");
  }

  lemma GetOrderRoute(id: string)
    requires PlainSegment(id) && Lower(id) != "myorders"
    ensures Dispatch(GET, ["api", "orders", id]) == Handler("orders", Route(GET, [Param("id")], Auth, "getOrderById"))
  {
    LowerCaseFixed("myorders");
    OrdersRow(GET, [id], 3);
    assert ["api", "orders"] + [id] == ["api", "orders", id];
  }

  lemma PayOrderRoute(id: string)
    requires PlainSegment(id)
    ensures Dispatch(PUT, ["api", "orders", id, "pay"]) == Handler("orders", Route(PUT, [Param("id"), Lit("pay")], Auth, "updateOrderToPaid"))
  {
    LowerCaseFixed("pay");
    OrdersRow(PUT, [id, "pay"], 4);
    assert ["api", "orders"] + [id, "pay"] == ["api", "orders", id, "pay"];
  }

  lemma DeliverOrderRoute(id: string)
    requires PlainSegment(id)
    ensures Dispatch(PUT, ["api", "orders", id, "deliver"]) == Handler("orders", Route(PUT, [Param("id"), Lit("deliver")], AuthAdmin, "updateOrderToDelivered"))
  {
    LowerCaseFixed("deliver");
    assert !PathMatches([Param("id"), Lit("pay")], [id, "deliver"]) by {
      assert [id, "deliver"][1..] == ["deliver"];
    }
    OrdersRow(PUT, [id, "deliver"], 5);
    assert ["api", "orders"] + [id, "deliver"] == ["api", "orders", id, "deliver"];
  }

  lemma PaymentIntentRoute(id: string)
    requires PlainSegment(id)
    ensures Dispatch(POST, ["api", "orders", id, "create-payment-intent"]) == Handler("orders", Route(POST, [Param("id"), Lit("create-payment-intent")], Auth, "createPaymentIntent"))
  {
    LowerCaseFixed("create-payment-intent");
    OrdersRow(POST, [id, "create-payment-intent"], 6);
    assert ["api", "orders"] + [id, "create-payment-intent"] == ["api", "orders", id, "create-payment-intent"];
  }

  lemma ProductListRoute()
    ensures Dispatch(GET, ["api", "products"]) == Handler("products", Route(GET, [], Open, "getProducts"))
  {
    ProductsRow(GET, [], 0);
    assert ["api", "products"] + [] == ["api", "products"];
  }

  lemma TopProductsAnyCase(s: string)
    requires Lower(s) == "top"
    ensures Dispatch(GET, ["api", "products", s]) == Handler("products", Route(GET, [Lit("top")], Open, "getTopProducts"))
  {
    ProductsRow(GET, [s], 1);
    assert ["api", "products"] + [s] == ["api", "products", s];
  }

  lemma TopProductsRoute()
    ensures Dispatch(GET, ["api", "products", "top"]) == Handler("products", Route(GET, [Lit("top")], Open, "getTopProducts"))
  {
    LowerCaseFixed("top");
    TopProductsAnyCase("top");
  }

  lemma ProductDetailsRoute(id: string)
    requires PlainSegment(id) && Lower(id) != "top"
    ensures Dispatch(GET, ["api", "products", id]) == Handler("products", Route(GET, [Param("id")], Open, "getProductById"))
  {
    LowerCaseFixed("top");
    ProductsRow(GET, [id], 2);
    assert ["api", "products"] + [id] == ["api", "products", id];
  }

  lemma ReviewRoute(id: string)
    requires PlainSegment(id)
    ensures Dispatch(POST, ["api", "products", id, "reviews"]) == Handler("products", Route(POST, [Param("id"), Lit("reviews")], Auth, "createProductReview"))
  {
    LowerCaseFixed("reviews");
    ProductsRow(POST, [id, "reviews"], 3);
    assert ["api", "products"] + [id, "reviews"] == ["api", "products", id, "reviews"];
  }

  lemma CreateProductRoute()
    ensures Dispatch(POST, ["api", "products"]) == Handler("products", Route(POST, [], AuthAdmin, "createProduct"))
  {
    ProductsRow(POST, [], 4);
    assert ["api", "products"] + [] == ["api", "products"];
  }

  lemma DeleteProductRoute(id: string)
    requires PlainSegment(id)
    ensures Dispatch(DELETE, ["api", "products", id]) == Handler("products", Route(DELETE, [Param("id")], AuthAdmin, "deleteProduct"))
  {
    ProductsRow(DELETE, [id], 5);
    assert ["api", "products"] + [id] == ["api", "products", id];
  }

  lemma UpdateProductRoute(id: string)
    requires PlainSegment(id)
    ensures Dispatch(PUT, ["api", "products", id]) == Handler("products", Route(PUT, [Param("id")], AuthAdmin, "updateProduct"))
  {
    ProductsRow(PUT, [id], 6);
    assert ["api", "products"] + [id] == ["api", "products", id];
  }

  /** Registering, logging in and logging out need no session; listing
      users needs `protect` then `admin`. */
  lemma UserEntryRoutes()
    ensures Dispatch(POST, ["api", "users"]) == Handler("users", Route(POST, [], Open, "registerUser"))
    ensures Dispatch(GET, ["api", "users"]) == Handler("users", Route(GET, [], AuthAdmin, "getUsers"))
    ensures Dispatch(POST, ["api", "users", "login"]) == Handler("users", Route(POST, [Lit("login")], Open, "authUser"))
    ensures Dispatch(POST, ["api", "users", "logout"]) == Handler("users", Route(POST, [Lit("logout")], Open, "logoutUser"))
  {
    RegisterRoute();
    GetUsersRoute();
    LoginRoute();
    LogoutRoute();
  }

  /** What a GET of `/api/users/<s>` reaches, for every plain segment `s`:
      a segment spelling one of the three literal routes declared before
      `/:id`, in any case, reaches that route, and everything else,
      `refresh` included, is an admin-only user lookup. */
  lemma UserGetBySegment(s: string)
    requires PlainSegment(s)
    ensures Lower(s) == "profile" ==>
      Dispatch(GET, ["api", "users", s]) == Handler("users", Route(GET, [Lit("profile")], Auth, "getUserProfile"))
    ensures Lower(s) == "wishlist" ==>
      Dispatch(GET, ["api", "users", s]) == Handler("users", Route(GET, [Lit("wishlist")], Auth, "getWishlist"))
    ensures Lower(s) == "myorders" ==>
      Dispatch(GET, ["api", "users", s]) == Handler("users", Route(GET, [Lit("myorders")], Auth, "getMyOrders"))
    ensures Lower(s) !in {"profile", "wishlist", "myorders"} ==>
      Dispatch(GET, ["api", "users", s]) == Handler("users", Route(GET, [Param("id")], AuthAdmin, "getUserById"))
  {
    if Lower(s) == "profile" {
      GetProfileAnyCase(s);
    } else if Lower(s) == "wishlist" {
      GetWishlistAnyCase(s);
    } else if Lower(s) == "myorders" {
      GetMyOrdersAnyCase(s);
    } else {
      GetUserRoute(s);
    }
  }

  /** There is no refresh route: the client's refresh request lands on the
      admin-only `GET /:id`. */
  lemma RefreshIsAdminLookup()
    ensures Dispatch(GET, ["api", "users", "refresh"]) ==
      Handler("users", Route(GET, [Param("id")], AuthAdmin, "getUserById"))
  {
    LowerCaseFixed("refresh");
    UserGetBySegment("refresh");
  }

  /** The profile update and the wishlist routes need `protect` only. */
  lemma UserSelfRoutes(id: string)
    requires PlainSegment(id)
    ensures Dispatch(PUT, ["api", "users", "profile"]) == Handler("users", Route(PUT, [Lit("profile")], Auth, "updateUserProfile"))
    ensures Dispatch(POST, ["api", "users", "wishlist"]) == Handler("users", Route(POST, [Lit("wishlist")], Auth, "addToWishlist"))
    ensures Dispatch(DELETE, ["api", "users", "wishlist", id]) ==
      Handler("users", Route(DELETE, [Lit("wishlist"), Param("id")], Auth, "removeFromWishlist"))
  {
    UpdateProfileRoute();
    AddToWishlistRoute();
    RemoveFromWishlistRoute(id);
  }

  /** DELETE and PUT of `/api/users/<id>` run `protect` then `admin`, except
      that a PUT to `profile`, in any case, is the self-service update. */
  lemma UserAdminRoutes(id: string)
    requires PlainSegment(id)
    ensures Dispatch(DELETE, ["api", "users", id]) == Handler("users", Route(DELETE, [Param("id")], AuthAdmin, "deleteUser"))
    ensures Lower(id) != "profile" ==>
      Dispatch(PUT, ["api", "users", id]) == Handler("users", Route(PUT, [Param("id")], AuthAdmin, "updateUser"))
    ensures Lower(id) == "profile" ==>
      Dispatch(PUT, ["api", "users", id]) == Handler("users", Route(PUT, [Lit("profile")], Auth, "updateUserProfile"))
  {
    DeleteUserRoute(id);
    if Lower(id) != "profile" {
      UpdateUserRoute(id);
    } else {
      UpdateProfileAnyCase(id);
    }
  }

  /** Every order route starts with `protect`; none is public. */
  lemma OrderRoutesAllProtected()
    ensures forall i :: 0 <= i < |OrderRoutes| ==>
      |OrderRoutes[i].guards| >= 1 && OrderRoutes[i].guards[0] == Guard.RequireAuth
    ensures forall i :: 0 <= i < |OrderRoutes| ==>
      (Guard.RequireAdmin in OrderRoutes[i].guards <==>
        OrderRoutes[i].handler in {"getOrders", "updateOrderToDelivered"})
  {
  }

  /** Listing all orders is admin-only; creating one and listing one's own
      need `protect` only, and `myorders` is declared before `/:id` so it
      is never taken for an order id, in any case. */
  lemma OrderCollectionRequests(id: string)
    requires PlainSegment(id)
    ensures Dispatch(POST, ["api", "orders"]) == Handler("orders", Route(POST, [], Auth, "addOrderItems"))
    ensures Dispatch(GET, ["api", "orders"]) == Handler("orders", Route(GET, [], AuthAdmin, "getOrders"))
    ensures Lower(id) == "myorders" ==>
      Dispatch(GET, ["api", "orders", id]) == Handler("orders", Route(GET, [Lit("myorders")], Auth, "getMyOrders"))
    ensures Lower(id) != "myorders" ==>
      Dispatch(GET, ["api", "orders", id]) == Handler("orders", Route(GET, [Param("id")], Auth, "getOrderById"))
  {
    AddOrderRoute();
    GetOrdersRoute();
    if Lower(id) == "myorders" {
      MyOrdersAnyCase(id);
    } else {
      GetOrderRoute(id);
    }
  }

  /** Paying an order and asking for a payment intent need `protect` only;
      marking it delivered also needs `admin`. */
  lemma OrderItemRequests(id: string)
    requires PlainSegment(id)
    ensures Dispatch(PUT, ["api", "orders", id, "pay"]) ==
      Handler("orders", Route(PUT, [Param("id"), Lit("pay")], Auth, "updateOrderToPaid"))
    ensures Dispatch(PUT, ["api", "orders", id, "deliver"]) ==
      Handler("orders", Route(PUT, [Param("id"), Lit("deliver")], AuthAdmin, "updateOrderToDelivered"))
    ensures Dispatch(POST, ["api", "orders", id, "create-payment-intent"]) ==
      Handler("orders", Route(POST, [Param("id"), Lit("create-payment-intent")], Auth, "createPaymentIntent"))
  {
    PayOrderRoute(id);
    DeliverOrderRoute(id);
    PaymentIntentRoute(id);
  }

  /** Reading the catalogue is public; every product write needs `protect`,
      and all but posting a review also need `admin`. */
  lemma ProductRoutesGuards()
    ensures forall i :: 0 <= i < |ProductRoutes| ==> (ProductRoutes[i].verb == GET <==> ProductRoutes[i].guards == Open)
    ensures forall i :: 0 <= i < |ProductRoutes| && ProductRoutes[i].verb != GET ==>
      ProductRoutes[i].guards == (if ProductRoutes[i].handler == "createProductReview" then Auth else AuthAdmin)
  {
  }

  /** The public catalogue reads, for every plain product id: `top` is
      declared before `/:id` and so is never taken for an id, in any case. */
  lemma ProductReadRequests(id: string)
    requires PlainSegment(id)
    ensures Dispatch(GET, ["api", "products"]) == Handler("products", Route(GET, [], Open, "getProducts"))
    ensures Lower(id) == "top" ==>
      Dispatch(GET, ["api", "products", id]) == Handler("products", Route(GET, [Lit("top")], Open, "getTopProducts"))
    ensures Lower(id) != "top" ==>
      Dispatch(GET, ["api", "products", id]) == Handler("products", Route(GET, [Param("id")], Open, "getProductById"))
  {
    ProductListRoute();
    if Lower(id) == "top" {
      TopProductsAnyCase(id);
    } else {
      ProductDetailsRoute(id);
    }
  }

  /** The catalogue writes, for every plain product id. */
  lemma ProductWriteRequests(id: string)
    requires PlainSegment(id)
    ensures Dispatch(POST, ["api", "products", id, "reviews"]) ==
      Handler("products", Route(POST, [Param("id"), Lit("reviews")], Auth, "createProductReview"))
    ensures Dispatch(POST, ["api", "products"]) == Handler("products", Route(POST, [], AuthAdmin, "createProduct"))
    ensures Dispatch(DELETE, ["api", "products", id]) == Handler("products", Route(DELETE, [Param("id")], AuthAdmin, "deleteProduct"))
    ensures Dispatch(PUT, ["api", "products", id]) == Handler("products", Route(PUT, [Param("id")], AuthAdmin, "updateProduct"))
  {
    ReviewRoute(id);
    CreateProductRoute();
    DeleteProductRoute(id);
    UpdateProductRoute(id);
  }

  /** Every guard chain in every table is one of the three shapes, so
      `admin` never runs without `protect` before it. */
  predicate WellFormedChain(g: seq<Guard.Guard>)
  {
    g == Open || g == Auth || g == AuthAdmin
  }

  lemma AllChainsWellFormed()
    ensures forall i :: 0 <= i < |UserRoutes| ==> WellFormedChain(UserRoutes[i].guards)
    ensures forall i :: 0 <= i < |OrderRoutes| ==> WellFormedChain(OrderRoutes[i].guards)
    ensures forall i :: 0 <= i < |ProductRoutes| ==> WellFormedChain(ProductRoutes[i].guards)
  {
  }

  /** The payment webhook is an application route with no guard: it is
      reached without any session. */
  lemma WebhookIsOpen()
    ensures Dispatch(POST, ["webhook"]) == Handler("app", Route(POST, [Lit("webhook")], Open, "webhook"))
  {
    LowerCaseFixed("webhook");
    var p := ["webhook"];
    assert Dispatch(POST, p) == DispatchFrom(App, POST, p, 1);
    assert DispatchFrom(App, POST, p, 1) == DispatchFrom(App, POST, p, 2);
    assert DispatchFrom(App, POST, p, 2) == DispatchFrom(App, POST, p, 3);
    assert DispatchFrom(App, POST, p, 3) == DispatchFrom(App, POST, p, 4);
  }

  /** So is the endpoint that hands the client its payment key. */
  lemma ConfigIsOpen()
    ensures Dispatch(GET, ["api", "config", "stripe"]) == Handler("app", Route(GET, [Lit("api"), Lit("config"), Lit("stripe")], Open, "stripeConfig"))
  {
    LowerCaseFixed("api");
    LowerCaseFixed("config");
    LowerCaseFixed("stripe");
    var q := ["api", "config", "stripe"];
    assert !HasPrefix(q, ["api", "products"]) by {
      assert LowerAll(q[..2])[1] == Lower("config");
    }
    assert !HasPrefix(q, ["api", "users"]) by {
      assert LowerAll(q[..2])[1] == Lower("config");
    }
    assert !HasPrefix(q, ["api", "orders"]) by {
      assert LowerAll(q[..2])[1] == Lower("config");
    }
    assert !HasPrefix(q, ["api", "upload"]) by {
      assert LowerAll(q[..2])[1] == Lower("config");
    }
    assert Dispatch(GET, q) == DispatchFrom(App, GET, q, 1);
    assert DispatchFrom(App, GET, q, 1) == DispatchFrom(App, GET, q, 2);
    assert DispatchFrom(App, GET, q, 2) == DispatchFrom(App, GET, q, 3);
    assert DispatchFrom(App, GET, q, 3) == DispatchFrom(App, GET, q, 4);
    assert DispatchFrom(App, GET, q, 4) == DispatchFrom(App, GET, q, 5);
  }

  /** Everything under `/api/upload`, in any case and with any method,
      goes to the upload router. */
  lemma UploadIsOpaque(m: Method, p: seq<string>)
    requires HasPrefix(p, ["api", "upload"])
    ensures Dispatch(m, p) == Unmodelled("upload")
  {
    LowerCaseFixed("upload");
    assert Lower(p[1]) == "upload" by {
      if p[..2] != ["api", "upload"] {
        assert LowerAll(p[..2])[1] == Lower(p[1]);
      }
    }
    OtherMountMisses(p, "products");
    OtherMountMisses(p, "users");
    OtherMountMisses(p, "orders");
    assert Dispatch(m, p) == DispatchFrom(App, m, p, 1);
    assert DispatchFrom(App, m, p, 1) == DispatchFrom(App, m, p, 2);
    assert DispatchFrom(App, m, p, 2) == DispatchFrom(App, m, p, 3);
  }

  /** A path whose second segment folds to "upload" is under no mount for
      another lower-case resource word. */
  lemma OtherMountMisses(p: seq<string>, word: string)
    requires |p| >= 2 && Lower(p[1]) == "upload" && Lower(word) == word && word != "upload"
    ensures !HasPrefix(p, ["api", word])
  {
    assert p[..2][1] == p[1];
    assert LowerAll(p[..2])[1] == Lower(p[1]);
  }
}
