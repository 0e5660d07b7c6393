/** The client's API endpoints (the users and products slices): each is a
    pure function from its argument to a request descriptor, plus the cache
    tags a query provides and a mutation invalidates.

    Arguments the client interpolates into a URL are optional strings, as
    in JavaScript, where a missing argument prints as "undefined". */
module Client {
  import opened Js
  import opened Http
  import Routes
  import Guard

  const UsersUrl := "/api/users"
  const ProductsUrl := "/api/products"
  const UploadUrl := "/api/upload"

  predicate HasBase(url: string, base: string)
  {
    |base| <= |url| && url[..|base|] == base
  }

  datatype Endpoint =
    // users slice
    | Login(data: Data)
    | Register(data: Data)
    | Logout
    | UpdateUserProfile(data: Data)
    | GetUsers
    | DeleteUser(userId: Option<string>)
    | GetUserDetails(userId: Option<string>)
    | UpdateUserByAdmin(data: Data)
    | GetMyOrders
    | GetWishlist
    | AddToWishlist(productId: Option<string>)
    | RemoveFromWishlist(productId: Option<string>)
    // products slice
    | GetProducts(keyword: Option<string>, pageNumber: Option<string>)
    | GetProductDetails(productId: Option<string>)
    | CreateProduct
    | UpdateProduct(data: Data)
    | DeleteProduct(productId: Option<string>)
    | CreateReview(data: Data)
    | GetTopProducts
    | UploadProductImage(data: Data)

  predicate InUsersSlice(e: Endpoint)
  {
    e.Login? || e.Register? || e.Logout? || e.UpdateUserProfile? || e.GetUsers? || e.DeleteUser? ||
    e.GetUserDetails? || e.UpdateUserByAdmin? || e.GetMyOrders? || e.GetWishlist? ||
    e.AddToWishlist? || e.RemoveFromWishlist?
  }

  /** Endpoints declared with `builder.mutation` (the rest are queries). */
  predicate IsMutation(e: Endpoint)
  {
    e.Login? || e.Register? || e.Logout? || e.UpdateUserProfile? || e.DeleteUser? ||
    e.UpdateUserByAdmin? || e.AddToWishlist? || e.RemoveFromWishlist? ||
    e.CreateProduct? || e.UpdateProduct? || e.DeleteProduct? || e.CreateReview? || e.UploadProductImage?
  }

  /** The request each endpoint's `query` builder produces. */
  function Request(e: Endpoint): Descriptor
  {
    match e
    case Login(data) => Descriptor(POST, UsersUrl + "/login", [], Payload(data))
    case Register(data) => Descriptor(POST, UsersUrl, [], Payload(data))
    case Logout => Descriptor(POST, UsersUrl + "/logout", [], NoBody)
    case UpdateUserProfile(data) => Descriptor(PUT, UsersUrl + "/profile", [], Payload(data))
    case GetUsers => Get(UsersUrl)
    case DeleteUser(id) => Descriptor(DELETE, UsersUrl + "/" + Interp(id), [], NoBody)
    case GetUserDetails(id) => Get(UsersUrl + "/" + Interp(id))
    case UpdateUserByAdmin(data) =>
      Descriptor(PUT, UsersUrl + "/" + Interp(FieldArg(data, "userId")), [], Payload(data))
    case GetMyOrders => Get(UsersUrl + "/myorders")
    case GetWishlist => Get(UsersUrl + "/wishlist")
    case AddToWishlist(pid) =>
      // `{ productId }` with an undefined value serialises without the key
      var fields := if pid.Some? then map["productId" := pid.value] else map[];
      Descriptor(POST, UsersUrl + "/wishlist", [], Payload(Data(fields)))
    case RemoveFromWishlist(pid) => Descriptor(DELETE, UsersUrl + "/wishlist/" + Interp(pid), [], NoBody)
    case GetProducts(keyword, pageNumber) =>
      Descriptor(GET, ProductsUrl, [("keyword", keyword), ("pageNumber", pageNumber)], NoBody)
    case GetProductDetails(id) => Get(ProductsUrl + "/" + Interp(id))
    case CreateProduct => Descriptor(POST, ProductsUrl, [], NoBody)
    case UpdateProduct(data) =>
      Descriptor(PUT, ProductsUrl + "/" + Interp(FieldArg(data, "productId")), [], Payload(data))
    case DeleteProduct(id) => Descriptor(DELETE, ProductsUrl + "/" + Interp(id), [], NoBody)
    case CreateReview(data) =>
      Descriptor(POST, ProductsUrl + "/" + Interp(FieldArg(data, "productId")) + "/reviews", [], Payload(data))
    case GetTopProducts => Get(ProductsUrl + "/top")
    case UploadProductImage(data) => Descriptor(POST, UploadUrl, [], Payload(data))
  }

  /** The shape of every request: each users-slice URL starts with the
      users base and each products-slice URL (upload aside) with the
      products base; queries are bodiless GETs; logout, product creation
      and the deletions send no body; only the product list has query
      parameters, and the mutations that carry data send it whole. */
  lemma RequestShape(e: Endpoint)
    ensures InUsersSlice(e) ==> HasBase(Request(e).url, UsersUrl)
    ensures !InUsersSlice(e) && !e.UploadProductImage? ==> HasBase(Request(e).url, ProductsUrl)
    ensures !IsMutation(e) <==> Request(e).verb == GET
    ensures !IsMutation(e) ==> Request(e).body == NoBody
    ensures (e.Logout? || e.CreateProduct? || e.DeleteUser? || e.DeleteProduct? || e.RemoveFromWishlist?) ==>
      Request(e).body == NoBody
    ensures Request(e).params != [] <==> e.GetProducts?
    ensures (e.Login? || e.Register? || e.UpdateUserProfile? || e.UpdateUserByAdmin? ||
             e.UpdateProduct? || e.CreateReview? || e.UploadProductImage?) ==>
      Request(e).body == Payload(e.data)
  {
  }

  /** Cache tags. `Products` (plural) is the tag the products slice uses;
      `User` the one the users slice uses. */
  datatype Tag = User | Products

  function Provides(e: Endpoint): set<Tag>
  {
    match e
    case GetUsers => {User}
    case GetProducts(_, _) => {Products}
    case _ => {}
  }

  function Invalidates(e: Endpoint): set<Tag>
  {
    match e
    case UpdateUserProfile(_) => {User}
    case UpdateUserByAdmin(_) => {User}
    case CreateProduct => {Products}
    case UpdateProduct(_) => {Products}
    case DeleteProduct(_) => {Products}
    case CreateReview(_) => {Products}
    case _ => {}
  }

  /** A completed mutation `m`, fulfilled or rejected with an HTTP error,
      makes the cache refetch query `q` exactly when they share a tag. */
  predicate Refetches(m: Endpoint, q: Endpoint)
  {
    Provides(q) * Invalidates(m) != {}
  }

  /** Which cached queries each mutation refreshes: the two user updates
      refresh the user list and nothing else; the four catalogue writes
      refresh the product list and nothing else (not product details, not
      the top products); deleting a user, the wishlist calls, login,
      logout, register and upload refresh nothing. */
  lemma RefetchTable(m: Endpoint, q: Endpoint)
    requires IsMutation(m) && !IsMutation(q)
    ensures Refetches(m, q) <==>
      (q.GetUsers? && (m.UpdateUserProfile? || m.UpdateUserByAdmin?)) ||
      (q.GetProducts? && (m.CreateProduct? || m.UpdateProduct? || m.DeleteProduct? || m.CreateReview?))
  {
    if q.GetUsers? && (m.UpdateUserProfile? || m.UpdateUserByAdmin?) {
      assert User in Provides(q) * Invalidates(m);
    }
    if q.GetProducts? && (m.CreateProduct? || m.UpdateProduct? || m.DeleteProduct? || m.CreateReview?) {
      assert Products in Provides(q) * Invalidates(m);
    }
  }

  /** An argument that the browser delivers as exactly one URL segment. */
  predicate PlainArg(a: Option<string>)
  {
    UrlSegment(Interp(a))
  }

  /** The path segments the server router sees for an endpoint's request. */
  function PathOf(e: Endpoint): seq<string>
  {
    Segments(Request(e).url)
  }

  function Target(e: Endpoint): Routes.Target
  {
    Routes.Dispatch(Request(e).verb, PathOf(e))
  }

  /** `Join` distributes over concatenation of segment lists. */
  lemma {:induction false} JoinAppend(a: seq<string>, b: seq<string>)
    ensures Join(a + b) == Join(a) + Join(b)
    decreases |a|
  {
    if a != [] {
      assert (a + b)[0] == a[0];
      assert (a + b)[1..] == a[1..] + b;
      JoinAppend(a[1..], b);
    } else {
      assert a + b == b;
    }
  }

  /** Two plain segments followed by plain segments are all plain. */
  lemma PrefixedPlain(resource: string, tail: seq<string>)
    requires PlainSegment(resource)
    requires forall i :: 0 <= i < |tail| ==> PlainSegment(tail[i])
    ensures forall i :: 0 <= i < |["api", resource] + tail| ==> PlainSegment((["api", resource] + tail)[i])
  {
    assert PlainSegment("api") by {
      assert "api" == ['a', 'p', 'i'];
    }
  }

  /** A URL built from a slice's base URL and plain segments reaches the
      router as the base's two segments followed by those segments. */
  /** The URL text of a base URL followed by plain segments. */
  lemma BaseJoin(resource: string, tail: seq<string>)
    ensures Join(["api", resource] + tail) == "/api/" + resource + Join(tail)
  {
    JoinAppend(["api", resource], tail);
    Join2("api", resource);
    assert "/" + "api" + "/" == "/api/";
  }

  lemma BaseSegments(resource: string, tail: seq<string>)
    requires PlainSegment(resource)
    requires forall i :: 0 <= i < |tail| ==> PlainSegment(tail[i])
    ensures Segments("/api/" + resource + Join(tail)) == ["api", resource] + tail
  {
    var segs := ["api", resource] + tail;
    PrefixedPlain(resource, tail);
    SegmentsJoin(segs);
    BaseJoin(resource, tail);
  }

  /** The base URLs are `/api/` followed by one plain segment. */
  lemma BaseUrls(t: string)
    ensures UsersUrl + t == "/api/" + "users" + t && PlainSegment("users")
    ensures ProductsUrl + t == "/api/" + "products" + t && PlainSegment("products")
    ensures UploadUrl + t == "/api/" + "upload" + t && PlainSegment("upload")
  {
  }

  lemma UsersSegments(tail: seq<string>)
    requires forall i :: 0 <= i < |tail| ==> PlainSegment(tail[i])
    ensures Segments(UsersUrl + Join(tail)) == ["api", "users"] + tail
  {
    BaseUrls(Join(tail));
    BaseSegments("users", tail);
  }

  lemma ProductsSegments(tail: seq<string>)
    requires forall i :: 0 <= i < |tail| ==> PlainSegment(tail[i])
    ensures Segments(ProductsUrl + Join(tail)) == ["api", "products"] + tail
  {
    BaseUrls(Join(tail));
    BaseSegments("products", tail);
  }

  /** The server route each client call is written for, stated from the
      server's side independently of the client's URL building: the
      router that owns it, its method and pattern relative to that router,
      the guards it declares and the handler it names. The upload request
      belongs to the upload router, which is not part of this model. */
  function Intended(e: Endpoint): Routes.Target
  {
    match e
    case Login(_) => Routes.Handler("users", Routes.Route(POST, [Routes.Lit("login")], Routes.Open, "authUser"))
    case Register(_) => Routes.Handler("users", Routes.Route(POST, [], Routes.Open, "registerUser"))
    case Logout => Routes.Handler("users", Routes.Route(POST, [Routes.Lit("logout")], Routes.Open, "logoutUser"))
    case UpdateUserProfile(_) => Routes.Handler("users", Routes.Route(PUT, [Routes.Lit("profile")], Routes.Auth, "updateUserProfile"))
    case GetUsers => Routes.Handler("users", Routes.Route(GET, [], Routes.AuthAdmin, "getUsers"))
    case DeleteUser(_) => Routes.Handler("users", Routes.Route(DELETE, [Routes.Param("id")], Routes.AuthAdmin, "deleteUser"))
    case GetUserDetails(_) => Routes.Handler("users", Routes.Route(GET, [Routes.Param("id")], Routes.AuthAdmin, "getUserById"))
    case UpdateUserByAdmin(_) => Routes.Handler("users", Routes.Route(PUT, [Routes.Param("id")], Routes.AuthAdmin, "updateUser"))
    case GetMyOrders => Routes.Handler("users", Routes.Route(GET, [Routes.Lit("myorders")], Routes.Auth, "getMyOrders"))
    case GetWishlist => Routes.Handler("users", Routes.Route(GET, [Routes.Lit("wishlist")], Routes.Auth, "getWishlist"))
    case AddToWishlist(_) => Routes.Handler("users", Routes.Route(POST, [Routes.Lit("wishlist")], Routes.Auth, "addToWishlist"))
    case RemoveFromWishlist(_) =>
      Routes.Handler("users", Routes.Route(DELETE, [Routes.Lit("wishlist"), Routes.Param("id")], Routes.Auth, "removeFromWishlist"))
    case GetProducts(_, _) => Routes.Handler("products", Routes.Route(GET, [], Routes.Open, "getProducts"))
    case GetProductDetails(_) => Routes.Handler("products", Routes.Route(GET, [Routes.Param("id")], Routes.Open, "getProductById"))
    case CreateProduct => Routes.Handler("products", Routes.Route(POST, [], Routes.AuthAdmin, "createProduct"))
    case UpdateProduct(_) => Routes.Handler("products", Routes.Route(PUT, [Routes.Param("id")], Routes.AuthAdmin, "updateProduct"))
    case DeleteProduct(_) => Routes.Handler("products", Routes.Route(DELETE, [Routes.Param("id")], Routes.AuthAdmin, "deleteProduct"))
    case CreateReview(_) =>
      Routes.Handler("products", Routes.Route(POST, [Routes.Param("id"), Routes.Lit("reviews")], Routes.Auth, "createProductReview"))
    case GetTopProducts => Routes.Handler("products", Routes.Route(GET, [Routes.Lit("top")], Routes.Open, "getTopProducts"))
    case UploadProductImage(_) => Routes.Unmodelled("upload")
  }

  /** The one argument a call interpolates into its URL path, if any. */
  function PathArg(e: Endpoint): Option<string>
  {
    match e
    case DeleteUser(id) => Some(Interp(id))
    case GetUserDetails(id) => Some(Interp(id))
    case UpdateUserByAdmin(data) => Some(Interp(FieldArg(data, "userId")))
    case RemoveFromWishlist(pid) => Some(Interp(pid))
    case GetProductDetails(id) => Some(Interp(id))
    case UpdateProduct(data) => Some(Interp(FieldArg(data, "productId")))
    case DeleteProduct(id) => Some(Interp(id))
    case CreateReview(data) => Some(Interp(FieldArg(data, "productId")))
    case _ => None
  }

  /** The interpolated argument is delivered as one segment and does not spell,
      in any case, a literal route declared before the parameter route it
      is meant for. */
  predicate SafeArg(e: Endpoint)
  {
    PathArg(e).Some? ==>
      UrlSegment(PathArg(e).value) &&
      (e.GetUserDetails? ==> Routes.Lower(PathArg(e).value) !in {"profile", "wishlist", "myorders"}) &&
      (e.UpdateUserByAdmin? ==> Routes.Lower(PathArg(e).value) != "profile") &&
      (e.GetProductDetails? ==> Routes.Lower(PathArg(e).value) != "top")
  }

  /** The literal path suffixes the client appends to a base URL. */
  lemma Suffixes(x: string)
    ensures Join(["login"]) == "/login" && Join(["logout"]) == "/logout"
    ensures Join(["profile"]) == "/profile" && Join(["myorders"]) == "/myorders"
    ensures Join(["wishlist"]) == "/wishlist" && Join(["top"]) == "/top"
    ensures Join(["wishlist", x]) == "/wishlist/" + x
    ensures Join([x, "reviews"]) == "/" + x + "/reviews"
    ensures Join([x]) == "/" + x && Join([]) == ""
  {
    Join1("login");
    Join1("logout");
    Join1("profile");
    Join1("myorders");
    Join1("wishlist");
    Join1("top");
    Join2("wishlist", x);
    Join2(x, "reviews");
    Join1(x);
  }

  /** Where a call lands once its path is known. */
  lemma Reach(e: Endpoint, m: Method, p: seq<string>)
    requires Request(e).verb == m && PathOf(e) == p
    ensures Target(e) == Routes.Dispatch(m, p)
  {
  }

  lemma LoginPath(d: Data)
    ensures PathOf(Login(d)) == ["api", "users", "login"]
  {
    var e := Login(d);
    var p := ["api", "users", "login"];
    Suffixes("");
    BaseUrls(Join(["login"]));
    assert Request(e).url == UsersUrl + Join(["login"]);
    BaseSegments("users", ["login"]);
    assert ["api", "users"] + ["login"] == p;
  }

  lemma LoginCall(d: Data)
    ensures Target(Login(d)) == Intended(Login(d))
  {
    var e := Login(d);
    var p := ["api", "users", "login"];
    LoginPath(d);
    Routes.LoginRoute();
    Reach(e, POST, p);
  }

  lemma RegisterPath(d: Data)
    ensures PathOf(Register(d)) == ["api", "users"]
  {
    var e := Register(d);
    var p := ["api", "users"];
    Suffixes("");
    BaseUrls(Join([]));
    assert Request(e).url == UsersUrl + Join([]);
    BaseSegments("users", []);
    assert ["api", "users"] + [] == p;
  }

  lemma RegisterCall(d: Data)
    ensures Target(Register(d)) == Intended(Register(d))
  {
    var e := Register(d);
    var p := ["api", "users"];
    RegisterPath(d);
    Routes.RegisterRoute();
    Reach(e, POST, p);
  }

  lemma LogoutPath(e: Endpoint)
    requires e.Logout?
    ensures PathOf(e) == ["api", "users", "logout"]
  {
    var p := ["api", "users", "logout"];
    Suffixes("");
    BaseUrls(Join(["logout"]));
    assert Request(e).url == UsersUrl + Join(["logout"]);
    BaseSegments("users", ["logout"]);
    assert ["api", "users"] + ["logout"] == p;
  }

  lemma LogoutCall(e: Endpoint)
    requires e.Logout?
    ensures Target(e) == Intended(e)
  {
    var p := ["api", "users", "logout"];
    LogoutPath(e);
    Routes.LogoutRoute();
    Reach(e, POST, p);
  }

  lemma GetUsersPath(e: Endpoint)
    requires e.GetUsers?
    ensures PathOf(e) == ["api", "users"]
  {
    var p := ["api", "users"];
    Suffixes("");
    BaseUrls(Join([]));
    assert Request(e).url == UsersUrl + Join([]);
    BaseSegments("users", []);
    assert ["api", "users"] + [] == p;
  }

  lemma GetUsersCall(e: Endpoint)
    requires e.GetUsers?
    ensures Target(e) == Intended(e)
  {
    var p := ["api", "users"];
    GetUsersPath(e);
    Routes.GetUsersRoute();
    Reach(e, GET, p);
  }

  lemma UpdateProfilePath(d: Data)
    ensures PathOf(UpdateUserProfile(d)) == ["api", "users", "profile"]
  {
    var e := UpdateUserProfile(d);
    var p := ["api", "users", "profile"];
    Suffixes("");
    BaseUrls(Join(["profile"]));
    assert Request(e).url == UsersUrl + Join(["profile"]);
    BaseSegments("users", ["profile"]);
    assert ["api", "users"] + ["profile"] == p;
  }

  lemma UpdateProfileCall(d: Data)
    ensures Target(UpdateUserProfile(d)) == Intended(UpdateUserProfile(d))
  {
    var e := UpdateUserProfile(d);
    var p := ["api", "users", "profile"];
    UpdateProfilePath(d);
    Routes.UpdateProfileRoute();
    Reach(e, PUT, p);
  }

  lemma GetMyOrdersPath(e: Endpoint)
    requires e.GetMyOrders?
    ensures PathOf(e) == ["api", "users", "myorders"]
  {
    var p := ["api", "users", "myorders"];
    Suffixes("");
    BaseUrls(Join(["myorders"]));
    assert Request(e).url == UsersUrl + Join(["myorders"]);
    BaseSegments("users", ["myorders"]);
    assert ["api", "users"] + ["myorders"] == p;
  }

  lemma GetMyOrdersCall(e: Endpoint)
    requires e.GetMyOrders?
    ensures Target(e) == Intended(e)
  {
    var p := ["api", "users", "myorders"];
    GetMyOrdersPath(e);
    Routes.GetMyOrdersRoute();
    Reach(e, GET, p);
  }

  lemma GetWishlistPath(e: Endpoint)
    requires e.GetWishlist?
    ensures PathOf(e) == ["api", "users", "wishlist"]
  {
    var p := ["api", "users", "wishlist"];
    Suffixes("");
    BaseUrls(Join(["wishlist"]));
    assert Request(e).url == UsersUrl + Join(["wishlist"]);
    BaseSegments("users", ["wishlist"]);
    assert ["api", "users"] + ["wishlist"] == p;
  }

  lemma GetWishlistCall(e: Endpoint)
    requires e.GetWishlist?
    ensures Target(e) == Intended(e)
  {
    var p := ["api", "users", "wishlist"];
    GetWishlistPath(e);
    Routes.GetWishlistRoute();
    Reach(e, GET, p);
  }

  lemma AddToWishlistPath(pid: Option<string>)
    ensures PathOf(AddToWishlist(pid)) == ["api", "users", "wishlist"]
  {
    var e := AddToWishlist(pid);
    var p := ["api", "users", "wishlist"];
    Suffixes("");
    BaseUrls(Join(["wishlist"]));
    assert Request(e).url == UsersUrl + Join(["wishlist"]);
    BaseSegments("users", ["wishlist"]);
    assert ["api", "users"] + ["wishlist"] == p;
  }

  lemma AddToWishlistCall(pid: Option<string>)
    ensures Target(AddToWishlist(pid)) == Intended(AddToWishlist(pid))
  {
    var e := AddToWishlist(pid);
    var p := ["api", "users", "wishlist"];
    AddToWishlistPath(pid);
    Routes.AddToWishlistRoute();
    Reach(e, POST, p);
  }

  lemma RemoveFromWishlistPath(pid: Option<string>)
    requires PlainArg(pid)
    ensures PathOf(RemoveFromWishlist(pid)) == ["api", "users", "wishlist", Interp(pid)]
  {
    var x := Interp(pid);
    assert PlainSegment("wishlist") by {
      assert "wishlist" == ['w', 'i', 's', 'h', 'l', 'i', 's', 't'];
    }
    var e := RemoveFromWishlist(pid);
    var p := ["api", "users", "wishlist", x];
    Suffixes(x);
    BaseUrls(Join(["wishlist", x]));
    assert Request(e).url == UsersUrl + Join(["wishlist", x]);
    BaseSegments("users", ["wishlist", x]);
    assert ["api", "users"] + ["wishlist", x] == p;
  }

  lemma RemoveFromWishlistCall(pid: Option<string>)
    requires PlainArg(pid)
    ensures Target(RemoveFromWishlist(pid)) == Intended(RemoveFromWishlist(pid))
  {
    RemoveFromWishlistPath(pid);
    RemoveFromWishlistReach(RemoveFromWishlist(pid), Interp(pid));
  }

  /** The route step of `RemoveFromWishlistCall`, over any such endpoint. */
  lemma RemoveFromWishlistReach(e: Endpoint, x: string)
    requires e.RemoveFromWishlist? && PlainSegment(x)
    requires PathOf(e) == ["api", "users", "wishlist", x]
    ensures Target(e) == Intended(e)
  {
    Routes.RemoveFromWishlistRoute(x);
    Reach(e, DELETE, ["api", "users", "wishlist", x]);
  }

  lemma DeleteUserPath(id: Option<string>)
    requires PlainArg(id)
    ensures PathOf(DeleteUser(id)) == ["api", "users", Interp(id)]
  {
    var x := Interp(id);
    var e := DeleteUser(id);
    var p := ["api", "users", x];
    Suffixes(x);
    BaseUrls(Join([x]));
    assert Request(e).url == UsersUrl + Join([x]);
    BaseSegments("users", [x]);
    assert ["api", "users"] + [x] == p;
  }

  lemma DeleteUserCall(id: Option<string>)
    requires PlainArg(id)
    ensures Target(DeleteUser(id)) == Intended(DeleteUser(id))
  {
    var x := Interp(id);
    var e := DeleteUser(id);
    var p := ["api", "users", x];
    DeleteUserPath(id);
    Routes.DeleteUserRoute(x);
    Reach(e, DELETE, p);
  }

  lemma UserDetailsPath(id: Option<string>)
    requires PlainArg(id)
    ensures PathOf(GetUserDetails(id)) == ["api", "users", Interp(id)]
  {
    var x := Interp(id);
    var e := GetUserDetails(id);
    var p := ["api", "users", x];
    Suffixes(x);
    BaseUrls(Join([x]));
    assert Request(e).url == UsersUrl + Join([x]);
    BaseSegments("users", [x]);
    assert ["api", "users"] + [x] == p;
  }

  lemma UserDetailsCall(id: Option<string>)
    requires PlainArg(id) && Routes.Lower(Interp(id)) !in {"profile", "wishlist", "myorders"}
    ensures Target(GetUserDetails(id)) == Intended(GetUserDetails(id))
  {
    var x := Interp(id);
    UserDetailsPath(id);
    Reach(GetUserDetails(id), GET, ["api", "users", x]);
    Routes.GetUserRoute(x);
  }

  /* `getUserDetails` interpolates whatever it is given, so an id that
     spells one of the literal routes declared before `/:id`, in any case,
     reaches that route, behind `protect` alone, instead of a user lookup. */

  /** A string that folds to a word of lower-case letters is delivered as
      one segment: each of its characters is a letter. */
  lemma FoldsToWordIsUrlSegment(s: string, w: string)
    requires Routes.Lower(s) == w && w != []
    requires forall i :: 0 <= i < |w| ==> 'a' <= w[i] <= 'z'
    ensures UrlSegment(s)
  {
    forall i | 0 <= i < |s|
      ensures 'a' <= s[i] <= 'z' || 'A' <= s[i] <= 'Z'
    {
      assert Routes.LowerChar(s[i]) == w[i];
    }
    assert s != "." && s != ".." by {
      assert 'a' <= s[0] <= 'z' || 'A' <= s[0] <= 'Z';
    }
  }

  /** The route step of a user lookup, over any such endpoint. */
  lemma UserDetailsTarget(e: Endpoint, x: string)
    requires e.GetUserDetails? && PathOf(e) == ["api", "users", x]
    ensures Target(e) == Routes.Dispatch(GET, ["api", "users", x])
  {
    Reach(e, GET, ["api", "users", x]);
  }

  lemma DetailsOfProfile(id: Option<string>)
    requires Routes.Lower(Interp(id)) == "profile"
    ensures Target(GetUserDetails(id)) ==
      Routes.Handler("users", Routes.Route(GET, [Routes.Lit("profile")], Routes.Auth, "getUserProfile"))
  {
    FoldsToWordIsUrlSegment(Interp(id), "profile");
    Routes.LowerKeepsPlain(Interp(id));
    UserDetailsPath(id);
    UserDetailsTarget(GetUserDetails(id), Interp(id));
    Routes.GetProfileAnyCase(Interp(id));
  }

  lemma DetailsOfWishlist(id: Option<string>)
    requires Routes.Lower(Interp(id)) == "wishlist"
    ensures Target(GetUserDetails(id)) ==
      Routes.Handler("users", Routes.Route(GET, [Routes.Lit("wishlist")], Routes.Auth, "getWishlist"))
  {
    FoldsToWordIsUrlSegment(Interp(id), "wishlist");
    Routes.LowerKeepsPlain(Interp(id));
    UserDetailsPath(id);
    UserDetailsTarget(GetUserDetails(id), Interp(id));
    Routes.GetWishlistAnyCase(Interp(id));
  }

  lemma DetailsOfMyOrders(id: Option<string>)
    requires Routes.Lower(Interp(id)) == "myorders"
    ensures Target(GetUserDetails(id)) ==
      Routes.Handler("users", Routes.Route(GET, [Routes.Lit("myorders")], Routes.Auth, "getMyOrders"))
  {
    FoldsToWordIsUrlSegment(Interp(id), "myorders");
    Routes.LowerKeepsPlain(Interp(id));
    UserDetailsPath(id);
    UserDetailsTarget(GetUserDetails(id), Interp(id));
    Routes.GetMyOrdersAnyCase(Interp(id));
  }

  lemma UpdateUserPath(d: Data)
    requires PlainArg(FieldArg(d, "userId"))
    ensures PathOf(UpdateUserByAdmin(d)) == ["api", "users", Interp(FieldArg(d, "userId"))]
  {
    var x := Interp(FieldArg(d, "userId"));
    var e := UpdateUserByAdmin(d);
    var p := ["api", "users", x];
    Suffixes(x);
    BaseUrls(Join([x]));
    assert Request(e).url == UsersUrl + Join([x]);
    BaseSegments("users", [x]);
    assert ["api", "users"] + [x] == p;
  }

  /** `updateUserByAdmin` puts `data.userId` in the URL: a user id that
      spells "profile", in any case, makes it the caller's own profile
      update. */
  lemma UpdateUserCall(d: Data)
    requires PlainArg(FieldArg(d, "userId"))
    ensures Routes.Lower(Interp(FieldArg(d, "userId"))) != "profile" ==> Target(UpdateUserByAdmin(d)) == Intended(UpdateUserByAdmin(d))
    ensures Routes.Lower(Interp(FieldArg(d, "userId"))) == "profile" ==> Target(UpdateUserByAdmin(d)) == Intended(UpdateUserProfile(d))
  {
    var x := Interp(FieldArg(d, "userId"));
    var e := UpdateUserByAdmin(d);
    var p := ["api", "users", x];
    UpdateUserPath(d);
    Routes.UserAdminRoutes(x);
    Reach(e, PUT, p);
  }

  /** Every users-slice call whose path argument is safe reaches the route
      it is written for, with that route's guards: the public entry points,
      the self-service routes behind `protect`, and the administrator
      routes behind `protect` then `admin`. */
  lemma UsersCallsReachTheirRoutes(e: Endpoint)
    requires InUsersSlice(e) && SafeArg(e)
    ensures Target(e) == Intended(e)
    ensures Target(e).Handler? && Target(e).layer == "users"
  {
    match e {
      case Login(d) => LoginCall(d);
      case Register(d) => RegisterCall(d);
      case Logout => LogoutCall(e);
      case GetUsers => GetUsersCall(e);
      case UpdateUserProfile(d) => UpdateProfileCall(d);
      case GetMyOrders => GetMyOrdersCall(e);
      case GetWishlist => GetWishlistCall(e);
      case AddToWishlist(pid) => AddToWishlistCall(pid);
      case RemoveFromWishlist(pid) => RemoveFromWishlistCall(pid);
      case DeleteUser(id) => DeleteUserCall(id);
      case GetUserDetails(id) => UserDetailsCall(id);
      case UpdateUserByAdmin(d) => UpdateUserCall(d);
    }
  }

  /** With no argument `getUserDetails` asks for the user "undefined", an
      administrator lookup. */
  lemma UserDetailsUndefined(id: Option<string>)
    requires id.None?
    ensures PathOf(GetUserDetails(id)) == ["api", "users", "undefined"]
    ensures Target(GetUserDetails(id)) == Intended(GetUserDetails(id))
  {
    var x := Interp(id);
    assert x == "undefined";
    assert UrlSegment(x) by {
      assert x == ['u', 'n', 'd', 'e', 'f', 'i', 'n', 'e', 'd'];
    }
    UserDetailsPath(id);
    UserDetailsCall(id);
  }

  lemma ProductListPath(keyword: Option<string>, pageNumber: Option<string>)
    ensures PathOf(GetProducts(keyword, pageNumber)) == ["api", "products"]
  {
    var e := GetProducts(keyword, pageNumber);
    var p := ["api", "products"];
    Suffixes("");
    BaseUrls(Join([]));
    assert Request(e).url == ProductsUrl + Join([]);
    BaseSegments("products", []);
    assert ["api", "products"] + [] == p;
  }

  lemma ProductListCall(keyword: Option<string>, pageNumber: Option<string>)
    ensures Target(GetProducts(keyword, pageNumber)) == Intended(GetProducts(keyword, pageNumber))
  {
    var e := GetProducts(keyword, pageNumber);
    var p := ["api", "products"];
    ProductListPath(keyword, pageNumber);
    Routes.ProductListRoute();
    Reach(e, GET, p);
  }

  lemma TopProductsPath(e: Endpoint)
    requires e.GetTopProducts?
    ensures PathOf(e) == ["api", "products", "top"]
  {
    var p := ["api", "products", "top"];
    Suffixes("");
    BaseUrls(Join(["top"]));
    assert Request(e).url == ProductsUrl + Join(["top"]);
    BaseSegments("products", ["top"]);
    assert ["api", "products"] + ["top"] == p;
  }

  lemma TopProductsCall(e: Endpoint)
    requires e.GetTopProducts?
    ensures Target(e) == Intended(e)
  {
    var p := ["api", "products", "top"];
    TopProductsPath(e);
    Routes.TopProductsRoute();
    Reach(e, GET, p);
  }

  lemma CreateProductPath(e: Endpoint)
    requires e.CreateProduct?
    ensures PathOf(e) == ["api", "products"]
  {
    var p := ["api", "products"];
    Suffixes("");
    BaseUrls(Join([]));
    assert Request(e).url == ProductsUrl + Join([]);
    BaseSegments("products", []);
    assert ["api", "products"] + [] == p;
  }

  lemma CreateProductCall(e: Endpoint)
    requires e.CreateProduct?
    ensures Target(e) == Intended(e)
  {
    var p := ["api", "products"];
    CreateProductPath(e);
    Routes.CreateProductRoute();
    Reach(e, POST, p);
  }

  lemma ProductDetailsPath(id: Option<string>)
    requires PlainArg(id)
    ensures PathOf(GetProductDetails(id)) == ["api", "products", Interp(id)]
  {
    var x := Interp(id);
    var e := GetProductDetails(id);
    var p := ["api", "products", x];
    Suffixes(x);
    BaseUrls(Join([x]));
    assert Request(e).url == ProductsUrl + Join([x]);
    BaseSegments("products", [x]);
    assert ["api", "products"] + [x] == p;
  }

  lemma ProductDetailsCall(id: Option<string>)
    requires PlainArg(id) && Routes.Lower(Interp(id)) != "top"
    ensures Target(GetProductDetails(id)) == Intended(GetProductDetails(id))
  {
    ProductDetailsPath(id);
    ProductDetailsReach(GetProductDetails(id), Interp(id));
  }

  /** The route step of `ProductDetailsCall`, over any such endpoint. */
  lemma ProductDetailsReach(e: Endpoint, x: string)
    requires e.GetProductDetails? && PlainSegment(x) && Routes.Lower(x) != "top"
    requires PathOf(e) == ["api", "products", x]
    ensures Target(e) == Intended(e)
  {
    Routes.ProductDetailsRoute(x);
    Reach(e, GET, ["api", "products", x]);
  }

  /** `getProductDetails` with an id that spells "top", in any case,
      reaches the top-products route. */
  lemma DetailsOfTop(id: Option<string>)
    requires Routes.Lower(Interp(id)) == "top"
    ensures Target(GetProductDetails(id)) ==
      Routes.Handler("products", Routes.Route(GET, [Routes.Lit("top")], Routes.Open, "getTopProducts"))
  {
    FoldsToWordIsUrlSegment(Interp(id), "top");
    Routes.LowerKeepsPlain(Interp(id));
    ProductDetailsPath(id);
    ProductDetailsTarget(GetProductDetails(id), Interp(id));
    Routes.TopProductsAnyCase(Interp(id));
  }

  /** The route step of a product lookup, over any such endpoint. */
  lemma ProductDetailsTarget(e: Endpoint, x: string)
    requires e.GetProductDetails? && PathOf(e) == ["api", "products", x]
    ensures Target(e) == Routes.Dispatch(GET, ["api", "products", x])
  {
    Reach(e, GET, ["api", "products", x]);
  }

  lemma UpdateProductPath(d: Data)
    requires PlainArg(FieldArg(d, "productId"))
    ensures PathOf(UpdateProduct(d)) == ["api", "products", Interp(FieldArg(d, "productId"))]
  {
    var x := Interp(FieldArg(d, "productId"));
    var e := UpdateProduct(d);
    var p := ["api", "products", x];
    Suffixes(x);
    BaseUrls(Join([x]));
    assert Request(e).url == ProductsUrl + Join([x]);
    BaseSegments("products", [x]);
    assert ["api", "products"] + [x] == p;
  }

  lemma UpdateProductCall(d: Data)
    requires PlainArg(FieldArg(d, "productId"))
    ensures Target(UpdateProduct(d)) == Intended(UpdateProduct(d))
  {
    var x := Interp(FieldArg(d, "productId"));
    var e := UpdateProduct(d);
    var p := ["api", "products", x];
    UpdateProductPath(d);
    Routes.UpdateProductRoute(x);
    Reach(e, PUT, p);
  }

  lemma DeleteProductPath(id: Option<string>)
    requires PlainArg(id)
    ensures PathOf(DeleteProduct(id)) == ["api", "products", Interp(id)]
  {
    var x := Interp(id);
    var e := DeleteProduct(id);
    var p := ["api", "products", x];
    Suffixes(x);
    BaseUrls(Join([x]));
    assert Request(e).url == ProductsUrl + Join([x]);
    BaseSegments("products", [x]);
    assert ["api", "products"] + [x] == p;
  }

  lemma DeleteProductCall(id: Option<string>)
    requires PlainArg(id)
    ensures Target(DeleteProduct(id)) == Intended(DeleteProduct(id))
  {
    DeleteProductPath(id);
    DeleteProductReach(DeleteProduct(id), Interp(id));
  }

  /** The route step of `DeleteProductCall`, over any such endpoint. */
  lemma DeleteProductReach(e: Endpoint, x: string)
    requires e.DeleteProduct? && PlainSegment(x)
    requires PathOf(e) == ["api", "products", x]
    ensures Target(e) == Intended(e)
  {
    Routes.DeleteProductRoute(x);
    Reach(e, DELETE, ["api", "products", x]);
  }

  lemma CreateReviewPath(d: Data)
    requires PlainArg(FieldArg(d, "productId"))
    ensures PathOf(CreateReview(d)) == ["api", "products", Interp(FieldArg(d, "productId")), "reviews"]
  {
    var x := Interp(FieldArg(d, "productId"));
    assert PlainSegment("reviews") by {
      assert "reviews" == ['r', 'e', 'v', 'i', 'e', 'w', 's'];
    }
    var e := CreateReview(d);
    var p := ["api", "products", x, "reviews"];
    Suffixes(x);
    BaseUrls(Join([x, "reviews"]));
    assert Request(e).url == ProductsUrl + Join([x, "reviews"]);
    BaseSegments("products", [x, "reviews"]);
    assert ["api", "products"] + [x, "reviews"] == p;
  }

  lemma CreateReviewCall(d: Data)
    requires PlainArg(FieldArg(d, "productId"))
    ensures Target(CreateReview(d)) == Intended(CreateReview(d))
  {
    var x := Interp(FieldArg(d, "productId"));
    var e := CreateReview(d);
    var p := ["api", "products", x, "reviews"];
    CreateReviewPath(d);
    Routes.ReviewRoute(x);
    Reach(e, POST, p);
  }

  lemma UploadPath(d: Data)
    ensures PathOf(UploadProductImage(d)) == ["api", "upload"]
  {
    var e := UploadProductImage(d);
    var p := ["api", "upload"];
    Suffixes("");
    BaseUrls(Join([]));
    assert Request(e).url == UploadUrl + Join([]);
    BaseSegments("upload", []);
    assert ["api", "upload"] + [] == p;
  }

  lemma UploadCall(d: Data)
    ensures Target(UploadProductImage(d)) == Intended(UploadProductImage(d))
  {
    var e := UploadProductImage(d);
    var p := ["api", "upload"];
    UploadPath(d);
    assert p[..2] == ["api", "upload"];
    Routes.UploadIsOpaque(POST, p);
    Reach(e, POST, p);
  }

  /** Every products-slice call whose path argument is safe reaches the
      route it is written for: reads are public, a review needs `protect`,
      every other catalogue write needs `protect` then `admin`. The upload
      request leaves the products prefix for the upload router. */
  lemma ProductCallsReachTheirRoutes(e: Endpoint)
    requires !InUsersSlice(e) && SafeArg(e)
    ensures Target(e) == Intended(e)
    ensures e.UploadProductImage? <==> Target(e).Unmodelled?
  {
    match e {
      case GetProducts(k, n) => ProductListCall(k, n);
      case GetTopProducts => TopProductsCall(e);
      case CreateProduct => CreateProductCall(e);
      case GetProductDetails(id) => ProductDetailsCall(id);
      case UpdateProduct(d) => UpdateProductCall(d);
      case DeleteProduct(id) => DeleteProductCall(id);
      case CreateReview(d) => CreateReviewCall(d);
      case UploadProductImage(d) => UploadCall(d);
    }
  }

  /** The guards a call meets, read off the route it reaches: the entry
      points and catalogue reads are public, the administrator calls need
      `protect` then `admin`, and everything else needs `protect`. */
  lemma CallGuards(e: Endpoint)
    requires SafeArg(e) && !e.UploadProductImage?
    ensures Target(e).Handler?
    ensures Target(e).route.guards == Routes.Open <==>
      e.Login? || e.Register? || e.Logout? || e.GetProducts? || e.GetProductDetails? || e.GetTopProducts?
    ensures Target(e).route.guards == Routes.AuthAdmin <==>
      e.GetUsers? || e.DeleteUser? || e.GetUserDetails? || e.UpdateUserByAdmin? ||
      e.CreateProduct? || e.UpdateProduct? || e.DeleteProduct?
  {
    if InUsersSlice(e) {
      UsersCallsReachTheirRoutes(e);
    } else {
      ProductCallsReachTheirRoutes(e);
    }
  }

  /** `getProductDetails("top")` is indistinguishable from `getTopProducts`. */
  lemma ProductDetailsTop()
    ensures Request(GetProductDetails(Some("top"))) == Request(GetTopProducts)
  {
  }
}
