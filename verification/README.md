# Storefront core: session guard, re-authentication, routing and payment reconciliation

This Dafny project models the decision logic of an online storefront: an
Express server with a React/RTK Query client. Each part below is one module.

- **Token**: the session credential. A JSON Web Token (RFC 7519) with payload
  `{ id }`, signed with `JWT_SECRET`, expiring thirty days after issue
  (`exp`, section 4.1.4; `iat`, section 4.1.6). Signing is abstract: a token
  records its signing key, and verification compares keys.
- **Guard**: the `protect` and `admin` middleware, and how a route's chain of
  them runs.
- **Routes**: the three routers as ordered tables, the order in which the
  application mounts them, and Express first-match dispatch over path
  segments, compared case-insensitively as Express does by default.
- **Client**: the users and products API slices. Each endpoint is a pure map
  from its argument to `(method, url, params, body)`, plus the cache tags it
  provides or invalidates. Lemmas feed each request through `Routes` to show
  which route, and which guards, it meets.
- **Reauth**: the client's `baseQueryWithReauth`, in two forms. One is a
  reference function written top to bottom. The other is a step-by-step
  state machine (`Invoke`) that is proved to match it. The network is a
  scripted oracle.
- **Orders** and **Webhook**: the order record; the payment webhook that
  marks an order paid; the endpoint that hands out the payment key.
- **Checkout**: the shipping, payment-method and place-order screens, and the
  action gating of the order page. Each handler is the list of effects it
  performs; `ApplyToCart` says what the store effects do to the cart.
- **Home**: the slide carousel, the pagination bar and the featured strip.
- **Pipeline**: theorems across the modules. For example, a refusal by the
  guards is never recovered by the refresh. Another: a customer who is not
  an administrator is logged out by calling an administrator endpoint.

Support modules: **Js** holds JavaScript truthiness, `||`, template
interpolation and decimal printing. **Http** holds the request descriptor
and splitting/joining URL paths. It also holds `UrlSegment`: a segment the
browser's URL parser delivers unchanged, neither cut, resolved nor
percent-encoded. Such a segment is printable ASCII without space. It has no
`?`, `#`, `\` or `%`, and none of `"`, `<`, `>`, `` ` ``, `{`, `}` or `^`.
It is not `.` or `..`. Path arguments of client calls are taken to satisfy
it.

## Behaviour worth knowing

- `admin` refuses with 401 (`backend/middleware/authMiddleware.js:40`). The
  client wrapper reads any 401 as an expired session. So a logged-in
  customer who calls an administrator endpoint is sent to refresh, refused
  again, and logged out (`Pipeline.CustomerLoggedOutByAdminCall`).
- The user router has no refresh route. The wrapper's refresh is a GET of
  `/api/users/refresh`, given as a bare URL string. That request is matched
  by `GET /api/users/:id`, which needs `protect` and `admin`
  (`Pipeline.RefreshMeetsAdminGuard`). So the refresh never yields a new
  session: it answers with the same refusal as the guarded request it
  follows (`Pipeline.GuardRefusalEndsSession`).
- Routing ignores the case of ASCII letters: the routers are created with
  no options. `GET /api/users/Profile` reaches `getUserProfile` behind
  `protect` alone, and `GET /api/products/TOP` reaches `getTopProducts`
  (`Routes.UserGetBySegment`, `Routes.ProductReadRequests`). A client call
  whose id spells such a word in any case reaches that route
  (`Client.DetailsOfProfile`, `Client.DetailsOfTop`).
- A client path argument goes into the URL unencoded, and the browser's URL
  parser reads that URL. An argument holding `?` or `#` therefore ends the
  path early, and `..` climbs a level. For example, the page link for the
  keyword `a?b` reads back as no page address
  (`Home.QueryInKeywordBreaksRoundTrip`).
- Every shipping input is marked `required`. So the browser's own
  validation stops a form with an empty field before the submit handler
  runs, and the handler's "Please fill all fields" toast is never reached
  from the form (`Checkout.FormNeverShowsFillAllFields`). Neither check
  rejects a field of spaces, which is saved as it is
  (`Checkout.SpacesAreSaved`).
- A refresh error body that is an array takes the expired-login message as
  an object would, so the wrapper logs out instead of throwing
  (`Reauth.ExpiredSessionMessage`). Refresh data that is an array, even an
  empty one, is truthy and leads to a replay (`Reauth.ReplayOnce`).
- The webhook has no already-paid check, so it is not idempotent (see
  Findings).
- The wrapper has no single-flight gate. Each failing call sends its own
  refresh.
- Whether an order may be marked delivered before it is paid is decided, if
  at all, by a controller. No controller is part of this model.

## Model

| member | source | states |
|---|---|---|
| Token.Issue | backend/utils/generateToken.js:3-8 | Signing fails exactly when the secret is empty. Otherwise the payload id is the given id, the key is `JWT_SECRET`, `iat` is the clock in seconds and `exp - iat` is 2,592,000 s (30 days) |
| Token.Verify | backend/middleware/authMiddleware.js:16 | Verification succeeds exactly when the cookie holds a token signed with the configured, non-empty secret whose `exp` is still ahead; it then yields that token's claims |
| Token.IssueThenVerify | backend/utils/generateToken.js:5-6 | Round trip: a token issued for `id` verifies with the same secret, and yields `id`, exactly while fewer than thirty days have passed |
| Token.VerifyFailureIsPermanent | backend/utils/generateToken.js:6 | A token that fails verification keeps failing at every later time |
| Guard.View | backend/middleware/authMiddleware.js:19 | The user put on the request carries id, name, email and admin flag, and no password |
| Guard.Protect | backend/middleware/authMiddleware.js:6-33 | No truthy `jwt` cookie gives 401 "Not authorized, no token". A failed verification or lookup gives 401 "Not authorized, token failed". Otherwise it hands on, with the user named by the token's id when that user exists and with no user when it does not. Every refusal is 401 |
| Guard.Admin | backend/middleware/authMiddleware.js:36-43 | Passes exactly when a user is present and is an administrator, keeping that user; otherwise refuses with 401 "Not authorized as an admin" |
| Guard.ChainDeniesWith401 | backend/middleware/authMiddleware.js:24-41 | Any chain of these guards, from any starting user, refuses only with 401 |
| Guard.PublicChain | backend/routes/productRoutes.js:16-18 | A route with no guards lets everyone through, with no user |
| Guard.ProtectChain | backend/routes/orderRoutes.js:21 | A `protect`-only route decides exactly as `protect` does |
| Guard.ProtectAdminChain | backend/routes/userRoutes.js:40-44 | `protect, admin` passes exactly when `protect` passes with an existing administrator. A `protect` refusal is passed on unchanged; any other refusal is the admin refusal |
| Guard.AdminNeedsProtectFirst | backend/middleware/authMiddleware.js:37-41 | `admin` with no `protect` before it always refuses: no user is set |
| Guard.IssuedTokenResolves | backend/middleware/authMiddleware.js:10-21 | A token issued under the configured secret and presented in the `jwt` cookie before expiry makes `protect` pass. The user is the one with the token's id when that user exists, and absent (null) when it does not |
| Guard.ExpiredTokenFails | backend/middleware/authMiddleware.js:22-26 | The same token presented after thirty days gets 401 "token failed" |
| Routes.UserEntryRoutes | backend/routes/userRoutes.js:22-24 | Register, login and logout are public; listing users runs `protect` then `admin` |
| Routes.UserGetBySegment | backend/routes/userRoutes.js:27-44 | A GET of `/api/users/<s>` reaches the `profile`, `wishlist` or `myorders` route, under `protect`, exactly when `s` spells that word in any case. Every other segment reaches the admin-only user lookup |
| Routes.RefreshIsAdminLookup | backend/routes/userRoutes.js:40-44 | GET `/api/users/refresh` has no route of its own and reaches the admin-only `GET /:id` |
| Routes.UserSelfRoutes | backend/routes/userRoutes.js:27-34 | The profile update and the wishlist routes run `protect` only |
| Routes.UserAdminRoutes | backend/routes/userRoutes.js:40-44 | DELETE and PUT of `/api/users/<id>` run `protect` then `admin`. A PUT to `profile`, in any case, is caught first by the self-service update |
| Routes.OrderRoutesAllProtected | backend/routes/orderRoutes.js:19-24 | Every order route starts with `protect`. Exactly the order listing and the deliver route also run `admin` |
| Routes.OrderCollectionRequests | backend/routes/orderRoutes.js:19-21 | Creating an order and listing one's own need `protect`; listing all orders is admin-only. `myorders` is declared before `/:id`, so a segment spelling it in any case reaches the own-orders list, and every other segment is an order id |
| Routes.OrderItemRequests | backend/routes/orderRoutes.js:22-24 | Pay and create-payment-intent need `protect`; deliver needs `protect` then `admin` |
| Routes.ProductRoutesGuards | backend/routes/productRoutes.js:16-31 | A product route is public exactly when it is a GET. Posting a review needs `protect`; every other write needs `protect` then `admin` |
| Routes.ProductReadRequests | backend/routes/productRoutes.js:16-18 | The list, `top` and the per-id read are public. `top` is declared before `/:id`, so a segment spelling it in any case reaches the top products, and every other segment is a product id |
| Routes.HasPrefixIsFolding | backend/server.js:37-40 | A path lies under a lower-case mount prefix exactly when its leading segments, case-folded, spell that prefix |
| Routes.LowerKeepsPlain | backend/routes/userRoutes.js:19 | Case folding, which the router applies when it compares segments, keeps a segment non-empty and slash-free exactly when it was |
| Routes.ProductWriteRequests | backend/routes/productRoutes.js:21-31 | Posting a review reaches its `protect` route; create, delete and update reach their `protect, admin` routes |
| Routes.AllChainsWellFormed | backend/routes/userRoutes.js:22-44 | Every chain in the three tables is none, `protect`, or `protect` then `admin` |
| Routes.WebhookIsOpen | backend/server.js:43 | POST `/webhook` reaches the application's webhook route with no guard |
| Routes.ConfigIsOpen | backend/server.js:84 | GET `/api/config/stripe` reaches the payment-key route with no guard |
| Routes.UploadIsOpaque | backend/server.js:40 | Every request, with any method, whose path lies under `/api/upload` in any case goes to the upload router |
| Client.RequestShape | frontend/src/slices/usersApiSlice.jsx:3-86 | Users-slice URLs start with `/api/users`, products-slice URLs (upload aside) with `/api/products`. Queries are bodiless GETs and every mutation uses another method. Logout, product creation and the deletions send no body. Only the product list has query parameters. The data-carrying mutations send their data whole |
| Client.RefetchTable | frontend/src/slices/productsApiSlice.jsx:7-56 | A mutation refreshes a cached query exactly when the mutation is a user update and the query is the user list, or the mutation is a catalogue write and the query is the product list. Product details, top products, deleting a user, the wishlist calls and upload refresh nothing |
| Client.UsersCallsReachTheirRoutes | frontend/src/slices/usersApiSlice.jsx:3-86 | Every users-slice call whose path argument the browser delivers as one segment (`UrlSegment`), and which does not spell in any case a literal route declared earlier, reaches the route it is written for, with that route's guards |
| Client.ProductCallsReachTheirRoutes | frontend/src/slices/productsApiSlice.jsx:3-63 | Every products-slice call reaches its route in the same sense. Upload, and only upload, leaves for the upload router |
| Client.CallGuards | frontend/src/slices/usersApiSlice.jsx:7-86 | For calls with such safe arguments: the calls that meet no guard are exactly login, register, logout and the three catalogue reads. Those that meet `protect, admin` are exactly the user list/delete/details/admin-update and product create/update/delete |
| Client.DetailsOfProfile | frontend/src/slices/usersApiSlice.jsx:48-53 | `getUserDetails` with an id spelling "profile" in any case reaches the caller's own profile route, behind `protect` alone |
| Client.DetailsOfWishlist | frontend/src/slices/usersApiSlice.jsx:48-53 | `getUserDetails` with an id spelling "wishlist" in any case reaches the caller's wishlist route |
| Client.DetailsOfMyOrders | frontend/src/slices/usersApiSlice.jsx:48-53 | `getUserDetails` with an id spelling "myorders" in any case reaches the caller's order list route |
| Client.UserDetailsUndefined | frontend/src/slices/usersApiSlice.jsx:48-53 | With no argument the call asks for `/api/users/undefined`, an administrator lookup |
| Client.UpdateUserCall | frontend/src/slices/usersApiSlice.jsx:54-61 | `updateUserByAdmin` reaches the admin update route, except that a user id spelling "profile" in any case makes it the caller's own profile update |
| Client.UploadCall | frontend/src/slices/productsApiSlice.jsx:57-63 | The image upload goes to `/api/upload`, outside the products prefix |
| Client.ProductDetailsTop | frontend/src/slices/productsApiSlice.jsx:15-20 | `getProductDetails("top")` sends exactly the request `getTopProducts` sends |
| Client.DetailsOfTop | frontend/src/slices/productsApiSlice.jsx:15-20 | `getProductDetails` with an id spelling "top" in any case reaches the public top-products route |
| Reauth.RefreshRequest | frontend/src/slices/apiSlice.jsx:14 | The refresh is a bodiless GET of `/api/users/refresh` |
| Reauth.RewriteMessage | frontend/src/slices/apiSlice.jsx:19-21 | The message can be set exactly when the error body is an object or an array. It sets "message" to "Your login has expired." and keeps every other property, whatever its value, the items of an array, the kind of body and the status |
| Reauth.Invoke | frontend/src/slices/apiSlice.jsx:9-29 | Running the wrapper await by await gives exactly the outcome and effect trace of the reference reading of the code |
| Reauth.AtMostThreeCalls | frontend/src/slices/apiSlice.jsx:10-17 | An invocation makes one to three base-query calls, the first with the caller's own request |
| Reauth.PassThrough | frontend/src/slices/apiSlice.jsx:10-28 | A first result that is not a 401 is returned unchanged after a single call, with no refresh |
| Reauth.OneRefreshOn401 | frontend/src/slices/apiSlice.jsx:12-14 | After a 401 the second call is the refresh GET. No other call is a refresh unless the caller's own request is one |
| Reauth.ReplayOnce | frontend/src/slices/apiSlice.jsx:15-17 | A refresh with truthy data is followed by exactly one replay, whose result is returned even if it is another 401: no loop and no logout |
| Reauth.RefreshFailureLogsOut | frontend/src/slices/apiSlice.jsx:18-24 | A refresh error other than 403 logs the user out and returns the refresh's error, not the original 401 |
| Reauth.ExpiredSessionMessage | frontend/src/slices/apiSlice.jsx:19-24 | A 403 refresh error whose body is an object or an array is returned with its message replaced, and the user is logged out |
| Reauth.LogoutOnlyOnRefreshFailure | frontend/src/slices/apiSlice.jsx:23 | Logout is dispatched exactly when the first call was a 401 and the refresh came back as an error the wrapper could hand on |
| Reauth.ThrowsOnlyOnBadRefresh | frontend/src/slices/apiSlice.jsx:15-20 | The wrapper throws exactly when, after a 401, the refresh has falsy data, or is a 403 whose body cannot take a message: missing, null, a boolean, a number or a string, but not an object or an array |
| Webhook.OrderIdOf | backend/server.js:56-57 | The order id is `metadata.orderId` and nothing else; it is absent when the metadata has none |
| Webhook.Lookup | backend/server.js:62 | An absent id, or one naming no order, finds nothing; otherwise the lookup finds that order |
| Webhook.Settle | backend/server.js:64-72 | The found order is set paid, with `paidAt` now and the payment evidence (intent id, status, receipt email); every other field is unchanged |
| Webhook.SignatureFailureRejects | backend/server.js:47-52 | A failed signature check answers 400 "Webhook Error: <reason>" before any lookup, and no order changes |
| Webhook.VerifiedIsAcknowledged | backend/server.js:55-80 | Once the signature verifies, the answer is an empty 200, whatever follows |
| Webhook.OtherEventsIgnored | backend/server.js:55 | Any event other than `payment_intent.succeeded` changes no order |
| Webhook.UnknownOrderIgnored | backend/server.js:62-64 | An absent or unknown order id changes nothing, and the answer is still 200 |
| Webhook.FaultsSwallowed | backend/server.js:75-77 | A lookup or save that throws is swallowed: 200, nothing written |
| Webhook.KnownOrderSettled | backend/server.js:64-72 | A success event for a known order, with no fault, settles exactly that order and leaves every other order and the key set unchanged |
| Webhook.OnlyTheNamedOrderChanges | backend/server.js:55-78 | For any input, no order is created or removed. Only the order named by the intent can change. A paid order stays paid |
| Webhook.HandlePreservesConsistency | backend/server.js:64-72 | The handler keeps every order consistent: paid exactly when it has a payment time, delivered exactly when it has a delivery time, delivered only if paid |
| Webhook.ReplayOverwritesPaidAt | backend/server.js:64-72 | As written, a second delivery of the same success event at a different time restamps `paidAt`, so the store differs from the one-delivery result |
| Webhook.HandleOnceIdempotent | backend/server.js:64-72 | With the already-paid check, handling any event a second time, at any time, changes nothing and gives the same answer |
| Webhook.HandleOncePreservesConsistency | backend/server.js:64-72 | The corrected handler keeps every order consistent and never touches an order that is already paid |
| Webhook.HandleOnceAgreesOnUnpaid | backend/server.js:64-72 | The corrected handler behaves exactly like the written one unless the named order is already paid |
| Webhook.ConfigKey | backend/server.js:85 | The key sent is the publishable key when it is set and non-empty, else the secret key |
| Webhook.ConfigBody | backend/server.js:84-86 | The JSON body has at most the one property `publishableKey`. It is present exactly when the publishable key is non-empty or the secret key is set, and carries the publishable key when that is non-empty, else the secret key |
| Webhook.ConfigFallsBackToSecret | backend/server.js:85 | The secret key reaches the client exactly when the publishable key is unset or empty |
| Checkout.InitialShippingForm | frontend/src/screens/ShippingScreen.jsx:11-14 | Each field starts from the stored address part when it is truthy, else empty |
| Checkout.ShippingRejectsIncomplete | frontend/src/screens/ShippingScreen.jsx:22-25 | The submit handler, called with any field empty, gives the one "Please fill all fields" error and nothing else: no save, no navigation, the cart unchanged |
| Checkout.FormNeverShowsFillAllFields | frontend/src/screens/ShippingScreen.jsx:22-86 | Submitting the form itself never shows the "Please fill all fields" error: a form with an empty `required` input does nothing, because the browser stops it |
| Checkout.SpacesAreSaved | frontend/src/screens/ShippingScreen.jsx:22-28 | A field of spaces passes both the `required` check and the handler's test, and is saved unchanged |
| Checkout.ShippingSavesThenNavigates | frontend/src/screens/ShippingScreen.jsx:27-29 | A complete form saves exactly its four fields first, then navigates to `/payment` |
| Checkout.ShippingRoundTrip | frontend/src/screens/ShippingScreen.jsx:11-28 | After a complete form is saved, the form opened again shows exactly what was entered, and the rest of the cart is unchanged |
| Checkout.RadioValue | frontend/src/screens/PaymentScreen.jsx:40-67 | Each radio reports "Stripe" or "PayPal" |
| Checkout.Select | frontend/src/screens/PaymentScreen.jsx:40-67 | Starting from one of the two methods, no sequence of clicks selects anything else |
| Checkout.LastClickWins | frontend/src/screens/PaymentScreen.jsx:40-67 | After any non-empty sequence of clicks, the selection is the last radio clicked |
| Checkout.PaymentRedirect | frontend/src/screens/PaymentScreen.jsx:16-20 | The payment screen redirects, to `/shipping`, exactly when the street address is missing or empty |
| Checkout.PaymentSaveThenAdvance | frontend/src/screens/PaymentScreen.jsx:22-27 | Submit saves the selected method (starting from "Stripe", one of the two) and then navigates to `/placeorder`; nothing else in the cart changes |
| Checkout.PlaceOrderRedirect | frontend/src/screens/PlaceOrderScreen.jsx:15-21 | A missing address redirects to `/shipping`, checked first. An address with no method redirects to `/payment`. There is no redirect exactly when both are present |
| Checkout.FreshCartRedirected | frontend/src/screens/PlaceOrderScreen.jsx:16-17 | A cart that never went through the shipping step is sent there by both later steps |
| Checkout.Payload | frontend/src/screens/PlaceOrderScreen.jsx:25-33 | The payload copies the cart's items, address, method and four prices |
| Checkout.PayloadRoundTrip | frontend/src/screens/PlaceOrderScreen.jsx:25-33 | The cart can be rebuilt from the payload alone: nothing is lost |
| Checkout.PlaceOrderFailureKeepsCart | frontend/src/screens/PlaceOrderScreen.jsx:36-38 | A failed create leaves the cart exactly as it was and does not navigate |
| Checkout.PlaceOrderSuccessClearsItems | frontend/src/screens/PlaceOrderScreen.jsx:25-35 | A created order: the request sent with the cart's contents, then the items cleared (only the items), then navigation to `/order/<id>` |
| Checkout.PlaceOrderButton | frontend/src/screens/PlaceOrderScreen.jsx:129 | The button is enabled exactly for a non-empty cart with no request in flight, so the emptied cart after a created order cannot place another |
| Checkout.WizardReachesPlaceOrder | frontend/src/screens/PlaceOrderScreen.jsx:15-21 | Going through shipping (with a complete form) and then payment leaves a cart that neither later screen redirects |
| Checkout.OrderActionsExclusive | frontend/src/screens/OrderScreen.jsx:160-171 | The card form and the deliver button never both appear. A PayPal order never gets the card form. The form needs an unpaid order; the button needs a paid, undelivered one |
| Checkout.OnPaymentSuccess | frontend/src/screens/OrderScreen.jsx:41-43 | A reported payment refetches the order and does nothing else |
| Checkout.PaymentSuccessKeepsCart | frontend/src/screens/OrderScreen.jsx:41-43 | A reported payment leaves the cart exactly as it was |
| Checkout.DeliverIgnoresOutcome | frontend/src/screens/OrderScreen.jsx:31-39 | The deliver handler's effects do not depend on the server's answer: a refused delivery still refetches and still shows the success toast, never an error |
| Home.JsRem | frontend/src/screens/HomeScreen.jsx:37 | JavaScript's `%`: Dafny's remainder for a non-negative dividend; for a negative one, a result in (-b, 0] |
| Home.NextSlide | frontend/src/screens/HomeScreen.jsx:37 | From any slide index in range, the next is in `[0, 3)`: one more, or 0 after the last |
| Home.SlideAfter | frontend/src/screens/HomeScreen.jsx:35-40 | The slide shown after any number of ticks is in `[0, 3)` |
| Home.SlideCycles | frontend/src/screens/HomeScreen.jsx:35-40 | After `t` ticks the slide is `t mod 3`: the carousel cycles in order |
| Home.Cell | frontend/src/screens/HomeScreen.jsx:280-308 | Page n is a link exactly when it is the first, the last, or within one of the current page. The link points at that page's URL and is marked exactly on the current page. An ellipsis appears exactly at a non-link two away from the current page that hides at least one page |
| Home.Pagination | frontend/src/screens/HomeScreen.jsx:257-326 | The bar renders exactly when there is more than one page, with one cell per page number in order |
| Home.PreviousAndNext | frontend/src/screens/HomeScreen.jsx:261-315 | Previous appears exactly when page > 1 and leads to page - 1; Next exactly when page < pages and leads to page + 1 |
| Home.AnchorsAreLinks | frontend/src/screens/HomeScreen.jsx:280-284 | On a real page, the first, the last and the current page are links, and the current one is marked |
| Home.BarIsBounded | frontend/src/screens/HomeScreen.jsx:275-309 | However many pages there are, at most five links and at most two ellipses |
| Home.PageUrlRoundTrip | frontend/src/screens/HomeScreen.jsx:288 | Every page link, read back from its path as the client router reads it, gives the same keyword (when truthy) and page number, for any keyword the browser delivers as one segment |
| Home.QueryInKeywordBreaksRoundTrip | frontend/src/screens/HomeScreen.jsx:288 | A keyword holding `?` after a clean head breaks the trip: its page link reads back as no page address, because the query mark ends the path |
| Home.Featured | frontend/src/screens/HomeScreen.jsx:333-346 | The strip renders exactly with no keyword and a non-empty product list, and shows the first `min(4, length)` products in order |
| Pipeline.DispatchFromWellFormed | backend/server.js:37-40 | Every route any request reaches, through the mounted routers or the application routes, runs one of the three well-formed chains |
| Pipeline.AdminChainRefusesAlike | backend/middleware/authMiddleware.js:24-41 | Whatever well-formed chain refuses a request, `protect, admin` refuses it with the same status and message |
| Pipeline.RefreshMeetsAdminGuard | frontend/src/slices/apiSlice.jsx:14 | The client's refresh request reaches the admin-only user lookup |
| Pipeline.RefreshGuardAnswer | backend/routes/userRoutes.js:43 | The guards answer the refresh with the verdict of `protect, admin` on the same cookies |
| Pipeline.RefreshAgreesIsAgrees | backend/routes/userRoutes.js:43 | A network that answers the refresh as the `protect, admin` chain would is exactly one that answers it as the guards the refresh reaches would |
| Pipeline.GuardRefusalEndsSession | frontend/src/slices/apiSlice.jsx:12-24 | When the guards refuse a request, the refresh sent with the same cookies is refused in the same words. The wrapper then logs the user out and returns that refusal, without a replay |
| Pipeline.CustomerLoggedOutByAdminCall | backend/middleware/authMiddleware.js:36-43 | A logged-in non-administrator who makes any call whose route runs `protect, admin` is logged out and gets "Not authorized as an admin" (401) |
| Pipeline.NoCookieLoggedOut | backend/middleware/authMiddleware.js:29-32 | With no session cookie, every guarded call ends in a logout, with the "no token" refusal returned |
| Pipeline.SettledOrderOnOrderPage | frontend/src/screens/OrderScreen.jsx:160-171 | After the webhook as written handles a success event for an order, the page offers no card form. It offers an administrator the deliver button exactly while the order is undelivered |
| Pipeline.SettledOrderOnOrderPageOnce | frontend/src/screens/OrderScreen.jsx:160-171 | The same holds after the handler with the already-paid check, whether or not the order was already paid |

## Left out

- Cryptography.
  - The token library's signing and verifying are abstract: a token records its key. Verification fails on a missing secret, a different key, or an expired token.
  - The payment provider's `constructEvent` is an input verdict: the parsed event, or a rejection with its message.
- Database I/O: `findById` and `save` on users and orders are plain map reads and writes.
  - A faulting call is an explicit flag.
  - Loading a user whose id cannot be cast is taken to fault.
- Concurrency.
  - Each wrapper invocation is modelled on its own. The absence of a single-flight gate is stated, not modelled.
  - The race between the webhook and the client's refetch is not modelled.
- The upload router and its table are not part of this model. Its mount is opaque.
- The controllers (user, order, product) are not part of this model; routes name their handlers only. This includes any deliver-after-paid check.
- The error middleware is not part of this model. A guard refusal is taken to reach the client with the guard's status and a JSON body `{ message }` (`Pipeline.Refusal`).
- Express plumbing is not modelled: body parsers, CORS, cookies parsing, static files, the production catch-all.
  - The global JSON parser runs before the webhook's raw parser. The model takes the verifier's verdict as input and does not decide how that ordering affects it.
- The cart, order and auth reducers are not part of this model. `ApplyToCart` takes them to store exactly what they are handed, with `clearCartItems` emptying the items only. The orders API slice is not part of this model.
- Floating-point money: prices are opaque strings; nothing computes totals.
- Reauth.Json: a JSON number is held as an integer. Only its truthiness matters to the wrapper, so a non-zero fraction stands as any non-zero integer.
- Toast display, JSX and hook lifecycles.
- RTK Query's cache lifetime (`keepUnusedDataFor`) and request deduplication.
- Cache-tag registration: `Products` is not among the declared `tagTypes` (`frontend/src/slices/apiSlice.jsx:33` lists `Product`, `Order`, `User`). The model takes tags to match by name regardless.
- The screens with no decision logic (cart, product, profile, admin lists and editors, wishlist, header, payment form).
- Guard.Protect: a lookup that throws is modelled as the "token failed" refusal. A cast error on a verified token's id is taken to throw, not to find nothing.
- Home.Pagination: `page` and `pages` are integers from the server. The model does not check that they are consistent.
- Home.PageUrlRoundTrip: holds only for a keyword that satisfies `UrlSegment`. The router decodes `%3F` in a keyword to `?`, so such keywords can reach the link; `Home.QueryInKeywordBreaksRoundTrip` shows one that breaks the trip. Dot segments, `\` and percent-decoding by the router are not modelled.
- Client.UsersCallsReachTheirRoutes: covers only path arguments that satisfy `UrlSegment`. `PathOf` splits the URL on `/` alone. It does not model how the browser's URL parser cuts at `?` or `#`, resolves `.` and `..` (also encoded), reads `\` as `/`, or strips whitespace. Arguments that trigger these can reach other routes, or none.
- ProductCallsReachTheirRoutes: covers only path arguments that satisfy `UrlSegment`, for the reasons given for `Client.UsersCallsReachTheirRoutes`.
- CallGuards: classifies only calls whose path arguments satisfy `UrlSegment`, for the same reasons.
- UpdateUserCall: covers only a `userId` that satisfies `UrlSegment`. A `userId` such as `profile?x` reaches `updateUserProfile`; the model does not cover it.
- CustomerLoggedOutByAdminCall: covers only calls with `UrlSegment` arguments. For example, `getUserDetails("profile?x")` meets `protect` alone and so causes no logout; the model does not cover it.
- NoCookieLoggedOut: covers only calls with `UrlSegment` arguments. For example, an argument of `..` can reach no route at all; the model does not cover it.
- Pipeline.GuardRefusalEndsSession: the request and its refresh are judged under one `env`, that is one clock and one user store. A token that expires, or a user who is removed, between the two calls would change the refusal's message; the model does not cover that.
- Percent-encoded path segments are compared as sent, as Express compares the raw path; the model does not decode them.

## Findings

| source | as written | input that shows it | evidently intended | confidence | as-written member | corrected member |
|---|---|---|---|---|---|---|
| backend/server.js:64-72 | A found order is marked paid with `paidAt = now` and new payment evidence, whether or not it is already paid | The provider delivers the same `payment_intent.succeeded` event twice, at times t1 ≠ t2: the order's `paidAt` moves from t1 to t2 | A repeated event is acknowledged without changing an order that is already paid (at-least-once delivery must be idempotent) | high, not executed | Webhook.ReplayOverwritesPaidAt | Webhook.HandleOnceIdempotent |
