/** The checkout wizard (shipping, payment method, place order) and the
    action gating of the order page.

    Each screen's handler is a function from what it reads to the list of
    effects it performs, in order: store updates, navigations, toasts and
    API calls. `ApplyToCart` gives the store updates their meaning: the
    cart reducers themselves are not part of this model, and are taken to
    store exactly what they are handed (`clearCartItems` empties the items
    and nothing else). */
module Checkout {
  import opened Js
  import opened Orders

  /** `cart.shippingAddress` as stored: an object whose four properties may
      each be missing (the cart starts with an empty object). */
  datatype StoredAddress = StoredAddress(address: Option<string>, city: Option<string>, postalCode: Option<string>, country: Option<string>)

  const NoAddress := StoredAddress(None, None, None, None)

  datatype Cart = Cart(cartItems: seq<Item>, shippingAddress: StoredAddress, paymentMethod: Option<string>, prices: Prices)

  /** The body of the create-order request. */
  datatype OrderPayload = OrderPayload(orderItems: seq<Item>, shippingAddress: StoredAddress, paymentMethod: Option<string>, prices: Prices)

  /** What a screen does, in the order it does it. */
  datatype UiEffect =
    | SaveShippingAddress(saved: Address)
    | SavePaymentMethod(choice: string)
    | ClearCartItems
    | Navigate(to: string)
    | ToastSuccess(text: string)
    | ToastError(shown: Option<string>)
    | CreateOrder(payload: OrderPayload)
    | DeliverOrder(orderId: string)
    | Refetch

  /** The cart after the store updates among `effects`, in order. */
  function ApplyToCart(cart: Cart, effects: seq<UiEffect>): Cart
    decreases |effects|
  {
    if effects == [] then cart
    else
      var next := match effects[0]
        case SaveShippingAddress(a) =>
          cart.(shippingAddress := StoredAddress(Some(a.address), Some(a.city), Some(a.postalCode), Some(a.country)))
        case SavePaymentMethod(m) => cart.(paymentMethod := Some(m))
        case ClearCartItems => cart.(cartItems := [])
        case _ => cart;
      ApplyToCart(next, effects[1..])
  }

  /** Effects that leave the cart alone leave it alone in any number. */
  lemma {:induction false} ApplyInert(cart: Cart, effects: seq<UiEffect>)
    requires forall i :: 0 <= i < |effects| ==>
      !effects[i].SaveShippingAddress? && !effects[i].SavePaymentMethod? && !effects[i].ClearCartItems?
    ensures ApplyToCart(cart, effects) == cart
    decreases |effects|
  {
    if effects != [] {
      ApplyInert(cart, effects[1..]);
    }
  }

  // ---------------------------------------------------------------- Shipping

  /** The shipping form's four text fields. */
  datatype ShippingForm = ShippingForm(address: string, city: string, postalCode: string, country: string)

  const FillAllFields := "Please fill all fields"

  /** The form as it first appears: each field from the stored address, or
      empty when that part is missing. */
  function InitialShippingForm(stored: StoredAddress): (f: ShippingForm)
    ensures Truthy(stored.address) ==> f.address == stored.address.value
    ensures Truthy(stored.city) ==> f.city == stored.city.value
    ensures Truthy(stored.postalCode) ==> f.postalCode == stored.postalCode.value
    ensures Truthy(stored.country) ==> f.country == stored.country.value
    ensures !Truthy(stored.address) ==> f.address == ""
    ensures !Truthy(stored.city) ==> f.city == ""
    ensures !Truthy(stored.postalCode) ==> f.postalCode == ""
    ensures !Truthy(stored.country) ==> f.country == ""
  {
    ShippingForm(OrEmpty(stored.address), OrEmpty(stored.city), OrEmpty(stored.postalCode), OrEmpty(stored.country))
  }

  predicate Complete(f: ShippingForm)
  {
    f.address != "" && f.city != "" && f.postalCode != "" && f.country != ""
  }

  /** The shipping form's submit handler. */
  function SubmitShipping(f: ShippingForm): seq<UiEffect>
  {
    if f.address == "" || f.city == "" || f.postalCode == "" || f.country == "" then
      [ToastError(Some(FillAllFields))]
    else
      [SaveShippingAddress(Address(f.address, f.city, f.postalCode, f.country)),
       Navigate("/payment"),
       ToastSuccess("Shipping address saved")]
  }

  /** A form with any field empty is refused with one error toast: nothing
      is saved and the screen stays where it is. */
  lemma ShippingRejectsIncomplete(cart: Cart, f: ShippingForm)
    requires !Complete(f)
    ensures SubmitShipping(f) == [ToastError(Some(FillAllFields))]
    ensures ApplyToCart(cart, SubmitShipping(f)) == cart
    ensures forall e :: e in SubmitShipping(f) ==> !e.Navigate? && !e.SaveShippingAddress?
  {
    ApplyInert(cart, SubmitShipping(f));
  }

  /** A complete form saves exactly its four fields, and only then moves
      on to the payment step. */
  lemma ShippingSavesThenNavigates(f: ShippingForm)
    requires Complete(f)
    ensures var effects := SubmitShipping(f);
      |effects| == 3 &&
      effects[0] == SaveShippingAddress(Address(f.address, f.city, f.postalCode, f.country)) &&
      effects[1] == Navigate("/payment") &&
      forall i :: 0 <= i < |effects| && effects[i].Navigate? ==> i > 0
  {
  }

  /** The form as the browser submits it. Every input is `required`, and the
      browser's own validation stops a form with an empty input before the
      submit handler runs. Input of spaces counts as filled. */
  function SubmitForm(f: ShippingForm): seq<UiEffect>
  {
    if Complete(f) then SubmitShipping(f) else []
  }

  /** The handler's refusal is never reached from the form itself: the
      browser has already refused every form the handler would refuse. */
  lemma FormNeverShowsFillAllFields(f: ShippingForm)
    ensures ToastError(Some(FillAllFields)) !in SubmitForm(f)
    ensures !Complete(f) ==> SubmitForm(f) == []
  {
  }

  /** A field of nothing but spaces passes both the browser's check and
      the handler's, and is saved as it is. */
  lemma SpacesAreSaved(f: ShippingForm, n: nat)
    requires n > 0 && f.address == seq(n, _ => ' ')
    requires f.city != "" && f.postalCode != "" && f.country != ""
    ensures SubmitForm(f) != [] &&
      SubmitForm(f)[0] == SaveShippingAddress(Address(seq(n, _ => ' '), f.city, f.postalCode, f.country))
  {
    assert |f.address| == n;
  }

  /** Round trip: after a complete form is saved, the shipping form opened
      again shows exactly what was entered, and nothing else in the cart
      has changed. */
  lemma {:induction false} ShippingRoundTrip(cart: Cart, f: ShippingForm)
    requires Complete(f)
    ensures var after := ApplyToCart(cart, SubmitShipping(f));
      InitialShippingForm(after.shippingAddress) == f &&
      after.cartItems == cart.cartItems && after.paymentMethod == cart.paymentMethod && after.prices == cart.prices
  {
    var effects := SubmitShipping(f);
    var saved := cart.(shippingAddress := StoredAddress(Some(f.address), Some(f.city), Some(f.postalCode), Some(f.country)));
    assert ApplyToCart(cart, effects) == ApplyToCart(saved, effects[1..]);
    ApplyInert(saved, effects[1..]);
  }

  // ---------------------------------------------------------------- Payment

  const DefaultMethod := "Stripe"

  /** The two radio buttons of the payment form; each reports its `value`. */
  datatype Radio = StripeRadio | PayPalRadio

  function RadioValue(r: Radio): (v: string)
    ensures v == "Stripe" || v == "PayPal"
  {
    match r
    case StripeRadio => "Stripe"
    case PayPalRadio => "PayPal"
  }

  /** The selected method after the user clicks `clicks` in turn, starting
      from `choice`. */
  function Select(choice: string, clicks: seq<Radio>): (m: string)
    ensures choice == "Stripe" || choice == "PayPal" ==> m == "Stripe" || m == "PayPal"
    decreases |clicks|
  {
    if clicks == [] then choice else Select(RadioValue(clicks[0]), clicks[1..])
  }

  /** Whatever the clicks, the form holds "Stripe" or "PayPal", and the
      last click wins. */
  lemma {:induction false} LastClickWins(choice: string, clicks: seq<Radio>)
    requires clicks != []
    ensures Select(choice, clicks) == RadioValue(clicks[|clicks| - 1])
    decreases |clicks|
  {
    if |clicks| > 1 {
      LastClickWins(RadioValue(clicks[0]), clicks[1..]);
    }
  }

  /** The payment screen sends a cart without a street address back to
      the shipping step. */
  function PaymentRedirect(cart: Cart): (to: Option<string>)
    ensures to.Some? <==> !Truthy(cart.shippingAddress.address)
    ensures to.Some? ==> to.value == "/shipping"
  {
    if !Truthy(cart.shippingAddress.address) then Some("/shipping") else None
  }

  function SubmitPayment(choice: string): seq<UiEffect>
  {
    [SavePaymentMethod(choice), Navigate("/placeorder"), ToastSuccess("Payment method saved")]
  }

  /** Submitting stores the selected method, one of the two offered, and
      then moves on to placing the order; nothing else in the cart changes. */
  lemma {:induction false} PaymentSaveThenAdvance(cart: Cart, clicks: seq<Radio>)
    ensures var m := Select(DefaultMethod, clicks);
      var effects := SubmitPayment(m);
      effects[0] == SavePaymentMethod(m) && effects[1] == Navigate("/placeorder") &&
      var after := ApplyToCart(cart, effects);
      after.paymentMethod == Some(m) && (m == "Stripe" || m == "PayPal") &&
      after.cartItems == cart.cartItems && after.shippingAddress == cart.shippingAddress && after.prices == cart.prices
  {
    var m := Select(DefaultMethod, clicks);
    var effects := SubmitPayment(m);
    var saved := cart.(paymentMethod := Some(m));
    assert ApplyToCart(cart, effects) == ApplyToCart(saved, effects[1..]);
    ApplyInert(saved, effects[1..]);
  }

  // ------------------------------------------------------------- Place order

  /** Where the place-order screen sends an unfinished checkout: the
      shipping step takes precedence over the payment step. */
  function PlaceOrderRedirect(cart: Cart): (to: Option<string>)
    ensures !Truthy(cart.shippingAddress.address) ==> to == Some("/shipping")
    ensures Truthy(cart.shippingAddress.address) && !Truthy(cart.paymentMethod) ==> to == Some("/payment")
    ensures to.None? <==> Truthy(cart.shippingAddress.address) && Truthy(cart.paymentMethod)
  {
    if !Truthy(cart.shippingAddress.address) then Some("/shipping")
    else if !Truthy(cart.paymentMethod) then Some("/payment")
    else None
  }

  /** A cart that was never through the shipping step is sent there by
      both later steps. */
  lemma FreshCartRedirected(cart: Cart)
    requires cart.shippingAddress == NoAddress
    ensures PaymentRedirect(cart) == Some("/shipping") && PlaceOrderRedirect(cart) == Some("/shipping")
  {
  }

  /** The Place Order button is disabled for an empty cart or while the
      request is in flight. */
  predicate PlaceOrderEnabled(cart: Cart, isLoading: bool)
  {
    !(|cart.cartItems| == 0 || isLoading)
  }

  function Payload(cart: Cart): (p: OrderPayload)
    ensures p.orderItems == cart.cartItems && p.shippingAddress == cart.shippingAddress
    ensures p.paymentMethod == cart.paymentMethod && p.prices == cart.prices
  {
    OrderPayload(cart.cartItems, cart.shippingAddress, cart.paymentMethod, cart.prices)
  }

  /** The cart a payload was taken from, rebuilt from the payload alone. */
  function CartOf(p: OrderPayload): Cart
  {
    Cart(p.orderItems, p.shippingAddress, p.paymentMethod, p.prices)
  }

  /** The payload loses nothing of the cart: the cart can be rebuilt from it. */
  lemma PayloadRoundTrip(cart: Cart)
    ensures CartOf(Payload(cart)) == cart
  {
  }

  /** How the create-order request settles: the new order's id, or an
      error with its optional server message and fetch-layer text. */
  datatype CreateResult = Created(orderId: string) | CreateFailed(message: Option<string>, fetchError: Option<string>)

  /** The place-order handler: send the payload; on success clear the
      cart's items and open the new order; on failure show
      `err?.data?.message || err.error`. */
  function PlaceOrder(cart: Cart, result: CreateResult): seq<UiEffect>
  {
    [CreateOrder(Payload(cart))] +
    match result
    case Created(id) => [ClearCartItems, Navigate("/order/" + id)]
    case CreateFailed(message, fetchError) => [ToastError(Or(message, fetchError))]
  }

  /** A failed request leaves the cart exactly as it was and stays on the
      page. */
  lemma PlaceOrderFailureKeepsCart(cart: Cart, message: Option<string>, fetchError: Option<string>)
    ensures var effects := PlaceOrder(cart, CreateFailed(message, fetchError));
      ApplyToCart(cart, effects) == cart && forall e :: e in effects ==> !e.Navigate?
  {
    ApplyInert(cart, PlaceOrder(cart, CreateFailed(message, fetchError)));
  }

  /** A created order empties the cart's items, keeps its address, method
      and prices, and opens the order's page, after the request was sent
      with the cart's contents. */
  lemma {:induction false} PlaceOrderSuccessClearsItems(cart: Cart, id: string)
    ensures var effects := PlaceOrder(cart, Created(id));
      effects == [CreateOrder(Payload(cart)), ClearCartItems, Navigate("/order/" + id)] &&
      var after := ApplyToCart(cart, effects);
      after == cart.(cartItems := [])
  {
    var effects := PlaceOrder(cart, Created(id));
    assert effects == [CreateOrder(Payload(cart)), ClearCartItems, Navigate("/order/" + id)];
    assert ApplyToCart(cart, effects) == ApplyToCart(cart, effects[1..]);
    assert ApplyToCart(cart, effects[1..]) == ApplyToCart(cart.(cartItems := []), effects[2..]);
    ApplyInert(cart.(cartItems := []), effects[2..]);
  }

  /** The button is enabled exactly for a cart with items and no request
      in flight; so once an order is created from the cart, the emptied
      cart can no longer place another. */
  lemma PlaceOrderButton(cart: Cart, id: string, isLoading: bool)
    ensures PlaceOrderEnabled(cart, isLoading) <==> cart.cartItems != [] && !isLoading
    ensures !PlaceOrderEnabled(ApplyToCart(cart, PlaceOrder(cart, Created(id))), isLoading)
  {
    PlaceOrderSuccessClearsItems(cart, id);
  }

  /** Going through the shipping and payment steps in order leaves a cart
      the place-order screen accepts without redirecting. */
  lemma {:induction false} WizardReachesPlaceOrder(cart: Cart, f: ShippingForm, clicks: seq<Radio>)
    requires Complete(f)
    ensures var shipped := ApplyToCart(cart, SubmitShipping(f));
      PaymentRedirect(shipped).None? &&
      PlaceOrderRedirect(ApplyToCart(shipped, SubmitPayment(Select(DefaultMethod, clicks)))).None?
  {
    ShippingRoundTrip(cart, f);
    var shipped := ApplyToCart(cart, SubmitShipping(f));
    assert shipped.shippingAddress.address == Some(f.address);
    PaymentSaveThenAdvance(shipped, clicks);
  }

  // -------------------------------------------------------------- Order page

  /** `userInfo` in the client's auth state, when someone is logged in. */
  datatype UserInfo = UserInfo(id: string, isAdmin: bool)

  /** The card payment form is offered for an unpaid order paid by card. */
  predicate OffersPayment(o: Order)
  {
    !o.isPaid && o.paymentMethod == "Stripe"
  }

  /** The Mark As Delivered button is offered to a logged-in administrator
      for an order that is paid and not yet delivered. */
  predicate OffersDelivery(userInfo: Option<UserInfo>, o: Order)
  {
    userInfo.Some? && userInfo.value.isAdmin && o.isPaid && !o.isDelivered
  }

  /** The two actions never appear together, and an order paid by PayPal
      is never offered the card form. */
  lemma OrderActionsExclusive(userInfo: Option<UserInfo>, o: Order)
    ensures !(OffersPayment(o) && OffersDelivery(userInfo, o))
    ensures o.paymentMethod == "PayPal" ==> !OffersPayment(o)
    ensures OffersPayment(o) ==> !o.isPaid
    ensures OffersDelivery(userInfo, o) ==> o.isPaid && !o.isDelivered
  {
  }

  /** Whatever the payment form reports, the page only refetches the
      order; it changes nothing locally. */
  function OnPaymentSuccess(): (effects: seq<UiEffect>)
    ensures Refetch in effects
    ensures forall e :: e in effects ==> e == Refetch
  {
    [Refetch]
  }

  /** The payment-success handler leaves the cart exactly as it was. */
  lemma PaymentSuccessKeepsCart(cart: Cart)
    ensures ApplyToCart(cart, OnPaymentSuccess()) == cart
  {
    ApplyInert(cart, OnPaymentSuccess());
  }

  /** How the deliver mutation settles. The handler never unwraps it. */
  datatype DeliverResult = Delivered | DeliverFailed(message: Option<string>)

  function OnDeliver(orderId: string, result: DeliverResult): (effects: seq<UiEffect>)
  {
    [DeliverOrder(orderId), Refetch, ToastSuccess("Order delivered")]
  }

  /** The deliver handler's effects do not depend on the server's answer:
      a refused delivery still refetches and still reports success. */
  lemma DeliverIgnoresOutcome(orderId: string, a: DeliverResult, b: DeliverResult)
    ensures OnDeliver(orderId, a) == OnDeliver(orderId, b)
    ensures ToastSuccess("Order delivered") in OnDeliver(orderId, DeliverFailed(None))
    ensures forall e :: e in OnDeliver(orderId, a) ==> !e.ToastError?
  {
  }
}
