/** The payment-provider webhook (`POST /webhook`) and the endpoint that
    hands the client its payment key (`GET /api/config/stripe`).

    The provider's `constructEvent` is abstract: it either yields the
    parsed event or throws with a message, and this model takes that
    verdict as an input. The order collection is a map from order id to
    order; `findById` and `save` are a plain read then a plain write, and
    either may throw. */
module Webhook {
  import opened Js
  import opened Orders

  /** `event.data.object` for a payment intent: its id, status, the payer's
      receipt address (absent when none) and its metadata. */
  datatype PaymentIntent = PaymentIntent(id: string, status: string, receiptEmail: Option<string>, metadata: map<string, string>)

  datatype Event = Event(kind: string, intent: PaymentIntent)

  /** What the signature check of the raw body makes of the request. */
  datatype Verification = Verified(event: Event) | Rejected(reason: string)

  /** The order collection together with the faults its two calls can
      raise: `findThrows` covers loading the model and the lookup,
      `saveThrows` the write. */
  datatype Store = Store(orders: map<string, Order>, findThrows: bool, saveThrows: bool)

  datatype Response = Response(status: int, body: string)

  const BadRequest: int := 400
  const Ok: int := 200
  const SucceededKind := "payment_intent.succeeded"

  /** `paymentIntent.metadata.orderId`, the only place the order id is read. */
  function OrderIdOf(intent: PaymentIntent): (r: Option<string>)
    ensures r.Some? <==> "orderId" in intent.metadata
    ensures r.Some? ==> r.value == intent.metadata["orderId"]
  {
    if "orderId" in intent.metadata then Some(intent.metadata["orderId"]) else None
  }

  /** `findById(orderId)`: an absent id finds nothing. */
  function Lookup(orders: map<string, Order>, orderId: Option<string>): (r: Option<Order>)
    ensures r.Some? <==> orderId.Some? && orderId.value in orders
    ensures r.Some? ==> r.value == orders[orderId.value]
  {
    if orderId.Some? && orderId.value in orders then Some(orders[orderId.value]) else None
  }

  /** Marking a found order as paid at `nowMs` with the intent's evidence. */
  function Settle(o: Order, intent: PaymentIntent, nowMs: int): (r: Order)
    ensures r.isPaid && r.paidAt == Some(nowMs)
    ensures r.paymentResult == Some(PaymentResult(intent.id, intent.status, intent.receiptEmail))
    ensures r.id == o.id && r.user == o.user && r.orderItems == o.orderItems
    ensures r.shippingAddress == o.shippingAddress && r.paymentMethod == o.paymentMethod && r.prices == o.prices
    ensures r.isDelivered == o.isDelivered && r.deliveredAt == o.deliveredAt
  {
    o.(isPaid := true, paidAt := Some(nowMs),
       paymentResult := Some(PaymentResult(intent.id, intent.status, intent.receiptEmail)))
  }

  /** The handler as written: the response and the order collection after
      it. Once the signature checks out the answer is 200 whatever else
      happens; a failed lookup or save is logged and dropped. */
  function Handle(check: Verification, store: Store, nowMs: int): (Response, map<string, Order>)
  {
    match check
    case Rejected(reason) => (Response(BadRequest, "Webhook Error: " + reason), store.orders)
    case Verified(event) =>
      if event.kind != SucceededKind || store.findThrows then (Response(Ok, ""), store.orders)
      else
        var orderId := OrderIdOf(event.intent);
        match Lookup(store.orders, orderId)
        case None => (Response(Ok, ""), store.orders)
        case Some(o) =>
          if store.saveThrows then (Response(Ok, ""), store.orders)
          else (Response(Ok, ""), store.orders[orderId.value := Settle(o, event.intent, nowMs)])
  }

  /** A payload whose signature fails is answered 400 with the verifier's
      message, before any lookup: no order changes. */
  lemma SignatureFailureRejects(reason: string, store: Store, nowMs: int)
    ensures Handle(Rejected(reason), store, nowMs) == (Response(BadRequest, "Webhook Error: " + reason), store.orders)
  {
  }

  /** Once the signature verifies the answer is an empty 200, whatever the
      event, the lookup or the save do. */
  lemma VerifiedIsAcknowledged(event: Event, store: Store, nowMs: int)
    ensures Handle(Verified(event), store, nowMs).0 == Response(Ok, "")
  {
  }

  /** An event of any other kind touches no order. */
  lemma OtherEventsIgnored(event: Event, store: Store, nowMs: int)
    requires event.kind != SucceededKind
    ensures Handle(Verified(event), store, nowMs) == (Response(Ok, ""), store.orders)
  {
  }

  /** An order id that is absent or names no order changes nothing. */
  lemma UnknownOrderIgnored(event: Event, store: Store, nowMs: int)
    requires OrderIdOf(event.intent).None? || OrderIdOf(event.intent).value !in store.orders
    ensures Handle(Verified(event), store, nowMs) == (Response(Ok, ""), store.orders)
  {
  }

  /** A lookup or save that throws is swallowed: still 200, nothing written. */
  lemma FaultsSwallowed(event: Event, store: Store, nowMs: int)
    requires store.findThrows || store.saveThrows
    ensures Handle(Verified(event), store, nowMs) == (Response(Ok, ""), store.orders)
  {
  }

  /** A success event for a known order, with no fault, settles exactly
      that order and leaves every other order as it was. */
  lemma KnownOrderSettled(event: Event, store: Store, nowMs: int)
    requires event.kind == SucceededKind && !store.findThrows && !store.saveThrows
    requires "orderId" in event.intent.metadata && event.intent.metadata["orderId"] in store.orders
    ensures var id := event.intent.metadata["orderId"];
      var after := Handle(Verified(event), store, nowMs).1;
      after.Keys == store.orders.Keys &&
      after[id] == Settle(store.orders[id], event.intent, nowMs) &&
      forall k :: k in store.orders && k != id ==> after[k] == store.orders[k]
  {
  }

  /** The only order that can change is the one named by the intent's
      metadata; no order is created or removed; and a paid order stays
      paid. */
  lemma OnlyTheNamedOrderChanges(check: Verification, store: Store, nowMs: int)
    ensures var after := Handle(check, store, nowMs).1;
      after.Keys == store.orders.Keys &&
      (forall k :: k in store.orders && after[k] != store.orders[k] ==>
        check.Verified? && OrderIdOf(check.event.intent) == Some(k)) &&
      (forall k :: k in store.orders && store.orders[k].isPaid ==> after[k].isPaid)
  {
  }

  /** The handler keeps every order consistent: settling sets the payment
      flag and time together and leaves delivery alone. */
  lemma HandlePreservesConsistency(check: Verification, store: Store, nowMs: int)
    requires StoreConsistent(store.orders)
    ensures StoreConsistent(Handle(check, store, nowMs).1)
  {
  }

  /** As written, a second delivery of the same success event is not a
      no-op: it stamps the order with the later time, so the order differs
      from the one the first delivery produced. */
  lemma ReplayOverwritesPaidAt(event: Event, store: Store, t1: int, t2: int)
    requires event.kind == SucceededKind && !store.findThrows && !store.saveThrows
    requires "orderId" in event.intent.metadata && event.intent.metadata["orderId"] in store.orders
    requires t1 != t2
    ensures var once := Handle(Verified(event), store, t1).1;
      var twice := Handle(Verified(event), store.(orders := once), t2).1;
      var id := event.intent.metadata["orderId"];
      once[id].isPaid && twice[id].isPaid &&
      once[id].paidAt == Some(t1) && twice[id].paidAt == Some(t2) && twice != once
  {
    var id := event.intent.metadata["orderId"];
    var once := Handle(Verified(event), store, t1).1;
    var twice := Handle(Verified(event), store.(orders := once), t2).1;
    assert twice[id].paidAt != once[id].paidAt;
  }

  /** The handler with the already-paid check the reconciler is meant to
      have: an order that is already paid is acknowledged and left alone. */
  function HandleOnce(check: Verification, store: Store, nowMs: int): (Response, map<string, Order>)
  {
    match check
    case Rejected(reason) => (Response(BadRequest, "Webhook Error: " + reason), store.orders)
    case Verified(event) =>
      if event.kind != SucceededKind || store.findThrows then (Response(Ok, ""), store.orders)
      else
        var orderId := OrderIdOf(event.intent);
        match Lookup(store.orders, orderId)
        case None => (Response(Ok, ""), store.orders)
        case Some(o) =>
          if o.isPaid || store.saveThrows then (Response(Ok, ""), store.orders)
          else (Response(Ok, ""), store.orders[orderId.value := Settle(o, event.intent, nowMs)])
  }

  /** Delivering an event any second time, at any later moment, changes
      nothing: the first payment time and evidence stand. */
  lemma HandleOnceIdempotent(check: Verification, store: Store, t1: int, t2: int)
    ensures var once := HandleOnce(check, store, t1).1;
      HandleOnce(check, store.(orders := once), t2) == (HandleOnce(check, store, t1).0, once)
  {
  }

  /** The corrected handler keeps every order consistent too, and never
      touches an order that is already paid. */
  lemma HandleOncePreservesConsistency(check: Verification, store: Store, nowMs: int)
    requires StoreConsistent(store.orders)
    ensures var after := HandleOnce(check, store, nowMs).1;
      StoreConsistent(after) && after.Keys == store.orders.Keys &&
      forall k :: k in store.orders && store.orders[k].isPaid ==> after[k] == store.orders[k]
  {
  }

  /** The corrected handler differs from the written one only on orders
      that were already paid. */
  lemma HandleOnceAgreesOnUnpaid(check: Verification, store: Store, nowMs: int)
    requires check.Verified? ==>
      var id := OrderIdOf(check.event.intent);
      id.None? || id.value !in store.orders || !store.orders[id.value].isPaid
    ensures HandleOnce(check, store, nowMs) == Handle(check, store, nowMs)
  {
  }

  /** `publishableKey: STRIPE_PUBLISHABLE_KEY || STRIPE_SECRET_KEY`: the
      value sent, or `None` when both are unset and the property drops
      out of the JSON body. */
  function ConfigKey(publishableKey: Option<string>, secretKey: Option<string>): (r: Option<string>)
    ensures Truthy(publishableKey) ==> r == publishableKey
    ensures !Truthy(publishableKey) ==> r == secretKey
  {
    Or(publishableKey, secretKey)
  }

  /** The body of `GET /api/config/stripe`. */
  function ConfigBody(publishableKey: Option<string>, secretKey: Option<string>): (body: map<string, string>)
    ensures body.Keys <= {"publishableKey"}
    ensures "publishableKey" in body <==> Truthy(publishableKey) || secretKey.Some?
    ensures Truthy(publishableKey) ==> body["publishableKey"] == publishableKey.value
    ensures !Truthy(publishableKey) && secretKey.Some? ==> body["publishableKey"] == secretKey.value
  {
    match ConfigKey(publishableKey, secretKey)
    case Some(k) => map["publishableKey" := k]
    case None => map[]
  }

  /** The secret key reaches the client exactly when the publishable key
      is unset or empty and the secret key is set. */
  lemma ConfigFallsBackToSecret(publishableKey: Option<string>, secretKey: Option<string>)
    requires secretKey.Some? && publishableKey != secretKey
    ensures ("publishableKey" in ConfigBody(publishableKey, secretKey) &&
             ConfigBody(publishableKey, secretKey)["publishableKey"] == secretKey.value) <==>
      !Truthy(publishableKey)
  {
  }
}
