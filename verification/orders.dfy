/** The order record as the server stores it and the order page reads it.

    Money amounts are kept as the opaque strings the cart computed (the
    client formats them with `toFixed(2)`); nothing in this model does
    arithmetic on them. Timestamps are milliseconds since the epoch. */
module Orders {
  import opened Js

  /** A shipping address with all four parts filled in. */
  datatype Address = Address(address: string, city: string, postalCode: string, country: string)

  /** One line of an order or of the cart: a product snapshot and a quantity. */
  datatype Item = Item(product: string, name: string, image: string, price: string, qty: int)

  /** The four amounts an order carries, as the cart computed them. */
  datatype Prices = Prices(items: string, shipping: string, tax: string, total: string)

  /** `paymentResult`: the payment provider's evidence of the charge. */
  datatype PaymentResult = PaymentResult(id: string, status: string, emailAddress: Option<string>)

  datatype Order = Order(
    id: string,
    user: string,
    orderItems: seq<Item>,
    shippingAddress: Address,
    paymentMethod: string,
    prices: Prices,
    isPaid: bool,
    paidAt: Option<int>,
    paymentResult: Option<PaymentResult>,
    isDelivered: bool,
    deliveredAt: Option<int>)

  /** The record invariant the order model is meant to keep: a payment time
      exactly when paid, a delivery time exactly when delivered, and
      delivery only after payment. */
  predicate Consistent(o: Order)
  {
    (o.paidAt.Some? <==> o.isPaid) &&
    (o.deliveredAt.Some? <==> o.isDelivered) &&
    (o.isDelivered ==> o.isPaid)
  }

  /** Every order in a store is consistent. */
  predicate StoreConsistent(orders: map<string, Order>)
  {
    forall k :: k in orders ==> Consistent(orders[k])
  }
}
