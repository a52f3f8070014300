/**
 * The order document (backend/models/Order.js) and the line items an order
 * request carries. The schema has no `size` on a stored line, so the
 * document keeps the projection `OrderLine` of each requested item.
 */
module OrderModel {
  import opened Common
  import opened Catalog

  /** A line as the client sends it; `price` in cents. */
  datatype OrderItem = OrderItem(
    product: ObjectId,
    name: string,
    size: string,
    quantity: int,
    price: int,
    image: string)

  /** A line as the order document stores it. */
  datatype OrderLine = OrderLine(name: string, quantity: int, image: string, price: int, product: ObjectId)

  datatype ShippingAddress = ShippingAddress(address: string, city: string, postalCode: string, country: string)

  datatype Order = Order(
    user: ObjectId,
    orderItems: seq<OrderLine>,
    shippingAddress: ShippingAddress,
    paymentMethod: string,
    totalPrice: int,
    isPaid: bool,
    paidAt: Option<nat>,
    isDelivered: bool,
    deliveredAt: Option<nat>)

  function ToLine(item: OrderItem): (l: OrderLine)
    ensures l.product == item.product && l.quantity == item.quantity && l.price == item.price
    ensures l.name == item.name && l.image == item.image
  {
    OrderLine(item.name, item.quantity, item.image, item.price, item.product)
  }

  function ToLines(items: seq<OrderItem>): (ls: seq<OrderLine>)
    ensures |ls| == |items|
    ensures forall i :: 0 <= i < |items| ==> ls[i] == ToLine(items[i])
  {
    seq(|items|, i requires 0 <= i < |items| => ToLine(items[i]))
  }

  /** `paymentMethod` is a required string: absent or empty fails validation. */
  predicate HasPaymentMethod(paymentMethod: Option<string>) {
    paymentMethod.Some? && paymentMethod.value != ""
  }
}
