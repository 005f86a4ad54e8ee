/** The Order record (server/models/order.model.js): line items, the status enums with their
    defaults, the `arrayLimit` validator and the pre-save hook that names the order. */
module OrderModel {
  import opened Js

  type OrderId = string

  /** The `status` enum. */
  datatype OrderStatus = PaymentPending | OrderConfirmed | Shipped | Delivered | CancelledByUser | CancelledByAdmin

  function StatusName(s: OrderStatus): string {
    match s
    case PaymentPending => "Payment Pending"
    case OrderConfirmed => "Order Confirmed"
    case Shipped => "shipped"
    case Delivered => "delivered"
    case CancelledByUser => "cancelled by user"
    case CancelledByAdmin => "cancelled by admin"
  }

  const DefaultStatus := PaymentPending

  /** The strings the schema's `status` enum admits. */
  predicate IsStatusName(s: string) {
    s in {"Payment Pending", "Order Confirmed", "shipped", "delivered", "cancelled by user", "cancelled by admin"}
  }

  /** The enum names are exactly the six strings, and no two members share a name. */
  lemma StatusNames(a: OrderStatus, b: OrderStatus)
    ensures IsStatusName(StatusName(a))
    ensures StatusName(a) == StatusName(b) ==> a == b
  {
  }

  /** The `paymentStatus` enum. */
  datatype PaymentStatus = Pending | Paid | Failed

  function PaymentStatusName(s: PaymentStatus): string {
    match s
    case Pending => "pending"
    case Paid => "paid"
    case Failed => "failed"
  }

  const DefaultPaymentStatus := Pending

  /** One line of an order; the schema puts no constraint on any of its fields. */
  datatype OrderItem = OrderItem(product: Option<string>, quantity: Option<int>, totalPrice: Option<int>)

  datatype ShippingAddress = ShippingAddress(street: Option<string>, city: Option<string>, state: Option<string>,
                                             zipCode: Option<string>, country: Option<string>)

  /** `status` is kept as the stored string: an update runs no validators, so it can hold a
      string outside the enum. `createdAt` is the `timestamps` field. */
  datatype Order = Order(
    orderId: Option<string>,
    user: string,
    orderItems: seq<OrderItem>,
    totalPrice: int,
    shippingAddress: ShippingAddress,
    status: string,
    paymentStatus: PaymentStatus,
    paymentMode: Option<string>,
    razorpayPaymentId: Option<string>,
    trackingNumber: Option<string>,
    notes: Option<string>,
    deliveredAt: Option<int>,
    createdAt: int)

  const ItemsMessage := "Order must have at least one item"

  /** `arrayLimit`: an order needs at least one item. */
  predicate ArrayLimit(items: seq<OrderItem>) {
    |items| > 0
  }

  /** An order without items is refused, with the `arrayLimit` message among its errors. */
  lemma EmptyOrderRefused(user: string, totalPrice: int, address: ShippingAddress, now: int)
    ensures PathError("orderItems", ItemsMessage) in OrderErrors(user, [])
    ensures NewOrder(user, [], totalPrice, address, now).Failure?
  {
    assert OrderErrors(user, [])[|CastErrors([("user", Some(user))])|] == PathError("orderItems", ItemsMessage);
  }

  /** How Mongoose names the `product` path of the item at `index`. */
  function ItemPath(index: nat): string {
    "orderItems." + Decimal(index) + ".product"
  }

  /** The ObjectId paths of the order items, keyed the way Mongoose reports a sub-document's
      path: `orderItems.<index>.product`. */
  function ItemReferences(items: seq<OrderItem>, from: nat): (r: seq<(string, Option<string>)>)
    ensures |r| == |items|
    ensures forall i :: 0 <= i < |items| ==> r[i] == (ItemPath(from + i), items[i].product)
    decreases |items|
  {
    if items == [] then []
    else [(ItemPath(from), items[0].product)] + ItemReferences(items[1..], from + 1)
  }

  /** Every item's `product` casts to an ObjectId, or is absent (the path is not required). */
  predicate ItemsCast(items: seq<OrderItem>) {
    forall i :: 0 <= i < |items| ==> items[i].product.None? || IsObjectId(items[i].product.value)
  }

  /** The errors of `new Order({ user, orderItems, totalPrice, shippingAddress })` on save: the
      `user` cast recorded when the document is built, then `arrayLimit`, then the items' casts. */
  function OrderErrors(user: string, items: seq<OrderItem>): seq<PathError> {
    CastErrors([("user", Some(user))])
    + (if ArrayLimit(items) then [] else [PathError("orderItems", ItemsMessage)])
    + CastErrors(ItemReferences(items, 0))
  }

  /** `new Order({ user, orderItems, totalPrice, shippingAddress })` and its validation: `user`
      and each item's `product` must cast to ObjectIds, and the `required` validator admits any
      array, so `arrayLimit` is the only other check that can fail. Every other field takes its
      default; `orderId` is set by the save hook. */
  function NewOrder(user: string, items: seq<OrderItem>, totalPrice: int, address: ShippingAddress, now: int)
    : (r: Result<Order>)
    ensures r.Success? <==> items != [] && IsObjectId(user) && ItemsCast(items)
    ensures r.Failure? ==> r.error == ValidationMessage("Order", OrderErrors(user, items))
    ensures r.Success? ==> var o := r.value;
      && o.user == user && o.orderItems == items && o.totalPrice == totalPrice && o.shippingAddress == address
      && o.status == StatusName(DefaultStatus) && o.paymentStatus == DefaultPaymentStatus
      && o.orderId.None? && o.razorpayPaymentId.None? && o.trackingNumber.None? && o.deliveredAt.None?
      && o.paymentMode.None? && o.notes.None? && o.createdAt == now
  {
    var errors := OrderErrors(user, items);
    assert [("user", Some(user))][0] == ("user", Some(user));
    if errors != [] then Failure(ValidationMessage("Order", errors))
    else Success(Order(None, user, items, totalPrice, address, StatusName(DefaultStatus), DefaultPaymentStatus,
                       None, None, None, None, None, now))
  }

  /** An item whose `product` is the empty string fails the save, although the path is not
      required: the ObjectId cast refuses `""`. */
  lemma EmptyProductRefused(user: string, items: seq<OrderItem>, i: nat, totalPrice: int,
                            address: ShippingAddress, now: int)
    requires i < |items| && items[i].product == Some("")
    ensures NewOrder(user, items, totalPrice, address, now).Failure?
  {
    assert !IsObjectId("");
  }

  /** `Math.floor(Math.random() * 10000)` for a `Math.random()` result. */
  function RandomSuffix(random: real): (n: int)
    requires 0.0 <= random < 1.0
    ensures 0 <= n <= 9999
  {
    (random * 10000.0).Floor
  }

  /** The generated order id `ORD-<millis>-<n>`. */
  function OrderIdFor(now: nat, random: real): (id: string)
    requires 0.0 <= random < 1.0
    ensures exists n :: 0 <= n <= 9999 && id == "ORD-" + Decimal(now) + "-" + Decimal(n)
    ensures id != ""
  {
    var n := RandomSuffix(random);
    "ORD-" + Decimal(now) + "-" + Decimal(n)
  }

  /** The pre-save hook: an order without a (truthy) `orderId` gets a generated one; an order that
      has one keeps it, and nothing else changes. */
  function PreSave(o: Order, now: nat, random: real): (r: Order)
    requires 0.0 <= random < 1.0
    ensures o.orderId.Some? && o.orderId.value != "" ==> r == o
    ensures (o.orderId.None? || o.orderId.value == "") ==> r.orderId == Some(OrderIdFor(now, random))
    ensures r.orderId.Some? && r.orderId.value != ""
    ensures r.(orderId := o.orderId) == o
  {
    if o.orderId.None? || o.orderId.value == "" then o.(orderId := Some(OrderIdFor(now, random))) else o
  }

  /** Saving again keeps the order id the first save gave it. */
  lemma PreSaveKeepsId(o: Order, t1: nat, r1: real, t2: nat, r2: real)
    requires 0.0 <= r1 < 1.0 && 0.0 <= r2 < 1.0
    ensures PreSave(PreSave(o, t1, r1), t2, r2) == PreSave(o, t1, r1)
  {
  }

  /** The stored orders with the schema's unique index on `orderId`, which every saved order has. */
  ghost predicate ValidOrders(orders: map<OrderId, Order>) {
    && (forall id :: id in orders ==> orders[id].orderId.Some?)
    && (forall a, b :: a in orders && b in orders && orders[a].orderId == orders[b].orderId ==> a == b)
  }

  /** Whether an order id is already taken, as the unique index checks on insert. */
  predicate OrderIdTaken(orders: map<OrderId, Order>, orderId: Option<string>) {
    exists id :: id in orders && orders[id].orderId == orderId
  }

  class OrderStore {
    var orders: map<OrderId, Order>

    ghost predicate Valid()
      reads this
    {
      ValidOrders(orders)
    }

    constructor ()
      ensures orders == map[] && Valid()
    {
      orders := map[];
    }
  }
}
