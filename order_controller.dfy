/** The order handlers (server/controller/order.controller.js). `populate` is not modelled: the
    handlers answer with the stored order. */
module OrderController {
  import opened Js
  import opened Responder
  import opened OrderModel

  datatype CreateOrderRequest = CreateOrderRequest(
    user: Field<string>,
    orderItems: Field<seq<OrderItem>>,
    totalPrice: Field<int>,
    shippingAddress: Field<ShippingAddress>)

  const AllOrderFieldsRequired := "All order fields are required"
  const OrderNotFound := "Order not found"
  const StatusRequired := "Status is required"

  /** `!user || !orderItems || !totalPrice || !shippingAddress`: a total of 0 is rejected, an empty
      item list is not (an array is truthy). */
  predicate OrderFieldsMissing(req: CreateOrderRequest) {
    !TruthyString(req.user) || !TruthyObject(req.orderItems) || !TruthyNumber(req.totalPrice)
    || !TruthyObject(req.shippingAddress)
  }

  /** The order `save` would store: the four request fields, validated, then named by the hook. */
  function OrderFor(req: CreateOrderRequest, now: nat, random: real): (r: Result<Order>)
    requires !OrderFieldsMissing(req) && 0.0 <= random < 1.0
    ensures r.Success? <==> req.orderItems.value != [] && IsObjectId(req.user.value) && ItemsCast(req.orderItems.value)
    ensures r.Failure? ==> r.error == ValidationMessage("Order", OrderErrors(req.user.value, req.orderItems.value))
    ensures r.Success? ==>
      && r.value.user == req.user.value && r.value.orderItems == req.orderItems.value
      && r.value.totalPrice == req.totalPrice.value && r.value.shippingAddress == req.shippingAddress.value
      && r.value.status == StatusName(DefaultStatus) && r.value.paymentStatus == DefaultPaymentStatus
      && r.value.orderId == Some(OrderIdFor(now, random)) && r.value.createdAt == now
  {
    var o := NewOrder(req.user.value, req.orderItems.value, req.totalPrice.value, req.shippingAddress.value, now);
    if o.Failure? then Failure(o.error) else Success(PreSave(o.value, now, random))
  }

  /** `createOrder`. The document gets the id `newId`; the clock and the random draw are given. */
  method CreateOrder(db: OrderStore, req: CreateOrderRequest, newId: OrderId, now: nat, random: real)
    returns (r: Response<Order>)
    requires 0.0 <= random < 1.0
    requires db.Valid()
    modifies db
    ensures db.Valid()
    ensures OrderFieldsMissing(req) ==>
      r == Fail(AllOrderFieldsRequired, 400) && db.orders == old(db.orders)
    ensures !OrderFieldsMissing(req) && OrderFor(req, now, random).Failure? ==>
      r == Crash(OrderFor(req, now, random).error) && db.orders == old(db.orders)
    ensures !OrderFieldsMissing(req) && OrderFor(req, now, random).Success? ==>
      var o := OrderFor(req, now, random).value;
      if newId in old(db.orders) || OrderIdTaken(old(db.orders), o.orderId) then
        r == Crash(DuplicateKey) && db.orders == old(db.orders)
      else
        r == Ok("Order created successfully", o, 201) && db.orders == old(db.orders)[newId := o]
  {
    if OrderFieldsMissing(req) {
      return Fail(AllOrderFieldsRequired, 400);
    }
    var order := OrderFor(req, now, random);
    if order.Failure? {
      return Crash(order.error);
    }
    var o := order.value;
    if newId in db.orders || OrderIdTaken(db.orders, o.orderId) {
      return Crash(DuplicateKey);
    }
    db.orders := db.orders[newId := o];
    r := Ok("Order created successfully", o, 201);
  }

  /** `getOrder`. */
  function GetOrder(orders: map<OrderId, Order>, id: OrderId): (r: Response<Order>)
    ensures r.Success() <==> id in orders
    ensures r.Success() ==> r.status == 200 && r.body.data == Data(orders[id])
    ensures !r.Success() ==> r == Fail(OrderNotFound, 404)
  {
    if id !in orders then Fail(OrderNotFound, 404)
    else Ok("Order fetched successfully", orders[id], 200)
  }

  /** `findByIdAndUpdate(id, { status })`: only `status` changes, to any string, with no check
      against the enum or against the current status. */
  function SetStatus(o: Order, status: string): (r: Order)
    ensures r.status == status
    ensures r.(status := o.status) == o
  {
    o.(status := status)
  }

  /** `updateOrderStatus`: a falsy status is refused before the lookup. */
  method UpdateOrderStatus(db: OrderStore, id: OrderId, status: Field<string>) returns (r: Response<Order>)
    requires db.Valid()
    modifies db
    ensures db.Valid()
    ensures !TruthyString(status) ==> r == Fail(StatusRequired, 400) && db.orders == old(db.orders)
    ensures TruthyString(status) && id !in old(db.orders) ==>
      r == Fail(OrderNotFound, 404) && db.orders == old(db.orders)
    ensures TruthyString(status) && id in old(db.orders) ==>
      && db.orders == old(db.orders)[id := SetStatus(old(db.orders)[id], status.value)]
      && r == Ok("Order status updated successfully", db.orders[id], 200)
  {
    if !TruthyString(status) {
      return Fail(StatusRequired, 400);
    }
    if id !in db.orders {
      return Fail(OrderNotFound, 404);
    }
    var updated := SetStatus(db.orders[id], status.value);
    db.orders := db.orders[id := updated];
    r := Ok("Order status updated successfully", updated, 200);
  }

  /** `listOrders`: a truthy `userId` selects exactly that user's orders, otherwise all of them. */
  function ListOrders(orders: map<OrderId, Order>, userId: Field<string>): (r: Response<map<OrderId, Order>>)
    ensures r.Success() && r.status == 200 && r.body.data.Data?
    ensures !TruthyString(userId) ==> r.body.data.value == orders
    ensures TruthyString(userId) ==>
      forall id :: id in r.body.data.value <==> id in orders && orders[id].user == userId.value
    ensures forall id :: id in r.body.data.value ==> id in orders && r.body.data.value[id] == orders[id]
  {
    if TruthyString(userId) then
      Ok("Orders fetched successfully", map id | id in orders && orders[id].user == userId.value :: orders[id], 200)
    else Ok("Orders fetched successfully", orders, 200)
  }
}
