/** The admin order list (client/src/views/admin/order.jsx): the search over id and address, the
    active and completed tabs, and the per-row status update. */
module AdminOrders {
  import opened Js
  import opened OrderModel
  import OrderController

  /** A fetched order with its `_id`. */
  datatype Listed = Listed(id: OrderId, order: Order)

  /** `part || ""`: an absent or empty part contributes nothing. */
  function Part(part: Option<string>): (r: string)
    ensures part.Some? ==> r == part.value
    ensures part.None? ==> r == ""
  {
    if part.Some? then part.value else ""
  }

  /** The lowercased, space-joined address the search looks in. */
  function AddressText(a: ShippingAddress): (r: string)
    ensures NoUpper(r)
    ensures |r| == |Part(a.street)| + |Part(a.city)| + |Part(a.state)| + |Part(a.zipCode)| + |Part(a.country)| + 4
  {
    Lower(Part(a.street) + " " + Part(a.city) + " " + Part(a.state) + " " + Part(a.zipCode) + " " + Part(a.country))
  }

  /** The search test: the lowercased id or the address contains the lowercased term. */
  predicate Matches(l: Listed, term: string) {
    Includes(Lower(l.id), Lower(term)) || Includes(AddressText(l.order.shippingAddress), Lower(term))
  }

  /** `filteredOrders`: exactly the orders that match, in the fetched order. */
  function FilteredOrders(orders: seq<Listed>, term: string): (r: seq<Listed>)
    ensures forall l :: l in r <==> l in orders && Matches(l, term)
    ensures |r| <= |orders|
  {
    Filter(orders, (l: Listed) => Matches(l, term))
  }

  /** An empty search term keeps every order. */
  lemma EmptySearchKeepsAll(orders: seq<Listed>)
    ensures FilteredOrders(orders, "") == orders
  {
    forall i | 0 <= i < |orders| ensures Matches(orders[i], "") {
      EmptyIncluded(Lower(orders[i].id));
    }
  }

  /** Searching for an order's own id, in any letter case, finds it. */
  lemma SearchFindsId(orders: seq<Listed>, l: Listed)
    requires l in orders
    ensures l in FilteredOrders(orders, l.id)
    ensures l in FilteredOrders(orders, Lower(l.id))
  {
    SelfIncluded(Lower(l.id));
    LowerIdempotent(l.id);
  }

  /** The search ignores the letter case of the term. */
  lemma SearchIgnoresCase(orders: seq<Listed>, term: string)
    ensures FilteredOrders(orders, Lower(term)) == FilteredOrders(orders, term)
  {
    LowerIdempotent(term);
    FilterAgrees(orders, (l: Listed) => Matches(l, Lower(term)), (l: Listed) => Matches(l, term));
  }

  /** The active tab's statuses. */
  predicate IsActive(status: string) {
    status == "pending" || status == "shipped"
  }

  /** The completed tab's statuses. */
  predicate IsCompleted(status: string) {
    status == "delivered" || status == "cancelled"
  }

  /** `activeOrders`. */
  function ActiveOrders(filtered: seq<Listed>): (r: seq<Listed>)
    ensures forall l :: l in r <==> l in filtered && IsActive(l.order.status)
  {
    Filter(filtered, (l: Listed) => IsActive(l.order.status))
  }

  /** `completedOrders`. */
  function CompletedOrders(filtered: seq<Listed>): (r: seq<Listed>)
    ensures forall l :: l in r <==> l in filtered && IsCompleted(l.order.status)
  {
    Filter(filtered, (l: Listed) => IsCompleted(l.order.status))
  }

  /** The two tabs are disjoint and both draw from the search result. */
  lemma TabsDisjoint(orders: seq<Listed>, term: string, l: Listed)
    ensures l in ActiveOrders(FilteredOrders(orders, term)) ==>
      l in FilteredOrders(orders, term) && l !in CompletedOrders(FilteredOrders(orders, term))
    ensures l in CompletedOrders(FilteredOrders(orders, term)) ==> l in FilteredOrders(orders, term)
  {
  }

  /** Of the six statuses the order schema admits, only `shipped` reaches a tab (active) and only
      `delivered` does (completed); an order in any other enum status is in neither list. */
  lemma EnumStatusesMostlyUnlisted(orders: seq<Listed>, term: string, l: Listed, s: OrderStatus)
    requires l.order.status == StatusName(s)
    ensures l in ActiveOrders(FilteredOrders(orders, term)) ==> s == Shipped
    ensures l in CompletedOrders(FilteredOrders(orders, term)) ==> s == Delivered
    ensures s in {PaymentPending, OrderConfirmed, CancelledByUser, CancelledByAdmin} ==>
      l !in ActiveOrders(FilteredOrders(orders, term)) && l !in CompletedOrders(FilteredOrders(orders, term))
  {
    StatusTabs(s);
  }

  /** Which enum statuses the two tab tests accept. */
  lemma StatusTabs(s: OrderStatus)
    ensures IsActive(StatusName(s)) <==> s == Shipped
    ensures IsCompleted(StatusName(s)) <==> s == Delivered
  {
    match s
    case PaymentPending =>
    case OrderConfirmed =>
    case Shipped =>
    case Delivered =>
    case CancelledByUser =>
    case CancelledByAdmin =>
  }

  /** A newly created order has the default status `Payment Pending` and so shows in neither tab. */
  lemma NewOrderUnlisted(orders: seq<Listed>, term: string, id: OrderId, user: string, items: seq<OrderItem>,
                         totalPrice: int, address: ShippingAddress, now: int)
    requires NewOrder(user, items, totalPrice, address, now).Success?
    ensures var l := Listed(id, NewOrder(user, items, totalPrice, address, now).value);
      l !in ActiveOrders(FilteredOrders(orders, term)) && l !in CompletedOrders(FilteredOrders(orders, term))
  {
    var l := Listed(id, NewOrder(user, items, totalPrice, address, now).value);
    EnumStatusesMostlyUnlisted(orders, term, l, PaymentPending);
  }

  /** The body of the `PUT /order/update-status/<id>` request a row sends. */
  datatype StatusRequest = StatusRequest(orderId: OrderId, status: string)

  /** `OrderRow`: one order and the status chosen in its drop-down. */
  class OrderRow {
    const order: Listed
    var selectedStatus: string

    /** The drop-down starts at the order's current status. */
    constructor (order: Listed)
      ensures this.order == order && selectedStatus == order.order.status
    {
      this.order := order;
      selectedStatus := order.order.status;
    }

    /** The drop-down's `onChange`. */
    method Select(status: string)
      modifies this
      ensures selectedStatus == status
    {
      selectedStatus := status;
    }

    /** `handleUpdateClick`: a request is sent exactly when the chosen status differs from the
        current one, and it names this row's order and the chosen status. */
    method UpdateClick() returns (sent: Option<StatusRequest>)
      ensures sent.Some? <==> selectedStatus != order.order.status
      ensures sent.Some? ==> sent.value == StatusRequest(order.id, selectedStatus)
    {
      if selectedStatus != order.order.status {
        sent := Some(StatusRequest(order.id, selectedStatus));
      } else {
        sent := None;
      }
    }
  }

  /** Whatever a row sends is a real change once the server applies it: the stored order's status
      becomes the chosen one, which differs from the one it had. */
  lemma SentUpdateChangesStatus(l: Listed, req: StatusRequest)
    requires req == StatusRequest(l.id, req.status) && req.status != l.order.status
    ensures OrderController.SetStatus(l.order, req.status).status == req.status
    ensures OrderController.SetStatus(l.order, req.status) != l.order
  {
  }
}
