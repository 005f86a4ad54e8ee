/** The checkout panel (client/src/components/Checkout.jsx): the guards of `handlePay`, the order
    it posts, and the payment step that follows a created order. */
module Checkout {
  import opened Js
  import opened OrderModel
  import opened OrderController
  import opened ProductModel
  import opened CartController
  import opened CartView

  /** An address as the panel holds it; `phone` is collected but not required. */
  datatype CheckoutAddress = CheckoutAddress(street: Option<string>, city: Option<string>, state: Option<string>,
                                             zipCode: Option<string>, country: Option<string>, phone: Option<string>)

  const AddressIncomplete := "Please fill all required address fields."
  const CartUnavailable := "Cart is empty or total amount is unavailable."

  /** `isAddingNewAddress ? newAddress : selectedAddress`. */
  function AddressToUse(addingNew: bool, newAddress: CheckoutAddress, selected: Option<CheckoutAddress>)
    : (r: Option<CheckoutAddress>)
    ensures addingNew ==> r == Some(newAddress)
    ensures !addingNew ==> r == selected
  {
    if addingNew then Some(newAddress) else selected
  }

  /** The five address fields must be truthy; `phone` is not looked at. */
  predicate AddressComplete(a: CheckoutAddress) {
    !Blank(a.street) && !Blank(a.city) && !Blank(a.state) && !Blank(a.zipCode) && !Blank(a.country)
  }

  /** The guards of `handlePay` in order; `total` is `None` until the cart has been fetched. */
  function PayCheck(address: Option<CheckoutAddress>, total: Option<int>, items: seq<ViewLine>): (r: Option<string>)
    ensures r == Some(AddressIncomplete) <==> address.None? || !AddressComplete(address.value)
    ensures r == Some(CartUnavailable) <==>
      address.Some? && AddressComplete(address.value) && (total.None? || total.value == 0 || items == [])
    ensures r.None? <==>
      address.Some? && AddressComplete(address.value) && total.Some? && total.value != 0 && items != []
  {
    if address.None? || !AddressComplete(address.value) then Some(AddressIncomplete)
    else if total.None? || total.value == 0 || items == [] then Some(CartUnavailable)
    else None
  }

  /** The stored form of the address: the schema has no `phone`, so strict mode drops it. */
  function ShippingOf(a: CheckoutAddress): (s: ShippingAddress)
    ensures s.street == a.street && s.city == a.city && s.state == a.state
    ensures s.zipCode == a.zipCode && s.country == a.country
  {
    ShippingAddress(a.street, a.city, a.state, a.zipCode, a.country)
  }

  /** The line `orderItems.map` sends, as the server stores it. As written the product goes under
      `productId`, a key the item schema does not have, so the stored `product` is absent. */
  function ItemAsWritten(line: ViewLine): (i: OrderItem)
    ensures i.product.None? && i.quantity == Some(line.quantity) && i.totalPrice == Some(line.product.currentPrice)
  {
    OrderItem(None, Some(line.quantity), Some(line.product.currentPrice))
  }

  function ItemsAsWritten(lines: seq<ViewLine>): (r: seq<OrderItem>)
    ensures |r| == |lines| && forall i :: 0 <= i < |lines| ==> r[i] == ItemAsWritten(lines[i])
  {
    if lines == [] then [] else [ItemAsWritten(lines[0])] + ItemsAsWritten(lines[1..])
  }

  /** The body `handlePay` posts, as written: no `user` key at all. */
  function RequestAsWritten(lines: seq<ViewLine>, total: int, address: CheckoutAddress): (req: CreateOrderRequest)
    ensures req.user.Undefined?
    ensures req.orderItems == Given(ItemsAsWritten(lines)) && req.totalPrice == Given(total)
    ensures req.shippingAddress == Given(ShippingOf(address))
  {
    CreateOrderRequest(Undefined, Given(ItemsAsWritten(lines)), Given(total), Given(ShippingOf(address)))
  }

  /** As written, every order the panel posts fails the server's field guard, whatever passed the
      panel's own guards. */
  lemma AsWrittenAlwaysRejected(lines: seq<ViewLine>, total: int, address: CheckoutAddress)
    ensures OrderFieldsMissing(RequestAsWritten(lines, total, address))
  {
  }

  /** The corrected line: the product id under the schema's key `product`, the unit price as the
      line's `totalPrice`. */
  function Item(line: ViewLine): (i: OrderItem)
    ensures i.product == Some(line.productId) && i.quantity == Some(line.quantity)
    ensures i.totalPrice == Some(line.product.currentPrice)
  {
    OrderItem(Some(line.productId), Some(line.quantity), Some(line.product.currentPrice))
  }

  /** The lines in cart order, one order item per cart line. */
  function Items(lines: seq<ViewLine>): (r: seq<OrderItem>)
    ensures |r| == |lines| && forall i :: 0 <= i < |lines| ==> r[i] == Item(lines[i])
  {
    if lines == [] then [] else [Item(lines[0])] + Items(lines[1..])
  }

  /** The corrected body: the signed-in user's id as `user`. */
  function OrderRequest(user: string, lines: seq<ViewLine>, total: int, address: CheckoutAddress)
    : (req: CreateOrderRequest)
    ensures req.user == Given(user) && req.orderItems == Given(Items(lines))
    ensures req.totalPrice == Given(total) && req.shippingAddress == Given(ShippingOf(address))
  {
    CreateOrderRequest(Given(user), Given(Items(lines)), Given(total), Given(ShippingOf(address)))
  }

  /** With the correction, an order that passes the panel's guards also passes the server's guard,
      its item validator and its ObjectId casts, for a signed-in user and products that came from
      the database. */
  lemma CorrectedAccepted(user: string, address: Option<CheckoutAddress>, lines: seq<ViewLine>,
                          now: nat, random: real)
    requires IsObjectId(user) && 0.0 <= random < 1.0
    requires ProductIdsCast(lines)
    requires PayCheck(address, Some(Subtotal(lines)), lines).None?
    ensures !OrderFieldsMissing(OrderRequest(user, lines, Subtotal(lines), address.value))
    ensures OrderFor(OrderRequest(user, lines, Subtotal(lines), address.value), now, random).Success?
  {
    assert ItemsCast(Items(lines));
  }

  /** Every line's product id is an ObjectId, as for products read from the database. */
  predicate ProductIdsCast(lines: seq<ViewLine>) {
    forall i :: 0 <= i < |lines| ==> IsObjectId(lines[i].productId)
  }

  /** The total the panel posts is the total the server stores for the same cart. */
  lemma PostedTotalIsCartTotal(user: string, items: seq<CartItem>, products: map<ProductId, Product>,
                               address: CheckoutAddress)
    requires Populate(items, products).Some?
    ensures OrderRequest(user, Populate(items, products).value, Subtotal(Populate(items, products).value), address)
              .totalPrice == Given(CartTotal(items, products))
  {
    SubtotalIsServerTotal(items, products);
  }

  /** The panel's state: the fetched cart lines and their total (`None` until the cart has been
      fetched), whether the payment step shows, and the orders posted. */
  class CheckoutPanel {
    var orderItems: seq<ViewLine>
    var total: Option<int>
    var showPayment: bool
    var posted: seq<CreateOrderRequest>

    /** The total is the one computed from the fetched lines. */
    ghost predicate Valid()
      reads this
    {
      && (total.None? ==> orderItems == [])
      && (total.Some? ==> total.value == Subtotal(orderItems))
    }

    constructor ()
      ensures Valid()
      ensures orderItems == [] && total.None? && !showPayment && posted == []
    {
      orderItems := [];
      total := None;
      showPayment := false;
      posted := [];
    }

    /** `fetchCart`: a successful fetch stores the lines and Σ currentPrice × quantity over them;
        a failed one changes nothing. */
    method FetchCart(reply: Option<seq<ViewLine>>)
      requires Valid()
      modifies this
      ensures Valid()
      ensures reply.Some? ==> orderItems == reply.value && total == Some(Subtotal(reply.value))
      ensures reply.None? ==> orderItems == old(orderItems) && total == old(total)
      ensures showPayment == old(showPayment) && posted == old(posted)
    {
      if reply.Some? {
        orderItems := reply.value;
        total := Some(Subtotal(reply.value));
      }
    }

    /** `handlePay` with the corrected body. Nothing is posted when a guard fails; the body posted
        carries the fetched lines and their total; the payment step shows only when the server
        reports the order created (`created`). */
    method HandlePay(user: string, addingNew: bool, newAddress: CheckoutAddress, selected: Option<CheckoutAddress>,
                     created: bool)
      returns (problem: Option<string>)
      requires Valid()
      modifies this
      ensures Valid() && orderItems == old(orderItems) && total == old(total)
      ensures problem == PayCheck(AddressToUse(addingNew, newAddress, selected), total, orderItems)
      ensures problem.Some? ==> posted == old(posted) && showPayment == old(showPayment)
      ensures problem.None? ==>
        && posted == old(posted) + [OrderRequest(user, orderItems, Subtotal(orderItems),
                                                 AddressToUse(addingNew, newAddress, selected).value)]
        && showPayment == (old(showPayment) || created)
    {
      var address := AddressToUse(addingNew, newAddress, selected);
      problem := PayCheck(address, total, orderItems);
      if problem.Some? {
        return;
      }
      posted := posted + [OrderRequest(user, orderItems, total.value, address.value)];
      if created {
        showPayment := true;
      }
    }
  }
}
