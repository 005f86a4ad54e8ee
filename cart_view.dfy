/** The cart page (client/src/views/cart.jsx): the summary arithmetic over the fetched cart and
    the routing of a quantity change to the remove or the update endpoint. Amounts are whole
    numbers in the catalog's unit. */
module CartView {
  import opened Js
  import opened ProductModel
  import opened CartController

  /** A cart line as fetched, with its product populated (`productId` is the product's `_id`). */
  datatype ViewLine = ViewLine(productId: ProductId, product: Product, quantity: int)

  /** The populated lines the server would send for `items`; `None` when a line's product is
      gone, where populate leaves `null` and the page's arithmetic throws. */
  function Populate(items: seq<CartItem>, products: map<ProductId, Product>): (r: Option<seq<ViewLine>>)
    ensures r.Some? <==> forall i :: 0 <= i < |items| ==> items[i].product in products
    ensures r.Some? ==>
      && |r.value| == |items|
      && forall i :: 0 <= i < |items| ==> r.value[i] == ViewLine(items[i].product, products[items[i].product], items[i].quantity)
  {
    if items == [] then Some([])
    else
      var rest := Populate(items[..|items| - 1], products);
      var last := items[|items| - 1];
      if rest.None? || last.product !in products then
        assert forall i :: 0 <= i < |items| - 1 ==> items[..|items| - 1][i] == items[i];
        None
      else Some(rest.value + [ViewLine(last.product, products[last.product], last.quantity)])
  }

  /** Every line has a non-negative price, original price and quantity, as a stored cart does. */
  predicate NonNegative(lines: seq<ViewLine>) {
    forall i :: 0 <= i < |lines| ==>
      lines[i].product.currentPrice >= 0 && lines[i].product.originalPrice >= 0 && lines[i].quantity >= 0
  }

  /** `subtotal`: Σ (currentPrice || 0) × quantity, never negative over non-negative lines. */
  function Subtotal(lines: seq<ViewLine>): (r: int)
    ensures lines == [] ==> r == 0
    ensures NonNegative(lines) ==> r >= 0
  {
    if lines == [] then 0
    else
      assert NonNegative(lines) ==> NonNegative(lines[..|lines| - 1]);
      Subtotal(lines[..|lines| - 1]) + lines[|lines| - 1].product.currentPrice * lines[|lines| - 1].quantity
  }

  /** `totalOriginal`: Σ (originalPrice || 0) × quantity, never negative over non-negative lines. */
  function TotalOriginal(lines: seq<ViewLine>): (r: int)
    ensures lines == [] ==> r == 0
    ensures NonNegative(lines) ==> r >= 0
  {
    if lines == [] then 0
    else
      assert NonNegative(lines) ==> NonNegative(lines[..|lines| - 1]);
      TotalOriginal(lines[..|lines| - 1]) + lines[|lines| - 1].product.originalPrice * lines[|lines| - 1].quantity
  }

  /** `totalItems`: Σ quantity; over non-negative quantities no line holds more than the count. */
  function TotalItems(lines: seq<ViewLine>): (r: int)
    ensures lines == [] ==> r == 0
    ensures NonNegative(lines) ==> r >= 0 && forall i :: 0 <= i < |lines| ==> lines[i].quantity <= r
  {
    if lines == [] then 0
    else
      assert NonNegative(lines) ==> NonNegative(lines[..|lines| - 1]);
      assert forall i :: 0 <= i < |lines| - 1 ==> lines[..|lines| - 1][i] == lines[i];
      TotalItems(lines[..|lines| - 1]) + lines[|lines| - 1].quantity
  }

  /** The three sums split over a concatenation of carts: each adds up line by line. */
  lemma {:induction false} SumsAppend(a: seq<ViewLine>, b: seq<ViewLine>)
    ensures Subtotal(a + b) == Subtotal(a) + Subtotal(b)
    ensures TotalOriginal(a + b) == TotalOriginal(a) + TotalOriginal(b)
    ensures TotalItems(a + b) == TotalItems(a) + TotalItems(b)
  {
    if b != [] {
      var init := b[..|b| - 1];
      SumsAppend(a, init);
      assert (a + b)[..|a + b| - 1] == a + init;
      assert (a + b)[|a + b| - 1] == b[|b| - 1];
    } else {
      assert a + b == a;
    }
  }

  /** `moneySaved`: how much the original prices exceed the subtotal, never negative. */
  function MoneySaved(lines: seq<ViewLine>): (r: int)
    ensures r >= 0 && r >= TotalOriginal(lines) - Subtotal(lines)
    ensures r == 0 || r == TotalOriginal(lines) - Subtotal(lines)
  {
    var original := TotalOriginal(lines);
    var subtotal := Subtotal(lines);
    if original > subtotal then original - subtotal else 0
  }

  const Shipping := 0
  const Taxes := 0
  const Discount := 0

  /** `total`: shipping, taxes and discount are fixed at 0, so the total is the subtotal. */
  function Total(lines: seq<ViewLine>): (r: int)
    ensures r == Subtotal(lines)
  {
    Subtotal(lines) + Shipping + Taxes - Discount
  }

  /** When every product resolves, the page's subtotal is the total the server stores, whose
      truthy-price test only skips lines that would add 0. */
  lemma {:induction false} SubtotalIsServerTotal(items: seq<CartItem>, products: map<ProductId, Product>)
    requires Populate(items, products).Some?
    ensures Subtotal(Populate(items, products).value) == CartTotal(items, products)
  {
    if items != [] {
      var init := items[..|items| - 1];
      SubtotalIsServerTotal(init, products);
      var v := Populate(items, products).value;
      assert v[..|v| - 1] == Populate(init, products).value;
    }
  }

  /** The two requests `updateQuantity` can send. */
  datatype CartRequest = RemoveRequest(product: ProductId) | UpdateRequest(productId: ProductId, quantity: int)

  /** `updateQuantity`'s routing: a quantity ≤ 0 removes the line, any other updates it. */
  function Route(productId: ProductId, newQuantity: int): (r: CartRequest)
    ensures r.RemoveRequest? <==> newQuantity <= 0
    ensures r.RemoveRequest? ==> r.product == productId
    ensures r.UpdateRequest? ==> r.productId == productId && r.quantity == newQuantity && r.quantity >= 1
  {
    if newQuantity <= 0 then RemoveRequest(productId) else UpdateRequest(productId, newQuantity)
  }

  /** The quantity the − button asks for: never below 1, so it never removes a line. */
  function MinusQuantity(quantity: int): (q: int)
    ensures q >= 1 && (quantity > 1 ==> q == quantity - 1)
    ensures forall p :: Route(p, q).UpdateRequest?
  {
    if quantity - 1 > 1 then quantity - 1 else 1
  }

  /** The quantity the + button asks for. */
  function PlusQuantity(quantity: int): (q: int)
    ensures q == quantity + 1
  {
    quantity + 1
  }

  /** The quantity the ✕ button asks for, the only one that removes. */
  const RemoveQuantity := 0

  /** The effect of a quantity change on the page: the request sent, then the cart refetched. */
  class CartPage {
    var cartData: Option<seq<ViewLine>>
    var sent: seq<CartRequest>

    constructor ()
      ensures cartData.None? && sent == []
    {
      cartData := None;
      sent := [];
    }

    /** `updateQuantity`. `requestOk` says whether the request succeeded and `refetched` is the
        cart the follow-up fetch returns successfully, if it does; a failed request skips the
        refetch. */
    method UpdateQuantity(productId: ProductId, newQuantity: int, requestOk: bool,
                          refetched: Option<seq<ViewLine>>)
      modifies this
      ensures sent == old(sent) + [Route(productId, newQuantity)]
      ensures cartData == if requestOk && refetched.Some? then refetched else old(cartData)
    {
      sent := sent + [Route(productId, newQuantity)];
      if !requestOk {
        return;
      }
      if refetched.Some? {
        cartData := refetched;
      }
    }
  }
}
