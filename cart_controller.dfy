/** The cart engine (server/controller/cart.controller.js): one cart per user, a list of
    `{product, quantity}` lines changed in place, and a total recomputed from the live catalog
    prices before every save. The cart schema (server/models/cart.model.js) is not part of this
    model; its saves are taken to succeed. */
module CartController {
  import opened Js
  import opened Responder
  import opened AuthModel
  import opened ProductModel
  import opened GetId

  datatype CartItem = CartItem(product: ProductId, quantity: int)

  datatype Cart = Cart(user: UserId, items: seq<CartItem>, totalPrice: int)

  const CartNotFound := "Cart not found"
  const ProductAndQuantityRequired := "Product and quantity are required"
  const ProductRequired := "Product is required"
  const NotInCart := "Product not found in cart"

  /** What one line adds to the total: `currentPrice × quantity` when its product is found and
      has a truthy price, nothing otherwise. */
  function LineValue(item: CartItem, products: map<ProductId, Product>): int {
    if item.product in products && products[item.product].currentPrice != 0 then
      products[item.product].currentPrice * item.quantity
    else 0
  }

  /** The sum of the line values, accumulated from the first line as the loop does. */
  function CartTotal(items: seq<CartItem>, products: map<ProductId, Product>): int {
    if items == [] then 0 else CartTotal(items[..|items| - 1], products) + LineValue(items[|items| - 1], products)
  }

  /** `calculateTotalPrice`: one catalog lookup per line, in order. */
  method CalculateTotalPrice(items: seq<CartItem>, products: map<ProductId, Product>) returns (total: int)
    ensures total == CartTotal(items, products)
  {
    total := 0;
    for i := 0 to |items|
      invariant total == CartTotal(items[..i], products)
    {
      assert items[..i + 1][..i] == items[..i];
      var item := items[i];
      if item.product in products && products[item.product].currentPrice != 0 {
        total := total + products[item.product].currentPrice * item.quantity;
      }
    }
    assert items[..|items|] == items;
  }

  /** `items.findIndex(item => item.product.toString() === product)`. */
  function FindIndex(items: seq<CartItem>, product: ProductId): (i: int)
    ensures -1 <= i < |items|
    ensures i == -1 <==> forall j :: 0 <= j < |items| ==> items[j].product != product
    ensures i >= 0 ==> items[i].product == product && forall j :: 0 <= j < i ==> items[j].product != product
  {
    if items == [] then -1
    else if items[0].product == product then 0
    else
      var k := FindIndex(items[1..], product);
      if k == -1 then -1 else k + 1
  }

  /** The lines after adding `quantity` of `product`: the first line for that product grows by
      `quantity`; without one a new line is appended and the others are kept. */
  function AddItem(items: seq<CartItem>, product: ProductId, quantity: int): (r: seq<CartItem>)
    ensures FindIndex(items, product) >= 0 ==>
      var i := FindIndex(items, product);
      && |r| == |items| && r[i] == CartItem(product, items[i].quantity + quantity)
      && forall j :: 0 <= j < |items| && j != i ==> r[j] == items[j]
    ensures FindIndex(items, product) == -1 ==> r == items + [CartItem(product, quantity)]
  {
    var i := FindIndex(items, product);
    if i > -1 then items[i := items[i].(quantity := items[i].quantity + quantity)]
    else items + [CartItem(product, quantity)]
  }

  /** `items.filter(item => item.product.toString() !== product)`. */
  function RemoveItems(items: seq<CartItem>, product: ProductId): (r: seq<CartItem>)
    ensures |r| <= |items|
    ensures forall x :: x in r <==> x in items && x.product != product
  {
    if items == [] then []
    else
      var rest := RemoveItems(items[..|items| - 1], product);
      var last := items[|items| - 1];
      assert items == items[..|items| - 1] + [last];
      if last.product != product then rest + [last] else rest
  }

  /** The lines `RemoveItems` drops, in order. */
  function LinesFor(items: seq<CartItem>, product: ProductId): (r: seq<CartItem>)
    ensures forall x :: x in r ==> x.product == product
  {
    if items == [] then []
    else
      var rest := LinesFor(items[..|items| - 1], product);
      var last := items[|items| - 1];
      if last.product == product then rest + [last] else rest
  }

  /** No two lines are for the same product. */
  predicate OneLinePerProduct(items: seq<CartItem>) {
    forall i, j :: 0 <= i < j < |items| ==> items[i].product != items[j].product
  }

  /** Every stored cart belongs to the user it is filed under and has one line per product. */
  ghost predicate ValidCarts(carts: map<UserId, Cart>) {
    forall u :: u in carts ==> carts[u].user == u && OneLinePerProduct(carts[u].items)
  }

  class CartStore {
    var carts: map<UserId, Cart>

    ghost predicate Valid()
      reads this
    {
      ValidCarts(carts)
    }

    constructor ()
      ensures carts == map[] && Valid()
    {
      carts := map[];
    }
  }

  /** Changing one line changes the total by the difference of that line's values. */
  lemma {:induction false} TotalUpdateAt(items: seq<CartItem>, i: int, x: CartItem, products: map<ProductId, Product>)
    requires 0 <= i < |items|
    ensures CartTotal(items[i := x], products) ==
            CartTotal(items, products) - LineValue(items[i], products) + LineValue(x, products)
  {
    var n := |items|;
    var u := items[i := x];
    assert u[..n - 1] == if i == n - 1 then items[..n - 1] else items[..n - 1][i := x];
    if i < n - 1 {
      TotalUpdateAt(items[..n - 1], i, x, products);
    }
  }

  /** A line's value is additive in its quantity. */
  lemma LineValueAdds(product: ProductId, a: int, b: int, products: map<ProductId, Product>)
    ensures LineValue(CartItem(product, a + b), products) ==
            LineValue(CartItem(product, a), products) + LineValue(CartItem(product, b), products)
  {
    if product in products && products[product].currentPrice != 0 {
      var p := products[product].currentPrice;
      assert p * (a + b) == p * a + p * b;
    }
  }

  /** Adding `quantity` of a product grows the total by that product's price times `quantity`,
      whether a line is extended or appended. */
  lemma AddItemTotal(items: seq<CartItem>, product: ProductId, quantity: int, products: map<ProductId, Product>)
    ensures CartTotal(AddItem(items, product, quantity), products) ==
            CartTotal(items, products) + LineValue(CartItem(product, quantity), products)
  {
    var i := FindIndex(items, product);
    if i >= 0 {
      var q := items[i].quantity;
      assert items[i] == CartItem(product, q);
      TotalUpdateAt(items, i, CartItem(product, q + quantity), products);
      LineValueAdds(product, q, quantity, products);
    } else {
      var r := items + [CartItem(product, quantity)];
      assert r[..|r| - 1] == items;
    }
  }

  /** The total splits into the kept lines and the lines for the removed product. */
  lemma {:induction false} RemoveItemsTotal(items: seq<CartItem>, product: ProductId, products: map<ProductId, Product>)
    ensures CartTotal(items, products) ==
            CartTotal(RemoveItems(items, product), products) + CartTotal(LinesFor(items, product), products)
  {
    if items != [] {
      var init := items[..|items| - 1];
      var last := items[|items| - 1];
      RemoveItemsTotal(init, product, products);
      var kept := RemoveItems(init, product);
      var dropped := LinesFor(init, product);
      if last.product != product {
        assert (kept + [last])[..|kept + [last]| - 1] == kept;
      } else {
        assert (dropped + [last])[..|dropped + [last]| - 1] == dropped;
      }
    }
  }

  /** Removing a product the cart does not hold keeps every line, in order. */
  lemma {:induction false} RemoveAbsent(items: seq<CartItem>, product: ProductId)
    requires forall j :: 0 <= j < |items| ==> items[j].product != product
    ensures RemoveItems(items, product) == items
  {
    if items != [] {
      RemoveAbsent(items[..|items| - 1], product);
      assert items[..|items| - 1] + [items[|items| - 1]] == items;
    }
  }

  /** `RemoveItems` keeps the order of the lines it keeps: the kept lines of a front part come
      before the kept lines of the rest. */
  lemma {:induction false} RemoveAppend(front: seq<CartItem>, back: seq<CartItem>, product: ProductId)
    ensures RemoveItems(front + back, product) == RemoveItems(front, product) + RemoveItems(back, product)
  {
    if back == [] {
      assert front + back == front;
    } else {
      assert (front + back)[..|front + back| - 1] == front + back[..|back| - 1];
      RemoveAppend(front, back[..|back| - 1], product);
    }
  }

  /** Adding keeps one line per product. */
  lemma AddKeepsOneLine(items: seq<CartItem>, product: ProductId, quantity: int)
    requires OneLinePerProduct(items)
    ensures OneLinePerProduct(AddItem(items, product, quantity))
  {
    var r := AddItem(items, product, quantity);
    if FindIndex(items, product) >= 0 {
      assert forall j :: 0 <= j < |r| ==> r[j].product == items[j].product;
    }
  }

  /** Removing keeps one line per product: the kept lines are a sub-list. */
  lemma {:induction false} RemoveKeepsOneLine(items: seq<CartItem>, product: ProductId)
    requires OneLinePerProduct(items)
    ensures OneLinePerProduct(RemoveItems(items, product))
  {
    if items != [] {
      var n := |items|;
      var init := items[..n - 1];
      var last := items[n - 1];
      assert OneLinePerProduct(init) by {
        forall a, b | 0 <= a < b < n - 1 ensures init[a].product != init[b].product {
          assert init[a] == items[a] && init[b] == items[b];
        }
      }
      RemoveKeepsOneLine(init, product);
      var rest := RemoveItems(init, product);
      if last.product != product {
        var r := rest + [last];
        assert RemoveItems(items, product) == r;
        forall a, b | 0 <= a < b < |r| ensures r[a].product != r[b].product {
          assert r[a] == rest[a];
          if b == |rest| {
            assert rest[a] in init;
            var k :| 0 <= k < n - 1 && init[k] == rest[a];
            assert items[k] == rest[a] && r[b] == items[n - 1];
          } else {
            assert r[b] == rest[b];
          }
        }
      }
    }
  }

  /** The lines of the user's cart, none when there is no cart. */
  function ItemsOf(carts: map<UserId, Cart>, user: UserId): seq<CartItem> {
    if user in carts then carts[user].items else []
  }

  /** `getCart`. */
  function GetCart(carts: map<UserId, Cart>, who: Result<Identity>): (r: Response<Cart>)
    ensures who.Failure? ==> r == Crash(who.error)
    ensures who.Success? && who.value.id !in carts ==> r == Fail(CartNotFound, 404)
    ensures who.Success? && who.value.id in carts ==> r == Ok("Cart fetched successfully", carts[who.value.id], 200)
  {
    if who.Failure? then Crash(who.error)
    else if who.value.id !in carts then Fail(CartNotFound, 404)
    else Ok("Cart fetched successfully", carts[who.value.id], 200)
  }

  /** `addToCart`. `who` is the outcome of resolving the requester; its error is the handler's
      `catch`. A user without a cart gets one holding just the new line. */
  method AddToCart(db: CartStore, who: Result<Identity>, product: Field<string>, quantity: Field<int>,
                   products: map<ProductId, Product>) returns (r: Response<Cart>)
    requires db.Valid()
    modifies db
    ensures db.Valid()
    ensures who.Failure? ==> r == Crash(who.error) && db.carts == old(db.carts)
    ensures who.Success? && (!TruthyString(product) || !TruthyNumber(quantity)) ==>
      r == Fail(ProductAndQuantityRequired, 400) && db.carts == old(db.carts)
    ensures who.Success? && TruthyString(product) && TruthyNumber(quantity) ==>
      var u := who.value.id;
      var items := AddItem(ItemsOf(old(db.carts), u), product.value, quantity.value);
      && db.carts == old(db.carts)[u := Cart(u, items, CartTotal(items, products))]
      && r == Ok("Cart updated successfully", db.carts[u], 200)
  {
    if who.Failure? {
      return Crash(who.error);
    }
    if !TruthyString(product) || !TruthyNumber(quantity) {
      return Fail(ProductAndQuantityRequired, 400);
    }
    var u := who.value.id;
    ghost var expected := AddItem(ItemsOf(db.carts, u), product.value, quantity.value);
    AddKeepsOneLine(ItemsOf(db.carts, u), product.value, quantity.value);
    var items: seq<CartItem>;
    if u !in db.carts {
      items := [CartItem(product.value, quantity.value)];
    } else {
      items := db.carts[u].items;
      var i := FindIndex(items, product.value);
      if i > -1 {
        items := items[i := items[i].(quantity := items[i].quantity + quantity.value)];
      } else {
        items := items + [CartItem(product.value, quantity.value)];
      }
    }
    assert items == expected;
    assert OneLinePerProduct(items);
    var total := CalculateTotalPrice(items, products);
    var cart := Cart(u, items, total);
    db.carts := db.carts[u := cart];
    r := Ok("Cart updated successfully", cart, 200);
  }

  /** `removeFromCart`: every line for the product goes, the rest stay in order. */
  method RemoveFromCart(db: CartStore, who: Result<Identity>, product: Field<string>,
                        products: map<ProductId, Product>) returns (r: Response<Cart>)
    requires db.Valid()
    modifies db
    ensures db.Valid()
    ensures who.Failure? ==> r == Crash(who.error) && db.carts == old(db.carts)
    ensures who.Success? && !TruthyString(product) ==> r == Fail(ProductRequired, 400) && db.carts == old(db.carts)
    ensures who.Success? && TruthyString(product) && who.value.id !in old(db.carts) ==>
      r == Fail(CartNotFound, 404) && db.carts == old(db.carts)
    ensures who.Success? && TruthyString(product) && who.value.id in old(db.carts) ==>
      var u := who.value.id;
      var items := RemoveItems(old(db.carts)[u].items, product.value);
      && db.carts == old(db.carts)[u := Cart(u, items, CartTotal(items, products))]
      && r == Ok("Item removed from cart", db.carts[u], 200)
  {
    if who.Failure? {
      return Crash(who.error);
    }
    if !TruthyString(product) {
      return Fail(ProductRequired, 400);
    }
    var u := who.value.id;
    if u !in db.carts {
      return Fail(CartNotFound, 404);
    }
    RemoveKeepsOneLine(db.carts[u].items, product.value);
    var items := RemoveItems(db.carts[u].items, product.value);
    var total := CalculateTotalPrice(items, products);
    var cart := Cart(u, items, total);
    db.carts := db.carts[u := cart];
    r := Ok("Item removed from cart", cart, 200);
  }

  /** The quantity `updateCart` stores: only an absent quantity is refused, so 0 is accepted. */
  function QuantityOf(quantity: Field<int>): (q: int)
    requires !quantity.Undefined?
    ensures quantity.Given? ==> q == quantity.value
  {
    if quantity.Given? then quantity.value else 0
  }

  /** `updateCart`: the first line for the product gets the new quantity. */
  method UpdateCart(db: CartStore, who: Result<Identity>, productId: Field<string>, quantity: Field<int>,
                    products: map<ProductId, Product>) returns (r: Response<Cart>)
    requires db.Valid()
    modifies db
    ensures db.Valid()
    ensures who.Failure? ==> r == Crash(who.error) && db.carts == old(db.carts)
    ensures who.Success? && (!TruthyString(productId) || quantity.Undefined?) ==>
      r == Fail(ProductAndQuantityRequired, 400) && db.carts == old(db.carts)
    ensures who.Success? && TruthyString(productId) && !quantity.Undefined? && who.value.id !in old(db.carts) ==>
      r == Fail(CartNotFound, 404) && db.carts == old(db.carts)
    ensures who.Success? && TruthyString(productId) && !quantity.Undefined? && who.value.id in old(db.carts) ==>
      var u := who.value.id;
      var old_items := old(db.carts)[u].items;
      var i := FindIndex(old_items, productId.value);
      if i == -1 then
        r == Fail(NotInCart, 404) && db.carts == old(db.carts)
      else
        var items := old_items[i := CartItem(productId.value, QuantityOf(quantity))];
        && db.carts == old(db.carts)[u := Cart(u, items, CartTotal(items, products))]
        && r == Ok("Cart updated successfully", db.carts[u], 200)
  {
    if who.Failure? {
      return Crash(who.error);
    }
    if !TruthyString(productId) || quantity.Undefined? {
      return Fail(ProductAndQuantityRequired, 400);
    }
    var u := who.value.id;
    if u !in db.carts {
      return Fail(CartNotFound, 404);
    }
    var items := db.carts[u].items;
    var i := FindIndex(items, productId.value);
    if i == -1 {
      return Fail(NotInCart, 404);
    }
    items := items[i := items[i].(quantity := QuantityOf(quantity))];
    assert forall j :: 0 <= j < |items| ==> items[j].product == db.carts[u].items[j].product;
    var total := CalculateTotalPrice(items, products);
    var cart := Cart(u, items, total);
    db.carts := db.carts[u := cart];
    r := Ok("Cart updated successfully", cart, 200);
  }
}
