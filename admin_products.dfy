/** The admin product dashboard (client/src/views/admin/product.jsx): the search over name and
    category, the confirmed delete, and the struck-through original price. */
module AdminProducts {
  import opened Js
  import opened ProductModel
  import CategoryModel

  /** A product of `GET /product/list`, whose `category` is populated: the category's name, or
      `None` when no stored category has that id (`populate` then gives `null`). */
  datatype ListedProduct = ListedProduct(id: ProductId, product: Product, categoryName: Option<string>)

  /** How the list arrives: each product with its category looked up. */
  function Listing(id: ProductId, p: Product, categories: map<CategoryModel.CategoryId, CategoryModel.Category>)
    : (l: ListedProduct)
    ensures l.id == id && l.product == p
    ensures l.categoryName.Some? <==> p.category in categories
    ensures l.categoryName.Some? ==> l.categoryName.value == categories[p.category].name
  {
    ListedProduct(id, p, if p.category in categories then Some(categories[p.category].name) else None)
  }

  /** `product.category?.name || product.category || ""`. A populated category always has a
      non-empty name (the schema requires one), so the label is that name, or "" without one. */
  function CategoryLabel(l: ListedProduct): (r: string)
    ensures l.categoryName.Some? ==> r == l.categoryName.value
    ensures l.categoryName.None? ==> r == ""
  {
    if l.categoryName.Some? then l.categoryName.value else ""
  }

  /** The search test: the name or the category label contains the term, ignoring letter case. */
  predicate Matches(l: ListedProduct, term: string) {
    Includes(Lower(l.product.name), Lower(term)) || Includes(Lower(CategoryLabel(l)), Lower(term))
  }

  /** `filteredProducts`: exactly the matching products. */
  function FilteredProducts(products: seq<ListedProduct>, term: string): (r: seq<ListedProduct>)
    ensures forall l :: l in r <==> l in products && Matches(l, term)
    ensures |r| <= |products|
  {
    Filter(products, (l: ListedProduct) => Matches(l, term))
  }

  /** An empty search term keeps every product. */
  lemma EmptySearchKeepsAll(products: seq<ListedProduct>)
    ensures FilteredProducts(products, "") == products
  {
    forall i | 0 <= i < |products| ensures Matches(products[i], "") {
      EmptyIncluded(Lower(products[i].product.name));
    }
  }

  /** The search keeps the list's relative order: the survivors of a front part come before the
      survivors of the rest. */
  lemma SearchKeepsOrder(front: seq<ListedProduct>, back: seq<ListedProduct>, term: string)
    ensures FilteredProducts(front + back, term) == FilteredProducts(front, term) + FilteredProducts(back, term)
  {
    FilterAppend(front, back, (l: ListedProduct) => Matches(l, term));
  }

  /** Searching for a category's name, in any letter case, finds every product in it. */
  lemma SearchFindsCategory(products: seq<ListedProduct>, l: ListedProduct)
    requires l in products && l.categoryName.Some?
    ensures l in FilteredProducts(products, l.categoryName.value)
  {
    SelfIncluded(Lower(l.categoryName.value));
  }

  /** `handleDelete`: the delete request is sent for `id` exactly when the dialog is confirmed. */
  function DeleteRequest(id: ProductId, confirmed: bool): (r: Option<ProductId>)
    ensures r.Some? <==> confirmed
    ensures r.Some? ==> r.value == id
  {
    if confirmed then Some(id) else None
  }

  /** `product.originalPrice && product.originalPrice > product.currentPrice`. */
  predicate ShowStrike(p: Product) {
    p.originalPrice != 0 && p.originalPrice > p.currentPrice
  }

  /** For a price that is not negative the strike-through appears exactly when the product is
      marked down; a negative price with no original price shows none. */
  lemma StrikeMeansMarkdown(p: Product)
    ensures p.currentPrice >= 0 ==> (ShowStrike(p) <==> p.originalPrice > p.currentPrice)
    ensures ShowStrike(p) ==> p.originalPrice - p.currentPrice > 0
    ensures p.originalPrice == 0 ==> !ShowStrike(p)
  {
  }
}
