/** The Product record (server/models/product.model.js) and the product collection. Prices are
    whole amounts in the currency unit the catalog stores. */
module ProductModel {
  import opened Js

  type ProductId = string
  type CategoryId = string

  /** The descriptive optional strings (brand, seller, manufacturer, shelf life, ...) are kept by
      field name in `details`. `stock` and `ratings` are not required, so either can be stored as `null` (`None`). */
  datatype Product = Product(
    name: string,
    description: Option<string>,
    originalPrice: int,
    currentPrice: int,
    category: CategoryId,
    mainImage: string,
    images: seq<string>,
    stock: Option<int>,
    ratings: Option<int>,
    isMembership: bool,
    bestSeller: bool,
    isFeatured: bool,
    isTrending: bool,
    details: map<string, string>)

  /** What `new Product({...})` is given, after the Number cast. A price that is absent or `null`
      is `None`; `stock` keeps the difference, since only an absent one takes the default. */
  datatype ProductDraft = ProductDraft(
    name: Option<string>,
    description: Option<string>,
    originalPrice: Option<int>,
    currentPrice: Option<int>,
    category: Option<CategoryId>,
    mainImage: Option<string>,
    images: seq<string>,
    stock: Field<int>,
    details: map<string, string>)

  /** The `required` paths that fail, in schema order. Mongoose's required validator rejects an
      absent value and, for strings, the empty string (checked after the `trim` setter). */
  function MissingPaths(d: ProductDraft): seq<PathError> {
    (if d.name.None? || Trim(d.name.value) == "" then [Required("name")] else [])
    + (if d.originalPrice.None? then [Required("originalPrice")] else [])
    + (if d.currentPrice.None? then [Required("currentPrice")] else [])
    + (if d.category.None? then [Required("category")] else [])
    + (if Blank(d.mainImage) then [Required("mainImage")] else [])
  }

  /** Saving a new product: `category` must cast to an ObjectId (its cast error, recorded when the
      document is built, comes first), required fields checked, `name` trimmed, `stock` and
      `ratings` defaulting to 0 and the four flags to false. An explicit `null` stock is kept:
      a default replaces only an undefined value. */
  function NewProduct(d: ProductDraft): (r: Result<Product>)
    ensures r.Success? <==>
      && d.name.Some? && Trim(d.name.value) != "" && d.originalPrice.Some? && d.currentPrice.Some?
      && d.category.Some? && !Blank(d.mainImage) && IsObjectId(d.category.value)
    ensures r.Failure? ==> r.error == ValidationMessage("Product", CastErrors([("category", d.category)]) + MissingPaths(d))
    ensures r.Success? ==> var p := r.value;
      && p.name == Trim(d.name.value) && p.description == d.description
      && p.originalPrice == d.originalPrice.value && p.currentPrice == d.currentPrice.value
      && p.category == d.category.value && p.mainImage == d.mainImage.value && p.images == d.images
      && (d.stock.Undefined? ==> p.stock == Some(0))
      && (d.stock.Null? ==> p.stock == None)
      && (d.stock.Given? ==> p.stock == Some(d.stock.value))
      && p.ratings == Some(0) && !p.isMembership && !p.bestSeller && !p.isFeatured && !p.isTrending
      && p.details == d.details
  {
    var errors := CastErrors([("category", d.category)]) + MissingPaths(d);
    assert [("category", d.category)][0] == ("category", d.category);
    if errors != [] then Failure(ValidationMessage("Product", errors))
    else
      Success(Product(Trim(d.name.value), d.description, d.originalPrice.value, d.currentPrice.value,
                      d.category.value, d.mainImage.value, d.images,
                      if d.stock.Undefined? then Some(0) else OptionOf(d.stock),
                      Some(0), false, false, false, false, d.details))
  }

  class ProductStore {
    var products: map<ProductId, Product>

    constructor ()
      ensures products == map[]
    {
      products := map[];
    }
  }
}
