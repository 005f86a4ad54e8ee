/** The product handlers (server/controller/product.controller.js). `addProduct` and
    `updateProduct` read multipart forms, so body fields are strings; whether such a string reads
    as a number is given with the field (`FormNumber`). */
module ProductController {
  import opened Js
  import opened Responder
  import opened ProductModel

  /** A numeric form field as sent: a text `Number()` reads as a number, with that number; the
      empty text, which `Number()` reads as 0 (so `isNaN` lets it through) but Mongoose's Number
      cast turns into `null`; or a text `Number()` turns into NaN, which that cast refuses. */
  datatype FormNumber = Numeric(value: int) | EmptyText | NotNumeric(text: string)

  /** Mongoose's Number cast of a text `Number()` can read. */
  function NumberCast(f: FormNumber): (r: Option<int>)
    requires !f.NotNumeric?
    ensures r.None? <==> f.EmptyText?
    ensures r.Some? ==> f == Numeric(r.value)
  {
    if f.Numeric? then Some(f.value) else None
  }

  datatype AddProductRequest = AddProductRequest(
    name: Field<string>,
    description: Field<string>,
    currentPrice: Field<FormNumber>,
    originalPrice: Field<FormNumber>,
    category: Field<string>,
    stock: Field<FormNumber>,
    details: map<string, string>,
    mainImageFiles: seq<string>,
    imageFiles: seq<string>)

  const AllFieldsRequired := "All fields are required"
  const MustBeNumbers := "Current price, original price, and stock must be numbers"
  const MainImageRequired := "Main image is required"
  const ProductNotFound := "Product not found"

  /** The first guard: `!name || !description || currentPrice == null || originalPrice == null
      || !category || stock == null`. */
  predicate FieldsMissing(req: AddProductRequest) {
    || !TruthyString(req.name) || !TruthyString(req.description)
    || Nullish(req.currentPrice) || Nullish(req.originalPrice)
    || !TruthyString(req.category) || Nullish(req.stock)
  }

  /** `isNaN(x)` for a field already known not to be `null` or `undefined`. */
  predicate NotANumber(f: Field<FormNumber>) {
    f.Given? && f.value.NotNumeric?
  }

  /** The validation chain of `addProduct`, in source order; `None` means every guard passed. */
  function AddProductCheck(req: AddProductRequest): (r: Option<string>)
    ensures r == Some(AllFieldsRequired) <==> FieldsMissing(req)
    ensures r == Some(MustBeNumbers) <==>
      !FieldsMissing(req) &&
      (NotANumber(req.currentPrice) || NotANumber(req.originalPrice) || NotANumber(req.stock))
    ensures r == Some(MainImageRequired) <==>
      !FieldsMissing(req) &&
      !(NotANumber(req.currentPrice) || NotANumber(req.originalPrice) || NotANumber(req.stock)) &&
      req.mainImageFiles == []
    ensures r.None? ==>
      && req.name.Given? && req.description.Given? && req.category.Given?
      && req.currentPrice.Given? && !req.currentPrice.value.NotNumeric?
      && req.originalPrice.Given? && !req.originalPrice.value.NotNumeric?
      && req.stock.Given? && !req.stock.value.NotNumeric?
      && req.mainImageFiles != []
  {
    if FieldsMissing(req) then Some(AllFieldsRequired)
    else if NotANumber(req.currentPrice) || NotANumber(req.originalPrice) || NotANumber(req.stock) then
      Some(MustBeNumbers)
    else if req.mainImageFiles == [] then Some(MainImageRequired)
    else None
  }

  /** The document `addProduct` builds once its guards pass, with the numbers as Mongoose casts
      them: the form's texts, the first main-image file, and all additional image files (none
      when none were sent). An empty price or stock text is passed on and cast to `null`. */
  function DraftOf(req: AddProductRequest): (d: ProductDraft)
    requires AddProductCheck(req).None?
    ensures d.name == Some(req.name.value) && d.description == Some(req.description.value)
    ensures d.category == Some(req.category.value) && d.details == req.details
    ensures d.mainImage == Some(req.mainImageFiles[0]) && d.images == req.imageFiles
    ensures req.currentPrice.value.Numeric? ==> d.currentPrice == Some(req.currentPrice.value.value)
    ensures req.currentPrice.value.EmptyText? ==> d.currentPrice == None
    ensures req.originalPrice.value.Numeric? ==> d.originalPrice == Some(req.originalPrice.value.value)
    ensures req.originalPrice.value.EmptyText? ==> d.originalPrice == None
    ensures req.stock.value.Numeric? ==> d.stock == Given(req.stock.value.value)
    ensures req.stock.value.EmptyText? ==> d.stock == Null
  {
    ProductDraft(Some(req.name.value), Some(req.description.value),
                 NumberCast(req.originalPrice.value), NumberCast(req.currentPrice.value),
                 Some(req.category.value), Some(req.mainImageFiles[0]), req.imageFiles,
                 if req.stock.value.EmptyText? then Null else Given(req.stock.value.value), req.details)
  }

  /** An empty price passes the handler's own guards (`"" == null` and `isNaN("")` are both
      false), and the schema then refuses it: the cast makes it `null`, which `required` rejects. */
  lemma EmptyPriceRefused(req: AddProductRequest)
    requires AddProductCheck(req).None?
    requires req.currentPrice.value.EmptyText? || req.originalPrice.value.EmptyText?
    ensures NewProduct(DraftOf(req)).Failure?
    ensures req.currentPrice.value.EmptyText? ==> Required("currentPrice") in MissingPaths(DraftOf(req))
    ensures req.originalPrice.value.EmptyText? ==> Required("originalPrice") in MissingPaths(DraftOf(req))
  {
  }

  /** An empty stock is stored as `null`, not as the schema's default 0. */
  lemma EmptyStockStoredNull(req: AddProductRequest)
    requires AddProductCheck(req).None? && req.stock.value.EmptyText?
    requires NewProduct(DraftOf(req)).Success?
    ensures NewProduct(DraftOf(req)).value.stock == None
  {
  }

  /** `addProduct`: guards (400), then the schema's validation and the unique `_id` (500). */
  method AddProduct(db: ProductStore, req: AddProductRequest, newId: ProductId) returns (r: Response<Product>)
    modifies db
    ensures AddProductCheck(req).Some? ==>
      r == Fail(AddProductCheck(req).value, 400) && db.products == old(db.products)
    ensures AddProductCheck(req).None? && NewProduct(DraftOf(req)).Failure? ==>
      r == Crash(NewProduct(DraftOf(req)).error) && db.products == old(db.products)
    ensures AddProductCheck(req).None? && NewProduct(DraftOf(req)).Success? && newId in old(db.products) ==>
      r == Crash(DuplicateKey) && db.products == old(db.products)
    ensures AddProductCheck(req).None? && NewProduct(DraftOf(req)).Success? && newId !in old(db.products) ==>
      && r == Ok("Product added successfully", NewProduct(DraftOf(req)).value, 201)
      && db.products == old(db.products)[newId := NewProduct(DraftOf(req)).value]
  {
    var problem := AddProductCheck(req);
    if problem.Some? {
      return Fail(problem.value, 400);
    }
    var product := NewProduct(DraftOf(req));
    if product.Failure? {
      return Crash(product.error);
    }
    if newId in db.products {
      return Crash(DuplicateKey);
    }
    db.products := db.products[newId := product.value];
    r := Ok("Product added successfully", product.value, 201);
  }

  /** `getProductById`. */
  function GetProductById(products: map<ProductId, Product>, id: ProductId): (r: Response<Product>)
    ensures r.Success() <==> id in products
    ensures r.Success() ==> r.status == 200 && r.body.data == Data(products[id])
    ensures !r.Success() ==> r == Fail(ProductNotFound, 404)
  {
    if id !in products then Fail(ProductNotFound, 404)
    else Ok("Product fetched successfully", products[id], 200)
  }

  /** The fields of an update; `None` means the key is absent from the update object. Every schema
      path can be set (keys the schema does not declare are dropped by strict mode); the
      optional descriptive strings go in `details`. The numbers are the form's texts, which the
      query casts. */
  datatype ProductUpdate = ProductUpdate(
    name: Option<string>,
    description: Option<string>,
    originalPrice: Option<FormNumber>,
    currentPrice: Option<FormNumber>,
    category: Option<CategoryId>,
    stock: Option<FormNumber>,
    mainImage: Option<string>,
    images: Option<seq<string>>,
    ratings: Option<FormNumber>,
    isMembership: Option<bool>,
    bestSeller: Option<bool>,
    isFeatured: Option<bool>,
    isTrending: Option<bool>,
    details: map<string, string>)

  /** The update with no keys. */
  const NoUpdate := ProductUpdate(None, None, None, None, None, None, None, None, None, None, None, None, None, map[])

  /** The steps `updateProduct` takes on its copy of the body before writing: an empty-string
      category is deleted, an uploaded main image replaces `mainImage`, uploaded images replace
      the whole `images` list. */
  method MergeUpdates(body: ProductUpdate, mainImageFiles: seq<string>, imageFiles: seq<string>)
    returns (updates: ProductUpdate)
    ensures updates.category == (if body.category == Some("") then None else body.category)
    ensures updates.mainImage == (if mainImageFiles != [] then Some(mainImageFiles[0]) else body.mainImage)
    ensures updates.images == (if imageFiles != [] then Some(imageFiles) else body.images)
    ensures updates.(category := body.category, mainImage := body.mainImage, images := body.images) == body
  {
    updates := body;
    if updates.category == Some("") {
      updates := updates.(category := None);
    }
    if mainImageFiles != [] {
      updates := updates.(mainImage := Some(mainImageFiles[0]));
    }
    if imageFiles != [] {
      updates := updates.(images := Some(imageFiles));
    }
  }

  /** The update validators (`runValidators: true`) on the paths the update sets, in schema
      order: `required` on `name` (after trimming), on the two prices (an empty text was cast to
      `null`) and on `mainImage`. An empty `category` never reaches them, since the handler
      deletes it. */
  function UpdateErrors(u: ProductUpdate): (r: seq<PathError>)
    ensures Required("name") in r <==> u.name.Some? && Trim(u.name.value) == ""
    ensures Required("originalPrice") in r <==> u.originalPrice == Some(EmptyText)
    ensures Required("currentPrice") in r <==> u.currentPrice == Some(EmptyText)
    ensures Required("mainImage") in r <==> u.mainImage == Some("")
    ensures forall e :: e in r ==> e in [Required("name"), Required("originalPrice"),
                                         Required("currentPrice"), Required("mainImage")]
  {
    (if u.name.Some? && Trim(u.name.value) == "" then [Required("name")] else [])
    + (if u.originalPrice == Some(EmptyText) then [Required("originalPrice")] else [])
    + (if u.currentPrice == Some(EmptyText) then [Required("currentPrice")] else [])
    + (if u.mainImage == Some("") then [Required("mainImage")] else [])
  }

  /** Whether the update's `category` fails the ObjectId cast (after the merge an empty one is
      no longer there). */
  predicate CategoryCastFails(u: ProductUpdate) {
    u.category.Some? && !IsObjectId(u.category.value)
  }

  /** Whether a numeric key carries a text the Number cast refuses. */
  predicate NumberCastFails(f: Option<FormNumber>) {
    f.Some? && f.value.NotNumeric?
  }

  /** The error Mongoose 8's Number cast raises for a text `Number()` turns into NaN. */
  function NumberCastError(path: string, text: string): PathError {
    PathError(path, "Cast to Number failed for value \"" + text + "\" (type string) at path \"" + path + "\"")
  }

  function NumberCastErrors(path: string, f: Option<FormNumber>): seq<PathError> {
    if NumberCastFails(f) then [NumberCastError(path, f.value.text)] else []
  }

  /** The cast errors of the update, in schema order. The query casts the update before any
      validator runs and throws the first cast error itself. */
  function UpdateCastErrors(u: ProductUpdate): (r: seq<PathError>)
    ensures r == [] <==>
      && !NumberCastFails(u.originalPrice) && !NumberCastFails(u.currentPrice)
      && !CategoryCastFails(u) && !NumberCastFails(u.stock) && !NumberCastFails(u.ratings)
    ensures NumberCastFails(u.originalPrice) ==> r[0] == NumberCastError("originalPrice", u.originalPrice.value.text)
  {
    NumberCastErrors("originalPrice", u.originalPrice)
    + NumberCastErrors("currentPrice", u.currentPrice)
    + (if CategoryCastFails(u) then [CastError("category", u.category.value)] else [])
    + NumberCastErrors("stock", u.stock)
    + NumberCastErrors("ratings", u.ratings)
  }

  /** What a numeric key writes to a required path: its number. An empty or refused text keeps
      the stored value, since the handler never writes it: the cast or `required` stops it. */
  function SetPrice(f: Option<FormNumber>, stored: int): (r: int)
    ensures f.Some? && f.value.Numeric? ==> r == f.value.value
    ensures !(f.Some? && f.value.Numeric?) ==> r == stored
  {
    if f.Some? && f.value.Numeric? then f.value.value else stored
  }

  /** What a numeric key writes to a path that may be `null`: its number, or `null` for the
      empty text. A refused text keeps the stored value, since the cast stops the handler. */
  function SetNullable(f: Option<FormNumber>, stored: Option<int>): (r: Option<int>)
    ensures f.Some? && f.value.Numeric? ==> r == Some(f.value.value)
    ensures f == Some(EmptyText) ==> r == None
    ensures f.None? || f.value.NotNumeric? ==> r == stored
  {
    if f.None? || f.value.NotNumeric? then stored else NumberCast(f.value)
  }

  /** `findByIdAndUpdate` on a stored product: every key present in the update replaces that
      field, every other field is kept. */
  function ApplyUpdate(p: Product, u: ProductUpdate): (q: Product)
    ensures u.name.Some? ==> q.name == Trim(u.name.value)
    ensures u.name.None? ==> q.name == p.name
    ensures u.description.Some? ==> q.description == u.description
    ensures u.description.None? ==> q.description == p.description
    ensures u.originalPrice.Some? && u.originalPrice.value.Numeric? ==> q.originalPrice == u.originalPrice.value.value
    ensures u.originalPrice.None? ==> q.originalPrice == p.originalPrice
    ensures u.currentPrice.Some? && u.currentPrice.value.Numeric? ==> q.currentPrice == u.currentPrice.value.value
    ensures u.currentPrice.None? ==> q.currentPrice == p.currentPrice
    ensures u.category.Some? ==> q.category == u.category.value
    ensures u.category.None? ==> q.category == p.category
    ensures u.mainImage.Some? ==> q.mainImage == u.mainImage.value
    ensures u.mainImage.None? ==> q.mainImage == p.mainImage
    ensures u.images.Some? ==> q.images == u.images.value
    ensures u.images.None? ==> q.images == p.images
    ensures u.stock.Some? && u.stock.value.Numeric? ==> q.stock == Some(u.stock.value.value)
    ensures u.stock == Some(EmptyText) ==> q.stock == None
    ensures u.stock.None? ==> q.stock == p.stock
    ensures u.ratings.Some? && u.ratings.value.Numeric? ==> q.ratings == Some(u.ratings.value.value)
    ensures u.ratings == Some(EmptyText) ==> q.ratings == None
    ensures u.ratings.None? ==> q.ratings == p.ratings
    ensures u.isMembership.Some? ==> q.isMembership == u.isMembership.value
    ensures u.isMembership.None? ==> q.isMembership == p.isMembership
    ensures u.bestSeller.Some? ==> q.bestSeller == u.bestSeller.value
    ensures u.bestSeller.None? ==> q.bestSeller == p.bestSeller
    ensures u.isFeatured.Some? ==> q.isFeatured == u.isFeatured.value
    ensures u.isFeatured.None? ==> q.isFeatured == p.isFeatured
    ensures u.isTrending.Some? ==> q.isTrending == u.isTrending.value
    ensures u.isTrending.None? ==> q.isTrending == p.isTrending
    ensures q.details.Keys == p.details.Keys + u.details.Keys
    ensures forall k :: k in q.details ==> q.details[k] == (if k in u.details then u.details[k] else p.details[k])
  {
    var name := if u.name.Some? then Trim(u.name.value) else p.name;
    var description := if u.description.Some? then u.description else p.description;
    Product(name, description, SetPrice(u.originalPrice, p.originalPrice),
            SetPrice(u.currentPrice, p.currentPrice), Or(u.category, p.category), Or(u.mainImage, p.mainImage),
            Or(u.images, p.images), SetNullable(u.stock, p.stock),
            SetNullable(u.ratings, p.ratings), Or(u.isMembership, p.isMembership), Or(u.bestSeller, p.bestSeller),
            Or(u.isFeatured, p.isFeatured), Or(u.isTrending, p.isTrending), p.details + u.details)
  }

  /** An update with no keys changes nothing. */
  lemma EmptyUpdateIsIdentity(p: Product)
    ensures ApplyUpdate(p, NoUpdate) == p
  {
    assert p.details + map[] == p.details;
  }

  /** Applying an update twice is applying it once: every key it sets is already set. */
  lemma UpdateIdempotent(p: Product, u: ProductUpdate)
    ensures ApplyUpdate(ApplyUpdate(p, u), u) == ApplyUpdate(p, u)
  {
    var q := ApplyUpdate(p, u);
    if u.name.Some? {
      TrimIdempotent(u.name.value);
    }
    assert q.details + u.details == q.details;
  }

  /** Two updates in a row, the second one accepted by the handler, are one update with the later
      one's keys winning. */
  lemma UpdatesCompose(p: Product, u: ProductUpdate, v: ProductUpdate)
    requires UpdateCastErrors(v) == [] && UpdateErrors(v) == []
    ensures ApplyUpdate(ApplyUpdate(p, u), v) == ApplyUpdate(p, Then(u, v))
  {
    assert (p.details + u.details) + v.details == p.details + (u.details + v.details);
  }

  /** The update whose keys are `v`'s, and `u`'s where `v` has none. */
  function Then(u: ProductUpdate, v: ProductUpdate): ProductUpdate {
    ProductUpdate(if v.name.Some? then v.name else u.name,
                  if v.description.Some? then v.description else u.description,
                  if v.originalPrice.Some? then v.originalPrice else u.originalPrice,
                  if v.currentPrice.Some? then v.currentPrice else u.currentPrice,
                  if v.category.Some? then v.category else u.category,
                  if v.stock.Some? then v.stock else u.stock,
                  if v.mainImage.Some? then v.mainImage else u.mainImage,
                  if v.images.Some? then v.images else u.images,
                  if v.ratings.Some? then v.ratings else u.ratings,
                  if v.isMembership.Some? then v.isMembership else u.isMembership,
                  if v.bestSeller.Some? then v.bestSeller else u.bestSeller,
                  if v.isFeatured.Some? then v.isFeatured else u.isFeatured,
                  if v.isTrending.Some? then v.isTrending else u.isTrending,
                  u.details + v.details)
  }

  /** `updateProduct`: the query casts the update first (the first failure is thrown as the cast
      error itself), then the update validators run, then the product is looked up. */
  method UpdateProduct(db: ProductStore, id: ProductId, body: ProductUpdate,
                       mainImageFiles: seq<string>, imageFiles: seq<string>) returns (r: Response<Product>)
    modifies db
    ensures var u := (body.(category := if body.category == Some("") then None else body.category,
                            mainImage := if mainImageFiles != [] then Some(mainImageFiles[0]) else body.mainImage,
                            images := if imageFiles != [] then Some(imageFiles) else body.images));
      && (UpdateCastErrors(u) != [] ==>
            r == Crash(UpdateCastErrors(u)[0].message) && db.products == old(db.products))
      && (UpdateCastErrors(u) == [] && UpdateErrors(u) != [] ==>
            r == Crash(UpdateValidationMessage(UpdateErrors(u))) && db.products == old(db.products))
      && (UpdateCastErrors(u) == [] && UpdateErrors(u) == [] && id !in old(db.products) ==>
            r == Fail(ProductNotFound, 404) && db.products == old(db.products))
      && (UpdateCastErrors(u) == [] && UpdateErrors(u) == [] && id in old(db.products) ==>
            && db.products == old(db.products)[id := ApplyUpdate(old(db.products)[id], u)]
            && r == Ok("Product updated successfully", db.products[id], 200))
  {
    var updates := MergeUpdates(body, mainImageFiles, imageFiles);
    var castErrors := UpdateCastErrors(updates);
    if castErrors != [] {
      return Crash(castErrors[0].message);
    }
    var errors := UpdateErrors(updates);
    if errors != [] {
      return Crash(UpdateValidationMessage(errors));
    }
    if id !in db.products {
      return Fail(ProductNotFound, 404);
    }
    var product := ApplyUpdate(db.products[id], updates);
    db.products := db.products[id := product];
    r := Ok("Product updated successfully", product, 200);
  }

  /** `deleteProduct`. */
  method DeleteProduct(db: ProductStore, id: ProductId) returns (r: Response<Product>)
    modifies db
    ensures id !in old(db.products) ==> r == Fail(ProductNotFound, 404) && db.products == old(db.products)
    ensures id in old(db.products) ==>
      r == Ok("Product deleted successfully", old(db.products)[id], 200) &&
      db.products == old(db.products) - {id}
  {
    if id !in db.products {
      return Fail(ProductNotFound, 404);
    }
    var product := db.products[id];
    db.products := db.products - {id};
    r := Ok("Product deleted successfully", product, 200);
  }

  /** `listProducts`: the whole collection. */
  function ListProducts(products: map<ProductId, Product>): (r: Response<map<ProductId, Product>>)
    ensures r.Success() && r.status == 200 && r.body.data == Data(products)
  {
    Ok("Products fetched successfully", products, 200)
  }

  /** `listProductsByCategory`: exactly the products whose category is the given id. */
  function ListProductsByCategory(products: map<ProductId, Product>, category: CategoryId)
    : (r: Response<map<ProductId, Product>>)
    ensures r.Success() && r.status == 200 && r.body.data.Data?
    ensures forall id :: id in r.body.data.value <==> id in products && products[id].category == category
    ensures forall id :: id in r.body.data.value ==> r.body.data.value[id] == products[id]
  {
    Ok("Products fetched successfully",
       map id | id in products && products[id].category == category :: products[id], 200)
  }
}
