/** The photo upload dispatch (server/controller/uploadController.js). `file` is the stored file's
    path, if the request carried one; the storage itself is not modelled. */
module UploadController {
  import opened Js
  import opened Responder
  import opened ProductModel

  datatype UploadRequest = UploadRequest(userId: Field<string>, uploadType: Field<string>, productId: Field<string>)

  /** The data of the three success envelopes. */
  datatype UploadPayload = ProfilePhoto(url: string) | MainImage(url: string) | Image(url: string)

  const NoFile := "No file uploaded"
  const NoSession := "Unauthorized: No session token"
  const ProductIdMissing := "Product ID is required"
  const InvalidType := "Invalid upload type"

  /** The `switch (type)` cases. */
  predicate IsType(req: UploadRequest, name: string) {
    req.uploadType == Given(name)
  }

  /** The product collection after the upload: `productMain` replaces the main image, and
      `productImages` appends to the gallery, of the product `productId` names. An unknown id
      matches nothing. The `profile` case writes `profilePhoto`, a key the user schema does not
      declare, so strict mode drops it and no collection changes. */
  function AfterUpload(products: map<ProductId, Product>, req: UploadRequest, file: string): (r: map<ProductId, Product>)
    ensures r.Keys == products.Keys
    ensures forall id :: id in products && !(TruthyString(req.productId) && id == req.productId.value) ==> r[id] == products[id]
    ensures TruthyString(req.productId) && req.productId.value in products ==>
      var p := products[req.productId.value];
      && (IsType(req, "productMain") ==> r[req.productId.value] == p.(mainImage := file))
      && (IsType(req, "productImages") ==> r[req.productId.value] == p.(images := p.images + [file]))
      && (!IsType(req, "productMain") && !IsType(req, "productImages") ==> r[req.productId.value] == p)
  {
    if !TruthyString(req.productId) || req.productId.value !in products then products
    else
      var id := req.productId.value;
      var p := products[id];
      if IsType(req, "productMain") then products[id := p.(mainImage := file)]
      else if IsType(req, "productImages") then products[id := p.(images := p.images + [file])]
      else products
  }

  /** The gallery only grows: existing images keep their places and the new one comes last. */
  lemma GalleryAppends(products: map<ProductId, Product>, req: UploadRequest, file: string)
    requires IsType(req, "productImages") && TruthyString(req.productId) && req.productId.value in products
    ensures var before := products[req.productId.value].images;
      var after := AfterUpload(products, req, file)[req.productId.value].images;
      |after| == |before| + 1 && after[..|before|] == before && after[|before|] == file
  {
  }

  /** `uploadPhotoController`. */
  method UploadPhoto(db: ProductStore, req: UploadRequest, file: Option<string>) returns (r: Response<UploadPayload>)
    modifies db
    ensures file.None? ==> r == Fail(NoFile, 400) && db.products == old(db.products)
    ensures file.Some? && IsType(req, "profile") ==>
      db.products == old(db.products)
      && r == (if TruthyString(req.userId) then Ok("Profile photo updated successfully", ProfilePhoto(file.value), 200)
               else Fail(NoSession, 401))
    ensures file.Some? && (IsType(req, "productMain") || IsType(req, "productImages")) && !TruthyString(req.productId) ==>
      r == Fail(ProductIdMissing, 400) && db.products == old(db.products)
    ensures file.Some? && IsType(req, "productMain") && TruthyString(req.productId) ==>
      && db.products == AfterUpload(old(db.products), req, file.value)
      && r == Ok("Product main image updated successfully", MainImage(file.value), 200)
    ensures file.Some? && IsType(req, "productImages") && TruthyString(req.productId) ==>
      && db.products == AfterUpload(old(db.products), req, file.value)
      && r == Ok("Product image added successfully", Image(file.value), 200)
    ensures file.Some? && !IsType(req, "profile") && !IsType(req, "productMain") && !IsType(req, "productImages") ==>
      r == Fail(InvalidType, 400) && db.products == old(db.products)
  {
    if file.None? {
      return Fail(NoFile, 400);
    }
    var url := file.value;
    if IsType(req, "profile") {
      if !TruthyString(req.userId) {
        return Fail(NoSession, 401);
      }
      return SuccessResponse("Profile photo updated successfully", Some(ProfilePhoto(url)), None);
    } else if IsType(req, "productMain") || IsType(req, "productImages") {
      if !TruthyString(req.productId) {
        return Fail(ProductIdMissing, 400);
      }
      db.products := AfterUpload(db.products, req, url);
      if IsType(req, "productMain") {
        r := SuccessResponse("Product main image updated successfully", Some(MainImage(url)), None);
      } else {
        r := SuccessResponse("Product image added successfully", Some(Image(url)), None);
      }
    } else {
      r := Fail(InvalidType, 400);
    }
  }
}
