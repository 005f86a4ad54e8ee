/** The admin-gated category handlers (server/controller/category.Controller.js). `req.user` is the
    requester's role, if the request carries a user; the image host's answer is a parameter. */
module AdminCategoryController {
  import opened Js
  import opened Responder
  import opened AuthModel
  import opened CategoryModel
  import opened CategoryController

  /** The uploader's outcome: the hosted image's URL, or the thrown error's message. */
  datatype Upload = Uploaded(secureUrl: string) | UploadThrew(message: string)

  const Forbidden := "Unauthorized"
  const ImageMissing := "Category image is required"
  const NotFound := "Category not found"

  /** `!req.user || req.user.role !== "admin"`: only the role `admin` passes, a superadmin does not. */
  predicate IsAdmin(requester: Option<Role>) {
    requester == Some(Admin)
  }

  /** The guards of `addCategory` in order: role, name, image files, uniqueness. */
  function AddCheck(categories: map<CategoryId, Category>, requester: Option<Role>, req: AddCategoryRequest,
                    imageFiles: Option<seq<string>>): (r: Option<Response<Category>>)
    ensures !IsAdmin(requester) ==> r == Some(Fail(Forbidden, 403))
    ensures IsAdmin(requester) && !TruthyString(req.name) ==> r == Some(Fail(NameMissing, 400))
    ensures IsAdmin(requester) && TruthyString(req.name) && (imageFiles.None? || imageFiles.value == []) ==>
      r == Some(Fail(ImageMissing, 400))
    ensures r.None? <==>
      && IsAdmin(requester) && TruthyString(req.name) && imageFiles.Some? && imageFiles.value != []
      && !NameTaken(categories, req.name.value)
    ensures r.Some? ==> !r.value.Success() && r.value.status in {400, 403}
  {
    if !IsAdmin(requester) then Some(Fail(Forbidden, 403))
    else if !TruthyString(req.name) then Some(Fail(NameMissing, 400))
    else if imageFiles.None? || imageFiles.value == [] then Some(Fail(ImageMissing, 400))
    else if NameTaken(categories, req.name.value) then Some(Fail(AlreadyExists, 400))
    else None
  }

  /** A superadmin is refused like any non-admin. */
  lemma SuperadminRefused(categories: map<CategoryId, Category>, req: AddCategoryRequest,
                          imageFiles: Option<seq<string>>)
    ensures AddCheck(categories, Some(Superadmin), req, imageFiles) == Some(Fail(Forbidden, 403))
  {
  }

  /** The message of the `ReferenceError` that reading an unimported `cloudinary` throws. */
  const CloudinaryUndefined := "cloudinary is not defined"

  /** `addCategory` as the file stands: past the guards the first statement reads `cloudinary`,
      which the module never imports, so the catch block answers 500 with the reference error's
      message and nothing is stored. */
  function AddAsWritten(categories: map<CategoryId, Category>, requester: Option<Role>, req: AddCategoryRequest,
                        imageFiles: Option<seq<string>>): (r: Response<Category>)
    ensures AddCheck(categories, requester, req, imageFiles).Some? ==>
      r == AddCheck(categories, requester, req, imageFiles).value
    ensures AddCheck(categories, requester, req, imageFiles).None? ==> r == Crash(CloudinaryUndefined)
  {
    var problem := AddCheck(categories, requester, req, imageFiles);
    if problem.Some? then problem.value else Crash(CloudinaryUndefined)
  }

  /** As written, no request ever adds a category: every answer is a refusal or the crash. */
  lemma AsWrittenNeverAdds(categories: map<CategoryId, Category>, requester: Option<Role>, req: AddCategoryRequest,
                           imageFiles: Option<seq<string>>)
    ensures !AddAsWritten(categories, requester, req, imageFiles).Success()
    ensures AddAsWritten(categories, requester, req, imageFiles).status in {400, 403, 500}
  {
  }

  /** `addCategory` with `cloudinary` imported, as intended. The URL is passed under `image`, a key the schema does not declare, so strict
      mode drops it and `categoryImg` stays unset. */
  method AddCategory(db: CategoryStore, requester: Option<Role>, req: AddCategoryRequest,
                     imageFiles: Option<seq<string>>, upload: Upload, newId: CategoryId) returns (r: Response<Category>)
    requires db.Valid()
    modifies db
    ensures db.Valid()
    ensures AddCheck(old(db.categories), requester, req, imageFiles).Some? ==>
      r == AddCheck(old(db.categories), requester, req, imageFiles).value && db.categories == old(db.categories)
    ensures AddCheck(old(db.categories), requester, req, imageFiles).None? && upload.UploadThrew? ==>
      r == Crash(upload.message) && db.categories == old(db.categories)
    ensures AddCheck(old(db.categories), requester, req, imageFiles).None? && upload.Uploaded? ==>
      var c := Created(old(db.categories), req.name.value, req.description, None, newId);
      && (c.Failure? ==> r == Crash(c.error) && db.categories == old(db.categories))
      && (c.Success? ==> r == Ok(Added, c.value, 201) && db.categories == old(db.categories)[newId := c.value])
  {
    var problem := AddCheck(db.categories, requester, req, imageFiles);
    if problem.Some? {
      return problem.value;
    }
    if upload.UploadThrew? {
      return Crash(upload.message);
    }
    var c := Created(db.categories, req.name.value, req.description, None, newId);
    if c.Failure? {
      return Crash(c.error);
    }
    InsertKeepsUnique(db.categories, newId, c.value);
    db.categories := db.categories[newId := c.value];
    r := Ok(Added, c.value, 201);
  }

  /** `deleteCategory`: its sub-categories keep their `parent` id. */
  method DeleteCategory(db: CategoryStore, requester: Option<Role>, id: CategoryId) returns (r: Response<Category>)
    requires db.Valid()
    modifies db
    ensures db.Valid()
    ensures !IsAdmin(requester) ==> r == Fail(Forbidden, 403) && db.categories == old(db.categories)
    ensures IsAdmin(requester) && id !in old(db.categories) ==>
      r == Fail(NotFound, 404) && db.categories == old(db.categories)
    ensures IsAdmin(requester) && id in old(db.categories) ==>
      && db.categories == old(db.categories) - {id}
      && r == Ok("Category deleted successfully", old(db.categories)[id], 200)
  {
    if !IsAdmin(requester) {
      return Fail(Forbidden, 403);
    }
    if id !in db.categories {
      return Fail(NotFound, 404);
    }
    var c := db.categories[id];
    db.categories := db.categories - {id};
    r := SuccessResponse("Category deleted successfully", Some(c), None);
  }

  /** Removing a category leaves the others' sub-category sets as they were, minus that one. */
  lemma DeleteKeepsChildren(categories: map<CategoryId, Category>, id: CategoryId, other: CategoryId)
    ensures SubCategories(categories - {id}, other) == SubCategories(categories, other) - {id}
  {
  }
}
