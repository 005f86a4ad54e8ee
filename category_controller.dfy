/** The open category handlers (server/controller/categoryController.js): add with a uniqueness
    check, and list. */
module CategoryController {
  import opened Js
  import opened Responder
  import opened CategoryModel

  datatype AddCategoryRequest = AddCategoryRequest(name: Field<string>, description: Field<string>)

  const NameMissing := "Category name is required"
  const AlreadyExists := "Category already exists"
  const Added := "Category added successfully"

  /** `Category.create({ name, description })` after the guards: validation, then the insert
      under `newId`. A failure is the thrown error's message. */
  function Created(categories: map<CategoryId, Category>, name: string, description: Field<string>,
                   categoryImg: Option<string>, newId: CategoryId): (r: Result<Category>)
    ensures NewCategory(name, OptionOf(description), categoryImg).Failure? ==>
      r == Failure(NewCategory(name, OptionOf(description), categoryImg).error)
    ensures r.Success? <==> NewCategory(name, OptionOf(description), categoryImg).Success? && newId !in categories
    ensures r.Success? ==> r == NewCategory(name, OptionOf(description), categoryImg)
    ensures NewCategory(name, OptionOf(description), categoryImg).Success? && newId in categories ==>
      r == Failure(DuplicateKey)
  {
    var c := NewCategory(name, OptionOf(description), categoryImg);
    if c.Failure? then c
    else if newId in categories then Failure(DuplicateKey)
    else c
  }

  /** A name no stored category has, once trimmed, keeps the index unique when inserted. */
  lemma InsertKeepsUnique(categories: map<CategoryId, Category>, id: CategoryId, c: Category)
    requires ValidCategories(categories) && id !in categories
    requires forall k :: k in categories ==> categories[k].name != c.name
    ensures ValidCategories(categories[id := c])
  {
  }

  /** `addCategory`. */
  method AddCategory(db: CategoryStore, req: AddCategoryRequest, newId: CategoryId) returns (r: Response<Category>)
    requires db.Valid()
    modifies db
    ensures db.Valid()
    ensures !TruthyString(req.name) ==> r == Fail(NameMissing, 400) && db.categories == old(db.categories)
    ensures TruthyString(req.name) && NameTaken(old(db.categories), req.name.value) ==>
      r == Fail(AlreadyExists, 400) && db.categories == old(db.categories)
    ensures TruthyString(req.name) && !NameTaken(old(db.categories), req.name.value) ==>
      var c := Created(old(db.categories), req.name.value, req.description, None, newId);
      && (c.Failure? ==> r == Crash(c.error) && db.categories == old(db.categories))
      && (c.Success? ==> r == Ok(Added, c.value, 201) && db.categories == old(db.categories)[newId := c.value])
  {
    if !TruthyString(req.name) {
      return Fail(NameMissing, 400);
    }
    if NameTaken(db.categories, req.name.value) {
      return Fail(AlreadyExists, 400);
    }
    var c := Created(db.categories, req.name.value, req.description, None, newId);
    if c.Failure? {
      return Crash(c.error);
    }
    InsertKeepsUnique(db.categories, newId, c.value);
    db.categories := db.categories[newId := c.value];
    r := Ok(Added, c.value, 201);
  }

  /** `getCategories`: every stored category. */
  function GetCategories(categories: map<CategoryId, Category>): (r: Response<map<CategoryId, Category>>)
    ensures r.Success() && r.status == 200 && r.body.data == Data(categories)
    ensures r.body.message == "Categories retrieved successfully"
  {
    SuccessResponse("Categories retrieved successfully", Some(categories), None)
  }
}
