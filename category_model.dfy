/** The Category record (server/models/category.model.js), its parent link and the virtual
    `subCategories` relation, and the category collection. */
module CategoryModel {
  import opened Js

  type CategoryId = string

  /** `parent` is `None` for `null`, the default, which marks a top-level category. */
  datatype Category = Category(
    name: string,
    description: Option<string>,
    categoryImg: Option<string>,
    parent: Option<CategoryId>)

  const NameRequired := ValidationMessage("Category", [Required("name")])

  /** Validating a new category: `name` is trimmed and required; the other fields are optional
      and `parent` defaults to `null`. */
  function NewCategory(name: string, description: Option<string>, categoryImg: Option<string>): (r: Result<Category>)
    ensures r.Success? <==> Trim(name) != ""
    ensures r.Failure? ==> r.error == NameRequired
    ensures r.Success? ==>
      && r.value.name == Trim(name) && r.value.description == description
      && r.value.categoryImg == categoryImg && r.value.parent.None?
  {
    var n := Trim(name);
    if n == "" then Failure(NameRequired) else Success(Category(n, description, categoryImg, None))
  }

  /** The virtual `subCategories`: the categories whose `parent` is `id`. */
  function SubCategories(categories: map<CategoryId, Category>, id: CategoryId): (r: set<CategoryId>)
    ensures forall c :: c in r <==> c in categories && categories[c].parent == Some(id)
  {
    set c | c in categories && categories[c].parent == Some(id)
  }

  function TopLevel(categories: map<CategoryId, Category>): (r: set<CategoryId>)
    ensures forall c :: c in r <==> c in categories && categories[c].parent.None?
  {
    set c | c in categories && categories[c].parent.None?
  }

  /** Every category is top-level or a sub-category of exactly its parent; the sub-category
      sets of two different parents are disjoint. */
  lemma ParentPartition(categories: map<CategoryId, Category>, a: CategoryId, b: CategoryId)
    requires a != b
    ensures SubCategories(categories, a) !! SubCategories(categories, b)
    ensures SubCategories(categories, a) !! TopLevel(categories)
    ensures forall c :: c in categories ==>
      c in TopLevel(categories) || c in SubCategories(categories, categories[c].parent.value)
  {
  }

  /** A freshly validated category is top-level. */
  lemma NewCategoryTopLevel(categories: map<CategoryId, Category>, id: CategoryId, name: string,
                            description: Option<string>, categoryImg: Option<string>)
    requires NewCategory(name, description, categoryImg).Success?
    ensures id in TopLevel(categories[id := NewCategory(name, description, categoryImg).value])
  {
  }

  /** `findOne({ name })`: the query value goes through the `trim` setter. */
  predicate NameTaken(categories: map<CategoryId, Category>, name: string) {
    exists c :: c in categories && categories[c].name == Trim(name)
  }

  /** The unique index on `name`. */
  ghost predicate ValidCategories(categories: map<CategoryId, Category>) {
    forall a, b :: a in categories && b in categories && categories[a].name == categories[b].name ==> a == b
  }

  class CategoryStore {
    var categories: map<CategoryId, Category>

    ghost predicate Valid()
      reads this
    {
      ValidCategories(categories)
    }

    constructor ()
      ensures categories == map[] && Valid()
    {
      categories := map[];
    }
  }
}
