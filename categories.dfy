/** src/modules/categories/categories.service.ts: the user's categories beside the shared default ones. */
module Categories {
  import opened Common
  import opened Entities
  import opened Store

  /**
   * `getAllCategories`: the user's own non-default categories and every default one, which is
   * exactly the visible ones (names, icons, nesting and ordering are not modelled).
   */
  method GetAllCategories(db: Database, user: UserId) returns (r: map<Id, Category>)
    ensures forall id :: id in r <==> VisibleCategoryId(db.categories, id, user)
    ensures forall id :: id in r ==> id in db.categories && r[id] == db.categories[id]
  {
    r := map id | id in db.categories
                  && ((db.categories[id].owner == user && !db.categories[id].isDefault) || db.categories[id].isDefault)
                :: db.categories[id];
  }

  /** `getCategoryById`: 404 unless the category is the user's or a default one. */
  method GetCategoryById(db: Database, user: UserId, id: Id) returns (r: Result<Category>)
    ensures r.Success? <==> VisibleCategoryId(db.categories, id, user)
    ensures r.Success? ==> r.value == db.categories[id]
    ensures r.Failure? ==> r.error == NotFound
  {
    if id in db.categories && (db.categories[id].owner == user || db.categories[id].isDefault) {
      r := Success(db.categories[id]);
    } else {
      r := Failure(NotFound);
    }
  }

  /** Some category other than `except` already has this owner, name and parent. */
  predicate NameTaken(categories: map<Id, Category>, user: UserId, name: string, parent: Option<Id>, except: Option<Id>) {
    exists id :: id in categories && (except.Some? ==> id != except.value) &&
      SameCategoryName(categories[id], Category(user, name, parent, false))
  }

  /**
   * `createCategory`: 409 if the user already has the name under the same parent (or at the
   * top level), then 404 if a parent is given that the user cannot see; otherwise a new
   * non-default category owned by the caller.
   */
  method CreateCategory(db: Database, user: UserId, name: string, parentId: Option<Id>) returns (r: Result<Id>)
    requires db.Valid()
    requires |name| >= 2
    modifies db`categories, db`nextId
    ensures db.Valid()
    ensures NameTaken(old(db.categories), user, name, parentId, None) ==> r == Failure(Conflict)
    ensures !NameTaken(old(db.categories), user, name, parentId, None) ==>
      (parentId.Some? && !VisibleCategoryId(old(db.categories), parentId.value, user) ==> r == Failure(NotFound))
    ensures r.Success? <==>
      && !NameTaken(old(db.categories), user, name, parentId, None)
      && (parentId.Some? ==> VisibleCategoryId(old(db.categories), parentId.value, user))
    ensures r.Failure? ==> unchanged(db)
    ensures r.Success? ==>
      && r.value !in old(db.categories)
      && db.categories == old(db.categories)[r.value := Category(user, name, parentId, false)]
  {
    if exists id :: id in db.categories && SameCategoryName(db.categories[id], Category(user, name, parentId, false)) {
      return Failure(Conflict);
    }
    if parentId.Some? && !(parentId.value in db.categories
                           && (db.categories[parentId.value].owner == user || db.categories[parentId.value].isDefault)) {
      return Failure(NotFound);
    }
    var id := db.NewId();
    db.categories := db.categories[id := Category(user, name, parentId, false)];
    r := Success(id);
  }

  /** The fields `updateCategory` may change (icon, colour and description are not modelled). */
  datatype CategoryPatch = CategoryPatch(name: Option<string>, parentId: Option<Id>)

  function ApplyCategoryPatch(c: Category, p: CategoryPatch): (r: Category)
    ensures r.owner == c.owner && r.isDefault == c.isDefault
  {
    c.(name := if p.name.Some? then p.name.value else c.name,
       parentId := if p.parentId.Some? then p.parentId else c.parentId)
  }

  /** `updateCategory` and `deleteCategory` only touch the user's own non-default categories. */
  predicate Editable(categories: map<Id, Category>, id: Id, user: UserId) {
    id in categories && categories[id].owner == user && !categories[id].isDefault
  }

  /**
   * The collision test `updateCategory` itself makes: only when a new name is given, looked up
   * under the new parent or, without one, the current parent.
   */
  predicate ServiceConflict(categories: map<Id, Category>, user: UserId, id: Id, p: CategoryPatch)
    requires id in categories
  {
    var c := categories[id];
    && p.name.Some? && p.name.value != c.name
    && NameTaken(categories, user, p.name.value, if p.parentId.Some? then p.parentId else c.parentId, Some(id))
  }

  /**
   * The store's unique index on (userId, name, parentId) rejecting the written row (P2002, which
   * the error handler answers with 409). PostgreSQL never finds two NULLs equal in a unique
   * index, so only a row with a parent can collide there.
   */
  predicate IndexConflict(categories: map<Id, Category>, user: UserId, id: Id, p: CategoryPatch)
    requires id in categories
  {
    var updated := ApplyCategoryPatch(categories[id], p);
    updated.parentId.Some? && NameTaken(categories, user, updated.name, updated.parentId, Some(id))
  }

  /**
   * Together the service's test and the index answer 409 exactly when another category already
   * has the updated (owner, name, parent); neither alone does. A patch that changes nothing
   * never collides, because the categories were unique before.
   */
  lemma {:induction false} ConflictIffNameTaken(categories: map<Id, Category>, user: UserId, id: Id, p: CategoryPatch)
    requires CategoryNamesUnique(categories)
    requires Editable(categories, id, user)
    ensures var updated := ApplyCategoryPatch(categories[id], p);
      ServiceConflict(categories, user, id, p) || IndexConflict(categories, user, id, p)
      <==> NameTaken(categories, user, updated.name, updated.parentId, Some(id))
  {
    var c := categories[id];
    var updated := ApplyCategoryPatch(c, p);
    if updated.parentId.None? && !ServiceConflict(categories, user, id, p) {
      forall other | other in categories && other != id
        ensures !SameCategoryName(categories[other], Category(user, updated.name, updated.parentId, false))
      {
        if updated.name == c.name {
          assert !SameCategoryName(categories[other], c);
        }
      }
    }
  }

  /**
   * The service's test alone misses a move without a rename: the top-level "Food" moved under
   * "Home", which already holds a "Food". The unique index is what answers 409 there.
   */
  lemma MoveWithoutRenameCaughtByIndex()
    ensures
      var categories := map[1 := Category(7, "Food", None, false), 2 := Category(7, "Food", Some(3), false),
                            3 := Category(7, "Home", None, false)];
      var p := CategoryPatch(None, Some(3));
      && CategoryNamesUnique(categories)
      && Editable(categories, 1, 7)
      && !ServiceConflict(categories, 7, 1, p)
      && IndexConflict(categories, 7, 1, p)
      && !CategoryNamesUnique(categories[1 := ApplyCategoryPatch(categories[1], p)])
  {
    var categories := map[1 := Category(7, "Food", None, false), 2 := Category(7, "Food", Some(3), false),
                          3 := Category(7, "Home", None, false)];
    var p := CategoryPatch(None, Some(3));
    var moved := categories[1 := ApplyCategoryPatch(categories[1], p)];
    assert SameCategoryName(moved[1], moved[2]);
    assert SameCategoryName(categories[2], Category(7, "Food", Some(3), false));
  }

  /** An update that no other category collides with keeps every (owner, name, parent) unique. */
  lemma UpdateKeepsNamesUnique(categories: map<Id, Category>, user: UserId, id: Id, p: CategoryPatch)
    requires CategoryNamesUnique(categories)
    requires Editable(categories, id, user)
    requires !NameTaken(categories, user, ApplyCategoryPatch(categories[id], p).name, ApplyCategoryPatch(categories[id], p).parentId, Some(id))
    ensures CategoryNamesUnique(categories[id := ApplyCategoryPatch(categories[id], p)])
  {
    var updated := ApplyCategoryPatch(categories[id], p);
    var r := categories[id := updated];
    forall i, j | i in r && j in r && i != j
      ensures !SameCategoryName(r[i], r[j])
    {
      if i == id || j == id {
        var other := if i == id then j else i;
        assert !SameCategoryName(categories[other], Category(user, updated.name, updated.parentId, false));
      }
    }
  }

  /**
   * `updateCategory`: 404 unless the category is the user's and not default; 409 when the
   * service's test or the unique index finds another category with the updated (owner, name,
   * parent); 400 when the new parent does not exist (P2003, the parent foreign key); all with no
   * change; otherwise only that category gets the patch.
   */
  method UpdateCategory(db: Database, user: UserId, id: Id, p: CategoryPatch) returns (r: Result<Category>)
    requires db.Valid()
    requires p.name.Some? ==> |p.name.value| >= 2
    modifies db`categories
    ensures db.Valid()
    ensures !Editable(old(db.categories), id, user) ==> r == Failure(NotFound)
    ensures Editable(old(db.categories), id, user) ==>
      var updated := ApplyCategoryPatch(old(db.categories)[id], p);
      && (NameTaken(old(db.categories), user, updated.name, updated.parentId, Some(id)) ==> r == Failure(Conflict))
      && ((!NameTaken(old(db.categories), user, updated.name, updated.parentId, Some(id))
           && p.parentId.Some? && p.parentId.value !in old(db.categories)) ==> r == Failure(BadRequest))
    ensures r.Success? <==>
      && Editable(old(db.categories), id, user)
      && !NameTaken(old(db.categories), user, ApplyCategoryPatch(old(db.categories)[id], p).name,
                    ApplyCategoryPatch(old(db.categories)[id], p).parentId, Some(id))
      && (p.parentId.Some? ==> p.parentId.value in old(db.categories))
    ensures r.Failure? ==> db.categories == old(db.categories)
    ensures r.Success? ==>
      r.value == ApplyCategoryPatch(old(db.categories)[id], p) && db.categories == old(db.categories)[id := r.value]
  {
    if !(id in db.categories && db.categories[id].owner == user && !db.categories[id].isDefault) {
      return Failure(NotFound);
    }
    var category := db.categories[id];
    ConflictIffNameTaken(db.categories, user, id, p);
    if p.name.Some? && p.name.value != category.name {
      var parent := if p.parentId.Some? then p.parentId else category.parentId;
      if exists other :: other in db.categories && other != id
                         && SameCategoryName(db.categories[other], Category(user, p.name.value, parent, false)) {
        return Failure(Conflict);
      }
    }
    var updated := ApplyCategoryPatch(category, p);
    var taken := exists other :: other in db.categories && other != id &&
                   SameCategoryName(db.categories[other], Category(user, updated.name, updated.parentId, false));
    if updated.parentId.Some? && taken {
      return Failure(Conflict);
    }
    if p.parentId.Some? && p.parentId.value !in db.categories {
      return Failure(BadRequest);
    }
    UpdateKeepsNamesUnique(db.categories, user, id, p);
    db.categories := db.categories[id := updated];
    r := Success(updated);
  }

  predicate HasTransactions(transactions: map<Id, Transaction>, id: Id) {
    exists k :: k in transactions && transactions[k].categoryId == id
  }

  predicate HasSubcategories(categories: map<Id, Category>, id: Id) {
    exists k :: k in categories && categories[k].parentId == Some(id)
  }

  /**
   * `deleteCategory`: 404 unless the category is the user's and not default; 400 while any
   * transaction (of any user) uses it or any category sits under it; otherwise only that
   * category goes.
   */
  method DeleteCategory(db: Database, user: UserId, id: Id) returns (r: Result<()>)
    requires db.Valid()
    modifies db`categories
    ensures db.Valid()
    ensures !Editable(old(db.categories), id, user) ==> r == Failure(NotFound)
    ensures Editable(old(db.categories), id, user) && (HasTransactions(db.transactions, id) || HasSubcategories(old(db.categories), id))
      ==> r == Failure(BadRequest)
    ensures r.Success? <==>
      Editable(old(db.categories), id, user) && !HasTransactions(db.transactions, id) && !HasSubcategories(old(db.categories), id)
    ensures r.Failure? ==> db.categories == old(db.categories)
    ensures r.Success? ==> db.categories == old(db.categories) - {id}
  {
    if !(id in db.categories && db.categories[id].owner == user && !db.categories[id].isDefault) {
      return Failure(NotFound);
    }
    if exists k :: k in db.transactions && db.transactions[k].categoryId == id {
      return Failure(BadRequest);
    }
    if exists k :: k in db.categories && db.categories[k].parentId == Some(id) {
      return Failure(BadRequest);
    }
    db.categories := db.categories - {id};
    r := Success(());
  }
}
