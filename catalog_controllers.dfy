/**
 * The product listing with its optional filters, and product creation.
 */
module ProductController {
  import opened Wrappers
  import opened Text
  import opened Records
  import opened Database
  import opened Seqs

  /** The search term `getAll` filters by: `q` trimmed and lower-cased, or none when `q` is null or blank. */
  function QueryTerm(q: Option<string>): (t: Option<string>)
    ensures t.None? <==> q.None? || JavaTrim(q.value) == ""
    ensures t.Some? ==> t.value == Lower(JavaTrim(q.value))
  {
    if q.Some? && JavaTrim(q.value) != "" then Some(Lower(JavaTrim(q.value))) else None
  }

  /** A product passes all three filters; an absent filter passes everything. */
  predicate Wanted(p: Product, categoryId: Option<int>, storeId: Option<int>, q: Option<string>)
  {
    && (categoryId.Some? ==> p.categoryId == categoryId)
    && (storeId.Some? ==> p.storeId == storeId)
    && (QueryTerm(q).Some? ==> Contains(Lower(p.name), QueryTerm(q).value))
  }

  function ByCategory(ps: seq<Product>, id: int): seq<Product>
  {
    if ps == [] then []
    else if ps[0].categoryId == Some(id) then [ps[0]] + ByCategory(ps[1..], id)
    else ByCategory(ps[1..], id)
  }

  function ByStore(ps: seq<Product>, id: int): seq<Product>
  {
    if ps == [] then []
    else if ps[0].storeId == Some(id) then [ps[0]] + ByStore(ps[1..], id)
    else ByStore(ps[1..], id)
  }

  function ByName(ps: seq<Product>, term: string): seq<Product>
  {
    if ps == [] then []
    else if Contains(Lower(ps[0].name), term) then [ps[0]] + ByName(ps[1..], term)
    else ByName(ps[1..], term)
  }

  /** `getAll`: the three filters applied one after the other, as the handler does. */
  function GetAll(ps: seq<Product>, categoryId: Option<int>, storeId: Option<int>, q: Option<string>): seq<Product>
  {
    var a := if categoryId.Some? then ByCategory(ps, categoryId.value) else ps;
    var b := if storeId.Some? then ByStore(a, storeId.value) else a;
    if QueryTerm(q).Some? then ByName(b, QueryTerm(q).value) else b
  }

  /** The products passing every filter, in repository order, in one pass. */
  function Select(ps: seq<Product>, categoryId: Option<int>, storeId: Option<int>, q: Option<string>): (r: seq<Product>)
    ensures forall k :: 0 <= k < |r| ==> Wanted(r[k], categoryId, storeId, q) && r[k] in ps
    ensures forall k :: 0 <= k < |ps| && Wanted(ps[k], categoryId, storeId, q) ==> ps[k] in r
    ensures IsSubseq(r, ps)
  {
    if ps == [] then []
    else if Wanted(ps[0], categoryId, storeId, q) then [ps[0]] + Select(ps[1..], categoryId, storeId, q)
    else Select(ps[1..], categoryId, storeId, q)
  }

  lemma {:induction false} CategoryStep(ps: seq<Product>, id: int, storeId: Option<int>, q: Option<string>)
    ensures Select(ByCategory(ps, id), None, storeId, q) == Select(ps, Some(id), storeId, q)
  {
    if ps != [] {
      CategoryStep(ps[1..], id, storeId, q);
    }
  }

  lemma {:induction false} StoreStep(ps: seq<Product>, id: int, q: Option<string>)
    ensures Select(ByStore(ps, id), None, None, q) == Select(ps, None, Some(id), q)
  {
    if ps != [] {
      StoreStep(ps[1..], id, q);
    }
  }

  lemma {:induction false} NameStep(ps: seq<Product>, q: Option<string>)
    requires QueryTerm(q).Some?
    ensures ByName(ps, QueryTerm(q).value) == Select(ps, None, None, q)
  {
    if ps != [] {
      NameStep(ps[1..], q);
    }
  }

  lemma {:induction false} NoFilterSelectsAll(ps: seq<Product>, q: Option<string>)
    requires QueryTerm(q).None?
    ensures Select(ps, None, None, q) == ps
  {
    if ps != [] {
      NoFilterSelectsAll(ps[1..], q);
    }
  }

  /**
   * The filters compose as a conjunction: `getAll` keeps exactly the
   * products passing all given filters, in repository order.
   */
  lemma FiltersCompose(ps: seq<Product>, categoryId: Option<int>, storeId: Option<int>, q: Option<string>)
    ensures GetAll(ps, categoryId, storeId, q) == Select(ps, categoryId, storeId, q)
  {
    var a := if categoryId.Some? then ByCategory(ps, categoryId.value) else ps;
    var b := if storeId.Some? then ByStore(a, storeId.value) else a;
    if QueryTerm(q).Some? {
      NameStep(b, q);
    } else {
      NoFilterSelectsAll(b, q);
    }
    if storeId.Some? {
      StoreStep(a, storeId.value, q);
    }
    if categoryId.Some? {
      CategoryStep(ps, categoryId.value, storeId, q);
    }
  }

  /** With no filter, or a blank query, `getAll` is the whole table. */
  lemma NoFiltersIsAll(ps: seq<Product>, q: Option<string>)
    requires QueryTerm(q).None?
    ensures GetAll(ps, None, None, q) == ps
  {
    FiltersCompose(ps, None, None, q);
    NoFilterSelectsAll(ps, q);
  }

  /** A `create` body; the primitive price and stock default to zero when left out. */
  datatype CreateProductRequest = CreateProductRequest(name: Option<string>, price: real, stock: int,
                                                       categoryId: Option<int>, storeId: Option<int>)

  /** Why `create` refuses a body, in the source's order: the field checks, then the store, then the category. */
  function CreateRefusal(db: Db, req: CreateProductRequest): (e: Option<Rejection>)
    requires db.StoreIds() && db.CategoryIds()
    reads db`stores, db`categories
    ensures e.None? <==> && req.name.Some? && JavaTrim(req.name.value) != "" && req.price >= 0.0 && req.stock >= 0
                         && req.categoryId.Some? && req.storeId.Some?
                         && db.StoreById(req.storeId.value).Some? && db.CategoryById(req.categoryId.value).Some?
    ensures req.name.None? || JavaTrim(req.name.value) == "" ==> e == Some(Rejection(BadRequest, "Product name is required"))
    ensures e == Some(Rejection(BadRequest, "Price cannot be negative")) <==>
              req.name.Some? && JavaTrim(req.name.value) != "" && req.price < 0.0
    ensures e == Some(Rejection(BadRequest, "Stock cannot be negative")) <==>
              req.name.Some? && JavaTrim(req.name.value) != "" && req.price >= 0.0 && req.stock < 0
  {
    if req.name.None? || JavaTrim(req.name.value) == "" then Some(Rejection(BadRequest, "Product name is required"))
    else if req.price < 0.0 then Some(Rejection(BadRequest, "Price cannot be negative"))
    else if req.stock < 0 then Some(Rejection(BadRequest, "Stock cannot be negative"))
    else if req.categoryId.None? then Some(Rejection(BadRequest, "categoryId is required"))
    else if req.storeId.None? then Some(Rejection(BadRequest, "storeId is required"))
    else if db.StoreById(req.storeId.value).None? then Some(Rejection(NotFound, "Store not found"))
    else if db.CategoryById(req.categoryId.value).None? then Some(Rejection(NotFound, "Category not found"))
    else None
  }

  /**
   * `create`: an accepted body saves a product under the next id with the
   * trimmed name and the looked-up category and store; a refused one saves
   * nothing.
   */
  method Create(db: Db, req: CreateProductRequest) returns (r: Result<Product, Rejection>)
    requires db.ProductIds() && db.StoreIds() && db.CategoryIds()
    modifies db`products
    ensures db.ProductIds()
    ensures var e := CreateRefusal(db, req); e.Some? ==> r == Err(e.value) && db.products == old(db.products)
    ensures CreateRefusal(db, req).None? ==>
              && r.Ok? && db.products == old(db.products) + [r.value]
              && r.value.id == |db.products| && r.value.name == JavaTrim(req.name.value)
              && r.value.price == req.price && r.value.stock == req.stock
              && r.value.categoryId == Some(db.CategoryById(req.categoryId.value).value.id)
              && r.value.storeId == Some(db.StoreById(req.storeId.value).value.id)
              && r.value.description == None && r.value.imageUrl == None
  {
    var e := CreateRefusal(db, req);
    if e.Some? {
      return Err(e.value);
    }
    var store := db.StoreById(req.storeId.value).value;
    var category := db.CategoryById(req.categoryId.value).value;
    var p := Product(|db.products| + 1, JavaTrim(req.name.value), req.price, req.stock, Some(category.id),
                     Some(store.id), None, None);
    db.products := db.products + [p];
    r := Ok(p);
  }
}

/** Category creation with its case-insensitive uniqueness check. */
module CategoryController {
  import opened Wrappers
  import opened Text
  import opened Records
  import opened Database

  /** `findByNameIgnoreCase`: the first category whose name equals `name` ignoring case. */
  function FindByNameIgnoreCase(cats: seq<Category>, name: string): (r: Option<Category>)
    ensures r.Some? ==> r.value in cats && EqualsIgnoreCase(r.value.name, name)
    ensures r.None? <==> forall k :: 0 <= k < |cats| ==> !EqualsIgnoreCase(cats[k].name, name)
  {
    if cats == [] then None
    else if EqualsIgnoreCase(cats[0].name, name) then Some(cats[0])
    else
      var r := FindByNameIgnoreCase(cats[1..], name);
      assert forall k :: 1 <= k < |cats| ==> cats[k] == cats[1..][k - 1];
      r
  }

  /** No two categories have names equal ignoring case. */
  ghost predicate NamesDistinct(cats: seq<Category>)
  {
    forall i, j :: 0 <= i < j < |cats| ==> !EqualsIgnoreCase(cats[i].name, cats[j].name)
  }

  /** Why `create` refuses a name, checked in the source's order. */
  function CreateRefusal(cats: seq<Category>, name: Option<string>): (e: Option<Rejection>)
    ensures name.None? || JavaTrim(name.value) == "" ==> e == Some(Rejection(BadRequest, "Category name is required"))
    ensures name.Some? && JavaTrim(name.value) != "" && FindByNameIgnoreCase(cats, JavaTrim(name.value)).Some? ==>
              e == Some(Rejection(Conflict, "Category already exists"))
    ensures e.None? <==> name.Some? && JavaTrim(name.value) != "" && FindByNameIgnoreCase(cats, JavaTrim(name.value)).None?
  {
    if name.None? || JavaTrim(name.value) == "" then Some(Rejection(BadRequest, "Category name is required"))
    else if FindByNameIgnoreCase(cats, JavaTrim(name.value)).Some? then Some(Rejection(Conflict, "Category already exists"))
    else None
  }

  /**
   * `create`: a refused name changes nothing; otherwise the trimmed name
   * is saved under the next id; names stay distinct ignoring case.
   */
  method Create(db: Db, name: Option<string>) returns (r: Result<Category, Rejection>)
    requires db.CategoryIds()
    modifies db`categories
    ensures db.CategoryIds()
    ensures NamesDistinct(old(db.categories)) ==> NamesDistinct(db.categories)
    ensures var e := CreateRefusal(old(db.categories), name);
            && (e.Some? ==> r == Err(e.value) && db.categories == old(db.categories))
            && (e.None? ==> && r == Ok(Category(|old(db.categories)| + 1, JavaTrim(name.value)))
                            && db.categories == old(db.categories) + [r.value])
  {
    var refusal := CreateRefusal(db.categories, name);
    if refusal.Some? {
      return Err(refusal.value);
    }
    var c := Category(|db.categories| + 1, JavaTrim(name.value));
    if NamesDistinct(db.categories) {
      AppendKeepsDistinct(db.categories, c);
    }
    SaveCategory(db, c);
    r := Ok(c);
  }

  /** `categoryRepository.save` of a new row: appended, numbered next. */
  method SaveCategory(db: Db, c: Category)
    requires db.CategoryIds() && c.id == |db.categories| + 1
    modifies db`categories
    ensures db.CategoryIds() && db.categories == old(db.categories) + [c]
  {
    db.categories := db.categories + [c];
  }

  /** A name found nowhere, added at the end, keeps the names distinct. */
  lemma AppendKeepsDistinct(cats: seq<Category>, c: Category)
    requires NamesDistinct(cats) && FindByNameIgnoreCase(cats, c.name).None?
    ensures NamesDistinct(cats + [c])
  {
    var all := cats + [c];
    forall i, j | 0 <= i < j < |all|
      ensures !EqualsIgnoreCase(all[i].name, all[j].name)
    {
      if j == |cats| {
        assert all[i] == cats[i];
        assert !EqualsIgnoreCase(cats[i].name, c.name);
      }
    }
  }

  /** Names differing only in case, or in surrounding blanks, cannot both be created. */
  lemma SecondSpellingRefused(cats: seq<Category>, a: string, b: string)
    requires JavaTrim(a) != "" && EqualsIgnoreCase(JavaTrim(a), JavaTrim(b))
    ensures FindByNameIgnoreCase(cats + [Category(|cats| + 1, JavaTrim(a))], JavaTrim(b)).Some?
  {
    var cats' := cats + [Category(|cats| + 1, JavaTrim(a))];
    assert EqualsIgnoreCase(cats'[|cats|].name, JavaTrim(b));
  }
}

/** Store listing and creation. */
module StoreController {
  import opened Wrappers
  import opened Text
  import opened Records
  import opened Database

  /** `getAll`. */
  function GetAll(db: Db): (r: seq<Store>)
    requires db.StoreIds() && db.StoreNamesUnique()
    reads db`stores
    ensures forall k :: 0 <= k < |r| ==> r[k].id == k + 1
    ensures forall i, j :: 0 <= i < j < |r| ==> r[i].name != r[j].name
  {
    db.stores
  }

  /** A `create` body. */
  datatype CreateStoreRequest = CreateStoreRequest(name: Option<string>, location: Option<string>)

  /** The location a store is saved with: trimmed, or empty when none was sent. */
  function LocationFor(location: Option<string>): (l: string)
    ensures location.None? ==> l == ""
    ensures location.Some? ==> l == JavaTrim(location.value)
  {
    if location.None? then "" else JavaTrim(location.value)
  }

  /**
   * `create`: a null or blank name is refused; a save that breaks the
   * unique name column is reported as a conflict and stores nothing;
   * otherwise the store is saved and listed last.
   */
  method Create(db: Db, req: CreateStoreRequest) returns (r: Result<Store, Rejection>)
    requires db.StoreIds() && db.StoreNamesUnique()
    modifies db`stores
    ensures db.StoreIds() && db.StoreNamesUnique()
    ensures req.name.None? || JavaTrim(req.name.value) == "" ==>
              r == Err(Rejection(BadRequest, "Store name is required")) && db.stores == old(db.stores)
    ensures req.name.Some? && JavaTrim(req.name.value) != "" ==>
              var name := JavaTrim(req.name.value);
              && ((exists k :: 0 <= k < |old(db.stores)| && old(db.stores)[k].name == name) ==>
                    r == Err(Rejection(Conflict, "Store name already exists")) && db.stores == old(db.stores))
              && ((forall k :: 0 <= k < |old(db.stores)| ==> old(db.stores)[k].name != name) ==>
                    r == Ok(Store(|old(db.stores)| + 1, name, LocationFor(req.location)))
                    && GetAll(db) == old(GetAll(db)) + [r.value])
  {
    if req.name.None? || JavaTrim(req.name.value) == "" {
      return Err(Rejection(BadRequest, "Store name is required"));
    }
    var name := JavaTrim(req.name.value);
    var taken := NameTaken(db.stores, name);
    if taken {
      return Err(Rejection(Conflict, "Store name already exists"));
    }
    var s := Store(|db.stores| + 1, name, LocationFor(req.location));
    SaveStore(db, s);
    r := Ok(s);
  }

  /** The unique-column check the save runs into: a scan for a stored row with the same name. */
  method NameTaken(stores: seq<Store>, name: string) returns (taken: bool)
    ensures taken <==> exists k :: 0 <= k < |stores| && stores[k].name == name
  {
    var k := 0;
    while k < |stores|
      invariant 0 <= k <= |stores|
      invariant forall j :: 0 <= j < k ==> stores[j].name != name
    {
      if stores[k].name == name {
        return true;
      }
      k := k + 1;
    }
    return false;
  }

  /** `storeRepository.save` of a new row whose name is not taken: appended, numbered next. */
  method SaveStore(db: Db, s: Store)
    requires db.StoreIds() && db.StoreNamesUnique() && s.id == |db.stores| + 1
    requires forall k :: 0 <= k < |db.stores| ==> db.stores[k].name != s.name
    modifies db`stores
    ensures db.StoreIds() && db.StoreNamesUnique() && db.stores == old(db.stores) + [s]
  {
    db.stores := db.stores + [s];
  }
}
