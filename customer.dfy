/**
 * The customer catalogue page: adding to the stored cart within stock,
 * the catalogue filters, and the price, rating and category-icon renderers.
 */
module CustomerPage {
  import opened Wrappers
  import opened Text
  import opened Seqs
  import opened ClientCart

  datatype CategoryRef = CategoryRef(id: int, name: Option<string>)

  /** A product as the page holds it from the catalogue answer; the category and the store may be null. */
  datatype ShopProduct = ShopProduct(id: int, name: string, price: real, stock: int,
                                     category: Option<CategoryRef>, store: Option<int>)

  /** `products.find(p => p.id === productId)`. */
  function FindProduct(products: seq<ShopProduct>, id: int): (r: Option<ShopProduct>)
    ensures r.None? <==> forall k :: 0 <= k < |products| ==> products[k].id != id
    ensures r.Some? ==> r.value.id == id && r.value in products
  {
    if products == [] then None
    else if products[0].id == id then Some(products[0])
    else
      var r := FindProduct(products[1..], id);
      assert forall k :: 1 <= k < |products| ==> products[k] == products[1..][k - 1];
      r
  }

  datatype AddOutcome = Unknown | OutOfStock | StockLimit | Added

  datatype AddStep = AddStep(outcome: AddOutcome, cart: seq<CartItem>)

  /**
   * `addToCart`: nothing for an unknown product, a refusal for one out of
   * stock, a refusal once the line holds the whole stock; otherwise one
   * more on the line, or a new line of one.
   */
  function CustomerAdd(products: seq<ShopProduct>, cart: seq<CartItem>, productId: int): (r: AddStep)
    ensures FindProduct(products, productId).None? <==> r.outcome == Unknown
    ensures r.outcome == OutOfStock <==> FindProduct(products, productId).Some? && FindProduct(products, productId).value.stock <= 0
    ensures r.outcome != Added ==> r.cart == cart
    ensures r.outcome == Added ==> CartCount(r.cart) == CartCount(cart) + 1
    ensures r.outcome == Added && FirstWith(cart, productId) >= 0 ==>
              var k := FirstWith(cart, productId);
              && cart[k].quantity < FindProduct(products, productId).value.stock
              && r.cart == cart[k := cart[k].(quantity := cart[k].quantity + 1)]
    ensures r.outcome == Added && FirstWith(cart, productId) < 0 ==>
              var p := FindProduct(products, productId).value;
              r.cart == cart + [CartItem(p.id, p.name, p.price, 1, p.store)]
    ensures r.outcome == StockLimit ==>
              FirstWith(cart, productId) >= 0 && cart[FirstWith(cart, productId)].quantity >= FindProduct(products, productId).value.stock
  {
    match FindProduct(products, productId)
    case None => AddStep(Unknown, cart)
    case Some(p) =>
      if p.stock <= 0 then AddStep(OutOfStock, cart)
      else
        var k := FirstWith(cart, productId);
        if k >= 0 then
          if cart[k].quantity >= p.stock then AddStep(StockLimit, cart)
          else
            CountUpdate(cart, k, cart[k].quantity + 1);
            AddStep(Added, cart[k := cart[k].(quantity := cart[k].quantity + 1)])
        else
          CountAppend(cart, CartItem(p.id, p.name, p.price, 1, p.store));
          AddStep(Added, cart + [CartItem(p.id, p.name, p.price, 1, p.store)])
  }

  /** Every line of a known product holds at most that product's stock. */
  ghost predicate WithinStock(products: seq<ShopProduct>, cart: seq<CartItem>)
  {
    forall k :: 0 <= k < |cart| && FindProduct(products, cart[k].productId).Some? ==>
      cart[k].quantity <= FindProduct(products, cart[k].productId).value.stock
  }

  /** Adding never pushes a line above its product's stock. */
  lemma AddKeepsWithinStock(products: seq<ShopProduct>, cart: seq<CartItem>, productId: int)
    requires WithinStock(products, cart)
    ensures WithinStock(products, CustomerAdd(products, cart, productId).cart)
  {
    var r := CustomerAdd(products, cart, productId);
    if r.outcome == Added && FirstWith(cart, productId) < 0 {
      var p := FindProduct(products, productId).value;
      assert r.cart[|cart|] == CartItem(p.id, p.name, p.price, 1, p.store);
      assert forall k :: 0 <= k < |cart| ==> r.cart[k] == cart[k];
    }
  }

  /** The page's globals: the catalogue as loaded and the stored cart. */
  class Catalogue {
    var products: seq<ShopProduct>
    var cart: seq<CartItem>

    constructor (loaded: seq<ShopProduct>, saved: seq<CartItem>)
      ensures products == loaded && cart == saved
    {
      products := loaded;
      cart := saved;
    }

    method AddToCart(productId: int) returns (outcome: AddOutcome)
      modifies this`cart
      ensures AddStep(outcome, cart) == CustomerAdd(products, old(cart), productId)
    {
      var found := FindProduct(products, productId);
      if found.None? {
        return Unknown;
      }
      var p := found.value;
      if p.stock <= 0 {
        return OutOfStock;
      }
      var k := FirstWith(cart, productId);
      if k >= 0 {
        if cart[k].quantity >= p.stock {
          return StockLimit;
        }
        cart := cart[k := cart[k].(quantity := cart[k].quantity + 1)];
      } else {
        cart := cart + [CartItem(p.id, p.name, p.price, 1, p.store)];
      }
      outcome := Added;
    }

    /** `updateCartCount`: the badge shows the sum of the quantities. */
    function CartBadge(): (n: int)
      reads this`cart
      ensures cart == [] ==> n == 0
      ensures cart != [] ==> n == cart[0].quantity + CartCount(cart[1..])
    {
      if cart != [] then CountFront(cart); CartCount(cart) else 0
    }
  }

  // ---------------------------------------------------------------------------
  // Catalogue filters.
  // ---------------------------------------------------------------------------

  /** The filter panel: price cap, in-stock switch, ticked categories and stores, and the trimmed search text. */
  datatype Filters = Filters(maxPrice: real, inStockOnly: bool, categories: seq<int>, stores: seq<int>, query: string)

  /** The name or the category name contains the query, both lower-cased. */
  predicate QueryMatch(p: ShopProduct, query: string)
  {
    Contains(Lower(p.name), Lower(query))
    || (p.category.Some? && p.category.value.name.Some? && Contains(Lower(p.category.value.name.value), Lower(query)))
  }

  /**
   * One product passes the panel.  A ticked category or store list is only
   * applied to products that have a category or a store at all.
   */
  predicate Shown(p: ShopProduct, f: Filters)
  {
    && p.price <= f.maxPrice
    && !(f.inStockOnly && p.stock <= 0)
    && !(|f.categories| > 0 && p.category.Some? && p.category.value.id !in f.categories)
    && !(|f.stores| > 0 && p.store.Some? && p.store.value !in f.stores)
    && (f.query == "" || QueryMatch(p, f.query))
  }

  /** `applyFilters`: the products the panel lets through, in catalogue order. */
  function ApplyFilters(products: seq<ShopProduct>, f: Filters): (r: seq<ShopProduct>)
    ensures |r| <= |products|
    ensures forall k :: 0 <= k < |r| ==> Shown(r[k], f) && r[k] in products
    ensures forall k :: 0 <= k < |products| && Shown(products[k], f) ==> products[k] in r
    ensures IsSubseq(r, products)
  {
    if products == [] then []
    else if Shown(products[0], f) then [products[0]] + ApplyFilters(products[1..], f)
    else ApplyFilters(products[1..], f)
  }

  /** With the panel wide open every product is shown, in order. */
  lemma {:induction false} OpenPanelShowsAll(products: seq<ShopProduct>, maxPrice: real)
    requires forall k :: 0 <= k < |products| ==> products[k].price <= maxPrice
    ensures ApplyFilters(products, Filters(maxPrice, false, [], [], "")) == products
  {
    if products != [] {
      OpenPanelShowsAll(products[1..], maxPrice);
    }
  }

  /** A product with no category passes whatever categories are ticked. */
  lemma UncategorisedPassesCategoryFilter(p: ShopProduct, f: Filters)
    requires p.category.None? && Shown(p, f.(categories := []))
    ensures Shown(p, f)
  {
  }

  /** Once some category is ticked, ticking more only shows more products. */
  lemma {:induction false} MoreCategoriesShowMore(products: seq<ShopProduct>, f: Filters, extra: seq<int>)
    requires |f.categories| > 0
    ensures forall k :: 0 <= k < |ApplyFilters(products, f)| ==>
                        ApplyFilters(products, f)[k] in ApplyFilters(products, f.(categories := f.categories + extra))
  {
    var g := f.(categories := f.categories + extra);
    forall k | 0 <= k < |ApplyFilters(products, f)|
      ensures ApplyFilters(products, f)[k] in ApplyFilters(products, g)
    {
      var p := ApplyFilters(products, f)[k];
      assert Shown(p, g);
      var j :| 0 <= j < |products| && products[j] == p;
    }
  }

  // ---------------------------------------------------------------------------
  // Renderers.
  // ---------------------------------------------------------------------------

  /** The thousands grouping `formatPrice` inserts into the whole part: a comma before every third digit from the right. */
  function Group(d: string): string
  {
    if |d| <= 3 then d else Group(d[..|d| - 3]) + "," + d[|d| - 3..]
  }

  /** One comma per full group of three beyond the first digit. */
  lemma {:induction false} GroupLength(d: string)
    requires |d| > 0
    ensures |Group(d)| == |d| + (|d| - 1) / 3
    decreases |d|
  {
    if |d| > 3 {
      GroupLength(d[..|d| - 3]);
    }
  }

  /**
   * The same grouping read as the page's pattern `\B(?=(\d{3})+(?!\d))`:
   * a comma goes after a digit exactly when a positive multiple of three
   * digits follows it.
   */
  function CommaAfter(d: string): string
  {
    if d == [] then []
    else [d[0]] + (if |d| > 1 && (|d| - 1) % 3 == 0 then "," else "") + CommaAfter(d[1..])
  }

  /** A comma-free text is its own `CommaAfter` when it is at most three long... */
  lemma ShortNeedsNoComma(d: string)
    requires |d| <= 3
    ensures CommaAfter(d) == d
  {
    if d != [] {
      assert |d[1..]| <= 2;
      if |d| > 1 {
        assert CommaAfter(d[1..]) == d[1..] by { ShortNeedsNoComma(d[1..]); }
      }
    }
  }

  /** ...and one comma separates a front from a back whose length is a positive multiple of three. */
  lemma {:induction false} CommaAfterSplit(a: string, b: string)
    requires a != [] && |b| > 0 && |b| % 3 == 0
    ensures CommaAfter(a + b) == CommaAfter(a) + "," + CommaAfter(b)
    decreases |a|
  {
    var ab := a + b;
    assert ab[0] == a[0];
    assert ab[1..] == a[1..] + b;
    if |a| > 1 {
      CommaAfterSplit(a[1..], b);
      ModThree(|a| - 1, |b|);
      var c := if (|a| - 1) % 3 == 0 then "," else "";
      assert CommaAfter(ab) == [a[0]] + c + CommaAfter(a[1..] + b);
      assert CommaAfter(a) == [a[0]] + c + CommaAfter(a[1..]);
    } else {
      assert a[1..] == [];
      assert CommaAfter(a) == [a[0]];
      assert CommaAfter(ab) == [a[0]] + "," + CommaAfter(b);
    }
  }

  lemma {:induction false} ModThree(x: int, y: nat)
    requires y % 3 == 0
    ensures (x + y) % 3 == x % 3
    decreases y
  {
    if y > 0 {
      ModThree(x, y - 3);
      assert x + y == (x + (y - 3)) + 3;
    }
  }

  /** The two readings agree: the recursive grouping is the pattern's. */
  lemma {:induction false} GroupIsPattern(d: string)
    ensures Group(d) == CommaAfter(d)
    decreases |d|
  {
    if |d| <= 3 {
      ShortNeedsNoComma(d);
    } else {
      var front, back := d[..|d| - 3], d[|d| - 3..];
      GroupIsPattern(front);
      ShortNeedsNoComma(back);
      CommaAfterSplit(front, back);
      assert d == front + back;
    }
  }

  /** Deleting the commas gives the digits back. */
  lemma {:induction false} UngroupGroup(d: string)
    requires AllDigits(d)
    ensures RemoveAll(Group(d), IsComma) == d
    decreases |d|
  {
    if |d| > 3 {
      var front, back := d[..|d| - 3], d[|d| - 3..];
      assert AllDigits(front) && AllDigits(back);
      UngroupGroup(front);
      UngroupStep(Group(front), front, back);
      assert d == front + back;
    } else {
      RemoveAllNoComma(d);
    }
  }

  /** One grouping step: the comma goes, the three digits stay. */
  lemma UngroupStep(g: string, front: string, back: string)
    requires RemoveAll(g, IsComma) == front && AllDigits(back)
    ensures RemoveAll(g + "," + back, IsComma) == front + back
  {
    RemoveAllConcat(g + ",", back);
    RemoveAllConcat(g, ",");
    assert RemoveAll(",", IsComma) == [];
    RemoveAllNoComma(back);
  }

  predicate IsComma(c: char) { c == ',' }

  lemma {:induction false} RemoveAllConcat(a: string, b: string)
    ensures RemoveAll(a + b, IsComma) == RemoveAll(a, IsComma) + RemoveAll(b, IsComma)
  {
    if a == [] {
      assert a + b == b;
    } else {
      assert (a + b)[1..] == a[1..] + b;
      RemoveAllConcat(a[1..], b);
    }
  }

  lemma {:induction false} RemoveAllNoComma(d: string)
    requires AllDigits(d)
    ensures RemoveAll(d, IsComma) == d
  {
    if d != [] {
      RemoveAllNoComma(d[1..]);
    }
  }

  /**
   * `formatPrice` on an amount in paisa: the whole rupees with a comma
   * wherever the page's pattern puts one, a point, and exactly two decimals
   * that read back as the paisa.
   */
  function FormatPrice(paisa: nat): (r: string)
    ensures |r| >= 4 && r[|r| - 3] == '.' && AllDigits(r[|r| - 2..])
    ensures r[..|r| - 3] == CommaAfter(NatToString(paisa / 100))
    ensures RemoveAll(r[..|r| - 3], IsComma) == NatToString(paisa / 100)
    ensures DigitsValue(RemoveAll(r[..|r| - 3], IsComma)) == paisa / 100
    ensures DigitsValue(r[|r| - 2..]) == paisa % 100
  {
    UngroupGroup(NatToString(paisa / 100));
    GroupIsPattern(NatToString(paisa / 100));
    NatToStringValue(paisa / 100);
    var whole := Group(NatToString(paisa / 100));
    var cents := TwoDigits(paisa % 100);
    var r := whole + "." + cents;
    assert r[..|r| - 3] == whole;
    assert r[|r| - 2..] == cents;
    assert DigitsValue(cents) == paisa % 100 by {
      assert cents[..1] == [cents[0]] && [cents[0]][..0] == [];
      assert DigitsValue([cents[0]]) == DigitValue(cents[0]);
    }
    r
  }

  datatype Star = Full | Half | Empty

  predicate IsInteger(x: real) { x == x.Floor as real }

  /** The icon `generateStars` picks for position `i` (1 to 5). */
  function StarAt(i: int, rating: real): Star
  {
    if i <= rating.Floor then Full
    else if i == -((-rating).Floor) && !IsInteger(rating) then Half
    else Empty
  }

  /** `generateStars`: one icon per position from 1 to 5. */
  method GenerateStars(rating: real) returns (stars: seq<Star>)
    ensures |stars| == 5
    ensures forall k :: 0 <= k < 5 ==> stars[k] == StarAt(k + 1, rating)
  {
    stars := [];
    var i := 1;
    while i <= 5
      invariant 1 <= i <= 6 && |stars| == i - 1
      invariant forall k :: 0 <= k < i - 1 ==> stars[k] == StarAt(k + 1, rating)
    {
      var star: Star;
      if i <= rating.Floor {
        star := Full;
      } else if i == -((-rating).Floor) && !IsInteger(rating) {
        star := Half;
      } else {
        star := Empty;
      }
      stars := stars + [star];
      i := i + 1;
    }
  }

  /**
   * For a rating from 0 to 5: the first floor(rating) icons are full, a
   * fractional rating puts one half star right after them, and the rest
   * are empty.
   */
  lemma StarsLayout(rating: real, i: int)
    requires 0.0 <= rating <= 5.0 && 1 <= i <= 5
    ensures StarAt(i, rating) == Full <==> i <= rating.Floor
    ensures StarAt(i, rating) == Half <==> i == rating.Floor + 1 && !IsInteger(rating)
  {
    if !IsInteger(rating) {
      assert -((-rating).Floor) == rating.Floor + 1 by {
        assert rating.Floor as real < rating < (rating.Floor + 1) as real;
        assert (-rating).Floor == -rating.Floor - 1;
      }
    }
  }

  const Basket: string := "fas fa-shopping-basket"

  /** The icon table of `getCategoryIcon`, in its order. */
  const Icons: seq<(string, string)> := [
    ("Fruits", "fas fa-apple-alt"), ("Vegetables", "fas fa-carrot"), ("Dairy", "fas fa-cheese"),
    ("Bakery", "fas fa-bread-slice"), ("Meat", "fas fa-drumstick-bite"), ("Seafood", "fas fa-fish"),
    ("Beverages", "fas fa-wine-bottle"), ("Snacks", "fas fa-cookie"), ("Rice", "fas fa-seedling"),
    ("Oil", "fas fa-oil-can")]

  /** The position of the first key the lower-cased name contains, or -1. */
  function FirstKey(table: seq<(string, string)>, name: string): (k: int)
    ensures -1 <= k < |table|
    ensures k >= 0 ==> Contains(Lower(name), Lower(table[k].0))
    ensures forall j :: 0 <= j < |table| && (k < 0 || j < k) ==> !Contains(Lower(name), Lower(table[j].0))
  {
    if table == [] then -1
    else if Contains(Lower(name), Lower(table[0].0)) then 0
    else
      var k := FirstKey(table[1..], name);
      assert forall j :: 1 <= j < |table| ==> table[j] == table[1..][j - 1];
      if k < 0 then -1 else k + 1
  }

  /** The icon of the first key the lower-cased name contains, or the basket. */
  function FirstIcon(table: seq<(string, string)>, name: string): (r: string)
    ensures FirstKey(table, name) < 0 ==> r == Basket
    ensures FirstKey(table, name) >= 0 ==> r == table[FirstKey(table, name)].1
  {
    var k := FirstKey(table, name);
    if k < 0 then Basket else table[k].1
  }

  /** `getCategoryIcon`: a null or empty name gets the basket. */
  function CategoryIcon(name: Option<string>): (r: string)
    ensures name.None? || name == Some("") ==> r == Basket
  {
    if name.None? || name.value == "" then Basket else FirstIcon(Icons, name.value)
  }

  /**
   * A name containing "fruits" in any case gets the fruit icon, whatever
   * later key (vegetables, oil, ...) it also contains: the table is tried
   * in order.
   */
  lemma FruitsKeyWins(name: string)
    requires Contains(Lower(name), "fruits")
    ensures CategoryIcon(Some(name)) == "fas fa-apple-alt"
  {
    assert Lower("Fruits") == "fruits";
    HeadKeyWins(Icons, name);
  }

  /** The first row's key, when the name contains it, decides the icon. */
  lemma HeadKeyWins(table: seq<(string, string)>, name: string)
    requires table != [] && Contains(Lower(name), Lower(table[0].0))
    ensures FirstIcon(table, name) == table[0].1
  {
  }

  lemma LowerPrefix(s: string, n: int)
    requires 0 <= n <= |s|
    ensures Lower(s)[..n] == Lower(s[..n])
  {
  }
}
