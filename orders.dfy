/**
 * The customer's order history page: the tab filters, the return button
 * rule, the displayed status and amount, "buy again" merging an order back
 * into the stored cart, the search box and the product icons.
 */
module OrdersPage {
  import opened Wrappers
  import opened Text
  import opened Seqs
  import opened ClientCart
  import opened Time

  /** An order line as the order answer carries it. */
  datatype HistoryItem = HistoryItem(productId: int, productName: Option<string>, priceAtPurchase: real, quantity: int,
                                     returnStatus: Option<string>, returnRequestedAt: Option<int>)

  /** An order as the history answer carries it; `items` may be null. */
  datatype HistoryOrder = HistoryOrder(id: int, status: string, items: Option<seq<HistoryItem>>,
                                       deliveryAddress: Option<string>, total: Option<real>, subtotal: real, tax: real)

  // ---------------------------------------------------------------------------
  // Tabs.
  // ---------------------------------------------------------------------------

  /** Some line has a return status other than none (an empty or null status counts as none). */
  predicate HasReturn(o: HistoryOrder)
  {
    o.items.Some? && exists k :: 0 <= k < |o.items.value| && ReturnSet(o.items.value[k])
  }

  predicate ReturnSet(item: HistoryItem)
  {
    item.returnStatus.Some? && item.returnStatus.value != "" && item.returnStatus.value != "NONE"
  }

  /** Whether the tab `filter` lists the order; an unknown tab lists everything. */
  predicate OnTab(o: HistoryOrder, filter: string)
  {
    if filter == "delivered" then o.status == "DELIVERED"
    else if filter == "pending" then o.status in {"PLACED", "ASSIGNED", "PICKED_UP"}
    else if filter == "returns" then HasReturn(o)
    else true
  }

  /** `displayOrders`: the orders of the current tab, in the answer's order. */
  function TabOrders(orders: seq<HistoryOrder>, filter: string): (r: seq<HistoryOrder>)
    ensures |r| <= |orders|
    ensures forall k :: 0 <= k < |r| ==> r[k] in orders && OnTab(r[k], filter)
    ensures forall k :: 0 <= k < |orders| && OnTab(orders[k], filter) ==> orders[k] in r
    ensures IsSubseq(r, orders)
  {
    if orders == [] then []
    else if OnTab(orders[0], filter) then [orders[0]] + TabOrders(orders[1..], filter)
    else TabOrders(orders[1..], filter)
  }

  /** The "all" tab is the whole history, in order. */
  lemma {:induction false} AllTabIsEverything(orders: seq<HistoryOrder>)
    ensures TabOrders(orders, "all") == orders
  {
    if orders != [] {
      AllTabIsEverything(orders[1..]);
    }
  }

  /** The delivered and pending tabs never share an order; a paid-but-undelivered order is on neither. */
  lemma TabsDisjoint(o: HistoryOrder)
    ensures !(OnTab(o, "delivered") && OnTab(o, "pending"))
    ensures o.status == "PAYMENT_RECEIVED" ==> !OnTab(o, "delivered") && !OnTab(o, "pending")
  {
  }

  // ---------------------------------------------------------------------------
  // Order cards.
  // ---------------------------------------------------------------------------

  /**
   * `canReturn`: the line has no return yet, the order is delivered, and a
   * recorded request time, if any, is within the last seven days.
   */
  predicate CanReturn(item: HistoryItem, orderStatus: string, now: int)
  {
    var returnStatus := if item.returnStatus.None? || item.returnStatus.value == "" then "NONE" else item.returnStatus.value;
    var isDelivered := orderStatus == "DELIVERED";
    var withinPeriod := isDelivered && (item.returnRequestedAt.None? || item.returnRequestedAt.value > now - 7 * Day);
    returnStatus == "NONE" && isDelivered && withinPeriod
  }

  /** The button shows only for a delivered order's line with no return, and always for such a line never requested. */
  lemma ReturnButtonRule(item: HistoryItem, orderStatus: string, now: int)
    ensures CanReturn(item, orderStatus, now) ==> orderStatus == "DELIVERED" && !ReturnSet(item)
    ensures orderStatus == "DELIVERED" && !ReturnSet(item) && item.returnRequestedAt.None? ==> CanReturn(item, orderStatus, now)
  {
  }

  /** `statusDisplay`: the five known statuses get a label, any other is shown as it is. */
  function StatusLabel(status: string): (shown: string)
    ensures status !in {"PLACED", "ASSIGNED", "PICKED_UP", "DELIVERED", "CANCELLED"} ==> shown == status
    ensures status == "PLACED" ==> shown == "Order Placed"
    ensures status == "ASSIGNED" ==> shown == "Assigned to Delivery"
    ensures status == "PICKED_UP" ==> shown == "Picked Up"
    ensures status == "DELIVERED" ==> shown == "Delivered"
    ensures status == "CANCELLED" ==> shown == "Cancelled"
  {
    if status == "PLACED" then "Order Placed"
    else if status == "ASSIGNED" then "Assigned to Delivery"
    else if status == "PICKED_UP" then "Picked Up"
    else if status == "DELIVERED" then "Delivered"
    else if status == "CANCELLED" then "Cancelled"
    else status
  }

  /** `totalAmount`: the stored total unless it is null or zero, else subtotal plus tax. */
  function AmountShown(o: HistoryOrder): (a: real)
    ensures o.total.Some? && o.total.value != 0.0 ==> a == o.total.value
    ensures o.total.None? || o.total.value == 0.0 ==> a == o.subtotal + o.tax
  {
    if o.total.Some? && o.total.value != 0.0 then o.total.value else o.subtotal + o.tax
  }

  /** For an order whose total is its subtotal plus tax, as the server prices it, the fallback never changes the amount. */
  lemma AmountIsTotal(o: HistoryOrder)
    requires o.total == Some(o.subtotal + o.tax)
    ensures AmountShown(o) == o.total.value
  {
  }

  // ---------------------------------------------------------------------------
  // Buy again.
  // ---------------------------------------------------------------------------

  /**
   * One order line merged into the cart: its quantity is added to the
   * product's first line, or a new line is appended.  A line without a
   * product name gets `undefined` as the cart line's name on the page; the
   * model writes the empty string.
   */
  function MergeLine(cart: seq<CartItem>, item: HistoryItem): (r: seq<CartItem>)
    ensures FirstWith(cart, item.productId) >= 0 ==>
              var k := FirstWith(cart, item.productId);
              r == cart[k := cart[k].(quantity := cart[k].quantity + item.quantity)]
    ensures FirstWith(cart, item.productId) < 0 ==>
              r == cart + [CartItem(item.productId, item.productName.GetOr(""), item.priceAtPurchase, item.quantity, None)]
  {
    var k := FirstWith(cart, item.productId);
    if k >= 0 then cart[k := cart[k].(quantity := cart[k].quantity + item.quantity)]
    else cart + [CartItem(item.productId, item.productName.GetOr(""), item.priceAtPurchase, item.quantity, None)]
  }

  /** The lines merged one after another, in the order's order. */
  function MergeAll(cart: seq<CartItem>, items: seq<HistoryItem>): seq<CartItem>
  {
    if items == [] then cart else MergeLine(MergeAll(cart, items[..|items| - 1]), items[|items| - 1])
  }

  /** The quantity the order lines give one product. */
  function Ordered(items: seq<HistoryItem>, productId: int): int
  {
    if items == [] then 0
    else Ordered(items[..|items| - 1], productId) + (if items[|items| - 1].productId == productId then items[|items| - 1].quantity else 0)
  }

  /** The sum of the order lines' quantities. */
  function OrderedTotal(items: seq<HistoryItem>): int
  {
    if items == [] then 0 else OrderedTotal(items[..|items| - 1]) + items[|items| - 1].quantity
  }

  lemma {:induction false} QuantityOfUpdate(cart: seq<CartItem>, k: int, q: int, p: int)
    requires 0 <= k < |cart|
    ensures QuantityOf(cart[k := cart[k].(quantity := q)], p) ==
            QuantityOf(cart, p) + (if cart[k].productId == p then q - cart[k].quantity else 0)
  {
    var c' := cart[k := cart[k].(quantity := q)];
    if k > 0 {
      QuantityOfUpdate(cart[1..], k - 1, q, p);
      assert c'[1..] == cart[1..][k - 1 := cart[k].(quantity := q)];
    } else {
      assert c'[1..] == cart[1..];
    }
  }

  lemma {:induction false} QuantityOfAppend(cart: seq<CartItem>, x: CartItem, p: int)
    ensures QuantityOf(cart + [x], p) == QuantityOf(cart, p) + (if x.productId == p then x.quantity else 0)
  {
    if cart == [] {
      assert [] + [x] == [x];
      assert [x][1..] == [];
    } else {
      assert (cart + [x])[1..] == cart[1..] + [x];
      QuantityOfAppend(cart[1..], x, p);
    }
  }

  /** Merging one line adds its quantity to that product and to the count, and nothing to any other product. */
  lemma MergeLineAdds(cart: seq<CartItem>, item: HistoryItem, p: int)
    ensures QuantityOf(MergeLine(cart, item), p) == QuantityOf(cart, p) + (if item.productId == p then item.quantity else 0)
    ensures CartCount(MergeLine(cart, item)) == CartCount(cart) + item.quantity
  {
    var k := FirstWith(cart, item.productId);
    if k >= 0 {
      QuantityOfUpdate(cart, k, cart[k].quantity + item.quantity, p);
      CountUpdate(cart, k, cart[k].quantity + item.quantity);
    } else {
      var x := CartItem(item.productId, item.productName.GetOr(""), item.priceAtPurchase, item.quantity, None);
      QuantityOfAppend(cart, x, p);
      CountAppend(cart, x);
    }
  }

  /**
   * After "buy again" every product holds what it held plus what the order
   * had of it, and the badge grows by the order's whole quantity.
   */
  lemma {:induction false} MergeAllAdds(cart: seq<CartItem>, items: seq<HistoryItem>, p: int)
    ensures QuantityOf(MergeAll(cart, items), p) == QuantityOf(cart, p) + Ordered(items, p)
    ensures CartCount(MergeAll(cart, items)) == CartCount(cart) + OrderedTotal(items)
  {
    if items != [] {
      MergeAllAdds(cart, items[..|items| - 1], p);
      MergeLineAdds(MergeAll(cart, items[..|items| - 1]), items[|items| - 1], p);
    }
  }

  /** `reorder`'s loop over the order lines, on the stored cart it read. */
  method Reorder(stored: seq<CartItem>, items: seq<HistoryItem>) returns (cart: seq<CartItem>)
    ensures cart == MergeAll(stored, items)
    ensures CartCount(cart) == CartCount(stored) + OrderedTotal(items)
  {
    cart := stored;
    var i := 0;
    while i < |items|
      invariant 0 <= i <= |items|
      invariant cart == MergeAll(stored, items[..i])
    {
      assert items[..i + 1][..i] == items[..i];
      var k := FirstWith(cart, items[i].productId);
      if k >= 0 {
        cart := cart[k := cart[k].(quantity := cart[k].quantity + items[i].quantity)];
      } else {
        cart := cart + [CartItem(items[i].productId, items[i].productName.GetOr(""), items[i].priceAtPurchase, items[i].quantity, None)];
      }
      i := i + 1;
    }
    assert items[..|items|] == items;
    MergeAllAdds(stored, items, 0);
  }

  // ---------------------------------------------------------------------------
  // Search and icons.
  // ---------------------------------------------------------------------------

  /** The order's id, some line's product name, or its address contains the term. */
  predicate SearchHit(o: HistoryOrder, term: string)
  {
    || Contains(IntToString(o.id), term)
    || (o.items.Some? && exists k :: 0 <= k < |o.items.value| && Contains(Lower(o.items.value[k].productName.GetOr("")), term))
    || (o.deliveryAddress.Some? && o.deliveryAddress.value != "" && Contains(Lower(o.deliveryAddress.value), term))
  }

  function Hits(orders: seq<HistoryOrder>, term: string): (r: seq<HistoryOrder>)
    ensures |r| <= |orders|
    ensures forall k :: 0 <= k < |r| ==> r[k] in orders && SearchHit(r[k], term)
    ensures forall k :: 0 <= k < |orders| && SearchHit(orders[k], term) ==> orders[k] in r
    ensures IsSubseq(r, orders)
  {
    if orders == [] then []
    else if SearchHit(orders[0], term) then [orders[0]] + Hits(orders[1..], term)
    else Hits(orders[1..], term)
  }

  /**
   * `searchOrders`: the box is lower-cased, then trimmed; an empty term
   * shows the current tab again, any other searches the whole history.
   */
  function SearchOrders(orders: seq<HistoryOrder>, input: string, tab: string): (r: seq<HistoryOrder>)
    ensures JsTrim(Lower(input)) == "" ==> r == TabOrders(orders, tab)
    ensures JsTrim(Lower(input)) != "" ==> r == Hits(orders, JsTrim(Lower(input)))
  {
    var term := JsTrim(Lower(input));
    if term == "" then TabOrders(orders, tab) else Hits(orders, term)
  }

  /** The number of an order finds it, whatever tab is open. */
  lemma SearchByNumber(orders: seq<HistoryOrder>, k: int, tab: string)
    requires 0 <= k < |orders|
    ensures orders[k] in SearchOrders(orders, IntToString(orders[k].id), tab)
  {
    var digits := IntToString(orders[k].id);
    var term := JsTrim(Lower(digits));
    assert Lower(digits) == digits by { LowerOfNumber(orders[k].id); }
    assert term == digits by {
      assert digits != [] && !IsJsSpace(digits[0]) && !IsJsSpace(digits[|digits| - 1]) by { NumberCharacters(orders[k].id); }
      TrimStartFixed(digits, IsJsSpace);
      TrimEndFixed(digits, IsJsSpace);
    }
    assert BlockAt(digits, digits, 0);
    assert SearchHit(orders[k], term);
  }

  /** The decimal text of a number is digits with at most a leading minus. */
  lemma NumberCharacters(n: int)
    ensures var s := IntToString(n);
            s != [] && forall i :: 0 <= i < |s| ==> IsDigit(s[i]) || s[i] == '-'
  {
  }

  /** Lower-casing a number's text changes nothing. */
  lemma LowerOfNumber(n: int)
    ensures Lower(IntToString(n)) == IntToString(n)
  {
    NumberCharacters(n);
    var s := IntToString(n);
    assert forall i :: 0 <= i < |s| ==> LowerChar(s[i]) == s[i];
  }

  const BoxIcon: string := "fas fa-box"

  /** The keyword groups of `getProductIcon`, in the order they are tried, with their icons. */
  const IconGroups: seq<(seq<string>, string)> := [
    (["rice", "dal", "daal", "grain"], "fas fa-seedling"),
    (["oil", "ghee"], "fas fa-oil-can"),
    (["spice", "masala"], "fas fa-mortar-pestle"),
    (["noodle", "snack"], "fas fa-cookie-bite"),
    (["dairy", "milk", "cheese"], "fas fa-cheese"),
    (["fruit", "apple", "banana"], "fas fa-apple-alt"),
    (["beverage", "drink", "cola"], "fas fa-wine-bottle")]

  predicate AnyWord(name: string, words: seq<string>)
  {
    exists w :: w in words && Contains(name, w)
  }

  /**
   * `getProductIcon`: the icon of the first group with a keyword in the
   * lower-cased name, else the box.
   */
  function IconIn(groups: seq<(seq<string>, string)>, name: string): (r: string)
    ensures (forall g :: 0 <= g < |groups| ==> !AnyWord(name, groups[g].0)) ==> r == BoxIcon
    ensures forall g :: 0 <= g < |groups| && AnyWord(name, groups[g].0) && (forall h :: 0 <= h < g ==> !AnyWord(name, groups[h].0)) ==>
              r == groups[g].1
  {
    if groups == [] then BoxIcon
    else if AnyWord(name, groups[0].0) then groups[0].1
    else
      assert forall g :: 1 <= g < |groups| ==> groups[g] == groups[1..][g - 1];
      IconIn(groups[1..], name)
  }

  function ProductIcon(productName: string): string
  {
    IconIn(IconGroups, Lower(productName))
  }

  /** A name with "rice" in it is a seedling even when it has "oil" too: the rice group is tried first. */
  lemma RiceBeforeOil(name: string)
    requires Contains(Lower(name), "rice")
    ensures ProductIcon(name) == "fas fa-seedling"
  {
    assert "rice" in IconGroups[0].0;
    assert AnyWord(Lower(name), IconGroups[0].0);
  }
}
