/**
 * The administrator endpoints: return processing, the order lists and
 * dashboard figures, user statistics, top products, notifications, the
 * image file name cleaner, and user maintenance.
 */
module AdminController {
  import opened Wrappers
  import opened Text
  import opened Statuses
  import opened UserEntity
  import opened OrderEntity
  import opened Records
  import opened Database
  import opened Seqs
  import opened UserRepository

  // ---------------------------------------------------------------------------
  // Returns.
  // ---------------------------------------------------------------------------

  /** The three words `processReturn` accepts; a missing action is not one of them. */
  predicate ValidAction(action: Option<string>)
  {
    action == Some("APPROVED") || action == Some("REJECTED") || action == Some("REFUNDED")
  }

  /**
   * `processReturn`: whatever the item's current return status, an accepted
   * action becomes its return status, stamped with the time; REFUNDED also
   * marks the order's payment REFUNDED.
   */
  method ProcessReturn(db: Db, id: int, action: Option<string>, now: int) returns (r: Result<(), Rejection>)
    requires db.ItemIds()
    modifies db`items, db.ItemOrderAt(id)`paymentStatus
    ensures db.ItemIds() && |db.items| == |old(db.items)|
    ensures old(db.ItemById(id)).None? ==> r == Err(Rejection(NotFound, "Return not found")) && db.items == old(db.items)
    ensures old(db.ItemById(id)).Some? && !ValidAction(action) ==>
              r == Err(Rejection(BadRequest, "Invalid action")) && db.items == old(db.items)
              && unchanged(old(db.ItemById(id)).value.order)
    ensures old(db.ItemById(id)).Some? && ValidAction(action) ==>
              var it := old(db.ItemById(id)).value;
              && r == Ok(())
              && db.items == old(db.items)[id - 1 := it.(returnStatus := ParseReturnStatus(action.value),
                                                          returnProcessedAt := Some(now))]
              && db.items[id - 1].returnStatus.Name() == action.value
              && it.order.paymentStatus == (if action == Some("REFUNDED") then PaymentRefunded else old(it.order.paymentStatus))
  {
    var found := db.ItemById(id);
    if found.None? {
      return Err(Rejection(NotFound, "Return not found"));
    }
    if !ValidAction(action) {
      return Err(Rejection(BadRequest, "Invalid action"));
    }
    var item := found.value;
    db.items := db.items[id - 1 := item.(returnStatus := ParseReturnStatus(action.value), returnProcessedAt := Some(now))];
    if action == Some("REFUNDED") {
      item.order.paymentStatus := PaymentRefunded;
    }
    r := Ok(());
  }

  // ---------------------------------------------------------------------------
  // Order lists.
  // ---------------------------------------------------------------------------

  /** Waiting for a partner: nobody assigned, and neither delivered nor cancelled. */
  predicate Unassigned(o: Order)
    reads o
  {
    o.deliveryPerson == null && o.status.Name() != "DELIVERED" && o.status.Name() != "CANCELLED"
  }

  /** With a partner and not yet delivered (a cancelled order with a partner counts). */
  predicate InDelivery(o: Order)
    reads o
  {
    o.deliveryPerson != null && o.status.Name() != "DELIVERED"
  }

  /** `getUnassignedOrders`. */
  function UnassignedOrders(orders: seq<Order>): (r: seq<Order>)
    reads orders
    ensures forall k :: 0 <= k < |r| ==> r[k] in orders && Unassigned(r[k])
    ensures forall k :: 0 <= k < |orders| && Unassigned(orders[k]) ==> orders[k] in r
    ensures IsSubseq(r, orders)
  {
    if orders == [] then []
    else if Unassigned(orders[0]) then [orders[0]] + UnassignedOrders(orders[1..])
    else UnassignedOrders(orders[1..])
  }

  /** `getAssignedOrders`. */
  function AssignedOrders(orders: seq<Order>): (r: seq<Order>)
    reads orders
    ensures forall k :: 0 <= k < |r| ==> r[k] in orders && InDelivery(r[k])
    ensures forall k :: 0 <= k < |orders| && InDelivery(orders[k]) ==> orders[k] in r
    ensures IsSubseq(r, orders)
  {
    if orders == [] then []
    else if InDelivery(orders[0]) then [orders[0]] + AssignedOrders(orders[1..])
    else AssignedOrders(orders[1..])
  }

  /**
   * No order is on both lists, and an order that is neither delivered nor
   * cancelled is on exactly one of them.
   */
  lemma ListsPartitionOpenOrders(o: Order)
    ensures !(Unassigned(o) && InDelivery(o))
    ensures o.status.Name() != "DELIVERED" && o.status.Name() != "CANCELLED" ==> Unassigned(o) || InDelivery(o)
  {
  }

  /** What assignment leaves behind (a partner and ASSIGNED) puts an order on the assigned list only. */
  lemma AssignmentMovesOrder(o: Order)
    requires o.deliveryPerson != null && o.status == Assigned
    ensures InDelivery(o) && !Unassigned(o)
  {
  }

  // ---------------------------------------------------------------------------
  // Dashboard figures.
  // ---------------------------------------------------------------------------

  /** The sum of the order totals. */
  function Revenue(orders: seq<Order>): real
    reads orders
  {
    if orders == [] then 0.0 else Revenue(orders[..|orders| - 1]) + orders[|orders| - 1].total
  }

  /** Revenue is additive over any split of the order table. */
  lemma {:induction false} RevenueAppend(a: seq<Order>, b: seq<Order>)
    ensures Revenue(a + b) == Revenue(a) + Revenue(b)
    decreases |b|
  {
    if b == [] {
      assert a + b == a;
    } else {
      assert (a + b)[..|a + b| - 1] == a + b[..|b| - 1];
      RevenueAppend(a, b[..|b| - 1]);
    }
  }

  /** With no negative total on the table, revenue is not negative and covers each single order. */
  lemma {:induction false} RevenueCoversEachOrder(orders: seq<Order>)
    requires forall k :: 0 <= k < |orders| ==> orders[k].total >= 0.0
    ensures Revenue(orders) >= 0.0
    ensures forall k :: 0 <= k < |orders| ==> Revenue(orders) >= orders[k].total
  {
    if orders != [] {
      RevenueCoversEachOrder(orders[..|orders| - 1]);
    }
  }

  /** How many item rows carry exactly this return status word. */
  function CountReturnStatus(items: seq<OrderItem>, word: string): (n: nat)
    ensures n <= |items|
  {
    if items == [] then 0
    else (if items[0].returnStatus.Name() == word then 1 else 0) + CountReturnStatus(items[1..], word)
  }

  datatype DashboardStats = DashboardStats(totalRevenue: real, totalOrders: nat, totalCustomers: nat, pendingReturns: nat)

  /** `getDashboardStats`, without the figures of the current day and the fixed growth numbers. */
  function GetDashboardStats(db: Db): (s: DashboardStats)
    reads db`orders, db.orders, db`users, db.users, db`items
    ensures s.totalRevenue == Revenue(db.orders) && s.totalOrders == |db.orders|
    ensures s.totalCustomers == |FindByRole(db.users, Customer)|
    ensures s.pendingReturns == CountReturnStatus(db.items, "REQUESTED") <= |db.items|
  {
    CountIsListSize(db.users, Customer);
    DashboardStats(Revenue(db.orders), |db.orders|, CountByRole(db.users, Customer),
                   CountReturnStatus(db.items, "REQUESTED"))
  }

  /** How many orders carry exactly this status word. */
  function CountStatus(orders: seq<Order>, word: string): (n: nat)
    reads orders
    ensures n <= |orders|
  {
    if orders == [] then 0
    else (if orders[0].status.Name() == word then 1 else 0) + CountStatus(orders[1..], word)
  }

  /** The chart labels, in the order the chart shows them. */
  const StatusLabels: seq<string> := ["PLACED", "ASSIGNED", "PICKED_UP", "DELIVERED", "CANCELLED"]

  /** `getOrdersByStatus`: one count per label, in label order. */
  function OrdersByStatus(orders: seq<Order>): (counts: seq<nat>)
    reads orders
    ensures |counts| == |StatusLabels|
    ensures forall i :: 0 <= i < |StatusLabels| ==> counts[i] == CountStatus(orders, StatusLabels[i])
  {
    seq(|StatusLabels|, i requires 0 <= i < |StatusLabels| reads orders => CountStatus(orders, StatusLabels[i]))
  }

  /**
   * The five counts never add up to more than the orders there are: each
   * order has one status; PAYMENT_RECEIVED and unknown words are not shown.
   */
  lemma {:induction false} StatusCountsWithinTotal(orders: seq<Order>)
    ensures CountStatus(orders, "PLACED") + CountStatus(orders, "ASSIGNED") + CountStatus(orders, "PICKED_UP")
            + CountStatus(orders, "DELIVERED") + CountStatus(orders, "CANCELLED") <= |orders|
  {
    if orders != [] {
      StatusCountsWithinTotal(orders[1..]);
    }
  }

  // ---------------------------------------------------------------------------
  // User statistics.
  // ---------------------------------------------------------------------------

  /** The role counts of the users, keyed by role word, as the loop builds them one user at a time. */
  function RoleCounts(users: seq<User>): map<string, nat>
    reads users
  {
    if users == [] then map[]
    else
      var m := RoleCounts(users[..|users| - 1]);
      var w := users[|users| - 1].role.Name();
      m[w := (if w in m then m[w] else 0) + 1]
  }

  /** The sum of a count map's values. */
  ghost function Total(m: map<string, nat>): nat
    decreases |m|
  {
    if m == map[] then 0
    else
      var k :| k in m;
      m[k] + Total(m - {k})
  }

  /** Any key may be taken out first: the sum does not depend on the order of the keys. */
  lemma {:induction false} TotalRemove(m: map<string, nat>, k: string)
    requires k in m
    ensures Total(m) == m[k] + Total(m - {k})
    decreases |m|
  {
    var j :| j in m && Total(m) == m[j] + Total(m - {j});
    if j != k {
      assert |m - {j}| < |m| && |m - {k}| < |m| by {
        assert m.Keys - {j} < m.Keys && (m - {j}).Keys == m.Keys - {j};
        assert m.Keys - {k} < m.Keys && (m - {k}).Keys == m.Keys - {k};
      }
      TotalRemove(m - {j}, k);
      TotalRemove(m - {k}, j);
      assert m - {j} - {k} == m - {k} - {j};
    }
  }

  /** Counting one more under a key adds one to the sum. */
  lemma TotalBump(m: map<string, nat>, w: string)
    ensures Total(m[w := (if w in m then m[w] else 0) + 1]) == Total(m) + 1
  {
    var m' := m[w := (if w in m then m[w] else 0) + 1];
    TotalRemove(m', w);
    if w in m {
      TotalRemove(m, w);
      assert m' - {w} == m - {w};
    } else {
      assert m' - {w} == m;
    }
  }

  /** In `getUserStats` the per-role counts add up to the number of users. */
  lemma {:induction false} RoleCountsSumToTotal(users: seq<User>)
    ensures Total(RoleCounts(users)) == |users|
  {
    if users != [] {
      RoleCountsSumToTotal(users[..|users| - 1]);
      TotalBump(RoleCounts(users[..|users| - 1]), users[|users| - 1].role.Name());
    }
  }

  /** Each role's count is the size of the role query for that role. */
  lemma {:induction false} RoleCountIsRoleQuery(users: seq<User>, w: string)
    ensures (if w in RoleCounts(users) then RoleCounts(users)[w] else 0) == CountName(users, w)
  {
    if users != [] {
      RoleCountIsRoleQuery(users[..|users| - 1], w);
      CountNameSnoc(users[..|users| - 1], users[|users| - 1], w);
      assert users[..|users| - 1] + [users[|users| - 1]] == users;
    }
  }

  /** How many users carry this role word. */
  function CountName(users: seq<User>, w: string): nat
    reads users
  {
    if users == [] then 0 else (if users[0].role.Name() == w then 1 else 0) + CountName(users[1..], w)
  }

  lemma {:induction false} CountNameSnoc(users: seq<User>, u: User, w: string)
    ensures CountName(users + [u], w) == CountName(users, w) + (if u.role.Name() == w then 1 else 0)
  {
    if users == [] {
      assert [] + [u] == [u];
    } else {
      assert (users + [u])[1..] == users[1..] + [u];
      CountNameSnoc(users[1..], u, w);
    }
  }

  /** `getUserStats`: the loop filling the role map, and the user count. */
  method GetUserStats(users: seq<User>) returns (byRole: map<string, nat>, total: nat)
    ensures byRole == RoleCounts(users) && total == |users|
    ensures Total(byRole) == total
  {
    byRole := map[];
    var k := 0;
    while k < |users|
      invariant 0 <= k <= |users|
      invariant byRole == RoleCounts(users[..k])
    {
      var w := users[k].role.Name();
      assert users[..k + 1][..k] == users[..k];
      byRole := byRole[w := (if w in byRole then byRole[w] else 0) + 1];
      k := k + 1;
    }
    assert users[..k] == users;
    total := |users|;
    RoleCountsSumToTotal(users);
  }

  // ---------------------------------------------------------------------------
  // Top products.
  // ---------------------------------------------------------------------------

  /** A product and the quantity sold of it over all item rows. */
  datatype Sales = Sales(productId: int, salesCount: int)

  /** One item row counted into the tally: its product's entry grows, or a new entry is appended. */
  function AddSale(tally: seq<Sales>, productId: int, quantity: int): (t: seq<Sales>)
  {
    if tally == [] then [Sales(productId, quantity)]
    else if tally[0].productId == productId then [tally[0].(salesCount := tally[0].salesCount + quantity)] + tally[1..]
    else [tally[0]] + AddSale(tally[1..], productId, quantity)
  }

  /** The tally after counting every item row, in first-sale order (the map the loop fills). */
  function Tally(items: seq<OrderItem>): seq<Sales>
  {
    if items == [] then []
    else
      var last := items[|items| - 1];
      AddSale(Tally(items[..|items| - 1]), last.productId, last.quantity)
  }

  /** The quantity of one product over the item rows. */
  function QuantitySold(items: seq<OrderItem>, productId: int): int
  {
    if items == [] then 0
    else QuantitySold(items[..|items| - 1], productId)
         + (if items[|items| - 1].productId == productId then items[|items| - 1].quantity else 0)
  }

  /** Some item row is for this product. */
  predicate Sold(items: seq<OrderItem>, productId: int)
  {
    exists k :: 0 <= k < |items| && items[k].productId == productId
  }

  /** One entry per product id. */
  predicate DistinctIds(t: seq<Sales>)
  {
    forall i, j :: 0 <= i < j < |t| ==> t[i].productId != t[j].productId
  }

  /** Whether a product id has an entry. */
  predicate HasEntry(t: seq<Sales>, productId: int)
  {
    exists i :: 0 <= i < |t| && t[i].productId == productId
  }

  /** No entry has this product id. */
  predicate NotListed(t: seq<Sales>, productId: int)
  {
    forall i :: 0 <= i < |t| ==> t[i].productId != productId
  }

  /** `t` tallies `items`: one entry per sold product and none other, each with its total quantity. */
  ghost predicate Tallies(t: seq<Sales>, items: seq<OrderItem>)
  {
    && DistinctIds(t)
    && (forall i :: 0 <= i < |t| ==> t[i].salesCount == QuantitySold(items, t[i].productId))
    && (forall p :: HasEntry(t, p) <==> Sold(items, p))
  }

  /** Counting a sale bumps the one entry of its product, or appends a new entry when there is none. */
  lemma {:induction false} AddSaleShape(t: seq<Sales>, p: int, q: int)
    requires DistinctIds(t)
    ensures HasEntry(t, p) ==>
              |AddSale(t, p, q)| == |t|
              && forall i :: 0 <= i < |t| ==>
                   AddSale(t, p, q)[i] == (if t[i].productId == p then t[i].(salesCount := t[i].salesCount + q) else t[i])
    ensures !HasEntry(t, p) ==> AddSale(t, p, q) == t + [Sales(p, q)]
  {
    if t != [] && t[0].productId != p {
      var tail := t[1..];
      TailFacts(t, p);
      AddSaleShape(tail, p, q);
      assert AddSale(t, p, q) == [t[0]] + AddSale(tail, p, q);
      if !HasEntry(t, p) {
        assert t == [t[0]] + tail;
      }
    } else if t != [] {
      assert HasEntry(t, p) by { assert t[0].productId == p; }
    }
  }

  /** What the tail of a tally inherits from the whole. */
  lemma TailFacts(t: seq<Sales>, p: int)
    requires t != []
    ensures DistinctIds(t) ==> DistinctIds(t[1..]) && NotListed(t[1..], t[0].productId)
    ensures NotListed(t, p) ==> NotListed(t[1..], p)
    ensures t[0].productId != p ==> (HasEntry(t, p) <==> HasEntry(t[1..], p))
  {
    var tail := t[1..];
    assert forall i :: 0 <= i < |tail| ==> tail[i] == t[i + 1];
    if t[0].productId != p && HasEntry(t, p) {
      var i :| 0 <= i < |t| && t[i].productId == p;
      assert tail[i - 1].productId == p;
    }
  }

  lemma SoldSnoc(items: seq<OrderItem>, p: int)
    requires items != []
    ensures Sold(items, p) <==> Sold(items[..|items| - 1], p) || items[|items| - 1].productId == p
  {
    var front := items[..|items| - 1];
    if Sold(items, p) && items[|items| - 1].productId != p {
      var k :| 0 <= k < |items| && items[k].productId == p;
      assert front[k].productId == p;
    }
    if Sold(front, p) {
      var k :| 0 <= k < |front| && front[k].productId == p;
      assert items[k].productId == p;
    }
  }

  /** A product no row sold has quantity zero. */
  lemma {:induction false} NoSaleNoQuantity(items: seq<OrderItem>, p: int)
    requires !Sold(items, p)
    ensures QuantitySold(items, p) == 0
  {
    if items != [] {
      SoldSnoc(items, p);
      NoSaleNoQuantity(items[..|items| - 1], p);
    }
  }

  /** The tally of `getTopProducts`: one entry per sold product, each with its total quantity. */
  lemma {:induction false} TallyCounts(items: seq<OrderItem>)
    ensures Tallies(Tally(items), items)
  {
    if items != [] {
      var front := items[..|items| - 1];
      var last := items[|items| - 1];
      TallyCounts(front);
      var t0 := Tally(front);
      AddSaleShape(t0, last.productId, last.quantity);
      forall x ensures Sold(items, x) <==> Sold(front, x) || last.productId == x {
        SoldSnoc(items, x);
      }
      if HasEntry(t0, last.productId) {
        BumpTallies(items, t0);
      } else {
        NoSaleNoQuantity(front, last.productId);
        AppendTallies(items, t0);
      }
    }
  }

  lemma BumpTallies(items: seq<OrderItem>, t0: seq<Sales>)
    requires items != [] && Tallies(t0, items[..|items| - 1])
    requires var last := items[|items| - 1]; HasEntry(t0, last.productId)
    requires var last := items[|items| - 1];
             |AddSale(t0, last.productId, last.quantity)| == |t0|
             && forall i :: 0 <= i < |t0| ==>
                  AddSale(t0, last.productId, last.quantity)[i]
                  == (if t0[i].productId == last.productId then t0[i].(salesCount := t0[i].salesCount + last.quantity) else t0[i])
    requires forall x :: Sold(items, x) <==> Sold(items[..|items| - 1], x) || items[|items| - 1].productId == x
    ensures var last := items[|items| - 1]; Tallies(AddSale(t0, last.productId, last.quantity), items)
  {
    var last := items[|items| - 1];
    var t := AddSale(t0, last.productId, last.quantity);
    assert forall i :: 0 <= i < |t| ==> t[i].productId == t0[i].productId;
    forall x ensures HasEntry(t, x) <==> HasEntry(t0, x) {
      if HasEntry(t, x) { var i :| 0 <= i < |t| && t[i].productId == x; assert t0[i].productId == x; }
      if HasEntry(t0, x) { var i :| 0 <= i < |t0| && t0[i].productId == x; assert t[i].productId == x; }
    }
  }

  lemma AppendTallies(items: seq<OrderItem>, t0: seq<Sales>)
    requires items != [] && Tallies(t0, items[..|items| - 1])
    requires var last := items[|items| - 1];
             !HasEntry(t0, last.productId) && QuantitySold(items[..|items| - 1], last.productId) == 0
             && AddSale(t0, last.productId, last.quantity) == t0 + [Sales(last.productId, last.quantity)]
    requires forall x :: Sold(items, x) <==> Sold(items[..|items| - 1], x) || items[|items| - 1].productId == x
    ensures var last := items[|items| - 1]; Tallies(AddSale(t0, last.productId, last.quantity), items)
  {
    var last := items[|items| - 1];
    var t := t0 + [Sales(last.productId, last.quantity)];
    forall x ensures HasEntry(t, x) <==> HasEntry(t0, x) || x == last.productId {
      if HasEntry(t, x) && x != last.productId {
        var i :| 0 <= i < |t| && t[i].productId == x;
        assert t0[i].productId == x;
      }
      if HasEntry(t0, x) { var i :| 0 <= i < |t0| && t0[i].productId == x; assert t[i].productId == x; }
      if x == last.productId { assert t[|t0|].productId == x; }
    }
  }

  /** Non-increasing by sales count. */
  predicate SortedDesc(s: seq<Sales>)
  {
    forall i, j :: 0 <= i < j < |s| ==> s[i].salesCount >= s[j].salesCount
  }

  /** Puts `x` before the first entry it does not sell fewer than. */
  function Insert(x: Sales, s: seq<Sales>): (r: seq<Sales>)
    ensures |r| == |s| + 1 && multiset(r) == multiset(s) + multiset{x}
    ensures r[0] == x || (s != [] && r[0] == s[0])
  {
    if s == [] then [x]
    else if x.salesCount >= s[0].salesCount then [x] + s
    else
      assert multiset(s) == multiset{s[0]} + multiset(s[1..]) by { assert s == [s[0]] + s[1..]; }
      [s[0]] + Insert(x, s[1..])
  }

  lemma {:induction false} InsertSorted(x: Sales, s: seq<Sales>)
    requires SortedDesc(s)
    ensures SortedDesc(Insert(x, s))
  {
    if s != [] && x.salesCount < s[0].salesCount {
      var rest := Insert(x, s[1..]);
      InsertSorted(x, s[1..]);
      assert rest[0].salesCount <= s[0].salesCount;
      assert Insert(x, s) == [s[0]] + rest;
    }
  }

  lemma {:induction false} InsertListed(x: Sales, s: seq<Sales>)
    ensures DistinctIds(s) && NotListed(s, x.productId) ==> DistinctIds(Insert(x, s))
    ensures forall p :: NotListed(s, p) && p != x.productId ==> NotListed(Insert(x, s), p)
  {
    if s != [] && x.salesCount < s[0].salesCount {
      var tail := s[1..];
      InsertListed(x, tail);
      var rest := Insert(x, tail);
      assert Insert(x, s) == [s[0]] + rest;
      forall p | NotListed(s, p) ensures NotListed(tail, p) {
        TailFacts(s, p);
      }
      TailFacts(s, x.productId);
    }
  }

  /** The stream sort of `getTopProducts`: by sales count, largest first. */
  function SortByCount(s: seq<Sales>): (r: seq<Sales>)
    ensures |r| == |s| && multiset(r) == multiset(s) && SortedDesc(r)
  {
    if s == [] then []
    else
      var rest := SortByCount(s[1..]);
      assert multiset(s) == multiset{s[0]} + multiset(s[1..]) by { assert s == [s[0]] + s[1..]; }
      InsertSorted(s[0], rest);
      Insert(s[0], rest)
  }

  /** Sorting keeps one entry per product and lists no product that was not there. */
  lemma {:induction false} SortKeepsIds(s: seq<Sales>)
    ensures DistinctIds(s) ==> DistinctIds(SortByCount(s))
    ensures forall p :: NotListed(s, p) ==> NotListed(SortByCount(s), p)
  {
    if s != [] {
      var tail := s[1..];
      SortKeepsIds(tail);
      InsertListed(s[0], SortByCount(tail));
      assert forall i :: 0 <= i < |tail| ==> tail[i] == s[i + 1];
    }
  }

  /** A reordering of a tally with one entry per product is a tally of the same rows. */
  lemma PermutedTallies(t: seq<Sales>, s: seq<Sales>, items: seq<OrderItem>)
    requires Tallies(t, items) && multiset(s) == multiset(t) && DistinctIds(s)
    ensures Tallies(s, items)
  {
    forall i | 0 <= i < |s| ensures s[i].salesCount == QuantitySold(items, s[i].productId) && HasEntry(t, s[i].productId) {
      assert s[i] in multiset(t) by { assert s[i] in multiset(s); }
      var j :| 0 <= j < |t| && t[j] == s[i];
    }
    forall p | HasEntry(t, p) ensures HasEntry(s, p) {
      var j :| 0 <= j < |t| && t[j].productId == p;
      assert t[j] in multiset(s) by { assert t[j] in multiset(t); }
      var i :| 0 <= i < |s| && s[i] == t[j];
    }
  }

  /** The number of entries `getTopProducts` keeps: `limit`, or all when there are fewer. */
  function Kept(n: int, limit: nat): (m: nat)
    ensures m <= limit && (n >= 0 ==> m <= n)
    ensures n >= 0 ==> m == (if limit < n then limit else n)
  {
    if n < 0 then 0 else if limit < n then limit else n
  }

  /**
   * `getTopProducts`: the loop tallies the quantities per product, then the
   * tally is sorted by count, largest first, and cut to `limit` entries.  A
   * negative limit makes the stream's `limit` throw.
   */
  method GetTopProducts(items: seq<OrderItem>, limit: int) returns (r: Result<seq<Sales>, Rejection>)
    ensures limit < 0 ==> r == Err(Rejection(InternalError, "Internal Server Error"))
    ensures limit >= 0 ==> r.Ok? && r.value == SortByCount(Tally(items))[..Kept(|Tally(items)|, limit)]
  {
    var tally: seq<Sales> := [];
    var k := 0;
    while k < |items|
      invariant 0 <= k <= |items|
      invariant tally == Tally(items[..k])
    {
      assert items[..k + 1][..k] == items[..k];
      tally := AddSale(tally, items[k].productId, items[k].quantity);
      k := k + 1;
    }
    assert items[..k] == items;
    if limit < 0 {
      return Err(Rejection(InternalError, "Internal Server Error"));
    }
    var sorted := SortByCount(tally);
    r := Ok(sorted[..Kept(|sorted|, limit)]);
  }

  /**
   * What the top-products list means: at most `limit` entries, largest
   * first, one per product, only sold products, each with its total
   * quantity; every sold product left off sold no more than any listed one,
   * and when fewer than `limit` are listed, none is left off.
   */
  lemma TopProductsMeaning(items: seq<OrderItem>, limit: nat)
    ensures var all := SortByCount(Tally(items));
            var top := all[..Kept(|all|, limit)];
            && |top| <= limit && SortedDesc(top) && DistinctIds(top)
            && (forall i :: 0 <= i < |top| ==>
                  Sold(items, top[i].productId) && top[i].salesCount == QuantitySold(items, top[i].productId))
            && (forall p :: Sold(items, p) && !HasEntry(top, p) ==>
                  |top| == limit && forall i :: 0 <= i < |top| ==> top[i].salesCount >= QuantitySold(items, p))
  {
    var t := Tally(items);
    TallyCounts(items);
    var all := SortByCount(t);
    SortKeepsIds(t);
    PermutedTallies(t, all, items);
    RankingPrefix(all, items, Kept(|all|, limit));
  }

  /** Any prefix of a ranked tally lists its best sellers. */
  lemma RankingPrefix(all: seq<Sales>, items: seq<OrderItem>, m: nat)
    requires Tallies(all, items) && SortedDesc(all) && m <= |all|
    ensures var top := all[..m];
            && SortedDesc(top) && DistinctIds(top)
            && (forall i :: 0 <= i < m ==>
                  Sold(items, top[i].productId) && top[i].salesCount == QuantitySold(items, top[i].productId))
            && (forall p :: Sold(items, p) && !HasEntry(top, p) ==>
                  m < |all| && forall i :: 0 <= i < m ==> top[i].salesCount >= QuantitySold(items, p))
  {
    var top := all[..m];
    assert forall i :: 0 <= i < m ==> top[i] == all[i];
    assert forall i :: 0 <= i < m ==> HasEntry(all, top[i].productId);
    forall p | Sold(items, p) && !HasEntry(top, p)
      ensures m < |all| && forall i :: 0 <= i < m ==> top[i].salesCount >= QuantitySold(items, p)
    {
      var j :| 0 <= j < |all| && all[j].productId == p;
    }
  }

  // ---------------------------------------------------------------------------
  // Notifications.
  // ---------------------------------------------------------------------------

  datatype NotificationRequest = NotificationRequest(title: Option<string>, message: Option<string>,
                                                     notificationType: Option<string>, targetAudience: Option<string>,
                                                     scheduledFor: Option<int>)

  /** SCHEDULED exactly when a send time is given and it is still ahead. */
  function StatusFor(scheduledFor: Option<int>, now: int): (s: NotificationStatus)
    ensures s == Scheduled <==> scheduledFor.Some? && scheduledFor.value > now
  {
    if scheduledFor.Some? && scheduledFor.value > now then Scheduled else Sent
  }

  /** The notification row `sendNotification` saves under `id`. */
  function NewNotification(id: int, req: NotificationRequest, now: int): Notification
  {
    Notification(id, req.title, req.message, req.notificationType, req.targetAudience, req.scheduledFor, now,
                 StatusFor(req.scheduledFor, now))
  }

  /** `getTargetUsers`: customers, partners, or everybody (ALL and any other word). */
  function TargetUsers(users: seq<User>, audience: string): (r: seq<User>)
    reads users
    ensures audience == "CUSTOMERS" ==> r == FindByRole(users, Customer)
    ensures audience == "DELIVERY" ==> r == FindByRole(users, Delivery)
    ensures audience != "CUSTOMERS" && audience != "DELIVERY" ==> r == users
    ensures IsSubseq(r, users)
  {
    SubseqRefl(users);
    if audience == "CUSTOMERS" then FindByRole(users, Customer)
    else if audience == "DELIVERY" then FindByRole(users, Delivery)
    else users
  }

  /** The log rows for the targets, one each, in target order, numbered from `firstId`. */
  function LogsFor(targets: seq<User>, notificationId: int, firstId: int, now: int): (r: seq<NotificationLog>)
    ensures |r| == |targets|
    ensures forall j :: 0 <= j < |r| ==> r[j] == NotificationLog(firstId + j, notificationId, targets[j].id, now)
  {
    if targets == [] then []
    else LogsFor(targets[..|targets| - 1], notificationId, firstId, now)
         + [NotificationLog(firstId + |targets| - 1, notificationId, targets[|targets| - 1].id, now)]
  }

  /** The loop of `sendNotification` that saves one log row per target. */
  method AppendLogs(logs0: seq<NotificationLog>, targets: seq<User>, notificationId: int, now: int)
    returns (logs: seq<NotificationLog>)
    requires forall k :: 0 <= k < |logs0| ==> logs0[k].id == k + 1
    ensures logs == logs0 + LogsFor(targets, notificationId, |logs0| + 1, now)
    ensures forall k :: 0 <= k < |logs| ==> logs[k].id == k + 1
  {
    logs := logs0;
    var k := 0;
    while k < |targets|
      invariant 0 <= k <= |targets|
      invariant logs == logs0 + LogsFor(targets[..k], notificationId, |logs0| + 1, now)
    {
      assert targets[..k + 1][..k] == targets[..k];
      logs := logs + [NotificationLog(|logs| + 1, notificationId, targets[k].id, now)];
      k := k + 1;
    }
    assert targets[..k] == targets;
  }

  /**
   * `sendNotification`.  The notification is saved first.  A SENT one then
   * gets one log row per target user; a missing audience makes the switch
   * over it throw, after the notification row was written.
   */
  method SendNotification(db: Db, req: NotificationRequest, now: int) returns (r: Result<Notification, Rejection>)
    requires db.NotificationIds() && db.LogIds()
    modifies db`notifications, db`logs
    ensures db.NotificationIds() && db.LogIds()
    ensures var n := NewNotification(|old(db.notifications)| + 1, req, now);
            && db.notifications == old(db.notifications) + [n]
            && (n.status == Scheduled ==> r == Ok(n) && db.logs == old(db.logs))
            && (n.status == Sent && req.targetAudience.None? ==>
                  r == Err(Rejection(InternalError, "Internal Server Error")) && db.logs == old(db.logs))
            && (n.status == Sent && req.targetAudience.Some? ==>
                  r == Ok(n)
                  && db.logs == old(db.logs) + LogsFor(old(TargetUsers(db.users, req.targetAudience.value)), n.id,
                                                       |old(db.logs)| + 1, now))
  {
    var n := NewNotification(|db.notifications| + 1, req, now);
    SaveNotification(db, n);
    if n.status == Scheduled {
      return Ok(n);
    }
    if req.targetAudience.None? {
      return Err(Rejection(InternalError, "Internal Server Error"));
    }
    var targets := TargetUsers(db.users, req.targetAudience.value);
    var logs := AppendLogs(db.logs, targets, n.id, now);
    SaveLogs(db, logs);
    r := Ok(n);
  }

  /** `notificationRepository.save` of a new row numbered next. */
  method SaveNotification(db: Db, n: Notification)
    requires db.NotificationIds() && n.id == |db.notifications| + 1
    modifies db`notifications
    ensures db.NotificationIds() && db.notifications == old(db.notifications) + [n]
  {
    db.notifications := db.notifications + [n];
  }

  /** The log table after the rows of one sending were saved. */
  method SaveLogs(db: Db, logs: seq<NotificationLog>)
    requires forall k :: 0 <= k < |logs| ==> logs[k].id == k + 1
    modifies db`logs
    ensures db.LogIds() && db.logs == logs
  {
    db.logs := logs;
  }

  /** A sent notification logs every target of its audience and nobody else. */
  lemma LogsMatchTargets(targets: seq<User>, notificationId: int, firstId: int, now: int)
    ensures var logs := LogsFor(targets, notificationId, firstId, now);
            && (forall j :: 0 <= j < |targets| ==>
                  exists l :: l in logs && l.userId == targets[j].id && l.notificationId == notificationId)
            && (forall l :: l in logs ==> exists j :: 0 <= j < |targets| && targets[j].id == l.userId)
  {
    var logs := LogsFor(targets, notificationId, firstId, now);
    forall j | 0 <= j < |targets|
      ensures exists l :: l in logs && l.userId == targets[j].id && l.notificationId == notificationId
    {
      assert logs[j] in logs;
    }
  }

  // ---------------------------------------------------------------------------
  // Product images.
  // ---------------------------------------------------------------------------

  /** The characters a stored file name keeps: ASCII letters, digits, '.' and '-'. */
  predicate SafeChar(c: char)
  {
    ('a' <= c <= 'z') || ('A' <= c <= 'Z') || ('0' <= c <= '9') || c == '.' || c == '-'
  }

  /** The upload's original name with every other character replaced by '_'; "image" when there is none. */
  function SanitizeFileName(original: Option<string>): (r: string)
    ensures original.None? ==> r == "image"
    ensures original.Some? ==> |r| == |original.value|
    ensures original.Some? ==> forall i :: 0 <= i < |r| ==>
              r[i] == (if SafeChar(original.value[i]) then original.value[i] else '_')
  {
    if original.None? then "image" else Sanitize(original.value)
  }

  function Sanitize(s: string): (r: string)
    ensures |r| == |s|
    ensures forall i :: 0 <= i < |s| ==> r[i] == (if SafeChar(s[i]) then s[i] else '_')
  {
    if s == [] then [] else [if SafeChar(s[0]) then s[0] else '_'] + Sanitize(s[1..])
  }

  /** A cleaned name holds only safe characters and '_', and cleaning it again changes nothing. */
  lemma SanitizeIdempotent(original: Option<string>)
    ensures var r := SanitizeFileName(original);
            && (forall i :: 0 <= i < |r| ==> SafeChar(r[i]) || r[i] == '_')
            && SanitizeFileName(Some(r)) == r
  {
    var r := SanitizeFileName(original);
    if original.None? {
      assert forall i :: 0 <= i < |r| ==> SafeChar(r[i]) by { assert r == "image"; }
    }
  }

  /** The URL an uploaded image is served under: a fresh random prefix, '_', and the cleaned name. */
  function ImageUrl(uuid: string, original: Option<string>): (url: string)
    ensures url == "/uploads/products/" + uuid + "_" + SanitizeFileName(original)
    ensures StartsWith(url, "/uploads/products/")
  {
    var url := "/uploads/products/" + uuid + "_" + SanitizeFileName(original);
    assert url[..|"/uploads/products/"|] == "/uploads/products/";
    url
  }

  // ---------------------------------------------------------------------------
  // User maintenance.
  // ---------------------------------------------------------------------------

  /**
   * The fields of an `updateUser` body, an entity built by the JSON reader;
   * `None` is a field left out or sent as null, which is skipped.  The one
   * exception is `isAvailable`: left out, it arrives as `Some(true)`, the
   * value the entity's no-arg constructor sets, so only an explicit null
   * is `None`.
   */
  datatype UserUpdate = UserUpdate(name: Option<string>, phone: Option<string>, vehicleType: Option<string>,
                                   vehicleNumber: Option<string>, isAvailable: Option<bool>,
                                   currentLocation: Option<string>)

  /** The four partner fields of `updateUser`: each non-null one overwrites the stored one. */
  method ApplyPartnerFields(u: User, upd: UserUpdate)
    modifies u`vehicleType, u`vehicleNumber, u`isAvailable, u`currentLocation
    ensures u.vehicleType == (if upd.vehicleType.Some? then upd.vehicleType else old(u.vehicleType))
    ensures u.vehicleNumber == (if upd.vehicleNumber.Some? then upd.vehicleNumber else old(u.vehicleNumber))
    ensures u.isAvailable == upd.isAvailable.GetOr(old(u.isAvailable))
    ensures u.currentLocation == (if upd.currentLocation.Some? then upd.currentLocation else old(u.currentLocation))
  {
    if upd.vehicleType.Some? { u.vehicleType := upd.vehicleType; }
    if upd.vehicleNumber.Some? { u.vehicleNumber := upd.vehicleNumber; }
    if upd.isAvailable.Some? { u.isAvailable := upd.isAvailable.value; }
    if upd.currentLocation.Some? { u.currentLocation := upd.currentLocation; }
  }

  /**
   * `updateUser`: every non-null field overwrites the stored one, the four
   * partner fields only for a DELIVERY user; the update time is stamped.
   */
  method UpdateUser(db: Db, id: int, upd: UserUpdate, now: int) returns (r: Result<User, Rejection>)
    requires db.UserIds()
    modifies db.UserAt(id)`name, db.UserAt(id)`phone, db.UserAt(id)`vehicleType, db.UserAt(id)`vehicleNumber
    modifies db.UserAt(id)`isAvailable, db.UserAt(id)`currentLocation, db.UserAt(id)`updatedAt
    ensures db.UserById(id).None? ==> r == Err(Rejection(NotFound, "User not found"))
    ensures db.UserById(id).Some? ==>
              var u := db.UserById(id).value;
              && r == Ok(u) && u.updatedAt == now
              && u.name == upd.name.GetOr(old(u.name)) && u.phone == upd.phone.GetOr(old(u.phone))
    ensures db.UserById(id).Some? && db.UserById(id).value.role.Name() == "DELIVERY" ==>
              var u := db.UserById(id).value;
              && u.vehicleType == (if upd.vehicleType.Some? then upd.vehicleType else old(u.vehicleType))
              && u.vehicleNumber == (if upd.vehicleNumber.Some? then upd.vehicleNumber else old(u.vehicleNumber))
              && u.isAvailable == upd.isAvailable.GetOr(old(u.isAvailable))
              && u.currentLocation == (if upd.currentLocation.Some? then upd.currentLocation else old(u.currentLocation))
    ensures db.UserById(id).Some? && db.UserById(id).value.role.Name() != "DELIVERY" ==>
              var u := db.UserById(id).value;
              && u.vehicleType == old(u.vehicleType) && u.vehicleNumber == old(u.vehicleNumber)
              && u.isAvailable == old(u.isAvailable) && u.currentLocation == old(u.currentLocation)
  {
    var found := db.UserById(id);
    if found.None? {
      return Err(Rejection(NotFound, "User not found"));
    }
    var u := found.value;
    if upd.name.Some? { u.name := upd.name.value; }
    if upd.phone.Some? { u.phone := upd.phone.value; }
    if u.role.Name() == "DELIVERY" {
      ApplyPartnerFields(u, upd);
    }
    u.updatedAt := now;
    r := Ok(u);
  }

  /**
   * The body of `addDeliveryPartner`, an entity built by the JSON reader:
   * `None` is a field left out or sent as null.  An `isAvailable` left out
   * arrives as `true`, the value the entity's no-arg constructor sets.
   */
  datatype PartnerRequest = PartnerRequest(email: string, password: string, name: Option<string>, phone: Option<string>,
                                           vehicleType: Option<string>, vehicleNumber: Option<string>,
                                           currentLocation: Option<string>, isAvailable: bool)

  /**
   * Why `addDeliveryPartner` saves nothing: a taken e-mail is a conflict,
   * and a missing name or phone breaks the NOT NULL columns at the save,
   * a server error; `None` when the row is saved.
   */
  function PartnerRefusal(users: seq<User>, req: PartnerRequest): (e: Option<Rejection>)
    reads users
    ensures e.None? <==> FindByEmail(users, req.email).None? && req.name.Some? && req.phone.Some?
    ensures FindByEmail(users, req.email).Some? ==> e == Some(Rejection(Conflict, "Email already exists"))
    ensures FindByEmail(users, req.email).None? && e.Some? ==> e == Some(Rejection(InternalError, "Internal Server Error"))
  {
    if FindByEmail(users, req.email).Some? then Some(Rejection(Conflict, "Email already exists"))
    else if req.name.None? || req.phone.None? then Some(Rejection(InternalError, "Internal Server Error"))
    else None
  }

  /**
   * `addDeliveryPartner`: unless `PartnerRefusal` applies, the body is
   * saved as sent under the next id, with its role set to DELIVERY and the
   * entity defaults for every field the model's body does not carry.
   */
  method AddDeliveryPartner(db: Db, req: PartnerRequest, now: int) returns (r: Result<User, Rejection>)
    requires db.UserIds() && db.EmailsUnique()
    modifies db`users
    ensures db.UserIds() && db.EmailsUnique()
    ensures old(PartnerRefusal(db.users, req)).Some? ==>
              r == Err(old(PartnerRefusal(db.users, req)).value) && db.users == old(db.users)
    ensures old(PartnerRefusal(db.users, req)).None? ==>
              r.Ok? && fresh(r.value) && db.users == old(db.users) + [r.value]
              && r.value.id == |db.users| && r.value.email == req.email && r.value.role == Delivery
              && r.value.password == req.password && r.value.name == req.name.value && r.value.phone == req.phone.value
              && r.value.vehicleType == req.vehicleType && r.value.vehicleNumber == req.vehicleNumber
              && r.value.currentLocation == req.currentLocation && r.value.isAvailable == req.isAvailable
              && r.value.totalDeliveries == 0 && r.value.rating == 5.0 && r.value.createdAt == now
  {
    var refusal := PartnerRefusal(db.users, req);
    if refusal.Some? {
      return Err(refusal.value);
    }
    var u := new User(|db.users| + 1, req.email, req.password, Delivery, req.name.value, req.phone.value, now);
    u.vehicleType := req.vehicleType;
    u.vehicleNumber := req.vehicleNumber;
    u.currentLocation := req.currentLocation;
    u.isAvailable := req.isAvailable;
    db.InsertUser(u);
    r := Ok(u);
  }

  /** `toggleAvailability`: only a DELIVERY user's flag is set, to the value sent. */
  method ToggleAvailability(db: Db, id: int, isAvailable: bool) returns (r: Result<bool, Rejection>)
    requires db.UserIds()
    modifies db.UserAt(id)`isAvailable
    ensures db.UserById(id).None? ==> r == Err(Rejection(NotFound, "Delivery person not found"))
    ensures db.UserById(id).Some? && db.UserById(id).value.role.Name() != "DELIVERY" ==>
              r == Err(Rejection(BadRequest, "User is not a delivery person")) && unchanged(db.UserById(id).value)
    ensures db.UserById(id).Some? && db.UserById(id).value.role.Name() == "DELIVERY" ==>
              r == Ok(isAvailable) && db.UserById(id).value.isAvailable == isAvailable
  {
    var found := db.UserById(id);
    if found.None? {
      return Err(Rejection(NotFound, "Delivery person not found"));
    }
    if found.value.role.Name() != "DELIVERY" {
      return Err(Rejection(BadRequest, "User is not a delivery person"));
    }
    found.value.isAvailable := isAvailable;
    r := Ok(isAvailable);
  }
}
