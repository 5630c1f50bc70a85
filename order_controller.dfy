/**
 * The customer order endpoints: placing an order (pricing it, reserving
 * stock line by line and writing its item rows), delivery notes, return
 * requests and their processing, and cancellation by the customer.
 */
module OrderController {
  import opened Wrappers
  import opened Text
  import opened Statuses
  import opened UserEntity
  import opened OrderEntity
  import opened Records
  import opened Database
  import opened Time

  /** Value-added tax charged on the subtotal: 13%. */
  const TaxRate: real := 13.0 / 100.0

  /** How long after delivery a return may be requested. */
  const ReturnWindow: int := 7 * Day

  datatype ItemRequest = ItemRequest(productId: int, quantity: int)

  datatype PlaceOrderRequest = PlaceOrderRequest(userId: Option<int>, deliveryAddress: Option<string>,
                                                 items: Option<seq<ItemRequest>>)

  datatype ReturnRequest = ReturnRequest(reason: Option<string>, description: Option<string>, policy: Option<string>)

  /** How Java string concatenation prints a possibly-null string. */
  function Printed(s: Option<string>): string
  {
    if s.None? then "null" else s.value
  }

  // ---------------------------------------------------------------------------
  // Pricing and stock reservation, as functions of the product table.
  // ---------------------------------------------------------------------------

  /** A product id the identity-ordered product table holds. */
  predicate Known(products: seq<Product>, id: int) { 1 <= id <= |products| }

  predicate AllKnown(products: seq<Product>, reqs: seq<ItemRequest>)
  {
    forall k :: 0 <= k < |reqs| ==> Known(products, reqs[k].productId)
  }

  /** The sum of price times quantity over the request lines. */
  function Subtotal(products: seq<Product>, reqs: seq<ItemRequest>): real
    requires AllKnown(products, reqs)
  {
    if reqs == [] then 0.0
    else
      var last := reqs[|reqs| - 1];
      Subtotal(products, reqs[..|reqs| - 1]) + products[last.productId - 1].price * last.quantity as real
  }

  /** The product table after taking one line's quantity from its product. */
  function Take(products: seq<Product>, r: ItemRequest): (ps: seq<Product>)
    requires Known(products, r.productId)
    ensures |ps| == |products|
  {
    var p := products[r.productId - 1];
    products[r.productId - 1 := p.(stock := p.stock - r.quantity)]
  }

  /** The product table after taking the quantities of the first `k` lines, one line after another. */
  function AfterReservations(products: seq<Product>, reqs: seq<ItemRequest>, k: nat): (ps: seq<Product>)
    requires AllKnown(products, reqs) && k <= |reqs|
    ensures |ps| == |products|
  {
    if k == 0 then products else Take(AfterReservations(products, reqs, k - 1), reqs[k - 1])
  }

  /** Line `k` is accepted: a positive quantity, and enough stock left after the earlier lines. */
  predicate LinePasses(products: seq<Product>, reqs: seq<ItemRequest>, k: nat)
    requires AllKnown(products, reqs) && k < |reqs|
  {
    reqs[k].quantity > 0 && AfterReservations(products, reqs, k)[reqs[k].productId - 1].stock >= reqs[k].quantity
  }

  function AcceptedFrom(products: seq<Product>, reqs: seq<ItemRequest>, k: nat): (n: nat)
    requires AllKnown(products, reqs) && k <= |reqs|
    requires forall j :: 0 <= j < k ==> LinePasses(products, reqs, j)
    ensures k <= n <= |reqs|
    ensures forall j :: 0 <= j < n ==> LinePasses(products, reqs, j)
    ensures n < |reqs| ==> !LinePasses(products, reqs, n)
    decreases |reqs| - k
  {
    if k == |reqs| || !LinePasses(products, reqs, k) then k else AcceptedFrom(products, reqs, k + 1)
  }

  /** How many leading lines are accepted before the first refused one (all of them when none is refused). */
  function AcceptedLines(products: seq<Product>, reqs: seq<ItemRequest>): (n: nat)
    requires AllKnown(products, reqs)
    ensures n <= |reqs|
    ensures forall j :: 0 <= j < n ==> LinePasses(products, reqs, j)
    ensures n < |reqs| ==> !LinePasses(products, reqs, n)
  {
    AcceptedFrom(products, reqs, 0)
  }

  /** The quantity the first `k` lines ask of product `id` in total. */
  function QuantityFor(reqs: seq<ItemRequest>, id: int, k: nat): int
    requires k <= |reqs|
  {
    if k == 0 then 0
    else QuantityFor(reqs, id, k - 1) + (if reqs[k - 1].productId == id then reqs[k - 1].quantity else 0)
  }

  /**
   * Reserving stock takes from each product exactly what the lines ask of
   * it, and touches nothing else: ids, names, prices and the rest stay.
   */
  lemma {:induction false} ReservationsSubtract(products: seq<Product>, reqs: seq<ItemRequest>, k: nat)
    requires AllKnown(products, reqs) && k <= |reqs|
    ensures forall i :: 0 <= i < |products| ==>
              AfterReservations(products, reqs, k)[i]
              == products[i].(stock := products[i].stock - QuantityFor(reqs, i + 1, k))
  {
    if k > 0 {
      ReservationsSubtract(products, reqs, k - 1);
    }
  }

  /**
   * Every stock level the accepted lines leave is either untouched or not
   * negative, and none has grown: a product starting below zero is never
   * taken from.
   */
  lemma {:induction false} AcceptedStockNotNegative(products: seq<Product>, reqs: seq<ItemRequest>, n: nat)
    requires AllKnown(products, reqs) && n <= |reqs|
    requires forall j :: 0 <= j < n ==> LinePasses(products, reqs, j)
    ensures forall i :: 0 <= i < |products| ==>
              var s := AfterReservations(products, reqs, n)[i].stock;
              s <= products[i].stock && (s >= 0 || s == products[i].stock)
  {
    if n > 0 {
      AcceptedStockNotNegative(products, reqs, n - 1);
      assert LinePasses(products, reqs, n - 1);
    }
  }

  /** Reserving stock never changes a product's id, name or price. */
  lemma {:induction false} ReservationsKeepPrices(products: seq<Product>, reqs: seq<ItemRequest>, k: nat)
    requires AllKnown(products, reqs) && k <= |reqs|
    ensures forall i :: 0 <= i < |products| ==>
              AfterReservations(products, reqs, k)[i].price == products[i].price
              && AfterReservations(products, reqs, k)[i].name == products[i].name
              && AfterReservations(products, reqs, k)[i].id == products[i].id
  {
    if k > 0 {
      ReservationsKeepPrices(products, reqs, k - 1);
    }
  }

  /** The subtotal of two batches of lines is the sum of their subtotals. */
  lemma {:induction false} SubtotalAppend(products: seq<Product>, a: seq<ItemRequest>, b: seq<ItemRequest>)
    requires AllKnown(products, a) && AllKnown(products, b)
    ensures AllKnown(products, a + b)
    ensures Subtotal(products, a + b) == Subtotal(products, a) + Subtotal(products, b)
  {
    assert AllKnown(products, a + b) by {
      forall k | 0 <= k < |a + b| ensures Known(products, (a + b)[k].productId) {
        if k >= |a| { assert (a + b)[k] == b[k - |a|]; }
      }
    }
    if b == [] {
      assert a + b == a;
    } else {
      var b' := b[..|b| - 1];
      assert (a + b)[..|a + b| - 1] == a + b';
      assert (a + b)[|a + b| - 1] == b[|b| - 1];
      SubtotalAppend(products, a, b');
    }
  }

  /** The item row written for an accepted line: the price is the product's price at that moment. */
  function LineItem(id: int, order: Order, products: seq<Product>, r: ItemRequest): OrderItem
    requires Known(products, r.productId)
  {
    OrderItem(id, order, r.productId, r.quantity, products[r.productId - 1].price,
              ReturnNone, None, None, None, None, None)
  }

  /** The reason `placeOrder` refuses a request before touching any table, if any. */
  function RequestShapeError(req: PlaceOrderRequest): Option<Rejection>
  {
    if req.userId.None? then Some(Rejection(BadRequest, "userId required"))
    else if req.deliveryAddress.None? || IsJavaBlank(req.deliveryAddress.value)
    then Some(Rejection(BadRequest, "deliveryAddress required"))
    else if req.items.None? || req.items.value == [] then Some(Rejection(BadRequest, "items required"))
    else None
  }

  /** The order row as the constructor and the three amount setters leave it. */
  ghost predicate NewlyPriced(o: Order, id: int, user: User, address: string, subtotal: real, now: int)
    reads o
  {
    && o.id == id && o.user == user && o.deliveryAddress == address
    && o.status == Placed && o.createdAt == now
    && o.subtotal == subtotal && o.tax == subtotal * TaxRate && o.total == o.subtotal + o.tax
    && o.total == subtotal * (113.0 / 100.0)
    && o.paymentMethod == "COD" && o.paymentStatus == PaymentPending && !o.codCollected
    && o.deliveryPerson == null && o.promoCode == None && o.deliveryNotes == None
    && o.cancelledAt == None && o.cancelledBy == None && o.cancelReason == None
    && o.assignedAt == None && o.pickedUpAt == None && o.deliveredAt == None
    && o.paymentReceivedAt == None && o.deliveryProofImageUrl == None
    && o.cardBrand == None && o.cardLast4 == None && o.cardExpiry == None
  }

  /**
   * The first pass of `placeOrder`: the subtotal of the lines, or `None`
   * when a line names a product the table does not hold.
   */
  method PriceLines(db: Db, reqs: seq<ItemRequest>) returns (subtotal: Option<real>)
    requires db.ProductIds()
    ensures subtotal.None? <==> !AllKnown(db.products, reqs)
    ensures subtotal.Some? ==> subtotal.value == Subtotal(db.products, reqs)
  {
    var sum := 0.0;
    var k := 0;
    while k < |reqs|
      invariant 0 <= k <= |reqs|
      invariant AllKnown(db.products, reqs[..k])
      invariant sum == Subtotal(db.products, reqs[..k])
    {
      var product := db.ProductById(reqs[k].productId);
      if product.None? {
        assert !Known(db.products, reqs[k].productId);
        return None;
      }
      assert reqs[..k + 1][..k] == reqs[..k];
      sum := sum + product.value.price * reqs[k].quantity as real;
      k := k + 1;
    }
    assert reqs[..|reqs|] == reqs;
    return Some(sum);
  }

  /**
   * The second loop of `placeOrder`, over the product and item tables:
   * each line in turn is refused when its quantity is not positive or its
   * product has too little stock left, and otherwise takes its quantity
   * from stock and adds an item row at the product's price.  The first
   * refusal ends the loop; what the earlier lines did stays.
   */
  method ReserveLines(p0: seq<Product>, i0: seq<OrderItem>, order: Order, reqs: seq<ItemRequest>)
    returns (products: seq<Product>, items: seq<OrderItem>, r: Result<Order, Rejection>)
    requires AllKnown(p0, reqs)
    ensures var n := AcceptedLines(p0, reqs);
            && products == AfterReservations(p0, reqs, n)
            && items == i0 + Lines(|i0| + 1, order, p0, reqs, n)
            && (n == |reqs| ==> r == Ok(order))
            && (n < |reqs| && reqs[n].quantity <= 0 ==> r == Err(Rejection(BadRequest, "quantity must be > 0")))
            && (n < |reqs| && reqs[n].quantity > 0 ==>
                  r == Err(Rejection(BadRequest, "Not enough stock for: " + p0[reqs[n].productId - 1].name)))
  {
    ghost var n := AcceptedLines(p0, reqs);
    products, items := p0, i0;
    var k := 0;
    while k < |reqs| && reqs[k].quantity > 0 && products[reqs[k].productId - 1].stock >= reqs[k].quantity
      invariant 0 <= k <= n
      invariant products == AfterReservations(p0, reqs, k)
      invariant items == i0 + Lines(|i0| + 1, order, p0, reqs, k)
    {
      ReserveStep(p0, i0, order, reqs, k);
      var line := reqs[k];
      products := Take(products, line);
      items := items + [LineItem(|items| + 1, order, products, line)];
      k := k + 1;
    }
    if k < |reqs| {
      assert !LinePasses(p0, reqs, k);
      ReservationsKeepPrices(p0, reqs, k);
    }
    assert k == n;
    if k == |reqs| {
      r := Ok(order);
    } else if reqs[k].quantity <= 0 {
      r := Err(Rejection(BadRequest, "quantity must be > 0"));
    } else {
      r := Err(Rejection(BadRequest, "Not enough stock for: " + products[reqs[k].productId - 1].name));
    }
  }

  /** One more accepted line: its stock change, then its row at the price that follows. */
  lemma ReserveStep(p0: seq<Product>, i0: seq<OrderItem>, order: Order, reqs: seq<ItemRequest>, k: nat)
    requires AllKnown(p0, reqs) && k < |reqs|
    ensures Known(AfterReservations(p0, reqs, k), reqs[k].productId)
    ensures AfterReservations(p0, reqs, k + 1) == Take(AfterReservations(p0, reqs, k), reqs[k])
    ensures |i0 + Lines(|i0| + 1, order, p0, reqs, k)| == |i0| + k
    ensures i0 + Lines(|i0| + 1, order, p0, reqs, k + 1)
            == i0 + Lines(|i0| + 1, order, p0, reqs, k) + [LineItem(|i0| + k + 1, order, AfterReservations(p0, reqs, k + 1), reqs[k])]
  {
  }

  /**
   * The item rows the first `k` lines write, numbered from `firstId`; each
   * row takes its price from the product after its own line's stock change.
   */
  function Lines(firstId: int, order: Order, p0: seq<Product>, reqs: seq<ItemRequest>, k: nat): (rows: seq<OrderItem>)
    requires AllKnown(p0, reqs) && k <= |reqs|
    ensures |rows| == k
  {
    if k == 0 then []
    else Lines(firstId, order, p0, reqs, k - 1) + [LineItem(firstId + k - 1, order, AfterReservations(p0, reqs, k), reqs[k - 1])]
  }

  /** Row `j` of `Lines` is line `j`'s row, with id `firstId + j`. */
  lemma {:induction false} LinesContent(firstId: int, order: Order, p0: seq<Product>, reqs: seq<ItemRequest>, k: nat)
    requires AllKnown(p0, reqs) && k <= |reqs|
    ensures forall j :: 0 <= j < k ==>
              Lines(firstId, order, p0, reqs, k)[j] == LineItem(firstId + j, order, AfterReservations(p0, reqs, j + 1), reqs[j])
  {
    if k > 0 {
      LinesContent(firstId, order, p0, reqs, k - 1);
    }
  }

  /** Appending the rows of `Lines`, numbered on from the table's end, keeps ids in order. */
  lemma ItemIdsAfterLines(before: seq<OrderItem>, order: Order, p0: seq<Product>, reqs: seq<ItemRequest>, k: nat)
    requires AllKnown(p0, reqs) && k <= |reqs|
    requires forall j :: 0 <= j < |before| ==> before[j].id == j + 1
    ensures var items := before + Lines(|before| + 1, order, p0, reqs, k);
            forall j :: 0 <= j < |items| ==> items[j].id == j + 1
  {
    LinesContent(|before| + 1, order, p0, reqs, k);
    var items := before + Lines(|before| + 1, order, p0, reqs, k);
    forall j | 0 <= j < |items| ensures items[j].id == j + 1 {
      if j >= |before| {
        assert items[j] == Lines(|before| + 1, order, p0, reqs, k)[j - |before|];
      }
    }
  }

  /**
   * `placeOrder`.  Shape checks, the customer lookup and the product
   * lookups refuse the request with nothing written.  Past them the order
   * row is saved with subtotal, 13% tax and total, and the lines are then
   * processed in order: each accepted line takes its quantity from stock and
   * writes an item row at the product's current price; the first refused
   * line (quantity not positive, or not enough stock) ends the request with
   * the order row, the earlier stock changes and the earlier item rows all
   * kept.
   */
  method PlaceOrder(db: Db, req: PlaceOrderRequest, now: int) returns (r: Result<Order, Rejection>)
    requires db.UserIds() && db.OrderIds() && db.ItemIds() && db.ProductIds()
    modifies db`orders, db`products, db`items
    ensures db.OrderIds() && db.ItemIds() && db.ProductIds()
    ensures RequestShapeError(req).Some? ==>
              r == Err(RequestShapeError(req).value)
              && db.orders == old(db.orders) && db.products == old(db.products) && db.items == old(db.items)
    ensures RequestShapeError(req).None? && old(db.UserById(req.userId.value)).None? ==>
              r == Err(Rejection(NotFound, "User not found"))
              && db.orders == old(db.orders) && db.products == old(db.products) && db.items == old(db.items)
    ensures RequestShapeError(req).None? && old(db.UserById(req.userId.value)).Some?
            && !AllKnown(old(db.products), req.items.value) ==>
              r == Err(Rejection(NotFound, "Product not found"))
              && db.orders == old(db.orders) && db.products == old(db.products) && db.items == old(db.items)
    ensures RequestShapeError(req).None? && old(db.UserById(req.userId.value)).Some?
            && AllKnown(old(db.products), req.items.value) ==>
              var reqs := req.items.value;
              var p0 := old(db.products);
              var n := AcceptedLines(p0, reqs);
              && |db.orders| == |old(db.orders)| + 1 && db.orders[..|old(db.orders)|] == old(db.orders)
              && var o := db.orders[|db.orders| - 1];
              && fresh(o)
              && NewlyPriced(o, |db.orders|, old(db.UserById(req.userId.value)).value, JavaTrim(req.deliveryAddress.value), Subtotal(p0, reqs), now)
              && db.products == AfterReservations(p0, reqs, n)
              && db.items == old(db.items) + Lines(|old(db.items)| + 1, o, p0, reqs, n)
              && (n == |reqs| ==> r == Ok(o))
              && (n < |reqs| && reqs[n].quantity <= 0 ==> r == Err(Rejection(BadRequest, "quantity must be > 0")))
              && (n < |reqs| && reqs[n].quantity > 0 ==>
                    r == Err(Rejection(BadRequest, "Not enough stock for: " + p0[reqs[n].productId - 1].name)))
  {
    var shape := RequestShapeError(req);
    if shape.Some? {
      return Err(shape.value);
    }
    var user := db.UserById(req.userId.value);
    if user.None? {
      return Err(Rejection(NotFound, "User not found"));
    }
    var reqs := req.items.value;
    var subtotal := PriceLines(db, reqs);
    if subtotal.None? {
      return Err(Rejection(NotFound, "Product not found"));
    }
    assert AllKnown(db.products, reqs) && subtotal.value == Subtotal(db.products, reqs);
    r := SaveAndReserve(db, user.value, JavaTrim(req.deliveryAddress.value), reqs, subtotal.value, now);
  }

  /** What `placeOrder` does once every product is known: save the priced order, then reserve line by line. */
  method SaveAndReserve(db: Db, user: User, address: string, reqs: seq<ItemRequest>, subtotal: real, now: int)
    returns (r: Result<Order, Rejection>)
    requires db.OrderIds() && db.ItemIds() && db.ProductIds() && AllKnown(db.products, reqs)
    modifies db`orders, db`products, db`items
    ensures db.OrderIds() && db.ItemIds() && db.ProductIds()
    ensures var p0 := old(db.products);
            var n := AcceptedLines(p0, reqs);
              && |db.orders| == |old(db.orders)| + 1 && db.orders[..|old(db.orders)|] == old(db.orders)
              && var o := db.orders[|db.orders| - 1];
              && fresh(o)
              && NewlyPriced(o, |db.orders|, user, address, subtotal, now)
              && db.products == AfterReservations(p0, reqs, n)
              && db.items == old(db.items) + Lines(|old(db.items)| + 1, o, p0, reqs, n)
              && (n == |reqs| ==> r == Ok(o))
              && (n < |reqs| && reqs[n].quantity <= 0 ==> r == Err(Rejection(BadRequest, "quantity must be > 0")))
              && (n < |reqs| && reqs[n].quantity > 0 ==>
                    r == Err(Rejection(BadRequest, "Not enough stock for: " + p0[reqs[n].productId - 1].name)))
  {
    var order := SaveOrder(db, user, address, subtotal, now);
    var products, items;
    products, items, r := ReserveLines(db.products, db.items, order, reqs);
    ghost var n := AcceptedLines(db.products, reqs);
    ReservationsKeepPrices(db.products, reqs, n);
    ItemIdsAfterLines(db.items, order, db.products, reqs, n);
    db.products, db.items := products, items;
  }

  /** Saves a new order row for `user`, priced from `subtotal`: 13% tax on top. */
  method SaveOrder(db: Db, user: User, address: string, subtotal: real, now: int) returns (order: Order)
    requires db.OrderIds()
    modifies db`orders
    ensures db.OrderIds() && fresh(order)
    ensures db.orders == old(db.orders) + [order]
    ensures NewlyPriced(order, |db.orders|, user, address, subtotal, now)
  {
    order := new Order(|db.orders| + 1, user, address, now);
    order.subtotal := subtotal;
    order.tax := subtotal * TaxRate;
    order.total := order.subtotal + order.tax;
    db.orders := db.orders + [order];
  }

  /** Each accepted line's item row records the price its product had when the order was placed. */
  lemma FrozenPrices(firstId: int, order: Order, p0: seq<Product>, reqs: seq<ItemRequest>, k: nat)
    requires AllKnown(p0, reqs) && k <= |reqs|
    ensures forall j :: 0 <= j < k ==>
              var row := Lines(firstId, order, p0, reqs, k)[j];
              row.id == firstId + j && row.order == order && row.productId == reqs[j].productId
              && row.quantity == reqs[j].quantity && row.priceAtPurchase == p0[reqs[j].productId - 1].price
              && row.returnStatus == ReturnNone
  {
    LinesContent(firstId, order, p0, reqs, k);
    forall j | 0 <= j < k
      ensures Lines(firstId, order, p0, reqs, k)[j].priceAtPurchase == p0[reqs[j].productId - 1].price
    {
      ReservationsKeepPrices(p0, reqs, j + 1);
    }
  }

  // ---------------------------------------------------------------------------
  // Delivery notes.
  // ---------------------------------------------------------------------------

  /** `updateDeliveryNotes`: overwrites the notes of an existing order and nothing else. */
  method UpdateDeliveryNotes(db: Db, id: int, notes: Option<string>) returns (r: Result<Order, Rejection>)
    requires db.OrderIds()
    modifies db.OrderAt(id)`deliveryNotes
    ensures db.OrderById(id).None? ==> r == Err(Rejection(NotFound, "Order not found"))
    ensures db.OrderById(id).Some? ==> r == Ok(db.OrderById(id).value) && r.value.deliveryNotes == notes
  {
    var order := db.OrderById(id);
    if order.None? {
      return Err(Rejection(NotFound, "Order not found"));
    }
    order.value.deliveryNotes := notes;
    r := Ok(order.value);
  }

  // ---------------------------------------------------------------------------
  // Returns.
  // ---------------------------------------------------------------------------

  /**
   * Why `requestReturn` refuses an item of the order with id `itemOrderId`,
   * whose own return status is `rs` and whose order has `status` and
   * `deliveredAt`, asked for under order `orderId` at time `now`; `None`
   * when the request is accepted.  The checks run in the handler's order.
   */
  function ReturnRefusal(itemOrderId: int, rs: ReturnStatus, status: OrderStatus, deliveredAt: Option<int>,
                         orderId: int, now: int): (e: Option<Rejection>)
    ensures e.None? <==>
              itemOrderId == orderId && rs == ReturnNone && status == Delivered
              && deliveredAt.Some? && now <= deliveredAt.value + ReturnWindow
    ensures e.Some? ==> e.value.status == BadRequest
  {
    if itemOrderId != orderId then Some(Rejection(BadRequest, "Item does not belong to this order"))
    else if rs != ReturnNone then Some(Rejection(BadRequest, "Return already requested for this item"))
    else if status != Delivered then Some(Rejection(BadRequest, "Can only return delivered items"))
    else if deliveredAt.None? then Some(Rejection(BadRequest, "Item not yet delivered"))
    else if now > deliveredAt.value + ReturnWindow then Some(Rejection(BadRequest, "Return period (7 days) has expired"))
    else None
  }

  /** The item after an accepted return request: the whole line price is to be refunded. */
  function Requested(item: OrderItem, req: ReturnRequest, now: int): (it: OrderItem)
    ensures it.returnStatus == ReturnRequested && it.returnRequestedAt == Some(now)
    ensures it.refundAmount == Some(item.priceAtPurchase * item.quantity as real)
    ensures it.returnReason == req.reason
    ensures it.returnDescription == Some(Printed(req.description) + " | Policy: " + Printed(req.policy))
    ensures it.(returnStatus := item.returnStatus, returnReason := item.returnReason,
                returnDescription := item.returnDescription, refundAmount := item.refundAmount,
                returnRequestedAt := item.returnRequestedAt) == item
  {
    item.(returnStatus := ReturnRequested, returnReason := req.reason,
          returnDescription := Some(Printed(req.description) + " | Policy: " + Printed(req.policy)),
          returnRequestedAt := Some(now),
          refundAmount := Some(item.priceAtPurchase * item.quantity as real))
  }

  /**
   * `requestReturn`.  A missing item is not found; otherwise the refusal
   * reasons of `ReturnRefusal` apply, and an accepted request rewrites only
   * that item's row.
   */
  method RequestReturn(db: Db, orderId: int, itemId: int, req: ReturnRequest, now: int) returns (r: Result<string, Rejection>)
    requires db.ItemIds()
    modifies db`items
    ensures db.ItemIds() && |db.items| == |old(db.items)|
    ensures old(db.ItemById(itemId)).None? ==>
              r == Err(Rejection(NotFound, "Order item not found")) && db.items == old(db.items)
    ensures old(db.ItemById(itemId)).Some? ==>
              var it := old(db.ItemById(itemId)).value;
              var refusal := ReturnRefusal(it.order.id, it.returnStatus, it.order.status, it.order.deliveredAt, orderId, now);
              && (refusal.Some? ==> r == Err(refusal.value) && db.items == old(db.items))
              && (refusal.None? ==>
                    r == Ok("Return request submitted successfully")
                    && db.items == old(db.items)[itemId - 1 := Requested(it, req, now)])
  {
    var found := db.ItemById(itemId);
    if found.None? {
      return Err(Rejection(NotFound, "Order item not found"));
    }
    var item := found.value;
    var refusal := ReturnRefusal(item.order.id, item.returnStatus, item.order.status, item.order.deliveredAt, orderId, now);
    if refusal.Some? {
      return Err(refusal.value);
    }
    db.items := db.items[itemId - 1 := Requested(item, req, now)];
    r := Ok("Return request submitted successfully");
  }

  /** An item whose return was accepted once is refused when asked again. */
  lemma ReturnRequestedOnce(item: OrderItem, req: ReturnRequest, status: OrderStatus, deliveredAt: Option<int>,
                            orderId: int, now: int, later: int)
    requires ReturnRefusal(item.order.id, item.returnStatus, status, deliveredAt, orderId, now).None?
    ensures ReturnRefusal(item.order.id, Requested(item, req, now).returnStatus, status, deliveredAt, orderId, later)
            == Some(Rejection(BadRequest, "Return already requested for this item"))
  {
  }

  /** The item after `updateReturnStatus`: the requested status word, stamped with the time. */
  function Processed(item: OrderItem, status: string, now: int): (it: OrderItem)
    ensures it.returnStatus.Name() == status && it.returnProcessedAt == Some(now)
    ensures it.(returnStatus := item.returnStatus, returnProcessedAt := item.returnProcessedAt) == item
  {
    item.(returnStatus := ParseReturnStatus(status), returnProcessedAt := Some(now))
  }

  /**
   * `updateReturnStatus`: stores whatever status word is sent, with no
   * check of the current return status; only REFUNDED touches the order,
   * marking its payment REFUND_PROCESSED.
   */
  method UpdateReturnStatus(db: Db, orderId: int, itemId: int, status: string, now: int) returns (r: Result<OrderItem, Rejection>)
    requires db.ItemIds()
    modifies db`items, db.ItemOrderAt(itemId)`paymentStatus
    ensures db.ItemIds() && |db.items| == |old(db.items)|
    ensures old(db.ItemById(itemId)).None? ==>
              r == Err(Rejection(NotFound, "Order item not found")) && db.items == old(db.items)
    ensures old(db.ItemById(itemId)).Some? && old(db.ItemById(itemId)).value.order.id != orderId ==>
              r == Err(Rejection(BadRequest, "Item does not belong to this order")) && db.items == old(db.items)
              && unchanged(old(db.ItemById(itemId)).value.order)
    ensures old(db.ItemById(itemId)).Some? && old(db.ItemById(itemId)).value.order.id == orderId ==>
              var it := old(db.ItemById(itemId)).value;
              && r == Ok(Processed(it, status, now))
              && db.items == old(db.items)[itemId - 1 := Processed(it, status, now)]
              && it.order.paymentStatus == (if status == "REFUNDED" then RefundProcessed else old(it.order.paymentStatus))
  {
    var found := db.ItemById(itemId);
    if found.None? {
      return Err(Rejection(NotFound, "Order item not found"));
    }
    var item := found.value;
    if item.order.id != orderId {
      return Err(Rejection(BadRequest, "Item does not belong to this order"));
    }
    var processed := Processed(item, status, now);
    db.items := db.items[itemId - 1 := processed];
    if status == "REFUNDED" {
      item.order.paymentStatus := RefundProcessed;
    }
    r := Ok(processed);
  }

  // ---------------------------------------------------------------------------
  // Cancellation.
  // ---------------------------------------------------------------------------

  /** Why `cancelOrder` refuses user `userId` on an order owned by `ownerId` in `status`; `None` when allowed. */
  function CancelRefusal(ownerId: int, status: OrderStatus, userId: int): (e: Option<Rejection>)
    ensures e.None? <==> ownerId == userId && (status == Placed || status == Assigned)
    ensures ownerId != userId ==> e == Some(Rejection(Forbidden, "You can only cancel your own orders"))
  {
    if ownerId != userId then Some(Rejection(Forbidden, "You can only cancel your own orders"))
    else if status != Placed && status != Assigned
    then Some(Rejection(BadRequest, "Order cannot be cancelled at current status: " + status.Name()))
    else None
  }

  /** The reason stored on a cancelled order: the customer's, or a fixed default. */
  function CancelReason(reason: Option<string>): (s: string)
    ensures reason.Some? ==> s == reason.value
    ensures reason.None? ==> s == "Customer requested cancellation"
  {
    if reason.Some? then reason.value else "Customer requested cancellation"
  }

  /**
   * `cancelOrder`.  Only the owner may cancel, and only a PLACED or
   * ASSIGNED order; a cancelled order is stamped with the time, the
   * cancelling user and a reason, and its payment is marked CANCELLED.
   * Product stock is not released.
   */
  method CancelOrder(db: Db, orderId: int, reason: Option<string>, userId: int, now: int) returns (r: Result<int, Rejection>)
    requires db.OrderIds()
    modifies db.OrderAt(orderId)`status, db.OrderAt(orderId)`cancelledAt, db.OrderAt(orderId)`cancelledBy
    modifies db.OrderAt(orderId)`cancelReason, db.OrderAt(orderId)`paymentStatus
    ensures db.OrderById(orderId).None? ==> r == Err(Rejection(NotFound, "Order not found"))
    ensures db.OrderById(orderId).Some? ==>
              var o := db.OrderById(orderId).value;
              var refusal := CancelRefusal(o.user.id, old(o.status), userId);
              && (refusal.Some? ==> r == Err(refusal.value) && unchanged(o))
              && (refusal.None? ==>
                    r == Ok(orderId) && o.status == Cancelled && o.cancelledAt == Some(now)
                    && o.cancelledBy == Some(userId) && o.CancelledReason() == Some(CancelReason(reason))
                    && o.paymentStatus == PaymentCancelled)
  {
    var found := db.OrderById(orderId);
    if found.None? {
      return Err(Rejection(NotFound, "Order not found"));
    }
    var order := found.value;
    var refusal := CancelRefusal(order.user.id, order.status, userId);
    if refusal.Some? {
      return Err(refusal.value);
    }
    order.status := Cancelled;
    order.cancelledAt := Some(now);
    order.cancelledBy := Some(userId);
    order.SetCancelledReason(Some(CancelReason(reason)));
    order.paymentStatus := PaymentCancelled;
    r := Ok(orderId);
  }

  /** A cancelled order cannot be cancelled again, not even by its owner. */
  lemma CancelOnce(ownerId: int, status: OrderStatus, userId: int)
    requires CancelRefusal(ownerId, status, userId).None?
    ensures CancelRefusal(ownerId, Cancelled, userId)
            == Some(Rejection(BadRequest, "Order cannot be cancelled at current status: CANCELLED"))
  {
    var prefix := "Order cannot be cancelled at current status: ";
    assert prefix + Cancelled.Name() == prefix + "CANCELLED";
    assert prefix + "CANCELLED" == "Order cannot be cancelled at current status: CANCELLED";
  }
}
