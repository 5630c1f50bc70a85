/**
 * The delivery partner endpoints: the partner's order list, assignment,
 * the status steps of a delivery with the partner's counters and badge,
 * the online/offline toggle with its sessions, and the earnings summary.
 */
module DeliveryController {
  import opened Wrappers
  import opened Text
  import opened Statuses
  import opened UserEntity
  import opened OrderEntity
  import opened Records
  import opened Database
  import opened Seqs
  import opened Time

  /** The fixed fee credited to a partner for each delivered order. */
  const DeliveryFee: real := 50.0

  // ---------------------------------------------------------------------------
  // A partner's orders.
  // ---------------------------------------------------------------------------

  /** The order carries a delivery person, and it is the user with this id. */
  predicate AssignedTo(o: Order, id: int)
    reads o
  {
    o.deliveryPerson != null && o.deliveryPerson.id == id
  }

  /** `findByDeliveryPersonId`: the orders assigned to this partner, in table order. */
  function OrdersOf(orders: seq<Order>, id: int): (r: seq<Order>)
    reads orders
    ensures forall k :: 0 <= k < |r| ==> r[k] in orders && AssignedTo(r[k], id)
    ensures forall k :: 0 <= k < |orders| && AssignedTo(orders[k], id) ==> orders[k] in r
    ensures IsSubseq(r, orders)
  {
    if orders == [] then []
    else if AssignedTo(orders[0], id) then [orders[0]] + OrdersOf(orders[1..], id)
    else OrdersOf(orders[1..], id)
  }

  /** `getMyOrders`: only an existing user whose role is DELIVERY gets a list. */
  function GetMyOrders(db: Db, id: int): (r: Result<seq<Order>, Rejection>)
    requires db.UserIds()
    reads db`users, db.users, db`orders, db.orders
    ensures db.UserById(id).None? ==> r == Err(Rejection(NotFound, "Delivery person not found"))
    ensures db.UserById(id).Some? && db.UserById(id).value.role.Name() != "DELIVERY" ==>
              r == Err(Rejection(Forbidden, "User is not a delivery person"))
    ensures r.Ok? ==> db.UserById(id).Some? && db.UserById(id).value.role.Name() == "DELIVERY"
                      && r.value == OrdersOf(db.orders, id)
  {
    var u := db.UserById(id);
    if u.None? then Err(Rejection(NotFound, "Delivery person not found"))
    else if u.value.role.Name() != "DELIVERY" then Err(Rejection(Forbidden, "User is not a delivery person"))
    else Ok(OrdersOf(db.orders, id))
  }

  // ---------------------------------------------------------------------------
  // Assignment.
  // ---------------------------------------------------------------------------

  /**
   * `assignOrder` (both the delivery and the admin endpoint): any existing
   * order, whatever its status and whoever had it, goes to any existing
   * user with role DELIVERY, available or not.
   */
  method AssignOrder(db: Db, orderId: int, deliveryPersonId: int, now: int) returns (r: Result<Order, Rejection>)
    requires db.OrderIds() && db.UserIds()
    modifies db.OrderAt(orderId)`deliveryPerson, db.OrderAt(orderId)`status, db.OrderAt(orderId)`assignedAt
    ensures db.OrderById(orderId).None? ==> r == Err(Rejection(NotFound, "Order not found"))
    ensures db.OrderById(orderId).Some? && db.UserById(deliveryPersonId).None? ==>
              r == Err(Rejection(NotFound, "Delivery person not found")) && unchanged(db.OrderById(orderId).value)
    ensures db.OrderById(orderId).Some? && db.UserById(deliveryPersonId).Some?
            && db.UserById(deliveryPersonId).value.role.Name() != "DELIVERY" ==>
              r == Err(Rejection(BadRequest, "User is not a delivery person")) && unchanged(db.OrderById(orderId).value)
    ensures db.OrderById(orderId).Some? && db.UserById(deliveryPersonId).Some?
            && db.UserById(deliveryPersonId).value.role.Name() == "DELIVERY" ==>
              var o := db.OrderById(orderId).value;
              r == Ok(o) && o.deliveryPerson == db.UserById(deliveryPersonId).value
              && o.status == Assigned && o.assignedAt == Some(now)
  {
    var order := db.OrderById(orderId);
    if order.None? {
      return Err(Rejection(NotFound, "Order not found"));
    }
    var partner := db.UserById(deliveryPersonId);
    if partner.None? {
      return Err(Rejection(NotFound, "Delivery person not found"));
    }
    if partner.value.role.Name() != "DELIVERY" {
      return Err(Rejection(BadRequest, "User is not a delivery person"));
    }
    var o := order.value;
    o.deliveryPerson := partner.value;
    o.status := Assigned;
    o.assignedAt := Some(now);
    r := Ok(o);
  }

  // ---------------------------------------------------------------------------
  // Status steps, counters and badge.
  // ---------------------------------------------------------------------------

  /**
   * The only transition checks the server makes: PAYMENT_RECEIVED needs
   * PICKED_UP and DELIVERED needs PAYMENT_RECEIVED.  Every other word is
   * accepted from any status.
   */
  function TransitionRefusal(current: OrderStatus, newStatus: string): (e: Option<Rejection>)
    ensures e.None? <==>
              (newStatus == "PAYMENT_RECEIVED" ==> current.Name() == "PICKED_UP")
              && (newStatus == "DELIVERED" ==> current.Name() == "PAYMENT_RECEIVED")
    ensures newStatus != "PAYMENT_RECEIVED" && newStatus != "DELIVERED" ==> e.None?
  {
    if newStatus == "PAYMENT_RECEIVED" && current.Name() != "PICKED_UP"
    then Some(Rejection(BadRequest, "Order must be PICKED_UP before confirming payment"))
    else if newStatus == "DELIVERED" && current.Name() != "PAYMENT_RECEIVED"
    then Some(Rejection(BadRequest, "Payment must be received before delivery"))
    else None
  }

  /** The server lets a delivered or cancelled order go back to PICKED_UP. */
  lemma PickedUpIsUnchecked()
    ensures TransitionRefusal(Delivered, "PICKED_UP").None? && TransitionRefusal(Cancelled, "PICKED_UP").None?
  {
  }

  /** The badge for a delivery count and rating: the first threshold pair met, from GOLD down. */
  function PerformanceBadge(deliveries: int, rating: real): (b: Option<Badge>)
    ensures b == Some(Gold) <==> deliveries >= 100 && rating >= 4.5
    ensures b == Some(Silver) <==> !(deliveries >= 100 && rating >= 4.5) && deliveries >= 50 && rating >= 4.0
    ensures b == Some(Bronze) <==> !(deliveries >= 50 && rating >= 4.0) && deliveries >= 10
    ensures b.None? <==> deliveries < 10
  {
    if deliveries >= 100 && rating >= 4.5 then Some(Gold)
    else if deliveries >= 50 && rating >= 4.0 then Some(Silver)
    else if deliveries >= 10 then Some(Bronze)
    else None
  }

  /** The badges ranked: none below BRONZE below SILVER below GOLD. */
  function Rank(b: Option<Badge>): nat
  {
    match b
    case None => 0
    case Some(Bronze) => 1
    case Some(Silver) => 2
    case Some(Gold) => 3
  }

  /** More deliveries and a higher rating never earn a lower badge. */
  lemma BadgeMonotone(d1: int, r1: real, d2: int, r2: real)
    requires d1 <= d2 && r1 <= r2
    ensures Rank(PerformanceBadge(d1, r1)) <= Rank(PerformanceBadge(d2, r2))
  {
  }

  /** `updatePerformanceBadge`: recomputes the badge from the partner's own count and rating. */
  method UpdatePerformanceBadge(u: User)
    modifies u`performanceBadge
    ensures u.performanceBadge == PerformanceBadge(u.totalDeliveries, u.rating)
  {
    u.performanceBadge := PerformanceBadge(u.totalDeliveries, u.rating);
  }

  datatype UpdateStatusRequest = UpdateStatusRequest(orderId: int, deliveryPersonId: int, status: string,
                                                     codCollected: Option<bool>)

  /**
   * `updateStatus`.  Only the assigned partner may move the order; the
   * word sent is stored as the status once `TransitionRefusal` lets it
   * through; PICKED_UP, PAYMENT_RECEIVED and DELIVERED also stamp their
   * time, PAYMENT_RECEIVED copies a supplied COD flag, and DELIVERED credits
   * the partner one delivery and the fee, then recomputes the badge.
   */
  method UpdateStatus(db: Db, req: UpdateStatusRequest, now: int) returns (r: Result<Order, Rejection>)
    requires db.OrderIds()
    modifies db.OrderAt(req.orderId)`status, db.OrderAt(req.orderId)`pickedUpAt
    modifies db.OrderAt(req.orderId)`paymentReceivedAt, db.OrderAt(req.orderId)`codCollected
    modifies db.OrderAt(req.orderId)`deliveredAt
    modifies db.PartnerAt(req.orderId)`totalDeliveries, db.PartnerAt(req.orderId)`totalEarnings
    modifies db.PartnerAt(req.orderId)`performanceBadge
    ensures db.OrderById(req.orderId).None? ==> r == Err(Rejection(NotFound, "Order not found"))
    ensures db.OrderById(req.orderId).Some? && !AssignedTo(db.OrderById(req.orderId).value, req.deliveryPersonId) ==>
              r == Err(Rejection(Forbidden, "Not assigned to this order")) && unchanged(db.OrderById(req.orderId).value)
    ensures db.OrderById(req.orderId).Some? && AssignedTo(db.OrderById(req.orderId).value, req.deliveryPersonId) ==>
              var o := db.OrderById(req.orderId).value;
              var p := o.deliveryPerson;
              var refusal := TransitionRefusal(old(o.status), req.status);
              && (refusal.Some? ==> r == Err(refusal.value) && unchanged(o) && unchanged(p))
              && (refusal.None? ==>
                    && r == Ok(o) && o.status == ParseOrderStatus(req.status)
                    && o.pickedUpAt == (if req.status == "PICKED_UP" then Some(now) else old(o.pickedUpAt))
                    && o.paymentReceivedAt
                       == (if req.status == "PAYMENT_RECEIVED" then Some(now) else old(o.paymentReceivedAt))
                    && o.codCollected
                       == (if req.status == "PAYMENT_RECEIVED" && req.codCollected.Some? then req.codCollected.value
                           else old(o.codCollected))
                    && o.deliveredAt == (if req.status == "DELIVERED" then Some(now) else old(o.deliveredAt))
                    && (req.status == "DELIVERED" ==>
                          && p.totalDeliveries == old(p.totalDeliveries) + 1
                          && p.totalEarnings == old(p.totalEarnings) + DeliveryFee
                          && p.performanceBadge == PerformanceBadge(p.totalDeliveries, p.rating))
                    && (req.status != "DELIVERED" ==> unchanged(p)))
  {
    var found := db.OrderById(req.orderId);
    if found.None? {
      return Err(Rejection(NotFound, "Order not found"));
    }
    var order := found.value;
    if order.deliveryPerson == null || order.deliveryPerson.id != req.deliveryPersonId {
      return Err(Rejection(Forbidden, "Not assigned to this order"));
    }
    var refusal := TransitionRefusal(order.status, req.status);
    if refusal.Some? {
      return Err(refusal.value);
    }
    order.status := ParseOrderStatus(req.status);
    if req.status == "PICKED_UP" {
      order.pickedUpAt := Some(now);
    } else if req.status == "PAYMENT_RECEIVED" {
      order.paymentReceivedAt := Some(now);
      if req.codCollected.Some? {
        order.codCollected := req.codCollected.value;
      }
    } else if req.status == "DELIVERED" {
      order.deliveredAt := Some(now);
      var partner := order.deliveryPerson;
      partner.totalDeliveries := partner.totalDeliveries + 1;
      partner.totalEarnings := partner.totalEarnings + DeliveryFee;
      UpdatePerformanceBadge(partner);
    }
    r := Ok(order);
  }

  /**
   * For a status as the server stores it, the checked steps are exact:
   * DELIVERED is accepted only from PAYMENT_RECEIVED, and PAYMENT_RECEIVED
   * only from PICKED_UP.
   */
  lemma CheckedSteps(current: OrderStatus)
    requires current.Canonical()
    ensures TransitionRefusal(current, "DELIVERED").None? <==> current == PaymentReceived
    ensures TransitionRefusal(current, "PAYMENT_RECEIVED").None? <==> current == PickedUp
  {
    if current.StatusOther? {
      assert ParseOrderStatus(current.word).StatusOther?;
    }
  }

  // ---------------------------------------------------------------------------
  // Online status and sessions.
  // ---------------------------------------------------------------------------

  /** A session after the partner `id` goes offline at `now`: closed if it was the partner's and open. */
  function Closed(s: DeliverySession, id: int, now: int): DeliverySession
  {
    if s.deliveryPersonId == id && s.endTime.None? then s.(endTime := Some(now)) else s
  }

  /** The session table after partner `id` goes offline at `now`. */
  function CloseOpen(ss: seq<DeliverySession>, id: int, now: int): (r: seq<DeliverySession>)
    ensures |r| == |ss|
  {
    seq(|ss|, j requires 0 <= j < |ss| => Closed(ss[j], id, now))
  }

  /**
   * Going offline leaves the partner no open session, closes each one at
   * `now`, and leaves every other partner's sessions and every id alone.
   */
  lemma CloseOpenEffect(ss: seq<DeliverySession>, id: int, now: int)
    ensures forall j :: 0 <= j < |ss| ==> CloseOpen(ss, id, now)[j].id == ss[j].id
    ensures forall j :: 0 <= j < |ss| && ss[j].deliveryPersonId == id ==> CloseOpen(ss, id, now)[j].endTime.Some?
    ensures forall j :: 0 <= j < |ss| && ss[j].deliveryPersonId == id && ss[j].endTime.None? ==>
              CloseOpen(ss, id, now)[j] == ss[j].(endTime := Some(now))
    ensures forall j :: 0 <= j < |ss| && (ss[j].deliveryPersonId != id || ss[j].endTime.Some?) ==>
              CloseOpen(ss, id, now)[j] == ss[j]
  {
  }

  /** Going offline twice closes nothing more the second time. */
  lemma CloseOpenIdempotent(ss: seq<DeliverySession>, id: int, now: int, later: int)
    ensures CloseOpen(CloseOpen(ss, id, now), id, later) == CloseOpen(ss, id, now)
  {
  }

  /** The partner counts as online only when the flag is set and true. */
  predicate WasOnline(onlineStatus: Option<bool>)
  {
    onlineStatus == Some(true)
  }

  /** The closing loop of `setOnlineStatus`, over the session table. */
  method CloseSessions(ss: seq<DeliverySession>, id: int, now: int) returns (r: seq<DeliverySession>)
    ensures r == CloseOpen(ss, id, now)
  {
    r := ss;
    var k := 0;
    while k < |r|
      invariant 0 <= k <= |r| == |ss|
      invariant forall j :: 0 <= j < k ==> r[j] == Closed(ss[j], id, now)
      invariant forall j :: k <= j < |r| ==> r[j] == ss[j]
    {
      if r[k].deliveryPersonId == id && r[k].endTime.None? {
        r := r[k := r[k].(endTime := Some(now))];
      }
      k := k + 1;
    }
  }

  /**
   * `setOnlineStatus`.  Going online from offline sets the flag, stamps the
   * time and opens one new session; going offline from online clears the
   * flag and closes every open session of the partner; a request that
   * matches the current state changes nothing.  The role is not checked.
   */
  method SetOnlineStatus(db: Db, deliveryPersonId: int, online: bool, now: int) returns (r: Result<(), Rejection>)
    requires db.UserIds() && db.SessionIds()
    modifies db.UserAt(deliveryPersonId)`onlineStatus, db.UserAt(deliveryPersonId)`lastOnlineTime, db`sessions
    ensures db.SessionIds()
    ensures db.UserById(deliveryPersonId).None? ==>
              r == Err(Rejection(NotFound, "Delivery person not found")) && db.sessions == old(db.sessions)
    ensures db.UserById(deliveryPersonId).Some? ==>
              var u := db.UserById(deliveryPersonId).value;
              && r == Ok(())
              && (online && !WasOnline(old(u.onlineStatus)) ==>
                    u.onlineStatus == Some(true) && u.lastOnlineTime == Some(now)
                    && db.sessions == old(db.sessions) + [DeliverySession(|old(db.sessions)| + 1, deliveryPersonId, now, None)])
              && (!online && WasOnline(old(u.onlineStatus)) ==>
                    u.onlineStatus == Some(false) && u.lastOnlineTime == old(u.lastOnlineTime)
                    && db.sessions == CloseOpen(old(db.sessions), deliveryPersonId, now))
              && (online == WasOnline(old(u.onlineStatus)) ==> unchanged(u) && db.sessions == old(db.sessions))
  {
    var found := db.UserById(deliveryPersonId);
    if found.None? {
      return Err(Rejection(NotFound, "Delivery person not found"));
    }
    var partner := found.value;
    var wasOnline := WasOnline(partner.onlineStatus);
    if online && !wasOnline {
      partner.onlineStatus := Some(true);
      partner.lastOnlineTime := Some(now);
      db.sessions := db.sessions + [DeliverySession(|db.sessions| + 1, deliveryPersonId, now, None)];
    } else if !online && wasOnline {
      partner.onlineStatus := Some(false);
      CloseOpenEffect(db.sessions, deliveryPersonId, now);
      db.sessions := CloseSessions(db.sessions, deliveryPersonId, now);
    }
    r := Ok(());
  }

  // ---------------------------------------------------------------------------
  // Earnings summary.
  // ---------------------------------------------------------------------------

  /** The first instant the summary counts: today's start, or six days before it for a week. */
  function PeriodStart(period: string, now: int): (s: Option<int>)
    ensures EqualsIgnoreCase(period, "daily") ==> s == Some(StartOfDay(now))
    ensures !EqualsIgnoreCase(period, "daily") && EqualsIgnoreCase(period, "weekly") ==> s == Some(StartOfDay(now) - 6 * Day)
    ensures s.None? <==> !EqualsIgnoreCase(period, "daily") && !EqualsIgnoreCase(period, "weekly")
  {
    if EqualsIgnoreCase(period, "daily") then Some(StartOfDay(now))
    else if EqualsIgnoreCase(period, "weekly") then Some(StartOfDay(now) - 6 * Day)
    else None
  }

  /** The order was delivered by partner `id` at an instant from `start` to `end`, both included. */
  predicate DeliveredWithin(o: Order, id: int, start: int, end: int)
    reads o
  {
    AssignedTo(o, id) && o.status.Name() == "DELIVERED" && o.deliveredAt.Some?
    && start <= o.deliveredAt.value <= end
  }

  /** How many orders partner `id` delivered from `start` to `end`. */
  function DeliveredCount(orders: seq<Order>, id: int, start: int, end: int): (n: nat)
    reads orders
    ensures n <= |orders|
  {
    if orders == [] then 0
    else (if DeliveredWithin(orders[0], id, start, end) then 1 else 0) + DeliveredCount(orders[1..], id, start, end)
  }

  /** A window that starts earlier holds at least as many deliveries. */
  lemma {:induction false} EarlierStartCountsMore(orders: seq<Order>, id: int, s1: int, s2: int, end: int)
    requires s1 <= s2
    ensures DeliveredCount(orders, id, s1, end) >= DeliveredCount(orders, id, s2, end)
  {
    if orders != [] {
      EarlierStartCountsMore(orders[1..], id, s1, s2, end);
    }
  }

  datatype EarningsSummary = EarningsSummary(period: string, totalDeliveries: nat, totalEarnings: real,
                                             incentives: real, bonus: real, performanceBadge: Option<Badge>)

  /**
   * `getEarningsSummary`: the deliveries of the period, the fee for each of
   * them, and the partner's incentives and bonus with a missing value read
   * as zero.  The role is not checked.
   */
  function GetEarningsSummary(db: Db, id: int, period: string, now: int): (r: Result<EarningsSummary, Rejection>)
    requires db.UserIds()
    reads db`users, db.users, db`orders, db.orders
    ensures db.UserById(id).None? ==> r == Err(Rejection(NotFound, "Delivery person not found"))
    ensures db.UserById(id).Some? && PeriodStart(period, now).None? ==>
              r == Err(Rejection(BadRequest, "Period must be 'daily' or 'weekly'"))
    ensures r.Ok? ==>
              var u := db.UserById(id).value;
              && db.UserById(id).Some? && PeriodStart(period, now).Some?
              && r.value.period == period
              && r.value.totalDeliveries == DeliveredCount(db.orders, id, PeriodStart(period, now).value, now)
              && r.value.totalEarnings == DeliveryFee * r.value.totalDeliveries as real
              && r.value.incentives == u.incentives.GetOr(0.0) && r.value.bonus == u.bonus.GetOr(0.0)
              && r.value.performanceBadge == u.performanceBadge
  {
    var u := db.UserById(id);
    if u.None? then Err(Rejection(NotFound, "Delivery person not found"))
    else
      var start := PeriodStart(period, now);
      if start.None? then Err(Rejection(BadRequest, "Period must be 'daily' or 'weekly'"))
      else
        var n := DeliveredCount(db.orders, id, start.value, now);
        Ok(EarningsSummary(period, n, DeliveryFee * n as real, u.value.incentives.GetOr(0.0),
                           u.value.bonus.GetOr(0.0), u.value.performanceBadge))
  }

  /** The weekly summary never reports fewer deliveries or less earned than the daily one. */
  lemma WeeklyCoversDaily(db: Db, id: int, now: int)
    requires db.UserIds() && db.UserById(id).Some?
    ensures var d := GetEarningsSummary(db, id, "daily", now);
            var w := GetEarningsSummary(db, id, "weekly", now);
            d.Ok? && w.Ok? && w.value.totalDeliveries >= d.value.totalDeliveries
            && w.value.totalEarnings >= d.value.totalEarnings
  {
    assert EqualsIgnoreCase("daily", "daily");
    assert EqualsIgnoreCase("weekly", "weekly");
    assert !EqualsIgnoreCase("weekly", "daily");
    EarlierStartCountsMore(db.orders, id, StartOfDay(now) - 6 * Day, StartOfDay(now), now);
  }
}
