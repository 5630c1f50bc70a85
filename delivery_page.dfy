/**
 * The delivery partner's dashboard script: the client-side status guards
 * with the cash-on-delivery confirmation, the order list it keeps, the
 * address renderers, the timeline, the counters, the list filter and the
 * button states.
 */
module DeliveryPage {
  import opened Wrappers
  import opened Text
  import opened Seqs

  /** An assigned order as the dashboard holds it; any field may be null. */
  datatype TaskOrder = TaskOrder(id: int, status: string, paymentMethod: Option<string>,
                                 recipientName: Option<string>, recipientPhone: Option<string>,
                                 streetAddress: Option<string>, city: Option<string>, district: Option<string>,
                                 province: Option<string>, postalCode: Option<string>, landmark: Option<string>,
                                 createdAt: Option<int>, assignedAt: Option<int>, pickedUpAt: Option<int>,
                                 paymentReceivedAt: Option<int>, deliveredAt: Option<int>)

  /** JavaScript truthiness of a possibly-null string: null and "" are false. */
  predicate Present(s: Option<string>)
  {
    s.Some? && s.value != ""
  }

  // ---------------------------------------------------------------------------
  // Status changes.
  // ---------------------------------------------------------------------------

  /**
   * `updateStatus`'s checks before it asks the server: the three ordered
   * steps, then for a cash order the COD box; the result is the
   * `codCollected` value it would send.
   */
  function StatusCheck(current: string, paymentMethod: Option<string>, newStatus: string, codBox: Option<bool>)
    : (r: Result<Option<bool>, string>)
    ensures newStatus == "PICKED_UP" && current != "ASSIGNED" ==> r == Err("Order must be ASSIGNED before it can be picked up")
    ensures newStatus == "PAYMENT_RECEIVED" && current != "PICKED_UP" ==> r == Err("Order must be PICKED_UP before confirming payment")
    ensures newStatus == "DELIVERED" && current != "PAYMENT_RECEIVED" ==> r == Err("Payment must be received before delivery")
    ensures r.Ok? <==> && (newStatus == "PICKED_UP" ==> current == "ASSIGNED")
                       && (newStatus == "PAYMENT_RECEIVED" ==> current == "PICKED_UP")
                       && (newStatus == "DELIVERED" ==> current == "PAYMENT_RECEIVED")
                       && (newStatus == "PAYMENT_RECEIVED" && paymentMethod == Some("COD") ==> codBox == Some(true))
    ensures r.Ok? ==> r.value == if newStatus == "PAYMENT_RECEIVED" && paymentMethod == Some("COD") then Some(true) else None
  {
    if newStatus == "PICKED_UP" && current != "ASSIGNED" then Err("Order must be ASSIGNED before it can be picked up")
    else if newStatus == "PAYMENT_RECEIVED" && current != "PICKED_UP" then Err("Order must be PICKED_UP before confirming payment")
    else if newStatus == "DELIVERED" && current != "PAYMENT_RECEIVED" then Err("Payment must be received before delivery")
    else if newStatus == "PAYMENT_RECEIVED" && paymentMethod == Some("COD") then
      var collected := if codBox.Some? then codBox.value else false;
      if !collected then Err("Please confirm COD collection by checking the checkbox") else Ok(Some(true))
    else Ok(None)
  }

  /** The body of the status request. */
  datatype StatusBody = StatusBody(orderId: int, deliveryPersonId: int, status: string, codCollected: Option<bool>)

  /** `findIndex` by id: the first position holding the order, or -1. */
  function IndexOfOrder(orders: seq<TaskOrder>, id: int): (k: int)
    ensures -1 <= k < |orders|
    ensures k >= 0 ==> orders[k].id == id
    ensures forall j :: 0 <= j < |orders| && (k < 0 || j < k) ==> orders[j].id != id
  {
    if orders == [] then -1
    else if orders[0].id == id then 0
    else
      var k := IndexOfOrder(orders[1..], id);
      assert forall j :: 1 <= j < |orders| ==> orders[j] == orders[1..][j - 1];
      if k < 0 then -1 else k + 1
  }

  // ---------------------------------------------------------------------------
  // The order list and its counters.
  // ---------------------------------------------------------------------------

  predicate IsActive(o: TaskOrder) { o.status != "DELIVERED" && o.status != "CANCELLED" }

  predicate IsClosed(o: TaskOrder) { o.status == "DELIVERED" || o.status == "CANCELLED" }

  /** The orders `filterOrders` shows for a tab; any tab but active and completed shows all. */
  predicate OnTab(o: TaskOrder, filter: string)
  {
    if filter == "active" then IsActive(o) else if filter == "completed" then IsClosed(o) else true
  }

  function TabOrders(orders: seq<TaskOrder>, filter: string): (r: seq<TaskOrder>)
    ensures |r| <= |orders|
    ensures forall k :: 0 <= k < |r| ==> r[k] in orders && OnTab(r[k], filter)
    ensures forall k :: 0 <= k < |orders| && OnTab(orders[k], filter) ==> orders[k] in r
    ensures IsSubseq(r, orders)
  {
    if orders == [] then []
    else if OnTab(orders[0], filter) then [orders[0]] + TabOrders(orders[1..], filter)
    else TabOrders(orders[1..], filter)
  }

  /** `updateQuickStats`' active count: orders neither delivered nor cancelled. */
  function ActiveCount(orders: seq<TaskOrder>): (n: nat)
    ensures n <= |orders|
  {
    if orders == [] then 0 else (if IsActive(orders[0]) then 1 else 0) + ActiveCount(orders[1..])
  }

  /** The completed count: delivered orders only. */
  function CompletedCount(orders: seq<TaskOrder>): (n: nat)
    ensures n <= |orders|
  {
    if orders == [] then 0 else (if orders[0].status == "DELIVERED" then 1 else 0) + CompletedCount(orders[1..])
  }

  function CancelledCount(orders: seq<TaskOrder>): (n: nat)
  {
    if orders == [] then 0 else (if orders[0].status == "CANCELLED" then 1 else 0) + CancelledCount(orders[1..])
  }

  /** Active, completed and cancelled are every order once; cancelled ones are counted in neither box. */
  lemma {:induction false} CountsPartition(orders: seq<TaskOrder>)
    ensures ActiveCount(orders) + CompletedCount(orders) + CancelledCount(orders) == |orders|
  {
    if orders != [] {
      CountsPartition(orders[1..]);
    }
  }

  /** The active and completed tabs split the list. */
  lemma {:induction false} TabsSplit(orders: seq<TaskOrder>)
    ensures |TabOrders(orders, "active")| + |TabOrders(orders, "completed")| == |orders|
    ensures |TabOrders(orders, "active")| == ActiveCount(orders)
  {
    if orders != [] {
      TabsSplit(orders[1..]);
    }
  }

  /** The dashboard's list state: the assigned orders and the selected one. */
  class Board {
    var currentOrders: seq<TaskOrder>
    var selectedOrderId: Option<int>

    constructor (loaded: seq<TaskOrder>)
      ensures currentOrders == loaded && selectedOrderId == None
    {
      currentOrders := loaded;
      selectedOrderId := None;
    }

    /**
     * `filterOrders`: the tab's subset is rendered, then the list is put
     * back exactly as it was.
     */
    method FilterOrders(filter: string) returns (rendered: seq<TaskOrder>)
      modifies this`currentOrders
      ensures rendered == TabOrders(old(currentOrders), filter)
      ensures currentOrders == old(currentOrders)
    {
      var original := currentOrders;
      currentOrders := TabOrders(currentOrders, filter);
      rendered := currentOrders;
      currentOrders := original;
    }

    /**
     * `updateStatus`: nothing without a selection or a known order; the
     * client checks, then the confirmation, then the request; `response`
     * is the server's answer.  The answer replaces that order in the list
     * and nothing else changes.
     */
    method UpdateStatus(partnerId: int, newStatus: string, codBox: Option<bool>, confirmed: bool,
                        response: Result<TaskOrder, string>) returns (sent: Option<StatusBody>, message: string)
      modifies this`currentOrders
      ensures selectedOrderId.None? || selectedOrderId == Some(0) ==> sent == None && message == "Select an order first."
      ensures sent.None? || response.Err? ==> currentOrders == old(currentOrders)
      ensures sent.Some? ==>
                && selectedOrderId.Some? && selectedOrderId != Some(0) && confirmed
                && var k := IndexOfOrder(old(currentOrders), selectedOrderId.value);
                && k >= 0
                && var check := StatusCheck(old(currentOrders)[k].status, old(currentOrders)[k].paymentMethod, newStatus, codBox);
                && check.Ok?
                && sent.value == StatusBody(selectedOrderId.value, partnerId, newStatus, check.value)
                && (response.Ok? ==> currentOrders == old(currentOrders)[k := response.value]
                                     && message == "Order status updated to " + newStatus)
                && (response.Err? ==> message == "Failed to update order status: "
                                                 + (if response.error == "" then "Failed to update status" else response.error))
      ensures selectedOrderId.Some? && selectedOrderId != Some(0) && IndexOfOrder(old(currentOrders), selectedOrderId.value) >= 0
              && confirmed ==>
                var o := old(currentOrders)[IndexOfOrder(old(currentOrders), selectedOrderId.value)];
                sent.Some? <==> StatusCheck(o.status, o.paymentMethod, newStatus, codBox).Ok?
    {
      if selectedOrderId.None? || selectedOrderId == Some(0) {
        return None, "Select an order first.";
      }
      var id := selectedOrderId.value;
      var k := IndexOfOrder(currentOrders, id);
      if k < 0 {
        return None, "";
      }
      var order := currentOrders[k];
      var check := StatusCheck(order.status, order.paymentMethod, newStatus, codBox);
      if check.Err? {
        return None, check.error;
      }
      if !confirmed {
        return None, "";
      }
      sent := Some(StatusBody(id, partnerId, newStatus, check.value));
      if response.Err? {
        message := "Failed to update order status: "
                   + (if response.error == "" then "Failed to update status" else response.error);
        return;
      }
      currentOrders := currentOrders[k := response.value];
      message := "Order status updated to " + newStatus;
    }
  }

  // ---------------------------------------------------------------------------
  // Buttons.
  // ---------------------------------------------------------------------------

  datatype Buttons = Buttons(pickupEnabled: bool, pickupDone: bool, paymentShown: bool, codBoxShown: bool,
                             deliverEnabled: bool, cancelEnabled: bool)

  /** The button states `showOrderDetails` sets for an order. */
  function ButtonsFor(status: string, paymentMethod: Option<string>): (b: Buttons)
    ensures b.pickupEnabled <==> status == "ASSIGNED"
    ensures b.deliverEnabled <==> status == "PAYMENT_RECEIVED"
    ensures !b.cancelEnabled <==> status == "CANCELLED" || status == "DELIVERED"
    ensures b.codBoxShown <==> b.paymentShown && paymentMethod == Some("COD")
  {
    Buttons(status == "ASSIGNED", status == "PICKED_UP", status == "PICKED_UP",
            status == "PICKED_UP" && paymentMethod == Some("COD"),
            status == "PAYMENT_RECEIVED", !(status == "CANCELLED" || status == "DELIVERED"))
  }

  /**
   * The buttons agree with the guards: a usable button's step passes the
   * client check (a cash payment also needs its box ticked), and a step
   * whose button is unusable is refused.
   */
  lemma ButtonsMatchGuards(status: string, paymentMethod: Option<string>, codBox: Option<bool>)
    ensures ButtonsFor(status, paymentMethod).pickupEnabled <==> StatusCheck(status, paymentMethod, "PICKED_UP", codBox).Ok?
    ensures ButtonsFor(status, paymentMethod).deliverEnabled <==> StatusCheck(status, paymentMethod, "DELIVERED", codBox).Ok?
    ensures StatusCheck(status, paymentMethod, "PAYMENT_RECEIVED", codBox).Ok? <==>
              ButtonsFor(status, paymentMethod).paymentShown && (ButtonsFor(status, paymentMethod).codBoxShown ==> codBox == Some(true))
  {
  }

  /** `getBadgeColor`. */
  function BadgeColor(badge: string): (c: string)
    ensures badge !in {"GOLD", "SILVER", "BRONZE"} <==> c == "white"
    ensures badge == "GOLD" ==> c == "#FFD700"
    ensures badge == "SILVER" ==> c == "#C0C0C0"
    ensures badge == "BRONZE" ==> c == "#CD7F32"
  {
    if badge == "GOLD" then "#FFD700"
    else if badge == "SILVER" then "#C0C0C0"
    else if badge == "BRONZE" then "#CD7F32"
    else "white"
  }

  // ---------------------------------------------------------------------------
  // Address and timeline.
  // ---------------------------------------------------------------------------

  /** The present parts, in order: street, city, district, province, postal code and "(landmark)". */
  function AddressParts(o: TaskOrder): (parts: seq<string>)
    ensures forall k :: 0 <= k < |parts| ==> parts[k] != ""
    ensures parts == [] <==> !Present(o.streetAddress) && !Present(o.city) && !Present(o.district)
                             && !Present(o.province) && !Present(o.postalCode) && !Present(o.landmark)
  {
    (if Present(o.streetAddress) then [o.streetAddress.value] else [])
    + (if Present(o.city) then [o.city.value] else [])
    + (if Present(o.district) then [o.district.value] else [])
    + (if Present(o.province) then [o.province.value] else [])
    + (if Present(o.postalCode) then [o.postalCode.value] else [])
    + (if Present(o.landmark) then ["(" + o.landmark.value + ")"] else [])
  }

  /** `buildFullAddress`: the present parts joined with ", "; nothing for no order. */
  function FullAddress(o: Option<TaskOrder>): (s: string)
    ensures o.None? ==> s == ""
    ensures o.Some? ==> s == Join(AddressParts(o.value), ", ")
  {
    if o.None? then "" else Join(AddressParts(o.value), ", ")
  }

  /** Joining non-empty parts is empty exactly when there are none. */
  lemma {:induction false} JoinEmptyIff(parts: seq<string>, sep: string)
    requires forall k :: 0 <= k < |parts| ==> parts[k] != ""
    ensures Join(parts, sep) == "" <==> parts == []
  {
    if |parts| > 1 {
      assert Join(parts, sep) == Join(parts[..|parts| - 1], sep) + sep + parts[|parts| - 1];
      assert |Join(parts, sep)| >= |parts[|parts| - 1]|;
    }
  }

  /** The map link's address is empty exactly when the order has no address field at all. */
  lemma FullAddressEmptyIff(o: TaskOrder)
    ensures FullAddress(Some(o)) == "" <==> !Present(o.streetAddress) && !Present(o.city) && !Present(o.district)
                                            && !Present(o.province) && !Present(o.postalCode) && !Present(o.landmark)
  {
    JoinEmptyIff(AddressParts(o), ", ");
  }

  datatype AddressView = NotSpecified | Rows(rows: seq<(string, string)>)

  /** The row `renderStructuredAddress` pushes for a field: one labelled row when the value is present, else none. */
  function Row(heading: string, value: Option<string>): seq<(string, string)>
  {
    if Present(value) then [(heading, value.value)] else []
  }

  /** The shared city, district and province line: the present ones joined with ", ", if any is present. */
  function AreaLine(o: TaskOrder): (line: Option<string>)
    ensures Present(line) <==> Present(o.city) || Present(o.district) || Present(o.province)
    ensures line.Some? ==>
              line.value == Join((if Present(o.city) then [o.city.value] else [])
                                 + (if Present(o.district) then [o.district.value] else [])
                                 + (if Present(o.province) then [o.province.value] else []), ", ")
  {
    var area := (if Present(o.city) then [o.city.value] else [])
                + (if Present(o.district) then [o.district.value] else [])
                + (if Present(o.province) then [o.province.value] else []);
    JoinEmptyIff(area, ", ");
    if area != [] then Some(Join(area, ", ")) else None
  }

  /**
   * `renderStructuredAddress`: one labelled row per present field, in the
   * page's order (city, district and province share a row), or "Address
   * not specified" when there is none.
   */
  function StructuredAddress(o: TaskOrder): (v: AddressView)
    ensures v.NotSpecified? <==> !Present(o.recipientName) && !Present(o.recipientPhone) && !Present(o.streetAddress)
                                 && !Present(o.city) && !Present(o.district) && !Present(o.province)
                                 && !Present(o.postalCode) && !Present(o.landmark)
    ensures v.Rows? ==> |v.rows| > 0 && Filled(v.rows)
    ensures v.Rows? ==>
              v.rows == Row("Recipient", o.recipientName) + Row("Phone", o.recipientPhone) + Row("Street", o.streetAddress)
                        + Row("City/District/Province", AreaLine(o)) + Row("Postal Code", o.postalCode)
                        + Row("Landmark", o.landmark)
  {
    var r1 := AddRow([], "Recipient", o.recipientName);
    var r2 := AddRow(r1, "Phone", o.recipientPhone);
    var r3 := AddRow(r2, "Street", o.streetAddress);
    var r4 := AddRow(r3, "City/District/Province", AreaLine(o));
    var r5 := AddRow(r4, "Postal Code", o.postalCode);
    var rows := AddRow(r5, "Landmark", o.landmark);
    assert r1 == Row("Recipient", o.recipientName);
    if rows == [] then NotSpecified else Rows(rows)
  }

  /** Every row has a value to show. */
  predicate Filled(rows: seq<(string, string)>)
  {
    forall k :: 0 <= k < |rows| ==> rows[k].1 != ""
  }

  /** `rows` with a labelled row for `value` appended when the value is present. */
  function AddRow(rows: seq<(string, string)>, heading: string, value: Option<string>): (r: seq<(string, string)>)
    ensures r == [] <==> rows == [] && !Present(value)
    ensures Filled(rows) ==> Filled(r)
    ensures Present(value) ==> r == rows + [(heading, value.value)]
    ensures !Present(value) ==> r == rows
    ensures r == rows + Row(heading, value)
  {
    if Present(value) then rows + [(heading, value.value)] else rows
  }

  const StatusOrder: seq<string> := ["PLACED", "ASSIGNED", "PICKED_UP", "PAYMENT_RECEIVED", "DELIVERED"]

  /** `statusOrder.indexOf(status)`. */
  function StatusIndex(status: string): (i: int)
    ensures -1 <= i < |StatusOrder|
    ensures i >= 0 ==> StatusOrder[i] == status
    ensures i < 0 <==> status !in StatusOrder
  {
    if status == "PLACED" then 0 else if status == "ASSIGNED" then 1 else if status == "PICKED_UP" then 2
    else if status == "PAYMENT_RECEIVED" then 3 else if status == "DELIVERED" then 4 else -1
  }

  datatype StepClass = Completed | Active | Pending

  /** One timeline step's class: a stamped step is completed, the current one active, earlier ones completed. */
  function StepClassOf(stamped: bool, index: int, current: int): StepClass
  {
    if stamped then Completed else if index == current then Active else if index < current then Completed else Pending
  }

  /** Which of the five steps carry a time stamp, in step order. */
  function Stamps(o: TaskOrder): (stamps: seq<bool>)
    ensures |stamps| == 5
  {
    [o.createdAt.Some?, o.assignedAt.Some?, o.pickedUpAt.Some?, o.paymentReceivedAt.Some?, o.deliveredAt.Some?]
  }

  /**
   * `renderTimeline`'s five classes: a stamped step is completed; an
   * unstamped one is active at the status's own step, completed before it
   * and pending after it.
   */
  function Timeline(o: TaskOrder): (t: seq<StepClass>)
    ensures |t| == 5
    ensures forall i :: 0 <= i < 5 && Stamps(o)[i] ==> t[i] == Completed
    ensures forall i :: 0 <= i < 5 && !Stamps(o)[i] ==>
              && (t[i] == Active <==> i == StatusIndex(o.status))
              && (t[i] == Completed <==> i < StatusIndex(o.status))
              && (t[i] == Pending <==> i > StatusIndex(o.status))
  {
    var current := StatusIndex(o.status);
    seq(5, i requires 0 <= i < 5 => StepClassOf(Stamps(o)[i], i, current))
  }

  /**
   * The timeline reads as progress: every step before the status is
   * completed, the status's own step is completed or active, and a later
   * step is completed exactly where it was stamped and pending otherwise.
   * A cancelled order, whose status is not a step, has no active step and
   * marks exactly its stamped steps.
   */
  lemma TimelineProgress(o: TaskOrder, i: int)
    requires 0 <= i < 5
    ensures StatusIndex(o.status) >= 0 && i < StatusIndex(o.status) ==> Timeline(o)[i] == Completed
    ensures i == StatusIndex(o.status) ==> Timeline(o)[i] != Pending
    ensures i > StatusIndex(o.status) ==> Timeline(o)[i] != Active
    ensures i > StatusIndex(o.status) ==>
              (Timeline(o)[i] == Completed <==> Stamps(o)[i]) && (!Stamps(o)[i] ==> Timeline(o)[i] == Pending)
    ensures o.status == "CANCELLED" ==> Timeline(o)[i] != Active && (Timeline(o)[i] == Completed <==> Stamps(o)[i])
  {
  }
}
