/**
 * The admin console script: the orders-table filter, the return actions
 * offered, the text truncation, the product, notification and user forms
 * with the bodies they post, the user search and the chart colours.
 */
module AdminPage {
  import opened Wrappers
  import opened Text

  // ---------------------------------------------------------------------------
  // Orders table.
  // ---------------------------------------------------------------------------

  /** A row of the orders table: the status badge's text, if the row has one, and whether its date is today. */
  datatype OrderRow = OrderRow(statusText: Option<string>, placedToday: bool)

  /**
   * Whether `filterOrders` leaves a row visible.  A row without a badge,
   * and any row under a filter the function does not know, keeps the
   * visibility it had.
   */
  function RowVisible(row: OrderRow, filter: string, before: bool): bool
  {
    if row.statusText.None? then before else StatusVisible(BadgeStatus(row.statusText.value), row.placedToday, filter, before)
  }

  /** The badge text as compared: trimmed and lower-cased. */
  function BadgeStatus(text: string): string
  {
    Lower(JsTrim(text))
  }

  function StatusVisible(status: string, placedToday: bool, filter: string, before: bool): bool
  {
    if filter == "all" then true
    else if filter == "today" then placedToday
    else if filter == "pending" then status == "placed" || status == "assigned" || status == "picked_up"
    else if filter == "delivered" then status == "delivered"
    else if filter == "cancelled" then status == "cancelled"
    else before
  }

  /** `filterOrders`: one pass over the rows, setting each row's visibility. */
  method FilterOrders(rows: seq<OrderRow>, visible: array<bool>, filter: string)
    requires visible.Length == |rows|
    modifies visible
    ensures forall k :: 0 <= k < |rows| ==> visible[k] == RowVisible(rows[k], filter, old(visible[k]))
  {
    var i := 0;
    while i < |rows|
      invariant 0 <= i <= |rows|
      invariant forall k :: 0 <= k < i ==> visible[k] == RowVisible(rows[k], filter, old(visible[k]))
      invariant forall k :: i <= k < |rows| ==> visible[k] == old(visible[k])
    {
      ShowRow(rows[i], visible, i, filter);
      i := i + 1;
    }
  }

  /** The loop body of `filterOrders`: the display of row `i` and nothing else. */
  method ShowRow(row: OrderRow, visible: array<bool>, i: nat, filter: string)
    requires i < visible.Length
    modifies visible
    ensures visible[i] == RowVisible(row, filter, old(visible[i]))
    ensures forall k :: 0 <= k < visible.Length && k != i ==> visible[k] == old(visible[k])
  {
    if row.statusText.Some? {
      var status := BadgeStatus(row.statusText.value);
      if filter == "all" {
        visible[i] := true;
      } else if filter == "today" {
        visible[i] := row.placedToday;
      } else if filter == "pending" {
        visible[i] := status == "placed" || status == "assigned" || status == "picked_up";
      } else if filter == "delivered" {
        visible[i] := status == "delivered";
      } else if filter == "cancelled" {
        visible[i] := status == "cancelled";
      }
    }
  }

  /**
   * The pending tab hides a paid-but-undelivered order; delivered and
   * cancelled show only their own status; "all" shows every badged row
   * and "today" the ones placed today.
   */
  lemma FilterMeaning(status: string, placedToday: bool, filter: string, before: bool)
    ensures status == "payment_received" ==> !StatusVisible(status, placedToday, "pending", before)
    ensures StatusVisible(status, placedToday, "delivered", before) <==> status == "delivered"
    ensures StatusVisible(status, placedToday, "cancelled", before) <==> status == "cancelled"
    ensures StatusVisible(status, placedToday, "all", before)
    ensures StatusVisible(status, placedToday, "today", before) == placedToday
    ensures filter !in {"all", "today", "pending", "delivered", "cancelled"} ==>
              StatusVisible(status, placedToday, filter, before) == before
  {
  }

  // ---------------------------------------------------------------------------
  // Returns table and text.
  // ---------------------------------------------------------------------------

  /** The action buttons of a return row: approve and reject while requested, refund once approved. */
  function ReturnActions(returnStatus: string): (actions: seq<string>)
    ensures returnStatus == "REQUESTED" <==> actions == ["APPROVED", "REJECTED"]
    ensures returnStatus == "APPROVED" <==> actions == ["REFUNDED"]
    ensures returnStatus != "REQUESTED" && returnStatus != "APPROVED" <==> actions == []
  {
    if returnStatus == "REQUESTED" then ["APPROVED", "REJECTED"]
    else if returnStatus == "APPROVED" then ["REFUNDED"]
    else []
  }

  /** `truncateText`: empty for no text; the first `n` characters and "..." when longer than `n`. */
  function Truncate(text: Option<string>, n: int): (r: string)
    ensures text.None? || text.value == "" ==> r == ""
    ensures text.Some? && |text.value| <= n ==> r == text.value
    ensures text.Some? && text.value != "" && |text.value| > n ==>
              r == (if n < 0 then "" else text.value[..n]) + "..."
    ensures |r| <= (if n < 0 then 0 else n) + 3
  {
    if text.None? || text.value == "" then ""
    else if |text.value| > n then (if n < 0 then "" else text.value[..n]) + "..."
    else text.value
  }

  /** Truncating what was already truncated to the same width changes nothing. */
  lemma TruncateIdempotent(text: Option<string>, n: nat)
    ensures Truncate(Some(Truncate(text, n)), n) == Truncate(text, n)
  {
    var r := Truncate(text, n);
    if text.Some? && text.value != "" && |text.value| > n {
      assert r[..n] == text.value[..n];
    }
  }

  // ---------------------------------------------------------------------------
  // Product form.
  // ---------------------------------------------------------------------------

  /** The product form as read: `price` and `stock` are `None` where parsing gave NaN. */
  datatype ProductForm = ProductForm(name: string, price: Option<real>, stock: Option<int>, categoryId: string,
                                     storeId: string, description: string)

  /** The multipart fields `addProduct` sends; the description only when there is one. */
  datatype ProductFields = ProductFields(name: string, price: real, stock: int, categoryId: string, storeId: string,
                                         description: Option<string>)

  /**
   * `addProduct`: every required value must be truthy, so a zero price or a
   * zero stock is refused along with a missing one; a negative price passes.
   */
  function ProductSubmission(form: ProductForm): (r: Result<ProductFields, string>)
    ensures r.Err? <==> JsTrim(form.name) == "" || form.price.None? || form.price == Some(0.0)
                        || form.stock.None? || form.stock == Some(0) || form.categoryId == "" || form.storeId == ""
    ensures r.Err? ==> r.error == "Please fill all required fields"
    ensures r.Ok? ==> && r.value.name == JsTrim(form.name) && Some(r.value.price) == form.price
                      && Some(r.value.stock) == form.stock
                      && r.value.categoryId == form.categoryId && r.value.storeId == form.storeId
                      && (r.value.description.Some? <==> JsTrim(form.description) != "")
                      && (r.value.description.Some? ==> r.value.description.value == JsTrim(form.description))
  {
    var name := JsTrim(form.name);
    var description := JsTrim(form.description);
    if name == "" || form.price.None? || form.price.value == 0.0 || form.stock.None? || form.stock.value == 0
       || form.categoryId == "" || form.storeId == "" then
      Err("Please fill all required fields")
    else
      Ok(ProductFields(name, form.price.value, form.stock.value, form.categoryId, form.storeId,
                       if description == "" then None else Some(description)))
  }

  // ---------------------------------------------------------------------------
  // Notification form.
  // ---------------------------------------------------------------------------

  datatype NotificationBody = NotificationBody(title: string, message: string, notificationType: string,
                                               targetAudience: string, scheduledFor: Option<string>)

  /** The schedule field as sent: its first space turned into "T", then ":00"; null when empty. */
  function ScheduleValue(schedule: string): (r: Option<string>)
    ensures schedule == "" <==> r.None?
    ensures r.Some? && ' ' !in schedule ==> r.value == schedule + ":00"
    ensures r.Some? && ' ' in schedule ==>
              var k := IndexOf(schedule, ' ');
              r.value == schedule[..k] + "T" + schedule[k + 1..] + ":00"
  {
    ReplaceFirstSpec(schedule, ' ', 'T');
    if schedule == "" then None else Some(ReplaceFirst(schedule, ' ', 'T') + ":00")
  }

  /** `sendNotification`: a title and a message that are not blank, both trimmed. */
  function NotificationSubmission(title: string, message: string, notificationType: string, audience: string,
                                  schedule: string): (r: Result<NotificationBody, string>)
    ensures r.Err? <==> JsTrim(title) == "" || JsTrim(message) == ""
    ensures r.Err? ==> r.error == "Please fill title and message"
    ensures r.Ok? ==> r.value == NotificationBody(JsTrim(title), JsTrim(message), notificationType, audience,
                                                  ScheduleValue(schedule))
  {
    var t := JsTrim(title);
    var m := JsTrim(message);
    if t == "" || m == "" then Err("Please fill title and message")
    else Ok(NotificationBody(t, m, notificationType, audience, ScheduleValue(schedule)))
  }

  // ---------------------------------------------------------------------------
  // User form and search.
  // ---------------------------------------------------------------------------

  datatype PartnerFields = PartnerFields(vehicleType: string, vehicleNumber: string, currentLocation: string,
                                         isAvailable: bool)

  datatype UserBody = UserBody(name: string, email: string, password: string, role: string, phone: string,
                               partner: Option<PartnerFields>)

  datatype UserPost = UserPost(endpoint: string, body: UserBody)

  /** The user form as read. */
  datatype UserForm = UserForm(name: string, email: string, password: string, role: string, phone: string,
                               vehicleType: string, vehicleNumber: string, currentLocation: string, isAvailable: bool)

  /**
   * `addNewUser`: name, e-mail, password and role are required; a delivery
   * partner goes to the partner endpoint with the vehicle fields, anyone
   * else to registration without them.
   */
  function UserSubmission(form: UserForm): (r: Result<UserPost, string>)
    ensures r.Err? <==> JsTrim(form.name) == "" || JsTrim(form.email) == "" || form.password == "" || form.role == ""
    ensures r.Err? ==> r.error == "Please fill all required fields"
    ensures r.Ok? ==> (r.value.endpoint == "/api/admin/delivery-partners" <==> form.role == "DELIVERY")
    ensures r.Ok? ==> (r.value.endpoint == "/api/auth/register" <==> form.role != "DELIVERY")
    ensures r.Ok? && form.role != "DELIVERY" ==> r.value.body.partner == None
    ensures r.Ok? && form.role == "DELIVERY" ==>
              r.value.body.partner == Some(PartnerFields(JsTrim(form.vehicleType), JsTrim(form.vehicleNumber),
                                                         JsTrim(form.currentLocation), form.isAvailable))
    ensures r.Ok? ==> && r.value.body.name == JsTrim(form.name) && r.value.body.email == JsTrim(form.email)
                      && r.value.body.password == form.password && r.value.body.role == form.role
                      && r.value.body.phone == JsTrim(form.phone)
  {
    var name := JsTrim(form.name);
    var email := JsTrim(form.email);
    if name == "" || email == "" || form.password == "" || form.role == "" then Err("Please fill all required fields")
    else
      var partner := if form.role == "DELIVERY" then
                       Some(PartnerFields(JsTrim(form.vehicleType), JsTrim(form.vehicleNumber),
                                          JsTrim(form.currentLocation), form.isAvailable))
                     else None;
      var endpoint := if form.role == "DELIVERY" then "/api/admin/delivery-partners" else "/api/auth/register";
      Ok(UserPost(endpoint, UserBody(name, email, form.password, form.role, JsTrim(form.phone), partner)))
  }

  /** The body the Delivery tab's partner form posts: no phone and no vehicle. */
  datatype PartnerTabBody = PartnerTabBody(name: string, email: string, password: string, role: string)

  /**
   * `addDeliveryPartner` on the page: name, e-mail and password are
   * required; the body carries them and the role DELIVERY only.
   */
  function PartnerTabSubmission(name: string, email: string, password: string): (r: Result<PartnerTabBody, string>)
    ensures r.Err? <==> JsTrim(name) == "" || JsTrim(email) == "" || password == ""
    ensures r.Err? ==> r.error == "Please fill all required fields"
    ensures r.Ok? ==> r.value == PartnerTabBody(JsTrim(name), JsTrim(email), password, "DELIVERY")
  {
    var n := JsTrim(name);
    var e := JsTrim(email);
    if n == "" || e == "" || password == "" then Err("Please fill all required fields")
    else Ok(PartnerTabBody(n, e, password, "DELIVERY"))
  }

  /** `searchUsers`: which user cards stay visible. */
  function SearchUsers(texts: seq<string>, query: string): (visible: seq<bool>)
    ensures |visible| == |texts|
    ensures forall k :: 0 <= k < |texts| ==> (visible[k] <==> Contains(Lower(texts[k]), Lower(query)))
  {
    if texts == [] then [] else [Contains(Lower(texts[0]), Lower(query))] + SearchUsers(texts[1..], query)
  }

  /** An empty query shows every card. */
  lemma EmptySearchShowsAll(texts: seq<string>)
    ensures forall k :: 0 <= k < |texts| ==> SearchUsers(texts, "")[k]
  {
    forall k | 0 <= k < |texts|
      ensures SearchUsers(texts, "")[k]
    {
      ContainsEmpty(Lower(texts[k]));
    }
  }

  /** Matching ignores case on both sides. */
  lemma SearchIgnoresCase(texts: seq<string>, query: string)
    ensures SearchUsers(texts, Upper(query)) == SearchUsers(texts, Lower(query))
  {
    assert Lower(Upper(query)) == Lower(Lower(query)) by {
      assert forall i :: 0 <= i < |query| ==> LowerChar(UpperChar(query[i])) == LowerChar(LowerChar(query[i]));
    }
  }

  // ---------------------------------------------------------------------------
  // Charts.
  // ---------------------------------------------------------------------------

  /** The orders chart's colour for a status label; grey for one not in its table. */
  function ChartColour(statusLabel: string): (c: string)
    ensures statusLabel == "PLACED" ==> c == "#ffc107"
    ensures statusLabel == "ASSIGNED" ==> c == "#17a2b8"
    ensures statusLabel == "PICKED_UP" ==> c == "#007bff"
    ensures statusLabel == "DELIVERED" ==> c == "#28a745"
    ensures statusLabel == "CANCELLED" ==> c == "#dc3545"
    ensures statusLabel !in {"PLACED", "ASSIGNED", "PICKED_UP", "DELIVERED", "CANCELLED"} <==> c == "#6c757d"
  {
    if statusLabel == "PLACED" then "#ffc107"
    else if statusLabel == "ASSIGNED" then "#17a2b8"
    else if statusLabel == "PICKED_UP" then "#007bff"
    else if statusLabel == "DELIVERED" then "#28a745"
    else if statusLabel == "CANCELLED" then "#dc3545"
    else "#6c757d"
  }
}
