/**
 * How the browser scripts and the controllers meet: what a body the
 * pages send meets on the server, where the pages' figures and the
 * server's differ, and where one side checks what the other does not.
 */
module Consistency {
  import opened Wrappers
  import opened Text
  import opened ClientCart
  import Statuses
  import OrderController
  import DeliveryController
  import AdminController
  import ShopPage
  import CartPage
  import DeliveryPage
  import AdminPage
  import RegisterPage
  import AuthController
  import UserEntity
  import UserRepository
  import OrderEntity

  // ---------------------------------------------------------------------------
  // Placing an order.
  // ---------------------------------------------------------------------------

  /** The shop page's lines as the order controller reads them. */
  function ServerItems(lines: seq<ShopPage.LineRequest>): (r: seq<OrderController.ItemRequest>)
    ensures |r| == |lines|
    ensures forall k :: 0 <= k < |lines| ==> r[k] == OrderController.ItemRequest(lines[k].productId, lines[k].quantity)
  {
    if lines == [] then []
    else [OrderController.ItemRequest(lines[0].productId, lines[0].quantity)] + ServerItems(lines[1..])
  }

  /** The request the order controller receives for a body the shop page sent. */
  function ShopRequest(p: ShopPage.ShopPayload): OrderController.PlaceOrderRequest
  {
    OrderController.PlaceOrderRequest(Some(p.userId), Some(p.deliveryAddress), Some(ServerItems(p.items)))
  }

  /** A string with a character above U+0020 is not blank to Java. */
  lemma VisibleNotBlank(s: string, k: int)
    requires 0 <= k < |s| && s[k] > ' '
    ensures !IsJavaBlank(s)
  {
    TrimEmptyIff(s, IsJavaSpace);
  }

  /**
   * A body the shop page lets through (its lines are the cart's, never
   * empty, and its address is the trimmed field) passes the controller's
   * shape checks whenever that address holds a printable character.
   */
  lemma ShopOrderPassesShapeChecks(p: ShopPage.ShopPayload, k: int)
    requires p.items != [] && 0 <= k < |p.deliveryAddress| && p.deliveryAddress[k] > ' '
    ensures OrderController.RequestShapeError(ShopRequest(p)).None?
  {
    VisibleNotBlank(p.deliveryAddress, k);
  }

  /**
   * The two trims disagree on control characters: an address of one U+0001
   * passes the page, which keeps it, and the controller, which trims it
   * away, refuses it.
   */
  lemma ControlCharacterAddress(userId: int, cart: seq<CartItem>, now: ShopPage.Moment)
    requires cart != []
    ensures var r := ShopPage.OrderPayload(userId, "\U{1}", cart, None, "COD", "", "", now);
            && r.Ok?
            && OrderController.RequestShapeError(ShopRequest(r.value))
               == Some(Rejection(BadRequest, "deliveryAddress required"))
  {
    ControlCharacterTrims();
    var r := ShopPage.OrderPayload(userId, "\U{1}", cart, None, "COD", "", "", now);
    assert r.Ok? && r.value.deliveryAddress == "\U{1}";
  }

  /** JavaScript keeps U+0001, Java trims it away. */
  lemma ControlCharacterTrims()
    ensures JsTrim("\U{1}") == "\U{1}" && IsJavaBlank("\U{1}")
  {
    assert !IsJsSpace('\U{1}');
    assert TrimStart("\U{1}", IsJsSpace) == "\U{1}";
    TrimEmptyIff("\U{1}", IsJavaSpace);
  }

  /** The cart page posts an empty cart without a check of its own; the controller answers "items required". */
  lemma EmptyCartRefusedByServer(userId: int, address: string)
    requires !IsJavaBlank(address)
    ensures OrderController.RequestShapeError(
              OrderController.PlaceOrderRequest(Some(userId), Some(address), Some([])))
            == Some(Rejection(BadRequest, "items required"))
    ensures CartPage.ItemPairs([]) == []
  {
  }

  /** The total the controller stores for a subtotal: 13% tax on top. */
  function ServerTotal(subtotal: real): (t: real)
    ensures t == subtotal * (113.0 / 100.0)
  {
    subtotal + subtotal * OrderController.TaxRate
  }

  /** The total on the order row `placeOrder` saves is `ServerTotal` of its subtotal. */
  lemma SavedTotalIsServerTotal(o: OrderEntity.Order, id: int, user: UserEntity.User, address: string, subtotal: real, now: int)
    requires OrderController.NewlyPriced(o, id, user, address, subtotal, now)
    ensures o.total == ServerTotal(o.subtotal) && o.total == o.subtotal + o.tax
  {
  }

  /**
   * The shop page shows the stored total only when no promo is applied (or
   * the cart is free): the controller ignores the discount.
   */
  lemma ShopTotalIsServerTotalIff(cart: seq<CartItem>, rate: real)
    ensures ShopPage.ShopTotals(cart, rate).total == ServerTotal(CartSubtotal(cart)) <==>
              rate == 0.0 || CartSubtotal(cart) == 0.0
  {
    var s := CartSubtotal(cart);
    assert ShopPage.ShopTotals(cart, rate).total - ServerTotal(s) == -(rate * s * (113.0 / 100.0));
  }

  /** The cart page shows more than the shop page by the shipping fee and 13% of the discount. */
  lemma CartPageShowsMore(cart: seq<CartItem>, rate: real)
    ensures CartPage.OrderSummary(CartSubtotal(cart), rate).total
            == ShopPage.ShopTotals(cart, rate).total + CartPage.Shipping + (13.0 / 100.0) * rate * CartSubtotal(cart)
  {
  }

  // ---------------------------------------------------------------------------
  // Delivery status.
  // ---------------------------------------------------------------------------

  /** Every status change the delivery page sends passes the controller's order checks. */
  lemma PageStatusPassesServer(current: string, paymentMethod: Option<string>, newStatus: string, codBox: Option<bool>)
    requires DeliveryPage.StatusCheck(current, paymentMethod, newStatus, codBox).Ok?
    ensures DeliveryController.TransitionRefusal(Statuses.ParseOrderStatus(current), newStatus).None?
  {
  }

  /** The page is the stricter side on pick-up: it refuses what the controller would let through. */
  lemma PickUpCheckedOnlyByPage()
    ensures DeliveryPage.StatusCheck("DELIVERED", None, "PICKED_UP", None).Err?
    ensures DeliveryController.TransitionRefusal(Statuses.ParseOrderStatus("DELIVERED"), "PICKED_UP").None?
  {
    DeliveryController.PickedUpIsUnchecked();
  }

  /** Each badge the controller awards has its own colour on the delivery page. */
  lemma EveryBadgeColoured(b: Statuses.Badge)
    ensures DeliveryPage.BadgeColor(b.Name()) != "white"
  {
  }

  // ---------------------------------------------------------------------------
  // Returns.
  // ---------------------------------------------------------------------------

  /** Every action button the admin page offers is one the controller accepts. */
  lemma OfferedActionsAccepted(returnStatus: string, k: int)
    requires 0 <= k < |AdminPage.ReturnActions(returnStatus)|
    ensures AdminController.ValidAction(Some(AdminPage.ReturnActions(returnStatus)[k]))
  {
  }

  // ---------------------------------------------------------------------------
  // Adding a delivery partner.
  // ---------------------------------------------------------------------------

  /** The Add-user form's DELIVERY body as the controller reads it. */
  function FormPartner(b: AdminPage.UserBody): (req: AdminController.PartnerRequest)
    requires b.partner.Some?
    ensures req.name == Some(b.name) && req.phone == Some(b.phone)
    ensures req.currentLocation == Some(b.partner.value.currentLocation) && req.isAvailable == b.partner.value.isAvailable
  {
    var p := b.partner.value;
    AdminController.PartnerRequest(b.email, b.password, Some(b.name), Some(b.phone), Some(p.vehicleType),
                                   Some(p.vehicleNumber), Some(p.currentLocation), p.isAvailable)
  }

  /** The Delivery tab's body as the controller reads it: no phone, and availability left to the default. */
  function TabPartner(b: AdminPage.PartnerTabBody): (req: AdminController.PartnerRequest)
    ensures req.name == Some(b.name) && req.phone == None && req.isAvailable
  {
    AdminController.PartnerRequest(b.email, b.password, Some(b.name), None, None, None, None, true)
  }

  /**
   * A DELIVERY body from the Add-user form (`UserSubmission` gives one with
   * a partner part exactly for that role) under a free e-mail is saved,
   * with the location and the availability box as sent.
   */
  lemma FormPartnerAccepted(users: seq<UserEntity.User>, b: AdminPage.UserBody)
    requires b.partner.Some? && UserRepository.FindByEmail(users, b.email).None?
    ensures var req := FormPartner(b);
            && AdminController.PartnerRefusal(users, req).None?
            && req.currentLocation == Some(b.partner.value.currentLocation)
            && req.isAvailable == b.partner.value.isAvailable
  {
  }

  /**
   * Every body the Delivery tab's form sends (`PartnerTabSubmission`) is
   * refused: a taken e-mail, or else the missing phone.
   */
  lemma TabPartnerRefused(users: seq<UserEntity.User>, b: AdminPage.PartnerTabBody)
    ensures var req := TabPartner(b);
            && AdminController.PartnerRefusal(users, req).Some?
            && (UserRepository.FindByEmail(users, b.email).None? ==>
                  AdminController.PartnerRefusal(users, req) == Some(Rejection(InternalError, "Internal Server Error")))
  {
  }

  // ---------------------------------------------------------------------------
  // Dashboard chart.
  // ---------------------------------------------------------------------------

  /**
   * Each label the status endpoint reports gets its own colour on the
   * chart, none of them the grey fallback.
   */
  lemma ChartLabelsDistinctColours(i: int, j: int)
    requires 0 <= i < |AdminController.StatusLabels| && 0 <= j < |AdminController.StatusLabels|
    ensures AdminPage.ChartColour(AdminController.StatusLabels[i]) != "#6c757d"
    ensures AdminPage.ChartColour(AdminController.StatusLabels[i]) == AdminPage.ChartColour(AdminController.StatusLabels[j])
            ==> i == j
  {
  }

  /** A paid-but-undelivered order, which the status endpoint does not count, would be drawn grey. */
  lemma PaymentReceivedIsGrey()
    ensures AdminPage.ChartColour(Statuses.OrderStatus.PaymentReceived.Name()) == "#6c757d"
  {
  }

  // ---------------------------------------------------------------------------
  // Registration.
  // ---------------------------------------------------------------------------

  /** The registration request the controller receives for the page's body. */
  function RegisterRequestOf(b: RegisterPage.RegistrationBody): AuthController.RegisterRequest
  {
    AuthController.RegisterRequest(Some(b.name), Some(b.email), Some(b.password), Some(b.role), Some(b.phone))
  }

  /**
   * A body that passed the page's checks meets none of the controller's
   * presence checks: the server can still refuse it only as a taken e-mail
   * or as a password equal to the e-mail.
   */
  lemma PageRegistrationRefusals(users: seq<UserEntity.User>, b: RegisterPage.RegistrationBody)
    requires RegisterPage.PhonePattern(b.phone)
    ensures var e := AuthController.RegisterRefusal(users, RegisterRequestOf(b));
            || e.None?
            || e == Some(Rejection(Conflict, "Email already exists"))
            || e == Some(Rejection(BadRequest, "Password cannot be the same as your email"))
  {
    VisibleNotBlank(b.phone, 0);
  }

  /** The controller's conflict status is the one the page reads as a taken address. */
  lemma ConflictShownAsTaken(body: string)
    ensures RegisterPage.RegistrationReply(Answered(Conflict.Code(), body))
            == RegisterPage.Outcome.Failed(Shown("emailError", "An account with this email already exists"))
  {
  }

  /**
   * The page lets a password equal to the e-mail through, once the e-mail
   * is six characters or more ...
   */
  lemma PasswordLikeEmailPassesPage(email: string)
    requires RegisterPage.IsValidEmail(email) && |email| >= 6
    ensures RegisterPage.FieldErrors("a", email, "0123456789", email, email) == []
  {
    assert email != "";
    assert RegisterPage.EmailCheck(email).None?;
    assert RegisterPage.PhonePattern("0123456789");
    assert RegisterPage.PhoneCheck("0123456789").None?;
    assert RegisterPage.PasswordCheck(email).None?;
  }

  /** ... the controller refuses it with a 400 ... */
  lemma PasswordLikeEmailRefused(users: seq<UserEntity.User>, email: string)
    requires UserRepository.FindByEmail(users, email).None?
    ensures AuthController.RegisterRefusal(users, AuthController.RegisterRequest(Some("a"), Some(email), Some(email),
                                                                                 Some("CUSTOMER"), Some("0123456789")))
            == Some(Rejection(BadRequest, "Password cannot be the same as your email"))
  {
    VisibleNotBlank("0123456789", 0);
  }

  /** ... which the page reports only as a failed registration. */
  lemma BadRequestShownAsFailure(body: string)
    ensures RegisterPage.RegistrationReply(Answered(BadRequest.Code(), body))
            == RegisterPage.Outcome.Failed(Shown("emailError", "Registration failed. Please try again."))
  {
  }
}
