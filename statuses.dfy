/**
 * The status words the entities store as strings.  Every known word is a
 * constructor; any other stored word is kept verbatim in the `...Other` case,
 * so parsing a word and printing it back always gives the word again.
 */
module Statuses {

  /** `Order.status`: PLACED, ASSIGNED, PICKED_UP, PAYMENT_RECEIVED, DELIVERED, CANCELLED. */
  datatype OrderStatus = Placed | Assigned | PickedUp | PaymentReceived | Delivered | Cancelled
                       | StatusOther(word: string)
  {
    function Name(): string
    {
      match this
      case Placed => "PLACED"
      case Assigned => "ASSIGNED"
      case PickedUp => "PICKED_UP"
      case PaymentReceived => "PAYMENT_RECEIVED"
      case Delivered => "DELIVERED"
      case Cancelled => "CANCELLED"
      case StatusOther(w) => w
    }

    /** No known word hides inside the catch-all case. */
    predicate Canonical() { StatusOther? ==> ParseOrderStatus(word).StatusOther? }
  }

  function ParseOrderStatus(w: string): (s: OrderStatus)
    ensures s.Name() == w
  {
    if w == "PLACED" then Placed
    else if w == "ASSIGNED" then Assigned
    else if w == "PICKED_UP" then PickedUp
    else if w == "PAYMENT_RECEIVED" then PaymentReceived
    else if w == "DELIVERED" then Delivered
    else if w == "CANCELLED" then Cancelled
    else StatusOther(w)
  }

  /** Parsing the printed name of a canonical status gives it back, and parsing always yields a canonical one. */
  lemma OrderStatusRoundTrip(s: OrderStatus, w: string)
    ensures s.Canonical() ==> ParseOrderStatus(s.Name()) == s
    ensures ParseOrderStatus(w).Canonical()
  {
  }

  /** `OrderItem.returnStatus`: NONE, REQUESTED, APPROVED, REJECTED, REFUNDED or whatever word was stored. */
  datatype ReturnStatus = ReturnNone | ReturnRequested | ReturnApproved | ReturnRejected | ReturnRefunded
                        | ReturnOther(word: string)
  {
    function Name(): string
    {
      match this
      case ReturnNone => "NONE"
      case ReturnRequested => "REQUESTED"
      case ReturnApproved => "APPROVED"
      case ReturnRejected => "REJECTED"
      case ReturnRefunded => "REFUNDED"
      case ReturnOther(w) => w
    }
  }

  function ParseReturnStatus(w: string): (s: ReturnStatus)
    ensures s.Name() == w
    ensures s.ReturnOther? <==> w !in {"NONE", "REQUESTED", "APPROVED", "REJECTED", "REFUNDED"}
  {
    if w == "NONE" then ReturnNone
    else if w == "REQUESTED" then ReturnRequested
    else if w == "APPROVED" then ReturnApproved
    else if w == "REJECTED" then ReturnRejected
    else if w == "REFUNDED" then ReturnRefunded
    else ReturnOther(w)
  }

  /** `Order.paymentStatus`: the words the controllers write. */
  datatype PaymentStatus = PaymentPending | PaymentCancelled | PaymentRefunded | RefundProcessed
  {
    function Name(): string
    {
      match this
      case PaymentPending => "PENDING"
      case PaymentCancelled => "CANCELLED"
      case PaymentRefunded => "REFUNDED"
      case RefundProcessed => "REFUND_PROCESSED"
    }
  }

  /** `User.role`: ADMIN, CUSTOMER, DELIVERY or any other word a registration supplied. */
  datatype Role = Admin | Customer | Delivery | RoleOther(word: string)
  {
    function Name(): string
    {
      match this
      case Admin => "ADMIN"
      case Customer => "CUSTOMER"
      case Delivery => "DELIVERY"
      case RoleOther(w) => w
    }

    /** No known word hides inside the catch-all case. */
    predicate Canonical() { RoleOther? ==> word !in {"ADMIN", "CUSTOMER", "DELIVERY"} }
  }

  function ParseRole(w: string): (r: Role)
    ensures r.Name() == w
    ensures r.Canonical()
    ensures r.RoleOther? <==> w !in {"ADMIN", "CUSTOMER", "DELIVERY"}
  {
    if w == "ADMIN" then Admin
    else if w == "CUSTOMER" then Customer
    else if w == "DELIVERY" then Delivery
    else RoleOther(w)
  }

  /**
   * For canonical roles, comparing the datatype values and comparing the
   * stored words agree, so the queries that match `Delivery` and the
   * controllers that match the word "DELIVERY" select the same users.
   */
  lemma RoleNameDecides(r: Role, s: Role)
    requires r.Canonical() && s.Canonical()
    ensures r == s <==> r.Name() == s.Name()
  {
  }

  /** `User.performanceBadge`. */
  datatype Badge = Gold | Silver | Bronze
  {
    function Name(): string
    {
      match this
      case Gold => "GOLD"
      case Silver => "SILVER"
      case Bronze => "BRONZE"
    }
  }

  /** `Notification.status` as the admin controller sets it. */
  datatype NotificationStatus = Sent | Scheduled
}
