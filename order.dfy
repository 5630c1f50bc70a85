/** The `Order` entity: one customer order and its delivery life cycle. */
module OrderEntity {
  import opened Wrappers
  import opened Statuses
  import opened UserEntity

  class Order {
    /** Assigned by the identity column; never changed afterwards. */
    const id: int
    /** The customer who placed the order (a non-null join column). */
    const user: User
    var deliveryAddress: string
    var status: OrderStatus
    var createdAt: int
    var subtotal: real
    var tax: real
    var total: real
    var promoCode: Option<string>
    var paymentMethod: string
    var cancelledAt: Option<int>
    var cancelledBy: Option<int>
    var cancelReason: Option<string>
    var paymentReceivedAt: Option<int>
    var deliveryProofImageUrl: Option<string>
    var codCollected: bool
    var cardBrand: Option<string>
    var cardLast4: Option<string>
    var cardExpiry: Option<string>
    var deliveryPerson: User?
    var deliveryNotes: Option<string>
    var assignedAt: Option<int>
    var pickedUpAt: Option<int>
    var deliveredAt: Option<int>
    var paymentStatus: PaymentStatus

    /**
     * A freshly created order: placed now, nothing charged yet, cash on
     * delivery, payment pending, no delivery partner and no timestamps past
     * creation.  The customer and the address are the two non-null columns
     * the caller fills in straight after construction.
     */
    constructor (id: int, user: User, deliveryAddress: string, now: int)
      ensures this.id == id && this.user == user && this.deliveryAddress == deliveryAddress
      ensures createdAt == now && status == Placed
      ensures subtotal == 0.0 && tax == 0.0 && total == 0.0
      ensures paymentMethod == "COD" && paymentStatus == PaymentPending && !codCollected
      ensures deliveryPerson == null && promoCode == None && deliveryNotes == None
      ensures cancelledAt == None && cancelledBy == None && cancelReason == None
      ensures paymentReceivedAt == None && deliveryProofImageUrl == None
      ensures cardBrand == None && cardLast4 == None && cardExpiry == None
      ensures assignedAt == None && pickedUpAt == None && deliveredAt == None
    {
      this.id := id;
      this.user := user;
      this.deliveryAddress := deliveryAddress;
      createdAt := now;
      status := Placed;
      subtotal := 0.0;
      tax := 0.0;
      total := 0.0;
      promoCode := None;
      paymentMethod := "COD";
      cancelledAt := None;
      cancelledBy := None;
      cancelReason := None;
      paymentReceivedAt := None;
      deliveryProofImageUrl := None;
      codCollected := false;
      cardBrand := None;
      cardLast4 := None;
      cardExpiry := None;
      deliveryPerson := null;
      deliveryNotes := None;
      assignedAt := None;
      pickedUpAt := None;
      deliveredAt := None;
      paymentStatus := PaymentPending;
    }

    /** The reason getter reads the `cancelReason` column under another name. */
    function CancelledReason(): Option<string>
      reads this`cancelReason
    {
      cancelReason
    }

    /** Overwrites the cancellation reason and no other field. */
    method SetCancelledReason(reason: Option<string>)
      modifies this`cancelReason
      ensures cancelReason == reason
      ensures CancelledReason() == reason
    {
      cancelReason := reason;
    }
  }
}
