/**
 * The plain-record entities: rows the controllers create or rewrite as a
 * whole.  `OrderItem` also carries the return-request columns the order and
 * admin controllers read and write.
 */
module Records {
  import opened Wrappers
  import opened Statuses
  import opened OrderEntity

  datatype Product = Product(id: int, name: string, price: real, stock: int,
                             categoryId: Option<int>, storeId: Option<int>,
                             description: Option<string>, imageUrl: Option<string>)

  /** One line of an order; `order` is the owning `Order` row itself, as the join column resolves it. */
  datatype OrderItem = OrderItem(id: int, order: Order, productId: int, quantity: int, priceAtPurchase: real,
                                 returnStatus: ReturnStatus, returnReason: Option<string>,
                                 returnDescription: Option<string>, refundAmount: Option<real>,
                                 returnRequestedAt: Option<int>, returnProcessedAt: Option<int>)

  datatype Category = Category(id: int, name: string)

  datatype Store = Store(id: int, name: string, location: string)

  /** An online period of a delivery partner; `endTime` is `None` while the period is open. */
  datatype DeliverySession = DeliverySession(id: int, deliveryPersonId: int, startTime: int, endTime: Option<int>)

  datatype Notification = Notification(id: int, title: Option<string>, message: Option<string>,
                                       notificationType: Option<string>, targetAudience: Option<string>,
                                       scheduledFor: Option<int>, createdAt: int, status: NotificationStatus)

  datatype NotificationLog = NotificationLog(id: int, notificationId: int, userId: int, sentAt: int)
}
