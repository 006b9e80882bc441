/** The values an order carries and publishes: delivery information, order
    details, revisions and the domain events of the order lifecycle. */
module OrderEvents {
  import opened Common
  import opened OrderLineItems

  /** Where an order is delivered; only the address is used by the order. */
  datatype DeliveryInformation = DeliveryInformation(deliveryAddress: string)

  /** A requested new quantity for one menu item of an order. */
  datatype RevisedOrderLineItem = RevisedOrderLineItem(menuItemId: string, quantity: Int32)

  /** A requested change to an order. Either part may be absent (`None`
      stands for the source's empty optional or null list). */
  datatype OrderRevision = OrderRevision(
    deliveryInformation: Option<DeliveryInformation>,
    revisedOrderLineItems: Option<seq<RevisedOrderLineItem>>)

  /** A revision changes the line items only when it carries a non-empty list. */
  predicate RevisesLineItems(revision: OrderRevision) {
    revision.revisedOrderLineItems.Some? && |revision.revisedOrderLineItems.value| > 0
  }

  /** What the order line items report for a revision: the totals before and
      after, and their difference. */
  datatype LineItemQuantityChange = LineItemQuantityChange(
    currentOrderTotal: Money, newOrderTotal: Money, delta: Money)

  datatype OrderDetails = OrderDetails(
    consumerId: int, restaurantId: int, lineItems: seq<LineItem>, orderTotal: Money)

  datatype OrderDomainEvent =
    | OrderCreated(orderDetails: OrderDetails, deliveryAddress: string, restaurantName: string)
    | OrderAuthorized
    | OrderRejected
    | OrderCancelled
    | OrderRevisionProposed(revision: OrderRevision, currentOrderTotal: Money, newOrderTotal: Money)
    | OrderRevised(revision: OrderRevision, currentOrderTotal: Money, newOrderTotal: Money)
}
