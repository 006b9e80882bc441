# FTGO order service core, modelled in Dafny

This project models the core of the FTGO order service.

- **The order aggregate** (`Orders.Order`) is a guarded state machine over `OrderState`. Each transition either follows its row of the lifecycle table (`Orders.Lifecycle`) and returns its domain events, or is refused with `UnsupportedStateTransition(state)` and leaves the order as it was. `Revise` can also be refused in APPROVED with `OrderMinimumNotMet`, again leaving the order as it was. The lemmas about sequences of operations are therefore stated over possible histories (`Orders.IsTrace`), in which each attempt either follows its operation's row or keeps the state.
- **Order line items** (`OrderLineItems`) cover the money arithmetic on one line: its total, and the delta for a quantity change. The Java `int` subtraction inside the delta is modelled with its 32-bit wrap-around.
- **Menu lookup** (`Restaurants.FindMenuItem`) is a first-match search over the menu.
- **The order service** (`OrderServices.OrderService`) works over a repository of orders (`map<int, Order>`) and of restaurants.
  - It builds line items from requests and creates orders.
  - It dispatches the update operations onto the aggregate.
  - It logs the events it publishes and the sagas it starts.
- **The two saga definitions** (`CreateOrderSagas`, `ReviseOrderSagas`) are step lists: each step has an optional forward action, an optional reply handler and an optional compensation.
  - Both are built on a generic function (`Sagas.CompensationsOnFailure`). It gives the compensations run when a step fails: those of the earlier steps, last first.
  - Each saga's data builds its commands and records what a reply reports.

Money is an exact integer number of cents; `new Money(Integer.MAX_VALUE)` is `MoneyOfUnits(IntMax)`. Java `int` quantities are the subset type `Int32`.

The helper class `OrderLineItems` (the list inside an order) is not part of this model. `OrderTotal`, the sum of the line totals, is what `getOrderTotal` returns. Its quantity-change computation and its in-place update are passed to the operations that use them as function parameters. No behaviour is invented for them.

## Model

| member | source | states |
|---|---|---|
| OrderLineItems.LineItem.Total | ftgo-order-service-api/src/main/java/net/chrisrichardson/ftgo/orderservice/api/events/OrderLineItem.java:98-100 | a line's total is its price times its quantity: zero for quantity 0, the price for quantity 1, never negative for a non-negative price and quantity |
| OrderLineItems.LineItem.DeltaForChangedQuantity | ftgo-order-service-api/src/main/java/net/chrisrichardson/ftgo/orderservice/api/events/OrderLineItem.java:62-64 | the delta for an unchanged quantity is zero, and when the change fits in an `int` the old total plus the delta is the total at the new quantity |
| OrderLineItems.OrderTotal | ftgo-order-service/src/main/java/net/chrisrichardson/ftgo/orderservice/domain/Order.java:98-100 | the total of no line items is zero and of one line item its line total; `OrderTotalConcat` shows it adds up over joined lists |
| OrderLineItems.OrderTotalIsNonNegative | ftgo-order-service/src/main/java/net/chrisrichardson/ftgo/orderservice/domain/Order.java:98-100 | line totals that are never negative give an order total that is never negative |
| Common.Wrap32 | ftgo-order-service-api/src/main/java/net/chrisrichardson/ftgo/orderservice/api/events/OrderLineItem.java:63 | Java `int` subtraction: the exact difference when it fits in 32 bits, and otherwise a value congruent to it modulo 2^32 |
| OrderLineItems.DeltaMatchesNewTotal | ftgo-order-service-api/src/main/java/net/chrisrichardson/ftgo/orderservice/api/events/OrderLineItem.java:62-68 | when the quantity change fits in an `int`, the old total plus `deltaForChangedQuantity(n)` equals the total with quantity `n` |
| OrderLineItems.NonNegativeQuantitiesDoNotWrap | ftgo-order-service-api/src/main/java/net/chrisrichardson/ftgo/orderservice/api/events/OrderLineItem.java:62-64 | with non-negative quantities the subtraction never wraps, so the delta is price × (n − quantity) |
| OrderLineItems.UnchangedQuantityHasNoDelta | ftgo-order-service-api/src/main/java/net/chrisrichardson/ftgo/orderservice/api/events/OrderLineItem.java:62-64 | `deltaForChangedQuantity(quantity)` is zero |
| OrderLineItems.WrappedDeltaMissesNewTotal | ftgo-order-service-api/src/main/java/net/chrisrichardson/ftgo/orderservice/api/events/OrderLineItem.java:62-64 | for quantity −1 and new quantity `Integer.MAX_VALUE` the subtraction wraps, and old total plus delta is not the new total |
| OrderLineItems.OrderTotalConcat | ftgo-order-service/src/main/java/net/chrisrichardson/ftgo/orderservice/domain/Order.java:98-100 | the order total of two lists joined is the sum of their totals |
| OrderLineItems.OrderTotalAfterQuantityChange | ftgo-order-service-api/src/main/java/net/chrisrichardson/ftgo/orderservice/api/events/OrderLineItem.java:62-64 | changing one line's quantity moves the order total by exactly that line's delta, when the change fits in an `int` |
| OrderLineItems.OrderLineItem.constructor | ftgo-order-service-api/src/main/java/net/chrisrichardson/ftgo/orderservice/api/events/OrderLineItem.java:55-60 | menu item id, name, price and quantity are stored as given |
| OrderLineItems.OrderLineItem.GetTotal | ftgo-order-service-api/src/main/java/net/chrisrichardson/ftgo/orderservice/api/events/OrderLineItem.java:98-100 | the object's total is the total of its current field values |
| OrderLineItems.OrderLineItem.DeltaForChangedQuantity | ftgo-order-service-api/src/main/java/net/chrisrichardson/ftgo/orderservice/api/events/OrderLineItem.java:62-64 | the object's delta is the delta of its current field values |
| OrderLineItems.OrderLineItem.Equals | ftgo-order-service-api/src/main/java/net/chrisrichardson/ftgo/orderservice/api/events/OrderLineItem.java:42-45 | two line items are equal exactly when all four fields are equal |
| OrderLineItems.OrderLineItem.SetQuantity | ftgo-order-service-api/src/main/java/net/chrisrichardson/ftgo/orderservice/api/events/OrderLineItem.java:62-68 | only the quantity changes; when the change fits in an `int`, the new total is the old total plus the delta computed before the change |
| OrderLineItems.OrderLineItem.SetMenuItemId | ftgo-order-service-api/src/main/java/net/chrisrichardson/ftgo/orderservice/api/events/OrderLineItem.java:70-72 | only the menu item id changes, to the given value |
| OrderLineItems.OrderLineItem.SetName | ftgo-order-service-api/src/main/java/net/chrisrichardson/ftgo/orderservice/api/events/OrderLineItem.java:74-76 | only the name changes, to the given value |
| OrderLineItems.OrderLineItem.SetPrice | ftgo-order-service-api/src/main/java/net/chrisrichardson/ftgo/orderservice/api/events/OrderLineItem.java:78-80 | only the price changes, to the given value |
| Restaurants.FindMenuItem | ftgo-order-service/src/main/java/net/chrisrichardson/ftgo/orderservice/domain/Restaurant.java:58-60 | a found item has the requested id and is the first such item in menu order; nothing is found exactly when no item has that id |
| Restaurants.ReviseMenu | ftgo-order-service/src/main/java/net/chrisrichardson/ftgo/orderservice/domain/Restaurant.java:46-48 | revising a menu always fails as unsupported |
| Orders.OperationsAreUnique | ftgo-order-service/src/main/java/net/chrisrichardson/ftgo/orderservice/domain/Order.java:102-202 | each operation has exactly one row in the lifecycle table, so at most one row applies to an operation in a state |
| Orders.Transitioned | ftgo-order-service/src/main/java/net/chrisrichardson/ftgo/orderservice/domain/Order.java:102-202 | an operation succeeds exactly in the state its row starts from; a refusal reports `UnsupportedStateTransition` of that state and leaves it; nothing leaves REJECTED or CANCELLED; every outcome is a step of a possible history |
| Orders.LookupAgreesWithTable | ftgo-order-service/src/main/java/net/chrisrichardson/ftgo/orderservice/domain/Order.java:102-202 | going straight to an operation's own row gives the same answer as searching the whole lifecycle table, in every state |
| Orders.RefusedOutsideItsRow | ftgo-order-service/src/main/java/net/chrisrichardson/ftgo/orderservice/domain/Order.java:107-108 | searching the table, an operation is refused in every state other than the one its row starts from |
| Orders.FinalStatesHaveNoExit | ftgo-order-service/src/main/java/net/chrisrichardson/ftgo/orderservice/domain/Order.java:102-202 | every operation is refused in REJECTED and CANCELLED |
| Orders.FinalStatesAreAbsorbing | ftgo-order-service/src/main/java/net/chrisrichardson/ftgo/orderservice/domain/Order.java:102-202 | in every possible history, where each attempt follows its row or is refused and keeps the state, a rejected or cancelled order stays rejected or cancelled |
| Orders.ApprovalPendingIsNeverReentered | ftgo-order-service/src/main/java/net/chrisrichardson/ftgo/orderservice/domain/Order.java:77-202 | only the constructor puts an order in APPROVAL_PENDING: no possible history, refusals included, returns to it |
| Orders.PendingStatesCanBeLeft | ftgo-order-service/src/main/java/net/chrisrichardson/ftgo/orderservice/domain/Order.java:102-202 | every pending state has an operation that leaves it, and an operation is allowed in a state exactly when the state is pending or APPROVED |
| Orders.FinalStatesAreEnteredOnce | ftgo-order-service/src/main/java/net/chrisrichardson/ftgo/orderservice/domain/Order.java:122-153 | in any attempt, accepted or refused, REJECTED is entered only by rejecting an APPROVAL_PENDING order, CANCELLED only by confirming a CANCEL_PENDING cancel |
| Orders.Order.constructor | ftgo-order-service/src/main/java/net/chrisrichardson/ftgo/orderservice/domain/Order.java:77-84 | a new order is APPROVAL_PENDING, has no id yet and keeps the given consumer, restaurant, delivery information and line items |
| Orders.Order.CreateOrder | ftgo-order-service/src/main/java/net/chrisrichardson/ftgo/orderservice/domain/Order.java:24-47 | a fresh APPROVAL_PENDING order and exactly one `OrderCreated` event whose details carry the restaurant's id and the order total, with the delivery address and restaurant name |
| Orders.Order.GetOrderTotal | ftgo-order-service/src/main/java/net/chrisrichardson/ftgo/orderservice/domain/Order.java:98-100 | the order's total is the total of its line items as they are now |
| Orders.Order.SetId | ftgo-order-service/src/main/java/net/chrisrichardson/ftgo/orderservice/domain/Order.java:90-92 | only the id changes, to the given value |
| Orders.Order.Cancel | ftgo-order-service/src/main/java/net/chrisrichardson/ftgo/orderservice/domain/Order.java:102-110 | APPROVED becomes CANCEL_PENDING with no events; any other state is refused and unchanged |
| Orders.Order.UndoPendingCancel | ftgo-order-service/src/main/java/net/chrisrichardson/ftgo/orderservice/domain/Order.java:112-120 | CANCEL_PENDING becomes APPROVED with no events; any other state is refused and unchanged |
| Orders.Order.NoteCancelled | ftgo-order-service/src/main/java/net/chrisrichardson/ftgo/orderservice/domain/Order.java:122-130 | CANCEL_PENDING becomes CANCELLED with one `OrderCancelled`; any other state is refused and unchanged |
| Orders.Order.NoteApproved | ftgo-order-service/src/main/java/net/chrisrichardson/ftgo/orderservice/domain/Order.java:132-141 | APPROVAL_PENDING becomes APPROVED with one `OrderAuthorized`; any other state is refused and unchanged |
| Orders.Order.NoteRejected | ftgo-order-service/src/main/java/net/chrisrichardson/ftgo/orderservice/domain/Order.java:143-153 | APPROVAL_PENDING becomes REJECTED with one `OrderRejected`; any other state is refused and unchanged |
| Orders.Order.Revise | ftgo-order-service/src/main/java/net/chrisrichardson/ftgo/orderservice/domain/Order.java:159-174 | only an APPROVED order can be revised; a new total at or above `orderMinimum` fails with the state unchanged; otherwise REVISION_PENDING with `OrderRevisionProposed(current, new)`; either way the outcome is a step of a possible history |
| Orders.Order.RejectRevision | ftgo-order-service/src/main/java/net/chrisrichardson/ftgo/orderservice/domain/Order.java:176-184 | REVISION_PENDING becomes APPROVED with no events; any other state is refused and unchanged |
| Orders.Order.ConfirmRevision | ftgo-order-service/src/main/java/net/chrisrichardson/ftgo/orderservice/domain/Order.java:186-202 | REVISION_PENDING becomes APPROVED with `OrderRevised` carrying the totals of the line items before the update; delivery information is replaced only when given, line items are updated only for a non-empty list; a refusal changes nothing |
| Sagas.Unwind | ftgo-order-service/src/main/java/net/chrisrichardson/ftgo/orderservice/sagas/createorder/CreateOrderSaga.java:55-57 | the compensations of the completed steps: at most one per step, and the last step's first when it has one; `UnwindFollowsCompensatedSteps` pins down each one |
| Sagas.CompensationsOnFailure | ftgo-order-service/src/main/java/net/chrisrichardson/ftgo/orderservice/sagas/createorder/CreateOrderSaga.java:55-57 | the compensations run when a step fails are those of the steps before it in reverse completion order; a failure of the first step runs none |
| Sagas.CompensatedSteps | ftgo-order-service/src/main/java/net/chrisrichardson/ftgo/orderservice/sagas/createorder/CreateOrderSaga.java:55-57 | the indices of the completed steps that have a compensation, strictly decreasing, and every such step is among them |
| Sagas.UnwindFollowsCompensatedSteps | ftgo-order-service/src/main/java/net/chrisrichardson/ftgo/orderservice/sagas/createorder/CreateOrderSaga.java:55-57 | the k-th compensation run is that of the k-th step in reverse completion order |
| Sagas.UnwindIsReversedForward | ftgo-order-service/src/main/java/net/chrisrichardson/ftgo/orderservice/sagas/createorder/CreateOrderSaga.java:55-57 | compensations run in exactly the reverse of the order in which their steps completed |
| CreateOrderSagas.MakeTicketLineItems | ftgo-order-service/src/main/java/net/chrisrichardson/ftgo/orderservice/sagas/createorder/CreateOrderSagaState.java:93-99 | one ticket line item per order line item, in order, with the same menu item id, name and quantity |
| CreateOrderSagas.DefinitionSteps | ftgo-order-service/src/main/java/net/chrisrichardson/ftgo/orderservice/sagas/createorder/CreateOrderSaga.java:31-67 | six steps: reject as compensation only; validate; create ticket with its reply handler and cancel as compensation; authorize; confirm ticket; approve; only steps 1 and 3 have compensations |
| CreateOrderSagas.CompensationsOnEachFailure | ftgo-order-service/src/main/java/net/chrisrichardson/ftgo/orderservice/sagas/createorder/CreateOrderSaga.java:31-67 | a failure before the ticket exists only rejects the order; a later one cancels the ticket, then rejects the order |
| CreateOrderSagas.FailureAtAuthorize | ftgo-order-service/src/main/java/net/chrisrichardson/ftgo/orderservice/sagas/createorder/CreateOrderSaga.java:31-63 | failure at authorize runs [cancel ticket, reject order] |
| CreateOrderSagas.FailureAtValidate | ftgo-order-service/src/main/java/net/chrisrichardson/ftgo/orderservice/sagas/createorder/CreateOrderSaga.java:31-35 | failure at validate runs [reject order] |
| CreateOrderSagas.CreateOrderSagaState.constructor | ftgo-order-service/src/main/java/net/chrisrichardson/ftgo/orderservice/sagas/createorder/CreateOrderSagaState.java:52-55 | stores the order id and details; the ticket id starts at 0 |
| CreateOrderSagas.CreateOrderSagaState.SetOrderId | ftgo-order-service/src/main/java/net/chrisrichardson/ftgo/orderservice/sagas/createorder/CreateOrderSagaState.java:71-73 | only the order id changes |
| CreateOrderSagas.CreateOrderSagaState.SetTicketId | ftgo-order-service/src/main/java/net/chrisrichardson/ftgo/orderservice/sagas/createorder/CreateOrderSagaState.java:75-77 | only the ticket id changes |
| CreateOrderSagas.CreateOrderSagaState.HandleCreateTicketReply | ftgo-order-service/src/main/java/net/chrisrichardson/ftgo/orderservice/sagas/createorder/CreateOrderSagaState.java:101-104 | only the ticket id changes, to the reply's; the confirm command then carries it |
| CreateOrderSagas.CreateOrderSagaState.MakeCreateTicketCommand | ftgo-order-service/src/main/java/net/chrisrichardson/ftgo/orderservice/sagas/createorder/CreateOrderSagaState.java:84-99 | carries the details' restaurant id, the order id, and one ticket line item per order line item with the same id, name and quantity |
| CreateOrderSagas.CreateOrderSagaState.MakeCancelCreateTicketCommand | ftgo-order-service/src/main/java/net/chrisrichardson/ftgo/orderservice/sagas/createorder/CreateOrderSagaState.java:106-108 | carries exactly the saga's order id |
| CreateOrderSagas.CreateOrderSagaState.MakeRejectOrderCommand | ftgo-order-service/src/main/java/net/chrisrichardson/ftgo/orderservice/sagas/createorder/CreateOrderSagaState.java:110-112 | carries exactly the saga's order id |
| CreateOrderSagas.CreateOrderSagaState.MakeValidateOrderByConsumerCommand | ftgo-order-service/src/main/java/net/chrisrichardson/ftgo/orderservice/sagas/createorder/CreateOrderSagaState.java:114-120 | carries the details' consumer id, the order id and the rendered order total |
| CreateOrderSagas.CreateOrderSagaState.MakeAuthorizeCommand | ftgo-order-service/src/main/java/net/chrisrichardson/ftgo/orderservice/sagas/createorder/CreateOrderSagaState.java:122-125 | carries the details' consumer id, the order id and the rendered order total |
| CreateOrderSagas.CreateOrderSagaState.MakeApproveOrderCommand | ftgo-order-service/src/main/java/net/chrisrichardson/ftgo/orderservice/sagas/createorder/CreateOrderSagaState.java:127-129 | carries exactly the saga's order id |
| CreateOrderSagas.CreateOrderSagaState.MakeConfirmCreateTicketCommand | ftgo-order-service/src/main/java/net/chrisrichardson/ftgo/orderservice/sagas/createorder/CreateOrderSagaState.java:131-134 | carries the current ticket id |
| CreateOrderSagas.CreateOrderSagaState.CommandFor | ftgo-order-service/src/main/java/net/chrisrichardson/ftgo/orderservice/sagas/createorder/CreateOrderSaga.java:31-67 | each step endpoint sends its own kind of command on its service's channel; every command but the ticket confirmation names the saga's order, the confirmation names the ticket, and validation and authorization carry the consumer and the rendered total |
| CreateOrderSagas.CreateOrderSagaState.CommandsOnAuthorizeFailure | ftgo-order-service/src/main/java/net/chrisrichardson/ftgo/orderservice/sagas/createorder/CreateOrderSaga.java:55-63 | when authorization fails the saga sends cancel-ticket for this order to the kitchen service, then reject-order for this order to the order service |
| ReviseOrderSagas.DefinitionSteps | ftgo-order-service/src/main/java/net/chrisrichardson/ftgo/orderservice/sagas/reviseorder/ReviseOrderSaga.java:44-55 | five steps: begin revise order (reply handler, undo as compensation), begin revise ticket (undo as compensation), revise authorization, confirm ticket revision, confirm order revision; steps 3 to 5 have no compensation |
| ReviseOrderSagas.CompensationsOnEachFailure | ftgo-order-service/src/main/java/net/chrisrichardson/ftgo/orderservice/sagas/reviseorder/ReviseOrderSaga.java:44-55 | a failure of the first step (the order refuses the revision) undoes nothing; a failure at the ticket step undoes the order revision; a later one undoes the ticket revision, then the order revision |
| ReviseOrderSagas.ReviseOrderSagaData.constructor | ftgo-order-service/src/main/java/net/chrisrichardson/ftgo/orderservice/domain/OrderService.java:187 | stores consumer id, order id, revised total and revision; the restaurant id is unset |
| ReviseOrderSagas.HandleBeginReviseOrderReply | ftgo-order-service/src/main/java/net/chrisrichardson/ftgo/orderservice/sagas/reviseorder/ReviseOrderSaga.java:58-61 | only the revised total changes, to the reply's; the revise-authorization command then carries it |
| ReviseOrderSagas.Build | ftgo-order-service/src/main/java/net/chrisrichardson/ftgo/orderservice/sagas/reviseorder/ReviseOrderSaga.java:68-106 | each builder makes its own kind of command, carrying the order id; order commands go to the order service, ticket commands to the kitchen service with the restaurant id and revised line items, the authorization to the accounting service with the consumer id and current revised total |
| ReviseOrderSagas.CommandsOnAuthorizationFailure | ftgo-order-service/src/main/java/net/chrisrichardson/ftgo/orderservice/sagas/reviseorder/ReviseOrderSaga.java:86-100 | when the authorization revision fails the saga sends undo-ticket-revision to the kitchen, then undo-order-revision to the order service |
| OrderServices.MakeOrderLineItems | ftgo-order-service/src/main/java/net/chrisrichardson/ftgo/orderservice/domain/OrderService.java:121-133 | succeeds exactly when every request names a menu item; then one line item per request, in order, with the requested id and quantity and the menu item's name and price; otherwise fails with the id of the first unknown request |
| OrderServices.AuthorizationFailureRejectsNewOrder | ftgo-order-service/src/main/java/net/chrisrichardson/ftgo/orderservice/sagas/createorder/CreateOrderSaga.java:31-67 | through the service: an order for 10.00 × 2 and 5.00 × 1 is saved as order 1 and its saga starts with 25.00; a failed authorization sends cancel-ticket and then reject-order for order 1, and rejecting it leaves it REJECTED with `OrderRejected` |
| OrderServices.Apply | ftgo-order-service/src/main/java/net/chrisrichardson/ftgo/orderservice/domain/OrderService.java:162-206 | each updater performs its own order transition; only a confirmed revision touches more than the state |
| OrderServices.OrderService.constructor | ftgo-order-service/src/main/java/net/chrisrichardson/ftgo/orderservice/domain/OrderService.java:48-61 | starts with no orders, the given restaurants, nothing published or started, and 1 as the id of the first saved order |
| OrderServices.OrderService.OrdersAreDistinct | ftgo-order-service/src/main/java/net/chrisrichardson/ftgo/orderservice/domain/OrderService.java:155-160 | distinct ids in the repository hold distinct orders |
| OrderServices.OrderService.CreateOrder | ftgo-order-service/src/main/java/net/chrisrichardson/ftgo/orderservice/domain/OrderService.java:70-119 | unknown restaurant fails; then an unknown menu item fails; either failure saves, publishes and starts nothing; success saves a fresh APPROVAL_PENDING order under a new id, publishes its `OrderCreated` and starts a Create Order saga with that id and details carrying the total |
| OrderServices.OrderService.UpdateOrder | ftgo-order-service/src/main/java/net/chrisrichardson/ftgo/orderservice/domain/OrderService.java:155-160 | a missing id fails with `OrderNotFound`; otherwise exactly the updater's transition is applied to that order and its events are published, and a refusal publishes nothing |
| OrderServices.OrderService.ApproveOrder | ftgo-order-service/src/main/java/net/chrisrichardson/ftgo/orderservice/domain/OrderService.java:162-165 | a missing id fails with `OrderNotFound`; otherwise the approve transition, publishing `OrderAuthorized`; the order's id, consumer, restaurant, line items and delivery information are unchanged |
| OrderServices.OrderService.RejectOrder | ftgo-order-service/src/main/java/net/chrisrichardson/ftgo/orderservice/domain/OrderService.java:167-170 | a missing id fails with `OrderNotFound`; otherwise the reject transition, publishing `OrderRejected`; the order's id, consumer, restaurant, line items and delivery information are unchanged |
| OrderServices.OrderService.BeginCancel | ftgo-order-service/src/main/java/net/chrisrichardson/ftgo/orderservice/domain/OrderService.java:172-174 | a missing id fails with `OrderNotFound`; otherwise the begin-cancel transition, publishing no events; the order's id, consumer, restaurant, line items and delivery information are unchanged |
| OrderServices.OrderService.UndoCancel | ftgo-order-service/src/main/java/net/chrisrichardson/ftgo/orderservice/domain/OrderService.java:176-178 | a missing id fails with `OrderNotFound`; otherwise the undo-cancel transition, publishing no events; the order's id, consumer, restaurant, line items and delivery information are unchanged |
| OrderServices.OrderService.ConfirmCancelled | ftgo-order-service/src/main/java/net/chrisrichardson/ftgo/orderservice/domain/OrderService.java:180-182 | a missing id fails with `OrderNotFound`; otherwise the confirm-cancel transition, publishing `OrderCancelled`; the order's id, consumer, restaurant, line items and delivery information are unchanged |
| OrderServices.OrderService.UndoPendingRevision | ftgo-order-service/src/main/java/net/chrisrichardson/ftgo/orderservice/domain/OrderService.java:200-202 | a missing id fails with `OrderNotFound`; otherwise the reject-revision transition, publishing no events; the order's id, consumer, restaurant, line items and delivery information are unchanged |
| OrderServices.OrderService.ConfirmRevision | ftgo-order-service/src/main/java/net/chrisrichardson/ftgo/orderservice/domain/OrderService.java:204-206 | a missing id fails with `OrderNotFound`; otherwise the confirm-revision transition, publishing `OrderRevised` with the totals from before the update; on success delivery information is replaced only when given and line items are updated only for a non-empty list, on refusal both are unchanged; id, consumer and restaurant never change |
| OrderServices.OrderService.ConfirmChangeLineItemQuantity | ftgo-order-service/src/main/java/net/chrisrichardson/ftgo/orderservice/domain/OrderService.java:135-141 | an unknown id yields nothing; a REVISION_PENDING order becomes APPROVED, publishes `OrderRevised` with the totals from before the update, and has its delivery information and line items revised as the order does; any other state is refused with nothing changed or published; id, consumer and restaurant never change |
| OrderServices.OrderService.BeginReviseOrder | ftgo-order-service/src/main/java/net/chrisrichardson/ftgo/orderservice/domain/OrderService.java:192-198 | an unknown id yields nothing; a non-APPROVED order refuses with `UnsupportedStateTransition`; an APPROVED order whose revised total (from the line items before the call) reaches `orderMinimum` refuses with `OrderMinimumNotMet`; either refusal publishes nothing and keeps the state; otherwise the order becomes REVISION_PENDING, `OrderRevisionProposed` is published and the order with its change is returned; only the state ever changes |
| OrderServices.OrderService.Cancel | ftgo-order-service/src/main/java/net/chrisrichardson/ftgo/orderservice/domain/OrderService.java:147-153 | a missing id fails; otherwise only a Cancel Order saga is started, with the consumer, order id and current total |
| OrderServices.OrderService.ReviseOrder | ftgo-order-service/src/main/java/net/chrisrichardson/ftgo/orderservice/domain/OrderService.java:184-190 | a missing id fails; otherwise only a Revise Order saga is started, whose data has no revised total yet |
| OrderServices.OrderService.NoteReversingAuthorization | ftgo-order-service/src/main/java/net/chrisrichardson/ftgo/orderservice/domain/OrderService.java:143-145 | always fails as unsupported |
| OrderServices.OrderService.CreateMenu | ftgo-order-service/src/main/java/net/chrisrichardson/ftgo/orderservice/domain/OrderService.java:208-211 | saves the restaurant under its id, replacing any earlier one |
| OrderServices.OrderService.ReviseMenu | ftgo-order-service/src/main/java/net/chrisrichardson/ftgo/orderservice/domain/OrderService.java:213-218 | an unknown restaurant fails; a known one fails as unsupported; nothing changes |

## Left out

- Persistence is not modelled: JPA mapping, the `@Version` counter and transactions. The repositories are maps, and the saved order gets the next value of a counter as its id.
- The saga framework is not modelled: saga instances, the messaging transport, reply dispatch, retries and timeouts. A started saga is recorded in a log; a step list is data.
- Publishing events and sending commands are not modelled beyond their content: published events go to a log, and a command is a value paired with a symbolic channel.
- Metrics counters and logging are left out; they have no behaviour.
- `OrderServiceProxy` and the other services' channel constants are not part of this model; channels are symbolic names.
- `Money` internals (a decimal) are not part of this model. Amounts are exact integer cents, and `Money.asString()` is kept as the amount it renders.
- The `OrderLineItems` helper class is not part of this model. Its total is the sum of the line totals. Its quantity change and its update are function parameters, so nothing is proved about what they compute.
- Line-item lists are values. In the source, `updateLineItems` updates the `OrderLineItem` objects in place; aliasing between an order's items and the items in events is not captured.
- `Order.noteReversingAuthorization` returns `null` and has no behaviour to model. `Restaurant.verifyRestaurantDetails` is an empty placeholder.
- The no-argument constructors that exist only for persistence are left out, and so are the getters, which return fields unchanged.
- `DeliveryInformation` keeps only the delivery address, the one field this core reads.
- The `ReviseOrderSagaData` class is not part of this model. Its restaurant id is never set by the constructor the service calls, so the model leaves it unset.
- `CancelOrderSaga` is not part of this model; only the data the service starts it with is recorded.
- OrderLineItems.DeltaMatchesNewTotal: holds only when `n - quantity` fits in an `int`, because the source subtracts in 32-bit arithmetic. `WrappedDeltaMissesNewTotal` shows an input where the wrap breaks it.
- OrderLineItems.OrderLineItem.SetQuantity: the new total equals the old total plus the delta only when the quantity change does not wrap, for the same reason.
- Orders.Order.Revise: the bound named `orderMinimum` is `Integer.MAX_VALUE` whole units, and a new total at or above it is refused, so it acts as an upper bound on the revised total, as the code is written.
