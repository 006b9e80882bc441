/** The order service: looks up restaurants and orders, drives the order
    aggregate, publishes the events it returns and starts the sagas. */
module OrderServices {
  import opened Common
  import opened OrderLineItems
  import opened OrderEvents
  import opened Restaurants
  import opened Orders
  import opened CreateOrderSagas
  import opened ReviseOrderSagas
  import opened Sagas

  /** One requested line of a new order. */
  datatype MenuItemIdAndQuantity = MenuItemIdAndQuantity(menuItemId: string, quantity: Int32)

  /** The line item a request becomes, priced from the menu item found for it. */
  function LineItemFor(request: MenuItemIdAndQuantity, item: MenuItem): LineItem {
    LineItem(request.menuItemId, item.name, item.price, request.quantity)
  }

  /** The request names a menu item the restaurant has. */
  predicate OnMenu(restaurant: Restaurant, request: MenuItemIdAndQuantity) {
    FindMenuItem(restaurant.menuItems, request.menuItemId).Some?
  }

  /** Request `k` is the first one whose menu item the restaurant does not have. */
  predicate FirstOffMenu(requests: seq<MenuItemIdAndQuantity>, restaurant: Restaurant, k: int) {
    0 <= k < |requests| && !OnMenu(restaurant, requests[k]) &&
    forall j :: 0 <= j < k ==> OnMenu(restaurant, requests[j])
  }

  /** Every request names a menu item the restaurant has. */
  predicate AllOnMenu(requests: seq<MenuItemIdAndQuantity>, restaurant: Restaurant) {
    forall i :: 0 <= i < |requests| ==> OnMenu(restaurant, requests[i])
  }

  /** `items` holds one line item per request, in order, each priced from
      the menu item found for its request. */
  predicate PricedFromMenu(requests: seq<MenuItemIdAndQuantity>, restaurant: Restaurant, items: seq<LineItem>) {
    |items| == |requests| &&
    forall i :: 0 <= i < |requests| ==>
      OnMenu(restaurant, requests[i]) &&
      items[i] == LineItemFor(requests[i], FindMenuItem(restaurant.menuItems, requests[i].menuItemId).value)
  }

  /** Turns each request into a line item priced from the restaurant's menu.
      The first request whose menu item id is not on the menu fails the whole
      list with `InvalidMenuItemId`. */
  function MakeOrderLineItems(requests: seq<MenuItemIdAndQuantity>, restaurant: Restaurant)
    : (r: Result<seq<LineItem>, Error>)
    ensures r.Ok? <==> AllOnMenu(requests, restaurant)
    ensures r.Ok? ==> PricedFromMenu(requests, restaurant, r.value)
    ensures r.Err? ==> exists k :: FirstOffMenu(requests, restaurant, k) &&
                                   r.error == InvalidMenuItemId(requests[k].menuItemId)
  {
    if requests == [] then Ok([])
    else if !OnMenu(restaurant, requests[0]) then
      assert FirstOffMenu(requests, restaurant, 0);
      Err(InvalidMenuItemId(requests[0].menuItemId))
    else
      var item := FindMenuItem(restaurant.menuItems, requests[0].menuItemId).value;
      var rest := MakeOrderLineItems(requests[1..], restaurant);
      if rest.Err? then
        var k :| FirstOffMenu(requests[1..], restaurant, k) && rest.error == InvalidMenuItemId(requests[1..][k].menuItemId);
        FirstOffMenuShifts(requests, restaurant, k);
        rest
      else
        PricedFromMenuShifts(requests, restaurant, rest.value);
        Ok([LineItemFor(requests[0], item)] + rest.value)
  }

  /** A first unknown request after a known first one is first in the whole list. */
  lemma FirstOffMenuShifts(requests: seq<MenuItemIdAndQuantity>, restaurant: Restaurant, k: int)
    requires |requests| > 0 && OnMenu(restaurant, requests[0])
    requires FirstOffMenu(requests[1..], restaurant, k)
    ensures FirstOffMenu(requests, restaurant, k + 1)
  {
  }

  /** Pricing a known first request in front of the rest prices the whole list. */
  lemma PricedFromMenuShifts(requests: seq<MenuItemIdAndQuantity>, restaurant: Restaurant, rest: seq<LineItem>)
    requires |requests| > 0 && OnMenu(restaurant, requests[0])
    requires PricedFromMenu(requests[1..], restaurant, rest)
    ensures AllOnMenu(requests, restaurant)
    ensures PricedFromMenu(requests, restaurant,
                           [LineItemFor(requests[0], FindMenuItem(restaurant.menuItems, requests[0].menuItemId).value)] + rest)
  {
    var r := [LineItemFor(requests[0], FindMenuItem(restaurant.menuItems, requests[0].menuItemId).value)] + rest;
    assert forall i :: 1 <= i < |requests| ==> requests[i] == requests[1..][i - 1] && r[i] == rest[i - 1];
  }

  /** The data a Cancel Order saga starts with. */
  datatype CancelOrderSagaData = CancelOrderSagaData(consumerId: int, orderId: int, orderTotal: Money)

  /** A saga instance the service asked to be started. */
  datatype SagaInstance =
    | CreateOrderSagaInstance(state: CreateOrderSagaState)
    | CancelOrderSagaInstance(cancelData: CancelOrderSagaData)
    | ReviseOrderSagaInstance(reviseData: ReviseOrderSagaData)

  /** Events published for an order. */
  datatype Publication = Publication(order: Order, events: seq<OrderDomainEvent>)

  /** What `beginReviseOrder` returns: the order and its quantity change. */
  datatype RevisedOrder = RevisedOrder(order: Order, change: LineItemQuantityChange)

  /** The aggregate operations `updateOrder` is given. */
  datatype Updater =
    | NoteApprovedUpdate
    | NoteRejectedUpdate
    | CancelUpdate
    | UndoPendingCancelUpdate
    | NoteCancelledUpdate
    | RejectRevisionUpdate
    | ConfirmRevisionUpdate(revision: OrderRevision,
                            quantityChange: (seq<LineItem>, OrderRevision) -> LineItemQuantityChange,
                            updateLineItems: (seq<LineItem>, OrderRevision) -> seq<LineItem>)

  /** The lifecycle operation each updater performs. */
  function OperationOf(u: Updater): Operation {
    match u
    case NoteApprovedUpdate => Operation.Approve
    case NoteRejectedUpdate => Operation.Reject
    case CancelUpdate => Operation.BeginCancel
    case UndoPendingCancelUpdate => Operation.UndoCancel
    case NoteCancelledUpdate => Operation.ConfirmCancel
    case RejectRevisionUpdate => Operation.RejectRevision
    case ConfirmRevisionUpdate(_, _, _) => Operation.ConfirmRevision
  }

  /** Applies an updater to an order: the transition its operation's row
      allows, and for a confirmed revision the new line items and delivery
      information. Only a confirmed revision touches anything but the state. */
  method Apply(order: Order, u: Updater) returns (r: Result<seq<OrderDomainEvent>, Error>)
    modifies order`state, order`deliveryInformation, order`lineItems
    ensures Transitioned(OperationOf(u), old(order.state), order.state, r)
    ensures !u.ConfirmRevisionUpdate? || r.Err? ==>
              order.lineItems == old(order.lineItems) && order.deliveryInformation == old(order.deliveryInformation)
    ensures u.ConfirmRevisionUpdate? && r.Ok? ==>
              var change := u.quantityChange(old(order.lineItems), u.revision);
              && r.value == [OrderRevised(u.revision, change.currentOrderTotal, change.newOrderTotal)]
              && order.deliveryInformation == (if u.revision.deliveryInformation.Some?
                                               then u.revision.deliveryInformation.value
                                               else old(order.deliveryInformation))
              && order.lineItems == (if RevisesLineItems(u.revision)
                                     then u.updateLineItems(old(order.lineItems), u.revision)
                                     else old(order.lineItems))
  {
    match u
    case NoteApprovedUpdate => r := order.NoteApproved();
    case NoteRejectedUpdate => r := order.NoteRejected();
    case CancelUpdate => r := order.Cancel();
    case UndoPendingCancelUpdate => r := order.UndoPendingCancel();
    case NoteCancelledUpdate => r := order.NoteCancelled();
    case RejectRevisionUpdate => r := order.RejectRevision();
    case ConfirmRevisionUpdate(revision, quantityChange, updateLineItems) =>
      r := order.ConfirmRevision(revision, quantityChange, updateLineItems);
  }

  class OrderService {
    /** The order repository, by order id. */
    var orders: map<int, Order>
    /** The restaurant repository, by restaurant id. */
    var restaurants: map<int, Restaurant>
    /** The id the repository gives the next saved order. */
    var nextOrderId: int
    /** Every publication of domain events, oldest first. */
    var published: seq<Publication>
    /** Every saga the service started, oldest first. */
    var sagas: seq<SagaInstance>

    /** Each stored order and restaurant carries the id it is stored under,
        and the next order id is above every id in use, so distinct ids hold
        distinct orders. */
    predicate Valid()
      reads this, orders.Values
    {
      && (forall id :: id in orders ==> id < nextOrderId && orders[id].id == Some(id))
      && (forall id :: id in restaurants ==> restaurants[id].id == id)
    }

    constructor (restaurants: map<int, Restaurant>)
      requires forall id :: id in restaurants ==> restaurants[id].id == id
      ensures Valid()
      ensures orders == map[] && this.restaurants == restaurants && published == [] && sagas == []
      ensures nextOrderId == 1
    {
      orders := map[];
      this.restaurants := restaurants;
      nextOrderId := 1;
      published := [];
      sagas := [];
    }

    /** Distinct ids of a valid service hold distinct order objects. */
    lemma OrdersAreDistinct(a: int, b: int)
      requires Valid() && a in orders && b in orders && a != b
      ensures orders[a] != orders[b]
    {
    }

    /** `createOrder`: refuses an unknown restaurant, then any request for a
        menu item the restaurant does not have; otherwise saves a new order
        under a fresh id, publishes its `OrderCreated` event and starts a
        Create Order saga for it. */
    method CreateOrder(consumerId: int, restaurantId: int, deliveryInformation: DeliveryInformation,
                       lineItems: seq<MenuItemIdAndQuantity>)
      returns (r: Result<Order, Error>)
      requires Valid()
      modifies this`orders, this`nextOrderId, this`published, this`sagas
      ensures Valid()
      ensures restaurantId !in restaurants ==> r == Err(RestaurantNotFound(restaurantId))
      ensures restaurantId in restaurants && MakeOrderLineItems(lineItems, restaurants[restaurantId]).Err? ==>
                r == Err(MakeOrderLineItems(lineItems, restaurants[restaurantId]).error)
      ensures r.Err? ==> orders == old(orders) && published == old(published) && sagas == old(sagas)
      ensures r.Ok? <==> restaurantId in restaurants && MakeOrderLineItems(lineItems, restaurants[restaurantId]).Ok?
      ensures r.Ok? ==>
                var restaurant := restaurants[restaurantId];
                var items := MakeOrderLineItems(lineItems, restaurant).value;
                var details := OrderDetails(consumerId, restaurantId, items, OrderTotal(items));
                var order := r.value;
                && fresh(order)
                && old(nextOrderId) !in old(orders)
                && orders == old(orders)[old(nextOrderId) := order]
                && order.id == Some(old(nextOrderId)) && order.state == APPROVAL_PENDING
                && order.consumerId == consumerId && order.restaurantId == restaurantId
                && order.deliveryInformation == deliveryInformation && order.lineItems == items
                && published == old(published) +
                     [Publication(order, [OrderCreated(details, deliveryInformation.deliveryAddress, restaurant.name)])]
                && |sagas| == |old(sagas)| + 1 && sagas[..|old(sagas)|] == old(sagas)
                && sagas[|old(sagas)|].CreateOrderSagaInstance?
                && fresh(sagas[|old(sagas)|].state)
                && sagas[|old(sagas)|].state.orderId == old(nextOrderId)
                && sagas[|old(sagas)|].state.orderDetails == details
                && sagas[|old(sagas)|].state.ticketId == 0
    {
      if restaurantId !in restaurants {
        return Err(RestaurantNotFound(restaurantId));
      }
      var restaurant := restaurants[restaurantId];
      var made := MakeOrderLineItems(lineItems, restaurant);
      if made.Err? {
        return Err(made.error);
      }
      var items := made.value;
      var order, events := Order.CreateOrder(consumerId, restaurant, deliveryInformation, items);
      // save: the repository assigns the next id
      var id := nextOrderId;
      order.SetId(id);
      orders := orders[id := order];
      nextOrderId := nextOrderId + 1;
      published := published + [Publication(order, events)];
      var details := OrderDetails(consumerId, restaurantId, items, order.GetOrderTotal());
      var data := new CreateOrderSagaState(id, details);
      sagas := sagas + [CreateOrderSagaInstance(data)];
      r := Ok(order);
    }

    /** `updateOrder`: applies `u` to the stored order and publishes the
        events it returns. An unknown id or a refused transition publishes
        nothing; no other order and no repository changes. */
    method UpdateOrder(orderId: int, u: Updater) returns (r: Result<seq<OrderDomainEvent>, Error>)
      requires Valid()
      modifies this`published, if orderId in orders then {orders[orderId]} else {}
      ensures Valid()
      ensures orderId !in orders ==> r == Err(OrderNotFound(orderId)) && published == old(published)
      ensures orderId in orders ==>
                && Transitioned(OperationOf(u), old(orders[orderId].state), orders[orderId].state, r)
                && orders[orderId].id == old(orders[orderId].id)
                && orders[orderId].consumerId == old(orders[orderId].consumerId)
                && orders[orderId].restaurantId == old(orders[orderId].restaurantId)
                && published == if r.Ok? then old(published) + [Publication(orders[orderId], r.value)]
                                else old(published)
      ensures orderId in orders && (!u.ConfirmRevisionUpdate? || r.Err?) ==>
                orders[orderId].lineItems == old(orders[orderId].lineItems) &&
                orders[orderId].deliveryInformation == old(orders[orderId].deliveryInformation)
      ensures orderId in orders && u.ConfirmRevisionUpdate? && r.Ok? ==>
                var change := u.quantityChange(old(orders[orderId].lineItems), u.revision);
                && r.value == [OrderRevised(u.revision, change.currentOrderTotal, change.newOrderTotal)]
                && orders[orderId].deliveryInformation == (if u.revision.deliveryInformation.Some?
                                                           then u.revision.deliveryInformation.value
                                                           else old(orders[orderId].deliveryInformation))
                && orders[orderId].lineItems == (if RevisesLineItems(u.revision)
                                                 then u.updateLineItems(old(orders[orderId].lineItems), u.revision)
                                                 else old(orders[orderId].lineItems))
    {
      if orderId !in orders {
        return Err(OrderNotFound(orderId));
      }
      var order := orders[orderId];
      r := Apply(order, u);
      if r.Ok? {
        published := published + [Publication(order, r.value)];
      }
    }

    /** `approveOrder`: APPROVAL_PENDING to APPROVED, publishing `OrderAuthorized`. */
    method ApproveOrder(orderId: int) returns (r: Result<seq<OrderDomainEvent>, Error>)
      requires Valid()
      modifies this`published, if orderId in orders then {orders[orderId]} else {}
      ensures Valid()
      ensures orderId !in orders ==> r == Err(OrderNotFound(orderId)) && published == old(published)
      ensures orderId in orders ==>
                && Transitioned(Operation.Approve, old(orders[orderId].state), orders[orderId].state, r)
                && orders[orderId].Identity() == old(orders[orderId].Identity())
                && orders[orderId].lineItems == old(orders[orderId].lineItems)
                && orders[orderId].deliveryInformation == old(orders[orderId].deliveryInformation)
                && published == if r.Ok? then old(published) + [Publication(orders[orderId], [OrderAuthorized])]
                                else old(published)
    {
      r := UpdateOrder(orderId, NoteApprovedUpdate);
    }

    /** `rejectOrder`: APPROVAL_PENDING to REJECTED, publishing `OrderRejected`. */
    method RejectOrder(orderId: int) returns (r: Result<seq<OrderDomainEvent>, Error>)
      requires Valid()
      modifies this`published, if orderId in orders then {orders[orderId]} else {}
      ensures Valid()
      ensures orderId !in orders ==> r == Err(OrderNotFound(orderId)) && published == old(published)
      ensures orderId in orders ==>
                && Transitioned(Operation.Reject, old(orders[orderId].state), orders[orderId].state, r)
                && orders[orderId].Identity() == old(orders[orderId].Identity())
                && orders[orderId].lineItems == old(orders[orderId].lineItems)
                && orders[orderId].deliveryInformation == old(orders[orderId].deliveryInformation)
                && published == if r.Ok? then old(published) + [Publication(orders[orderId], [OrderRejected])]
                                else old(published)
    {
      r := UpdateOrder(orderId, NoteRejectedUpdate);
    }

    /** `beginCancel`: APPROVED to CANCEL_PENDING, with an empty publication. */
    method BeginCancel(orderId: int) returns (r: Result<seq<OrderDomainEvent>, Error>)
      requires Valid()
      modifies this`published, if orderId in orders then {orders[orderId]} else {}
      ensures Valid()
      ensures orderId !in orders ==> r == Err(OrderNotFound(orderId)) && published == old(published)
      ensures orderId in orders ==>
                && Transitioned(Operation.BeginCancel, old(orders[orderId].state), orders[orderId].state, r)
                && orders[orderId].Identity() == old(orders[orderId].Identity())
                && orders[orderId].lineItems == old(orders[orderId].lineItems)
                && orders[orderId].deliveryInformation == old(orders[orderId].deliveryInformation)
                && published == if r.Ok? then old(published) + [Publication(orders[orderId], [])]
                                else old(published)
    {
      r := UpdateOrder(orderId, CancelUpdate);
    }

    /** `undoCancel`: CANCEL_PENDING back to APPROVED, with an empty publication. */
    method UndoCancel(orderId: int) returns (r: Result<seq<OrderDomainEvent>, Error>)
      requires Valid()
      modifies this`published, if orderId in orders then {orders[orderId]} else {}
      ensures Valid()
      ensures orderId !in orders ==> r == Err(OrderNotFound(orderId)) && published == old(published)
      ensures orderId in orders ==>
                && Transitioned(Operation.UndoCancel, old(orders[orderId].state), orders[orderId].state, r)
                && orders[orderId].Identity() == old(orders[orderId].Identity())
                && orders[orderId].lineItems == old(orders[orderId].lineItems)
                && orders[orderId].deliveryInformation == old(orders[orderId].deliveryInformation)
                && published == if r.Ok? then old(published) + [Publication(orders[orderId], [])]
                                else old(published)
    {
      r := UpdateOrder(orderId, UndoPendingCancelUpdate);
    }

    /** `confirmCancelled`: CANCEL_PENDING to CANCELLED, publishing `OrderCancelled`. */
    method ConfirmCancelled(orderId: int) returns (r: Result<seq<OrderDomainEvent>, Error>)
      requires Valid()
      modifies this`published, if orderId in orders then {orders[orderId]} else {}
      ensures Valid()
      ensures orderId !in orders ==> r == Err(OrderNotFound(orderId)) && published == old(published)
      ensures orderId in orders ==>
                && Transitioned(Operation.ConfirmCancel, old(orders[orderId].state), orders[orderId].state, r)
                && orders[orderId].Identity() == old(orders[orderId].Identity())
                && orders[orderId].lineItems == old(orders[orderId].lineItems)
                && orders[orderId].deliveryInformation == old(orders[orderId].deliveryInformation)
                && published == if r.Ok? then old(published) + [Publication(orders[orderId], [OrderCancelled])]
                                else old(published)
    {
      r := UpdateOrder(orderId, NoteCancelledUpdate);
    }

    /** `undoPendingRevision`: REVISION_PENDING back to APPROVED, with an empty publication. */
    method UndoPendingRevision(orderId: int) returns (r: Result<seq<OrderDomainEvent>, Error>)
      requires Valid()
      modifies this`published, if orderId in orders then {orders[orderId]} else {}
      ensures Valid()
      ensures orderId !in orders ==> r == Err(OrderNotFound(orderId)) && published == old(published)
      ensures orderId in orders ==>
                && Transitioned(Operation.RejectRevision, old(orders[orderId].state), orders[orderId].state, r)
                && orders[orderId].Identity() == old(orders[orderId].Identity())
                && orders[orderId].lineItems == old(orders[orderId].lineItems)
                && orders[orderId].deliveryInformation == old(orders[orderId].deliveryInformation)
                && published == if r.Ok? then old(published) + [Publication(orders[orderId], [])]
                                else old(published)
    {
      r := UpdateOrder(orderId, RejectRevisionUpdate);
    }

    /** `confirmRevision`: REVISION_PENDING to APPROVED, applying the
        revision to the order and publishing `OrderRevised`. */
    method ConfirmRevision(orderId: int, revision: OrderRevision,
                           quantityChange: (seq<LineItem>, OrderRevision) -> LineItemQuantityChange,
                           updateLineItems: (seq<LineItem>, OrderRevision) -> seq<LineItem>)
      returns (r: Result<seq<OrderDomainEvent>, Error>)
      requires Valid()
      modifies this`published, if orderId in orders then {orders[orderId]} else {}
      ensures Valid()
      ensures orderId !in orders ==> r == Err(OrderNotFound(orderId)) && published == old(published)
      ensures orderId in orders ==>
                && Transitioned(Operation.ConfirmRevision, old(orders[orderId].state), orders[orderId].state, r)
                && orders[orderId].Identity() == old(orders[orderId].Identity())
                && published == if r.Ok? then old(published) + [Publication(orders[orderId], r.value)]
                                else old(published)
      ensures orderId in orders && r.Err? ==>
                && orders[orderId].lineItems == old(orders[orderId].lineItems)
                && orders[orderId].deliveryInformation == old(orders[orderId].deliveryInformation)
      ensures orderId in orders && r.Ok? ==>
                var change := quantityChange(old(orders[orderId].lineItems), revision);
                && r.value == [OrderRevised(revision, change.currentOrderTotal, change.newOrderTotal)]
                && orders[orderId].deliveryInformation == (if revision.deliveryInformation.Some?
                                                           then revision.deliveryInformation.value
                                                           else old(orders[orderId].deliveryInformation))
                && orders[orderId].lineItems == (if RevisesLineItems(revision)
                                                 then updateLineItems(old(orders[orderId].lineItems), revision)
                                                 else old(orders[orderId].lineItems))
    {
      var u := ConfirmRevisionUpdate(revision, quantityChange, updateLineItems);
      assert OperationOf(u) == Operation.ConfirmRevision;
      r := UpdateOrder(orderId, u);
    }

    /** `confirmChangeLineItemQuantity`: for an unknown id, nothing; otherwise
        confirms the revision on the order and publishes its events. */
    method ConfirmChangeLineItemQuantity(orderId: int, revision: OrderRevision,
                                         quantityChange: (seq<LineItem>, OrderRevision) -> LineItemQuantityChange,
                                         updateLineItems: (seq<LineItem>, OrderRevision) -> seq<LineItem>)
      returns (r: Result<Option<Order>, Error>)
      requires Valid()
      modifies this`published, if orderId in orders then {orders[orderId]} else {}
      ensures Valid()
      ensures orderId !in orders ==> r == Ok(None) && published == old(published)
      ensures orderId in orders && old(orders[orderId].state) != REVISION_PENDING ==>
                && r == Err(UnsupportedStateTransition(old(orders[orderId].state)))
                && orders[orderId].state == old(orders[orderId].state)
                && orders[orderId].Identity() == old(orders[orderId].Identity())
                && orders[orderId].lineItems == old(orders[orderId].lineItems)
                && orders[orderId].deliveryInformation == old(orders[orderId].deliveryInformation)
                && published == old(published)
      ensures orderId in orders && old(orders[orderId].state) == REVISION_PENDING ==>
                var change := quantityChange(old(orders[orderId].lineItems), revision);
                && r == Ok(Some(orders[orderId]))
                && orders[orderId].state == APPROVED
                && orders[orderId].Identity() == old(orders[orderId].Identity())
                && orders[orderId].deliveryInformation == (if revision.deliveryInformation.Some?
                                                           then revision.deliveryInformation.value
                                                           else old(orders[orderId].deliveryInformation))
                && orders[orderId].lineItems == (if RevisesLineItems(revision)
                                                 then updateLineItems(old(orders[orderId].lineItems), revision)
                                                 else old(orders[orderId].lineItems))
                && published == old(published) +
                     [Publication(orders[orderId], [OrderRevised(revision, change.currentOrderTotal, change.newOrderTotal)])]
    {
      if orderId !in orders {
        return Ok(None);
      }
      var order := orders[orderId];
      var events := order.ConfirmRevision(revision, quantityChange, updateLineItems);
      if events.Err? {
        return Err(events.error);
      }
      published := published + [Publication(order, events.value)];
      r := Ok(Some(order));
    }

    /** `beginReviseOrder`: for an unknown id, nothing; otherwise proposes the
        revision on the order. An order that is not APPROVED, or whose revised
        total would reach `orderMinimum`, refuses it: nothing is published and
        the order stays as it was. Otherwise the order becomes
        REVISION_PENDING and its `OrderRevisionProposed` is published. Only
        the state of the order ever changes. */
    method BeginReviseOrder(orderId: int, revision: OrderRevision,
                            quantityChange: (seq<LineItem>, OrderRevision) -> LineItemQuantityChange)
      returns (r: Result<Option<RevisedOrder>, Error>)
      requires Valid()
      modifies this`published, if orderId in orders then {orders[orderId]} else {}
      ensures Valid()
      ensures orderId !in orders ==> r == Ok(None) && published == old(published)
      ensures orderId in orders ==>
                && orders[orderId].Identity() == old(orders[orderId].Identity())
                && orders[orderId].lineItems == old(orders[orderId].lineItems)
                && orders[orderId].deliveryInformation == old(orders[orderId].deliveryInformation)
      ensures orderId in orders && old(orders[orderId].state) != APPROVED ==>
                && r == Err(UnsupportedStateTransition(old(orders[orderId].state)))
                && orders[orderId].state == old(orders[orderId].state)
                && published == old(published)
      ensures orderId in orders && old(orders[orderId].state) == APPROVED ==>
                var order := orders[orderId];
                var change := quantityChange(old(order.lineItems), revision);
                if change.newOrderTotal >= order.orderMinimum then
                  && r == Err(OrderMinimumNotMet)
                  && order.state == APPROVED
                  && published == old(published)
                else
                  && r == Ok(Some(RevisedOrder(order, change)))
                  && order.state == REVISION_PENDING
                  && published == old(published) +
                       [Publication(order, [OrderRevisionProposed(revision, change.currentOrderTotal, change.newOrderTotal)])]
    {
      if orderId !in orders {
        return Ok(None);
      }
      var order := orders[orderId];
      var result := order.Revise(revision, quantityChange);
      if result.Err? {
        return Err(result.error);
      }
      var (change, events) := result.value;
      published := published + [Publication(order, events)];
      r := Ok(Some(RevisedOrder(order, change)));
    }

    /** `cancel`: starts a Cancel Order saga for the order with its consumer
        and current total; the order itself is not changed here. */
    method Cancel(orderId: int) returns (r: Result<Order, Error>)
      modifies this`sagas
      ensures orderId !in orders ==> r == Err(OrderNotFound(orderId)) && sagas == old(sagas)
      ensures orderId in orders ==>
                r == Ok(orders[orderId]) &&
                sagas == old(sagas) + [CancelOrderSagaInstance(
                           CancelOrderSagaData(orders[orderId].consumerId, orderId, orders[orderId].GetOrderTotal()))]
    {
      if orderId !in orders {
        return Err(OrderNotFound(orderId));
      }
      var order := orders[orderId];
      sagas := sagas + [CancelOrderSagaInstance(CancelOrderSagaData(order.consumerId, orderId, order.GetOrderTotal()))];
      r := Ok(order);
    }

    /** `reviseOrder`: starts a Revise Order saga whose data has no revised
        total yet; the order itself is not changed here. */
    method ReviseOrder(orderId: int, revision: OrderRevision) returns (r: Result<Order, Error>)
      modifies this`sagas
      ensures orderId !in orders ==> r == Err(OrderNotFound(orderId)) && sagas == old(sagas)
      ensures orderId in orders ==>
                && r == Ok(orders[orderId])
                && |sagas| == |old(sagas)| + 1 && sagas[..|old(sagas)|] == old(sagas)
                && sagas[|old(sagas)|].ReviseOrderSagaInstance?
                && var data := sagas[|old(sagas)|].reviseData;
                   && fresh(data)
                   && data.consumerId == orders[orderId].consumerId && data.orderId == orderId
                   && data.revisedOrderTotal == None && data.orderRevision == revision
                   && data.restaurantId == None
    {
      if orderId !in orders {
        return Err(OrderNotFound(orderId));
      }
      var order := orders[orderId];
      var data := new ReviseOrderSagaData(order.consumerId, orderId, None, revision);
      sagas := sagas + [ReviseOrderSagaInstance(data)];
      r := Ok(order);
    }

    /** `noteReversingAuthorization` is not supported: it always fails. */
    method NoteReversingAuthorization(orderId: int) returns (r: Result<(), Error>)
      ensures r == Err(UnsupportedOperation)
    {
      r := Err(UnsupportedOperation);
    }

    /** `createMenu`: saves the restaurant, replacing any with the same id. */
    method CreateMenu(id: int, name: string, menuItems: seq<MenuItem>)
      requires Valid()
      modifies this`restaurants
      ensures Valid()
      ensures restaurants == old(restaurants)[id := Restaurant(id, name, menuItems)]
    {
      restaurants := restaurants[id := Restaurant(id, name, menuItems)];
    }

    /** `reviseMenu`: an unknown restaurant fails; a known one fails too,
        because revising a menu is unsupported. Nothing changes either way. */
    method ReviseMenu(id: int, menuItems: seq<MenuItem>) returns (r: Result<(), Error>)
      ensures id !in restaurants ==> r == Err(RestaurantMissing(id))
      ensures id in restaurants ==> r == Err(UnsupportedOperation)
    {
      if id !in restaurants {
        return Err(RestaurantMissing(id));
      }
      var events := Restaurants.ReviseMenu(restaurants[id], menuItems);
      r := Err(events.error);
    }
  }

  /** A scenario through the service: an order for 10.00 x 2 and 5.00 x 1 is
      created at a restaurant that has both items, is saved as order 1, and its Create Order saga
      starts with a total of 25.00. When authorization then fails, the saga
      cancels the ticket and then sends the rejection, and rejecting the
      order leaves it REJECTED with `OrderRejected` published. */
  method AuthorizationFailureRejectsNewOrder()
    returns (total: Money, compensations: seq<CreateOrderSagas.CommandWithDestination>, state: OrderState,
             events: seq<OrderDomainEvent>)
    ensures total == MoneyOfUnits(25)
    ensures |compensations| == 2
    ensures compensations[0] == CreateOrderSagas.Send(CancelCreateTicket(1), KitchenServiceChannel)
    ensures compensations[1] == CreateOrderSagas.Send(RejectOrderCommand(1), OrderServiceChannel)
    ensures state == REJECTED && events == [OrderRejected]
  {
    var menu := [MenuItem("a", "A", MoneyOfUnits(10)), MenuItem("b", "B", MoneyOfUnits(5))];
    var restaurant := Restaurant(1, "R", menu);
    var service := new OrderService(map[1 := restaurant]);
    var requests := [MenuItemIdAndQuantity("a", 2), MenuItemIdAndQuantity("b", 1)];
    assert FindMenuItem(menu, "a") == Some(menu[0]);
    assert FindMenuItem(menu, "b") == Some(menu[1]) by {
      assert menu[1..] == [menu[1]];
    }
    assert AllOnMenu(requests, restaurant);
    var created := service.CreateOrder(7, 1, DeliveryInformation("address"), requests);
    var saga := service.sagas[0].state;
    var items := saga.orderDetails.lineItems;
    assert items == [LineItem("a", "A", MoneyOfUnits(10), 2), LineItem("b", "B", MoneyOfUnits(5), 1)];
    total := saga.orderDetails.orderTotal;
    var steps := CompensationsOnFailure(CreateOrderSagas.Definition, 3);
    saga.CommandsOnAuthorizeFailure();
    compensations := [saga.CommandFor(steps[0]), saga.CommandFor(steps[1])];
    var rejected := service.RejectOrder(compensations[1].command.orderId);
    events := rejected.value;
    state := service.orders[compensations[1].command.orderId].state;
  }
}
