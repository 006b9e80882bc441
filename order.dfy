/** The order aggregate: a state machine over `OrderState` whose transitions
    return the domain events they cause. */
module Orders {
  import opened Common
  import opened OrderLineItems
  import opened OrderEvents
  import opened Restaurants

  /** The lifecycle operations of an order. */
  datatype Operation =
    | Approve | Reject
    | BeginCancel | UndoCancel | ConfirmCancel
    | BeginRevision | RejectRevision | ConfirmRevision

  /** The kind of event a successful transition emits. */
  datatype EventKind = NoEvent | Authorized | Rejected | Cancelled | RevisionProposed | Revised

  /** One allowed transition: `op` applied in state `from` leads to `to` and emits `emits`. */
  datatype Row = Row(op: Operation, from: OrderState, to: OrderState, emits: EventKind)

  /** The order lifecycle as a table. Every (operation, state) pair that is
      not listed is refused. */
  const Lifecycle: seq<Row> := [
    Row(Approve, APPROVAL_PENDING, APPROVED, Authorized),
    Row(Reject, APPROVAL_PENDING, REJECTED, Rejected),
    Row(BeginCancel, APPROVED, CANCEL_PENDING, NoEvent),
    Row(UndoCancel, CANCEL_PENDING, APPROVED, NoEvent),
    Row(ConfirmCancel, CANCEL_PENDING, CANCELLED, Cancelled),
    Row(BeginRevision, APPROVED, REVISION_PENDING, RevisionProposed),
    Row(RejectRevision, REVISION_PENDING, APPROVED, NoEvent),
    Row(ConfirmRevision, REVISION_PENDING, APPROVED, Revised)
  ]

  /** The first row of `table` for `op` in state `s`, if any. */
  function Find(table: seq<Row>, op: Operation, s: OrderState): (r: Option<Row>)
    ensures r.Some? ==> r.value in table && r.value.op == op && r.value.from == s
    ensures r.None? <==> forall i :: 0 <= i < |table| ==> !(table[i].op == op && table[i].from == s)
  {
    if table == [] then None
    else if table[0].op == op && table[0].from == s then Some(table[0])
    else
      var rest := Find(table[1..], op, s);
      assert forall i :: 1 <= i < |table| ==> table[i] == table[1..][i - 1];
      rest
  }

  /** Where each operation's row sits in the table. */
  function RowOf(op: Operation): (i: nat)
    ensures i < |Lifecycle| && Lifecycle[i].op == op
  {
    match op
    case Approve => 0
    case Reject => 1
    case BeginCancel => 2
    case UndoCancel => 3
    case ConfirmCancel => 4
    case BeginRevision => 5
    case RejectRevision => 6
    case ConfirmRevision => 7
  }

  /** The row `op` follows in state `s`: its own row, when that row starts
      from `s`. `LookupAgreesWithTable` shows this is the table search. */
  function Lookup(op: Operation, s: OrderState): Option<Row> {
    var row := Lifecycle[RowOf(op)];
    if row.from == s then Some(row) else None
  }

  predicate IsFinal(s: OrderState) {
    s == REJECTED || s == CANCELLED
  }

  predicate IsPending(s: OrderState) {
    s == APPROVAL_PENDING || s == REVISION_PENDING || s == CANCEL_PENDING
  }

  /** The events list matches the kind of event the table promises. */
  predicate Emits(kind: EventKind, events: seq<OrderDomainEvent>) {
    match kind
    case NoEvent => events == []
    case Authorized => events == [OrderAuthorized]
    case Rejected => events == [OrderRejected]
    case Cancelled => events == [OrderCancelled]
    case RevisionProposed => |events| == 1 && events[0].OrderRevisionProposed?
    case Revised => |events| == 1 && events[0].OrderRevised?
  }

  /** A call of `op` took the order from `before` to `after` with result `r`
      as the table says: along the listed row, or refused with the state
      left as it was. */
  predicate Transitioned(op: Operation, before: OrderState, after: OrderState,
                         r: Result<seq<OrderDomainEvent>, Error>)
    ensures Transitioned(op, before, after, r) ==> (r.Ok? <==> before == Lifecycle[RowOf(op)].from)
    ensures Transitioned(op, before, after, r) && r.Err? ==>
              after == before && r.error == UnsupportedStateTransition(before)
    ensures Transitioned(op, before, after, r) && IsFinal(before) ==> after == before && r.Err?
    ensures Transitioned(op, before, after, r) ==> Step(before, op, after)
  {
    match Lookup(op, before)
    case None => after == before && r == Err(UnsupportedStateTransition(before))
    case Some(row) => after == row.to && r.Ok? && Emits(row.emits, r.value)
  }

  /** An attempt of `op` in state `s` may end in state `t`: along the
      operation's row, or with the state kept. Keeping the state covers every
      refusal, including a revision an APPROVED order refuses because its new
      total reaches the order minimum, although the table allows it there. */
  predicate Step(s: OrderState, op: Operation, t: OrderState) {
    t == s || (Lookup(op, s).Some? && t == Lookup(op, s).value.to)
  }

  /** `states` is a possible history of an order that starts in `states[0]`
      and attempts each operation of `ops` in turn. */
  predicate IsTrace(ops: seq<Operation>, states: seq<OrderState>) {
    |states| == |ops| + 1 &&
    forall i :: 0 <= i < |ops| ==> Step(states[i], ops[i], states[i + 1])
  }

  /** A history is its first step followed by a shorter history. */
  lemma TraceTail(ops: seq<Operation>, states: seq<OrderState>)
    requires IsTrace(ops, states) && ops != []
    ensures Step(states[0], ops[0], states[1])
    ensures IsTrace(ops[1..], states[1..])
  {
    forall i | 0 <= i < |ops| - 1
      ensures Step(states[1..][i], ops[1..][i], states[1..][i + 1])
    {
      assert Step(states[i + 1], ops[i + 1], states[i + 2]);
    }
  }

  /** Each operation has exactly one row, so the table lists at most one
      row per operation and state. */
  lemma OperationsAreUnique()
    ensures forall i, j :: 0 <= i < j < |Lifecycle| ==> Lifecycle[i].op != Lifecycle[j].op
  {
  }

  /** Searching the table, an operation is refused in every state other
      than the one its row starts from. */
  lemma RefusedOutsideItsRow(op: Operation, s: OrderState, i: nat)
    requires i < |Lifecycle| && Lifecycle[i].op == op && Lifecycle[i].from != s
    ensures Find(Lifecycle, op, s).None?
  {
    OperationsAreUnique();
    forall k | 0 <= k < |Lifecycle|
      ensures !(Lifecycle[k].op == op && Lifecycle[k].from == s)
    {
      if Lifecycle[k].op == op {
        assert k == i;
      }
    }
  }

  /** Searching the table, an operation follows its row in the state that
      row starts from. */
  lemma FollowsItsRow(op: Operation, i: nat)
    requires i < |Lifecycle| && Lifecycle[i].op == op
    ensures Find(Lifecycle, op, Lifecycle[i].from) == Some(Lifecycle[i])
  {
    OperationsAreUnique();
    assert forall k :: 0 <= k < |Lifecycle| && Lifecycle[k].op == op ==> k == i;
  }

  /** Going straight to an operation's row gives the same answer as
      searching the whole table. */
  lemma LookupAgreesWithTable(op: Operation, s: OrderState)
    ensures Lookup(op, s) == Find(Lifecycle, op, s)
  {
    var i := RowOf(op);
    if Lifecycle[i].from == s {
      FollowsItsRow(op, i);
    } else {
      RefusedOutsideItsRow(op, s, i);
    }
  }

  /** No operation leaves a final state. */
  lemma FinalStatesHaveNoExit(op: Operation, s: OrderState)
    requires IsFinal(s)
    ensures Lookup(op, s).None?
  {
  }

  /** Whatever is attempted afterwards, a rejected or cancelled order stays so. */
  lemma {:induction false} FinalStatesAreAbsorbing(ops: seq<Operation>, states: seq<OrderState>)
    requires IsTrace(ops, states) && IsFinal(states[0])
    ensures forall i :: 0 <= i < |states| ==> states[i] == states[0]
    decreases |ops|
  {
    if ops != [] {
      TraceTail(ops, states);
      FinalStatesHaveNoExit(ops[0], states[0]);
      FinalStatesAreAbsorbing(ops[1..], states[1..]);
      assert forall i :: 1 <= i < |states| ==> states[i] == states[1..][i - 1];
    }
  }

  /** Only creation puts an order in APPROVAL_PENDING: no row leads back to it. */
  lemma {:induction false} ApprovalPendingIsNeverReentered(ops: seq<Operation>, states: seq<OrderState>)
    requires IsTrace(ops, states) && states[0] != APPROVAL_PENDING
    ensures forall i :: 0 <= i < |states| ==> states[i] != APPROVAL_PENDING
    decreases |ops|
  {
    if ops != [] {
      TraceTail(ops, states);
      assert forall i :: 0 <= i < |Lifecycle| ==> Lifecycle[i].to != APPROVAL_PENDING;
      ApprovalPendingIsNeverReentered(ops[1..], states[1..]);
      assert forall i :: 1 <= i < |states| ==> states[i] == states[1..][i - 1];
    }
  }

  /** Every pending state can be left, and every state that can be left is pending or APPROVED. */
  lemma PendingStatesCanBeLeft(s: OrderState)
    ensures IsPending(s) ==> exists op :: Lookup(op, s).Some? && Lookup(op, s).value.to != s
    ensures (exists op :: Lookup(op, s).Some?) <==> (IsPending(s) || s == APPROVED)
  {
    match s
    case APPROVAL_PENDING => assert Lookup(Approve, s).Some?;
    case APPROVED => assert Lookup(BeginCancel, s).Some?;
    case REVISION_PENDING => assert Lookup(RejectRevision, s).Some?;
    case CANCEL_PENDING => assert Lookup(UndoCancel, s).Some?;
    case REJECTED => forall op ensures Lookup(op, s).None? { FinalStatesHaveNoExit(op, s); }
    case CANCELLED => forall op ensures Lookup(op, s).None? { FinalStatesHaveNoExit(op, s); }
  }

  /** An order is rejected only by a rejection of its approval, and cancelled
      only by confirming a pending cancel. */
  lemma FinalStatesAreEnteredOnce(s: OrderState, op: Operation, t: OrderState)
    requires Step(s, op, t)
    ensures t == REJECTED && s != REJECTED ==> op == Reject && s == APPROVAL_PENDING
    ensures t == CANCELLED && s != CANCELLED ==> op == ConfirmCancel && s == CANCEL_PENDING
  {
  }

  class Order {
    /** Assigned by the repository when the order is saved. */
    var id: Option<int>
    var state: OrderState
    var consumerId: int
    var restaurantId: int
    var lineItems: seq<LineItem>
    var deliveryInformation: DeliveryInformation
    /** The bound a revised total must stay below: `new Money(Integer.MAX_VALUE)`. */
    const orderMinimum: Money := MoneyOfUnits(IntMax)

    constructor (consumerId: int, restaurantId: int, deliveryInformation: DeliveryInformation,
                 lineItems: seq<LineItem>)
      ensures state == APPROVAL_PENDING && id == None
      ensures this.consumerId == consumerId && this.restaurantId == restaurantId
      ensures this.deliveryInformation == deliveryInformation && this.lineItems == lineItems
    {
      id := None;
      this.consumerId := consumerId;
      this.restaurantId := restaurantId;
      this.deliveryInformation := deliveryInformation;
      this.lineItems := lineItems;
      state := APPROVAL_PENDING;
    }

    /** `Order.createOrder`: a new order and its one `OrderCreated` event,
        whose details carry the order total. */
    static method CreateOrder(consumerId: int, restaurant: Restaurant,
                              deliveryInformation: DeliveryInformation, lineItems: seq<LineItem>)
      returns (order: Order, events: seq<OrderDomainEvent>)
      ensures fresh(order) && order.id == None && order.state == APPROVAL_PENDING
      ensures order.consumerId == consumerId && order.restaurantId == restaurant.id
      ensures order.deliveryInformation == deliveryInformation && order.lineItems == lineItems
      ensures events == [OrderCreated(OrderDetails(consumerId, restaurant.id, lineItems, OrderTotal(lineItems)),
                                      deliveryInformation.deliveryAddress, restaurant.name)]
    {
      order := new Order(consumerId, restaurant.id, deliveryInformation, lineItems);
      var total := order.GetOrderTotal();
      events := [OrderCreated(OrderDetails(consumerId, restaurant.id, lineItems, total),
                              deliveryInformation.deliveryAddress, restaurant.name)];
    }

    /** The order total is the total of its line items. */
    function GetOrderTotal(): (total: Money)
      reads this
      ensures total == OrderTotal(lineItems)
    {
      OrderTotal(lineItems)
    }

    /** What no lifecycle operation changes: the id and the parties. */
    function Identity(): (Option<int>, int, int)
      reads this
    {
      (id, consumerId, restaurantId)
    }

    method SetId(newId: int)
      modifies this`id
      ensures id == Some(newId)
    {
      id := Some(newId);
    }

    method Cancel() returns (r: Result<seq<OrderDomainEvent>, Error>)
      modifies this`state
      ensures Transitioned(Operation.BeginCancel, old(state), state, r)
    {
      match state
      case APPROVED =>
        state := CANCEL_PENDING;
        r := Ok([]);
      case _ =>
        r := Err(UnsupportedStateTransition(state));
    }

    method UndoPendingCancel() returns (r: Result<seq<OrderDomainEvent>, Error>)
      modifies this`state
      ensures Transitioned(Operation.UndoCancel, old(state), state, r)
    {
      match state
      case CANCEL_PENDING =>
        state := APPROVED;
        r := Ok([]);
      case _ =>
        r := Err(UnsupportedStateTransition(state));
    }

    method NoteCancelled() returns (r: Result<seq<OrderDomainEvent>, Error>)
      modifies this`state
      ensures Transitioned(Operation.ConfirmCancel, old(state), state, r)
    {
      match state
      case CANCEL_PENDING =>
        state := CANCELLED;
        r := Ok([OrderCancelled]);
      case _ =>
        r := Err(UnsupportedStateTransition(state));
    }

    method NoteApproved() returns (r: Result<seq<OrderDomainEvent>, Error>)
      modifies this`state
      ensures Transitioned(Operation.Approve, old(state), state, r)
    {
      match state
      case APPROVAL_PENDING =>
        state := APPROVED;
        r := Ok([OrderAuthorized]);
      case _ =>
        r := Err(UnsupportedStateTransition(state));
    }

    method NoteRejected() returns (r: Result<seq<OrderDomainEvent>, Error>)
      modifies this`state
      ensures Transitioned(Operation.Reject, old(state), state, r)
    {
      match state
      case APPROVAL_PENDING =>
        state := REJECTED;
        r := Ok([OrderRejected]);
      case _ =>
        r := Err(UnsupportedStateTransition(state));
    }

    /** Proposes a revision of an approved order. `quantityChange` is what the
        order's line items report for the revision. A proposed total at or
        above `orderMinimum` is refused before the state changes. */
    method Revise(revision: OrderRevision,
                  quantityChange: (seq<LineItem>, OrderRevision) -> LineItemQuantityChange)
      returns (r: Result<(LineItemQuantityChange, seq<OrderDomainEvent>), Error>)
      modifies this`state
      ensures Step(old(state), Operation.BeginRevision, state)
      ensures Lookup(Operation.BeginRevision, old(state)).None? ==>
                state == old(state) && r == Err(UnsupportedStateTransition(old(state)))
      ensures Lookup(Operation.BeginRevision, old(state)).Some? ==>
                var change := quantityChange(lineItems, revision);
                if change.newOrderTotal >= orderMinimum then
                  state == old(state) && r == Err(OrderMinimumNotMet)
                else
                  state == Lookup(Operation.BeginRevision, old(state)).value.to &&
                  r == Ok((change, [OrderRevisionProposed(revision, change.currentOrderTotal, change.newOrderTotal)]))
    {
      match state
      case APPROVED =>
        var change := quantityChange(lineItems, revision);
        if change.newOrderTotal >= orderMinimum {
          return Err(OrderMinimumNotMet);
        }
        state := REVISION_PENDING;
        r := Ok((change, [OrderRevisionProposed(revision, change.currentOrderTotal, change.newOrderTotal)]));
      case _ =>
        r := Err(UnsupportedStateTransition(state));
    }

    method RejectRevision() returns (r: Result<seq<OrderDomainEvent>, Error>)
      modifies this`state
      ensures Transitioned(Operation.RejectRevision, old(state), state, r)
    {
      match state
      case REVISION_PENDING =>
        state := APPROVED;
        r := Ok([]);
      case _ =>
        r := Err(UnsupportedStateTransition(state));
    }

    /** Confirms a pending revision. The totals of the `OrderRevised` event are
        taken from the line items as they were before the update; delivery
        information is replaced only when the revision carries one, and the
        line items are updated (by `updateLineItems`, the line items' own
        update) only when the revision carries a non-empty list. */
    method ConfirmRevision(revision: OrderRevision,
                           quantityChange: (seq<LineItem>, OrderRevision) -> LineItemQuantityChange,
                           updateLineItems: (seq<LineItem>, OrderRevision) -> seq<LineItem>)
      returns (r: Result<seq<OrderDomainEvent>, Error>)
      modifies this`state, this`deliveryInformation, this`lineItems
      ensures Transitioned(Operation.ConfirmRevision, old(state), state, r)
      ensures r.Err? ==> deliveryInformation == old(deliveryInformation) && lineItems == old(lineItems)
      ensures r.Ok? ==>
                var change := quantityChange(old(lineItems), revision);
                && r.value == [OrderRevised(revision, change.currentOrderTotal, change.newOrderTotal)]
                && deliveryInformation == (if revision.deliveryInformation.Some?
                                           then revision.deliveryInformation.value
                                           else old(deliveryInformation))
                && lineItems == (if RevisesLineItems(revision)
                                 then updateLineItems(old(lineItems), revision)
                                 else old(lineItems))
    {
      match state
      case REVISION_PENDING =>
        var change := quantityChange(lineItems, revision);
        if revision.deliveryInformation.Some? {
          deliveryInformation := revision.deliveryInformation.value;
        }
        if RevisesLineItems(revision) {
          lineItems := updateLineItems(lineItems, revision);
        }
        state := APPROVED;
        r := Ok([OrderRevised(revision, change.currentOrderTotal, change.newOrderTotal)]);
      case _ =>
        r := Err(UnsupportedStateTransition(state));
    }
  }
}
