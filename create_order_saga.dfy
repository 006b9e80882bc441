/** The Create Order saga: its persistent state, the commands that state
    builds, and the six-step definition. */
module CreateOrderSagas {
  import opened Common
  import opened OrderLineItems
  import opened OrderEvents
  import opened Sagas

  datatype TicketLineItem = TicketLineItem(menuItemId: string, name: string, quantity: Int32)

  /** `Money.asString()`. The text format of money is not part of this model,
      so the rendering keeps the amount it renders. */
  datatype MoneyString = AsString(amount: Money)

  /** The commands the Create Order saga sends. */
  datatype Command =
    | RejectOrderCommand(orderId: int)
    | ValidateOrderByConsumer(consumerId: int, orderId: int, orderTotal: MoneyString)
    | CreateTicket(restaurantId: int, orderId: int, ticketDetails: seq<TicketLineItem>)
    | CancelCreateTicket(orderId: int)
    | AuthorizeCommand(consumerId: int, orderId: int, orderTotal: MoneyString)
    | ConfirmCreateTicket(ticketId: int)
    | ApproveOrderCommand(orderId: int)

  /** A command and the channel it is sent to. */
  datatype CommandWithDestination = Send(command: Command, channel: Channel)

  datatype CreateTicketReply = CreateTicketReply(ticketId: int)

  /** The ticket's line items: one per order line item, in the same order,
      with the same menu item id, name and quantity. */
  function MakeTicketLineItems(items: seq<LineItem>): (tickets: seq<TicketLineItem>)
    ensures |tickets| == |items|
    ensures forall i :: 0 <= i < |items| ==>
              && tickets[i].menuItemId == items[i].menuItemId
              && tickets[i].name == items[i].name
              && tickets[i].quantity == items[i].quantity
  {
    if items == [] then []
    else [TicketLineItem(items[0].menuItemId, items[0].name, items[0].quantity)] + MakeTicketLineItems(items[1..])
  }

  /** The participant endpoints the steps name. */
  datatype Endpoint =
    | OrderReject            // orderService.reject
    | ConsumerValidateOrder  // consumerService.validateOrder
    | KitchenCreate          // kitchenService.create
    | KitchenCancel          // kitchenService.cancel
    | AccountingAuthorize    // accountingService.authorize
    | KitchenConfirmCreate   // kitchenService.confirmCreate
    | OrderApprove           // orderService.approve

  datatype ReplyHandler = HandleCreateTicketReply

  /** The endpoint that sends each kind of command. */
  function EndpointOf(c: Command): Endpoint {
    match c
    case RejectOrderCommand(_) => OrderReject
    case ValidateOrderByConsumer(_, _, _) => ConsumerValidateOrder
    case CreateTicket(_, _, _) => KitchenCreate
    case CancelCreateTicket(_) => KitchenCancel
    case AuthorizeCommand(_, _, _) => AccountingAuthorize
    case ConfirmCreateTicket(_) => KitchenConfirmCreate
    case ApproveOrderCommand(_) => OrderApprove
  }

  /** The saga definition, built once. */
  const Definition: seq<Step<Endpoint, ReplyHandler>> := [
    Step(None, None, Some(OrderReject)),
    Step(Some(ConsumerValidateOrder), None, None),
    Step(Some(KitchenCreate), Some(HandleCreateTicketReply), Some(KitchenCancel)),
    Step(Some(AccountingAuthorize), None, None),
    Step(Some(KitchenConfirmCreate), None, None),
    Step(Some(OrderApprove), None, None)
  ]

  /** Six steps: reject as compensation only, then validate the consumer,
      create the ticket (with its reply handler and cancel as compensation),
      authorize, confirm the ticket and approve the order. */
  lemma DefinitionSteps()
    ensures |Definition| == 6
    ensures Definition[0].participant == None && Definition[0].compensation == Some(OrderReject)
    ensures Definition[1].participant == Some(ConsumerValidateOrder)
    ensures Definition[2].participant == Some(KitchenCreate)
    ensures Definition[2].replyHandler == Some(HandleCreateTicketReply)
    ensures Definition[2].compensation == Some(KitchenCancel)
    ensures Definition[3].participant == Some(AccountingAuthorize)
    ensures Definition[4].participant == Some(KitchenConfirmCreate)
    ensures Definition[5].participant == Some(OrderApprove)
    ensures forall i :: 0 <= i < 6 && i != 0 && i != 2 ==> Definition[i].compensation == None
  {
  }

  /** Whichever participant step fails, the compensations are those of the
      steps before it, last first: before the ticket exists only the order
      is rejected; afterwards the ticket is cancelled, then the order rejected. */
  lemma CompensationsOnEachFailure(failed: nat)
    requires 1 <= failed < |Definition|
    ensures CompensationsOnFailure(Definition, failed) ==
              if failed <= 2 then [OrderReject] else [KitchenCancel, OrderReject]
  {
    var d := Definition;
    assert d[..1] == [] + [d[0]];
    UnwindSnoc([], d[0]);
    assert Unwind(d[..1]) == [OrderReject];
    assert d[..2] == d[..1] + [d[1]];
    UnwindSnoc(d[..1], d[1]);
    assert Unwind(d[..2]) == [OrderReject];
    assert d[..3] == d[..2] + [d[2]];
    UnwindSnoc(d[..2], d[2]);
    assert Unwind(d[..3]) == [KitchenCancel, OrderReject];
    assert d[..4] == d[..3] + [d[3]];
    UnwindSnoc(d[..3], d[3]);
    assert Unwind(d[..4]) == [KitchenCancel, OrderReject];
    assert d[..5] == d[..4] + [d[4]];
    UnwindSnoc(d[..4], d[4]);
  }

  lemma FailureAtAuthorize()
    ensures CompensationsOnFailure(Definition, 3) == [KitchenCancel, OrderReject]
  {
    CompensationsOnEachFailure(3);
  }

  lemma FailureAtValidate()
    ensures CompensationsOnFailure(Definition, 1) == [OrderReject]
  {
    CompensationsOnEachFailure(1);
  }

  /** The persistent state of one Create Order saga. The command builders
      are functions: building a command never changes the state. */
  class CreateOrderSagaState {
    var orderId: int
    var orderDetails: OrderDetails
    var ticketId: int

    constructor (orderId: int, orderDetails: OrderDetails)
      ensures this.orderId == orderId && this.orderDetails == orderDetails && ticketId == 0
    {
      this.orderId := orderId;
      this.orderDetails := orderDetails;
      ticketId := 0;
    }

    method SetOrderId(newOrderId: int)
      modifies this`orderId
      ensures orderId == newOrderId
    {
      orderId := newOrderId;
    }

    method SetTicketId(newTicketId: int)
      modifies this`ticketId
      ensures ticketId == newTicketId
    {
      ticketId := newTicketId;
    }

    /** Records the ticket id from the reply; the confirm command then carries it. */
    method HandleCreateTicketReply(reply: CreateTicketReply)
      modifies this`ticketId
      ensures ticketId == reply.ticketId
      ensures MakeConfirmCreateTicketCommand() == ConfirmCreateTicket(reply.ticketId)
    {
      SetTicketId(reply.ticketId);
    }

    function MakeCreateTicketCommand(): (c: Command)
      reads this
      ensures c.CreateTicket? && c.restaurantId == orderDetails.restaurantId && c.orderId == orderId
      ensures |c.ticketDetails| == |orderDetails.lineItems|
      ensures forall i :: 0 <= i < |c.ticketDetails| ==>
                && c.ticketDetails[i].menuItemId == orderDetails.lineItems[i].menuItemId
                && c.ticketDetails[i].name == orderDetails.lineItems[i].name
                && c.ticketDetails[i].quantity == orderDetails.lineItems[i].quantity
    {
      CreateTicket(orderDetails.restaurantId, orderId, MakeTicketLineItems(orderDetails.lineItems))
    }

    function MakeCancelCreateTicketCommand(): (c: Command)
      reads this
      ensures c == CancelCreateTicket(orderId)
    {
      CancelCreateTicket(orderId)
    }

    function MakeRejectOrderCommand(): (c: Command)
      reads this
      ensures c == RejectOrderCommand(orderId)
    {
      RejectOrderCommand(orderId)
    }

    function MakeValidateOrderByConsumerCommand(): (c: Command)
      reads this
      ensures c == ValidateOrderByConsumer(orderDetails.consumerId, orderId, AsString(orderDetails.orderTotal))
    {
      ValidateOrderByConsumer(orderDetails.consumerId, orderId, AsString(orderDetails.orderTotal))
    }

    function MakeAuthorizeCommand(): (c: Command)
      reads this
      ensures c == AuthorizeCommand(orderDetails.consumerId, orderId, AsString(orderDetails.orderTotal))
    {
      AuthorizeCommand(orderDetails.consumerId, orderId, AsString(orderDetails.orderTotal))
    }

    function MakeApproveOrderCommand(): (c: Command)
      reads this
      ensures c == ApproveOrderCommand(orderId)
    {
      ApproveOrderCommand(orderId)
    }

    function MakeConfirmCreateTicketCommand(): (c: Command)
      reads this
      ensures c == ConfirmCreateTicket(ticketId)
    {
      ConfirmCreateTicket(ticketId)
    }

    /** The command a step's endpoint sends, built from this state, and its
        channel: order commands go to the order service, ticket commands to
        the kitchen service, consumer validation to the consumer service and
        the authorization to the accounting service. Every command but the
        ticket confirmation names this saga's order. */
    function CommandFor(e: Endpoint): (c: CommandWithDestination)
      reads this
      ensures c.channel == (match e
                            case OrderReject | OrderApprove => OrderServiceChannel
                            case ConsumerValidateOrder => ConsumerServiceChannel
                            case KitchenCreate | KitchenCancel | KitchenConfirmCreate => KitchenServiceChannel
                            case AccountingAuthorize => AccountingServiceChannel)
      ensures EndpointOf(c.command) == e
      ensures !c.command.ConfirmCreateTicket? ==> c.command.orderId == orderId
      ensures c.command.ConfirmCreateTicket? ==> c.command.ticketId == ticketId
      ensures c.command.ValidateOrderByConsumer? || c.command.AuthorizeCommand? ==>
                c.command.consumerId == orderDetails.consumerId && c.command.orderTotal == AsString(orderDetails.orderTotal)
      ensures c.command.CreateTicket? ==> c.command == MakeCreateTicketCommand()
    {
      match e
      case OrderReject => Send(MakeRejectOrderCommand(), OrderServiceChannel)
      case ConsumerValidateOrder => Send(MakeValidateOrderByConsumerCommand(), ConsumerServiceChannel)
      case KitchenCreate => Send(MakeCreateTicketCommand(), KitchenServiceChannel)
      case KitchenCancel => Send(MakeCancelCreateTicketCommand(), KitchenServiceChannel)
      case AccountingAuthorize => Send(MakeAuthorizeCommand(), AccountingServiceChannel)
      case KitchenConfirmCreate => Send(MakeConfirmCreateTicketCommand(), KitchenServiceChannel)
      case OrderApprove => Send(MakeApproveOrderCommand(), OrderServiceChannel)
    }

    /** When authorization fails, the saga cancels this order's ticket and
        then rejects this order. */
    lemma CommandsOnAuthorizeFailure()
      ensures var cs := CompensationsOnFailure(Definition, 3);
              |cs| == 2 && CommandFor(cs[0]) == Send(CancelCreateTicket(orderId), KitchenServiceChannel) &&
              CommandFor(cs[1]) == Send(RejectOrderCommand(orderId), OrderServiceChannel)
    {
      FailureAtAuthorize();
    }
  }
}
