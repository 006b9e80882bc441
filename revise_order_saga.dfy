/** The Revise Order saga: its data, the commands built from that data, the
    reply handler and the five-step definition. */
module ReviseOrderSagas {
  import opened Common
  import opened OrderEvents
  import opened Sagas

  /** The commands the Revise Order saga sends. */
  datatype Command =
    | BeginReviseOrderCommand(orderId: int, revision: OrderRevision)
    | UndoBeginReviseOrderCommand(orderId: int)
    | BeginReviseTicketCommand(restaurantId: Option<int>, orderId: int,
                               revisedOrderLineItems: Option<seq<RevisedOrderLineItem>>)
    | UndoBeginReviseTicketCommand(restaurantId: Option<int>, orderId: int)
    | ReviseAuthorization(consumerId: int, orderId: int, revisedOrderTotal: Option<Money>)
    | ConfirmReviseTicketCommand(restaurantId: Option<int>, orderId: int,
                                 revisedOrderLineItems: Option<seq<RevisedOrderLineItem>>)
    | ConfirmReviseOrderCommand(orderId: int, revision: OrderRevision)

  /** A command and the channel it is sent to. */
  datatype CommandWithDestination = Send(command: Command, channel: Channel)

  datatype BeginReviseOrderReply = BeginReviseOrderReply(revisedOrderTotal: Money)

  /** The saga's command builders, named as the steps refer to them. */
  datatype Builder =
    | BeginReviseOrder
    | UndoBeginReviseOrder
    | BeginReviseTicket
    | UndoBeginReviseTicket
    | ReviseAuthorizationBuilder
    | ConfirmTicketRevision
    | ConfirmOrderRevision

  datatype ReplyHandler = BeginReviseOrderReplyHandler

  /** The saga definition, built once. */
  const Definition: seq<Step<Builder, ReplyHandler>> := [
    Step(Some(BeginReviseOrder), Some(BeginReviseOrderReplyHandler), Some(UndoBeginReviseOrder)),
    Step(Some(BeginReviseTicket), None, Some(UndoBeginReviseTicket)),
    Step(Some(ReviseAuthorizationBuilder), None, None),
    Step(Some(ConfirmTicketRevision), None, None),
    Step(Some(ConfirmOrderRevision), None, None)
  ]

  /** Five steps: begin revising the order (with its reply handler and undo
      as compensation), begin revising the ticket (undo as compensation),
      revise the authorization, confirm the ticket revision and confirm the
      order revision. */
  lemma DefinitionSteps()
    ensures |Definition| == 5
    ensures Definition[0] == Step(Some(BeginReviseOrder), Some(BeginReviseOrderReplyHandler), Some(UndoBeginReviseOrder))
    ensures Definition[1] == Step(Some(BeginReviseTicket), None, Some(UndoBeginReviseTicket))
    ensures Definition[2].participant == Some(ReviseAuthorizationBuilder)
    ensures Definition[3].participant == Some(ConfirmTicketRevision)
    ensures Definition[4].participant == Some(ConfirmOrderRevision)
    ensures forall i :: 2 <= i < 5 ==> Definition[i].compensation == None
  {
  }

  /** When beginning the order revision fails nothing is undone; when a
      later step fails, the ticket revision (if begun) is undone before the
      order revision. */
  lemma CompensationsOnEachFailure(failed: nat)
    requires failed < |Definition|
    ensures CompensationsOnFailure(Definition, failed) ==
              if failed == 0 then []
              else if failed == 1 then [UndoBeginReviseOrder]
              else [UndoBeginReviseTicket, UndoBeginReviseOrder]
  {
    var d := Definition;
    assert d[..1] == [] + [d[0]];
    UnwindSnoc([], d[0]);
    assert Unwind(d[..1]) == [UndoBeginReviseOrder];
    assert d[..2] == d[..1] + [d[1]];
    UnwindSnoc(d[..1], d[1]);
    assert Unwind(d[..2]) == [UndoBeginReviseTicket, UndoBeginReviseOrder];
    assert d[..3] == d[..2] + [d[2]];
    UnwindSnoc(d[..2], d[2]);
    assert Unwind(d[..3]) == [UndoBeginReviseTicket, UndoBeginReviseOrder];
    assert d[..4] == d[..3] + [d[3]];
    UnwindSnoc(d[..3], d[3]);
  }

  /** The data of one Revise Order saga. */
  class ReviseOrderSagaData {
    var consumerId: int
    var orderId: int
    var revisedOrderTotal: Option<Money>
    var orderRevision: OrderRevision
    /** Never given a value by the constructor the order service calls. */
    var restaurantId: Option<int>

    constructor (consumerId: int, orderId: int, revisedOrderTotal: Option<Money>, orderRevision: OrderRevision)
      ensures this.consumerId == consumerId && this.orderId == orderId
      ensures this.revisedOrderTotal == revisedOrderTotal && this.orderRevision == orderRevision
      ensures restaurantId == None
    {
      this.consumerId := consumerId;
      this.orderId := orderId;
      this.revisedOrderTotal := revisedOrderTotal;
      this.orderRevision := orderRevision;
      restaurantId := None;
    }
  }

  /** Records the revised total from the reply; the revise-authorization
      command then carries it. */
  method HandleBeginReviseOrderReply(data: ReviseOrderSagaData, reply: BeginReviseOrderReply)
    modifies data`revisedOrderTotal
    ensures data.revisedOrderTotal == Some(reply.revisedOrderTotal)
    ensures Build(ReviseAuthorizationBuilder, data).command.revisedOrderTotal == Some(reply.revisedOrderTotal)
  {
    data.revisedOrderTotal := Some(reply.revisedOrderTotal);
  }

  /** The builder that makes each kind of command. */
  function KindOf(c: Command): Builder {
    match c
    case BeginReviseOrderCommand(_, _) => BeginReviseOrder
    case UndoBeginReviseOrderCommand(_) => UndoBeginReviseOrder
    case BeginReviseTicketCommand(_, _, _) => BeginReviseTicket
    case UndoBeginReviseTicketCommand(_, _) => UndoBeginReviseTicket
    case ReviseAuthorization(_, _, _) => ReviseAuthorizationBuilder
    case ConfirmReviseTicketCommand(_, _, _) => ConfirmTicketRevision
    case ConfirmReviseOrderCommand(_, _) => ConfirmOrderRevision
  }

  /** The command each builder makes from the saga data, and its channel.
      Order commands go to the order service, ticket commands to the kitchen
      service and the authorization to the accounting service. */
  function Build(b: Builder, data: ReviseOrderSagaData): (c: CommandWithDestination)
    reads data
    ensures c.channel == (match b
                          case BeginReviseOrder | UndoBeginReviseOrder | ConfirmOrderRevision => OrderServiceChannel
                          case BeginReviseTicket | UndoBeginReviseTicket | ConfirmTicketRevision => KitchenServiceChannel
                          case ReviseAuthorizationBuilder => AccountingServiceChannel)
    ensures KindOf(c.command) == b
    ensures c.command.orderId == data.orderId
    ensures c.command.BeginReviseOrderCommand? || c.command.ConfirmReviseOrderCommand? ==>
              c.command.revision == data.orderRevision
    ensures c.command.BeginReviseTicketCommand? || c.command.ConfirmReviseTicketCommand? ==>
              c.command.restaurantId == data.restaurantId &&
              c.command.revisedOrderLineItems == data.orderRevision.revisedOrderLineItems
    ensures c.command.UndoBeginReviseTicketCommand? ==> c.command.restaurantId == data.restaurantId
    ensures c.command.ReviseAuthorization? ==>
              c.command.consumerId == data.consumerId && c.command.revisedOrderTotal == data.revisedOrderTotal
  {
    match b
    case BeginReviseOrder =>
      Send(BeginReviseOrderCommand(data.orderId, data.orderRevision), OrderServiceChannel)
    case UndoBeginReviseOrder =>
      Send(UndoBeginReviseOrderCommand(data.orderId), OrderServiceChannel)
    case BeginReviseTicket =>
      Send(BeginReviseTicketCommand(data.restaurantId, data.orderId, data.orderRevision.revisedOrderLineItems),
           KitchenServiceChannel)
    case UndoBeginReviseTicket =>
      Send(UndoBeginReviseTicketCommand(data.restaurantId, data.orderId), KitchenServiceChannel)
    case ReviseAuthorizationBuilder =>
      Send(ReviseAuthorization(data.consumerId, data.orderId, data.revisedOrderTotal), AccountingServiceChannel)
    case ConfirmTicketRevision =>
      Send(ConfirmReviseTicketCommand(data.restaurantId, data.orderId, data.orderRevision.revisedOrderLineItems),
           KitchenServiceChannel)
    case ConfirmOrderRevision =>
      Send(ConfirmReviseOrderCommand(data.orderId, data.orderRevision), OrderServiceChannel)
  }

  /** When the authorization revision fails, the saga tells the kitchen to
      undo this order's ticket revision and then tells the order service to
      undo the order revision. */
  lemma CommandsOnAuthorizationFailure(data: ReviseOrderSagaData)
    ensures var cs := CompensationsOnFailure(Definition, 2);
            && |cs| == 2
            && Build(cs[0], data) == Send(UndoBeginReviseTicketCommand(data.restaurantId, data.orderId), KitchenServiceChannel)
            && Build(cs[1], data) == Send(UndoBeginReviseOrderCommand(data.orderId), OrderServiceChannel)
  {
    CompensationsOnEachFailure(2);
  }
}
