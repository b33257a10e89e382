/** The event contract shared by the order service and its consumers: the four lifecycle
    events, the state each leads to, and the one state each may legally follow. */
module Events {

  datatype Option<+T> = None | Some(value: T)

  datatype EventType = OrderCreated | Packed | Shipped | Delivered

  datatype OrderState = Created | Packed | Shipped | Delivered

  /** Sequence numbers start at one; the schema rejects anything lower. */
  type Sequence = n: nat | 1 <= n witness 1

  datatype Event = Event(eventId: string, orderId: string, sequence: Sequence, eventType: EventType)

  function LegalPredecessor(t: EventType): Option<OrderState> {
    match t
    case OrderCreated => None
    case Packed => Some(OrderState.Created)
    case Shipped => Some(OrderState.Packed)
    case Delivered => Some(OrderState.Shipped)
  }

  function ResultingState(t: EventType): OrderState {
    match t
    case OrderCreated => OrderState.Created
    case Packed => OrderState.Packed
    case Shipped => OrderState.Shipped
    case Delivered => OrderState.Delivered
  }

  predicate IsLegalTransition(t: EventType, current: Option<OrderState>) {
    LegalPredecessor(t) == current
  }

  /** The inverse of the predecessor table: what an order in a given state waits for. */
  function ExpectedNextEvent(current: Option<OrderState>): (next: Option<EventType>)
    ensures forall t: EventType :: IsLegalTransition(t, current) <==> next == Some(t)
  {
    match current
    case None => Some(EventType.OrderCreated)
    case Some(Created) => Some(EventType.Packed)
    case Some(Packed) => Some(EventType.Shipped)
    case Some(Shipped) => Some(EventType.Delivered)
    case Some(Delivered) => None
  }

  /** The one way through the tables: what each order is expected to publish, in order. */
  const LIFECYCLE: seq<EventType> :=
    [EventType.OrderCreated, EventType.Packed, EventType.Shipped, EventType.Delivered]

  /** Each event legally follows the outcome of the one before it, the first nothing at all. */
  predicate LegalRun(ts: seq<EventType>) {
    ts == [] || (LegalRun(ts[..|ts| - 1]) && IsLegalTransition(ts[|ts| - 1], StateAfter(None, ts[..|ts| - 1])))
  }

  /** Where a list of events leads, whatever they were. */
  function StateAfter(start: Option<OrderState>, ts: seq<EventType>): Option<OrderState> {
    if ts == [] then start else Some(ResultingState(ts[|ts| - 1]))
  }

  /** A list of events is legal throughout exactly when it is a beginning of the lifecycle. */
  lemma {:induction false} LegalRunIff(ts: seq<EventType>)
    ensures LegalRun(ts) <==> ts <= LIFECYCLE
  {
    if ts != [] {
      LegalRunIff(ts[..|ts| - 1]);
      assert ts == ts[..|ts| - 1] + [ts[|ts| - 1]];
    }
  }
}
