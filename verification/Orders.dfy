/** The order service's own aggregate: identity, sequence allocation and the transition guard. */
module Orders {
  import opened Events

  datatype Order = Order(state: OrderState, lastSequence: nat)

  type Book = map<string, Order>

  datatype Refusal = UnknownOrder | IllegalTransition

  datatype Result<+T> = Ok(value: T) | Refused(why: Refusal)

  function Registered(orders: Book, id: string): Book {
    orders[id := Order(ResultingState(EventType.OrderCreated), 1)]
  }

  function ReserveResult(orders: Book, id: string, t: EventType, force: bool): Result<nat> {
    if id !in orders then Refused(UnknownOrder)
    else if !force && !IsLegalTransition(t, Some(orders[id].state)) then Refused(IllegalTransition)
    else Ok(orders[id].lastSequence + 1)
  }

  function Reserved(orders: Book, id: string, t: EventType, force: bool): Book {
    var r := ReserveResult(orders, id, t, force);
    if r.Ok? then orders[id := orders[id].(lastSequence := r.value)] else orders
  }

  function Committed(orders: Book, id: string, t: EventType, force: bool): Book {
    if id !in orders || (force && !IsLegalTransition(t, Some(orders[id].state))) then orders
    else orders[id := orders[id].(state := ResultingState(t))]
  }

  // ---- Sequence allocation over every interleaving ----

  datatype Call =
    | Registering(id: string)
    | Reserving(id: string, eventType: EventType, force: bool)
    | Committing(id: string, eventType: EventType, force: bool)
    | Removing(id: string)

  /** The book plus, for every order ever registered, the sequences handed out for it. */
  datatype Ledger = Ledger(orders: Book, issued: map<string, seq<nat>>)

  /** Registration uses a fresh identifier; every other call may come at any time. */
  predicate Allowed(l: Ledger, c: Call) {
    c.Registering? ==> c.id !in l.issued
  }

  function After(l: Ledger, c: Call): Ledger
    requires Allowed(l, c)
  {
    match c
    case Registering(id) => Ledger(Registered(l.orders, id), l.issued[id := []])
    case Reserving(id, t, force) =>
      var r := ReserveResult(l.orders, id, t, force);
      Ledger(Reserved(l.orders, id, t, force),
             if r.Ok? && id in l.issued then l.issued[id := l.issued[id] + [r.value]] else l.issued)
    case Committing(id, t, force) => l.(orders := Committed(l.orders, id, t, force))
    case Removing(id) => l.(orders := l.orders - {id})
  }

  function AfterAll(calls: seq<Call>): Option<Ledger> {
    if calls == [] then Some(Ledger(map[], map[]))
    else
      var before := AfterAll(calls[..|calls| - 1]);
      if before.Some? && Allowed(before.value, calls[|calls| - 1])
      then Some(After(before.value, calls[|calls| - 1])) else None
  }

  /** The sequences 2, 3, 4, ... with no repeat and no hole. */
  predicate Contiguous(s: seq<nat>) {
    forall i :: 0 <= i < |s| ==> s[i] == i + 2
  }

  predicate Sound(orders: Book, issued: map<string, seq<nat>>) {
    && orders.Keys <= issued.Keys
    && (forall id :: id in issued ==> Contiguous(issued[id]))
    && (forall id :: id in orders ==> orders[id].lastSequence == |issued[id]| + 1)
  }

  /** Whatever the interleaving, an order's sequences come out as 2, 3, 4, ...; a refused reservation
      takes none. */
  lemma {:induction false} AllocationIsContiguous(calls: seq<Call>, l: Ledger)
    requires AfterAll(calls) == Some(l)
    ensures Sound(l.orders, l.issued)
  {
    if calls != [] {
      var before := AfterAll(calls[..|calls| - 1]).value;
      AllocationIsContiguous(calls[..|calls| - 1], before);
    }
  }

  // ---- What a reservation is checked against ----

  /** The event last reserved for an order, its creation to begin with. */
  function LastReserved(calls: seq<Call>, id: string): Option<EventType> {
    if calls == [] then None
    else
      var init, last := calls[..|calls| - 1], calls[|calls| - 1];
      if last.Registering? && last.id == id then Some(EventType.OrderCreated)
      else if last.Reserving? && last.id == id && AfterAll(init).Some?
              && ReserveResult(AfterAll(init).value.orders, id, last.eventType, last.force).Ok?
      then Some(last.eventType)
      else LastReserved(init, id)
  }

  /** The event last recorded by a commit that moved the state. */
  function LastRecorded(calls: seq<Call>, id: string): Option<EventType> {
    if calls == [] then None
    else
      var init, last := calls[..|calls| - 1], calls[|calls| - 1];
      if last.Registering? && last.id == id then Some(EventType.OrderCreated)
      else if last.Committing? && last.id == id && AfterAll(init).Some? && Moves(AfterAll(init).value.orders, last)
      then Some(last.eventType)
      else LastRecorded(init, id)
  }

  predicate Moves(orders: Book, c: Call)
    requires c.Committing?
  {
    c.id in orders && (c.force ==> IsLegalTransition(c.eventType, Some(orders[c.id].state)))
  }

  /** The guard checks the outcome of the last commit, whatever was reserved since. */
  lemma {:induction false} StateIsLastRecorded(calls: seq<Call>, l: Ledger, id: string)
    requires AfterAll(calls) == Some(l) && id in l.orders
    ensures LastRecorded(calls, id).Some? && l.orders[id].state == ResultingState(LastRecorded(calls, id).value)
    ensures LastReserved(calls, id).Some?
  {
    if calls != [] {
      var init, last := calls[..|calls| - 1], calls[|calls| - 1];
      var before := AfterAll(init).value;
      if id in before.orders { StateIsLastRecorded(init, before, id); }
    }
  }

  /** Whether the last of an order's registration and removals is the registration. */
  predicate InBook(calls: seq<Call>, id: string) {
    calls != [] &&
    var last := calls[|calls| - 1];
    if last.id == id && (last.Registering? || last.Removing?) then last.Registering?
    else InBook(calls[..|calls| - 1], id)
  }

  lemma {:induction false} HeldIffInBook(calls: seq<Call>, l: Ledger, id: string)
    requires AfterAll(calls) == Some(l)
    ensures id in l.orders <==> InBook(calls, id)
  {
    if calls != [] { HeldIffInBook(calls[..|calls| - 1], AfterAll(calls[..|calls| - 1]).value, id); }
  }

  /** What a reservation is answered after any calls. An order not in the book is unknown, whatever is
      asked. One in it gets the next sequence if the request is forced, and an unforced request gets the
      same one exactly when the event legally follows the event last recorded; it is illegal otherwise. */
  lemma {:induction false} ReservationAnswered(calls: seq<Call>, l: Ledger, id: string, t: EventType, force: bool)
    requires AfterAll(calls) == Some(l)
    ensures InBook(calls, id) ==> id in l.issued && LastRecorded(calls, id).Some?
    ensures var r := ReserveResult(l.orders, id, t, force);
            && (r == Refused(UnknownOrder) <==> !InBook(calls, id))
            && (r.Ok? <==> InBook(calls, id) &&
                           (force || LegalPredecessor(t) == Some(ResultingState(LastRecorded(calls, id).value))))
            && (r.Ok? ==> r.value == |l.issued[id]| + 2)
  {
    HeldIffInBook(calls, l, id);
    AllocationIsContiguous(calls, l);
    if id in l.orders { StateIsLastRecorded(calls, l, id); }
  }

  /** Over every interleaving of calls: an accepted unforced reservation legally follows the order's
      last reserved event exactly when the event last recorded is of that type. */
  lemma {:induction false} ReservationFollowsIff(calls: seq<Call>, l: Ledger, id: string, t: EventType)
    requires AfterAll(calls) == Some(l) && ReserveResult(l.orders, id, t, false).Ok?
    ensures LastReserved(calls, id).Some?
    ensures IsLegalTransition(t, Some(ResultingState(LastReserved(calls, id).value))) <==>
            LastReserved(calls, id) == LastRecorded(calls, id)
  {
    StateIsLastRecorded(calls, l, id);
  }

  lemma {:induction false} AfterOne(calls: seq<Call>, l: Ledger, c: Call)
    requires AfterAll(calls) == Some(l) && Allowed(l, c)
    ensures AfterAll(calls + [c]) == Some(After(l, c))
    ensures (calls + [c])[..|calls|] == calls
  {
  }

  /** Two requests that both reserve before either records: both are accepted, with consecutive
      sequences, though the second does not follow the first. */
  lemma {:induction false} ConcurrentReservesAccepted(calls: seq<Call>, l: Ledger, id: string, t: EventType)
    requires AfterAll(calls) == Some(l) && ReserveResult(l.orders, id, t, false).Ok?
    ensures var first := calls + [Reserving(id, t, false)];
            && AfterAll(first).Some? && LastReserved(first, id) == Some(t) && LastRecorded(first, id) != Some(t)
            && ReserveResult(AfterAll(first).value.orders, id, t, false)
               == Ok(ReserveResult(l.orders, id, t, false).value + 1)
  {
    AfterOne(calls, l, Reserving(id, t, false));
    StateIsLastRecorded(calls, l, id);
  }

  /** That the last reserved event has been recorded is not enough: two open requests for one order, the
      second carried through to the next state, and then the first one's commit moves the state back. */
  lemma {:induction false} LateCommitMovesStateBack(id: string)
    returns (calls: seq<Call>, l: Ledger)
    ensures AfterAll(calls) == Some(l) && id in l.orders && Committing(id, EventType.Shipped, false) in calls
    ensures LastReserved(calls, id) == Some(EventType.Shipped) && LastRecorded(calls, id) == Some(EventType.Packed)
    ensures ReserveResult(l.orders, id, EventType.Shipped, false).Ok?
  {
    var packed := [Registering(id), Reserving(id, EventType.Packed, false), Reserving(id, EventType.Packed, false)];
    calls, l := [], Ledger(map[], map[]);
    AfterOne(calls, l, packed[0]);
    calls, l := calls + [packed[0]], After(l, packed[0]);
    AfterOne(calls, l, packed[1]);
    calls, l := calls + [packed[1]], After(l, packed[1]);
    AfterOne(calls, l, packed[2]);
    calls, l := calls + [packed[2]], After(l, packed[2]);
    calls, l := CommitThenShip(calls, l, id);
    AfterOne(calls, l, Committing(id, EventType.Packed, false));
    calls, l := calls + [Committing(id, EventType.Packed, false)], After(l, Committing(id, EventType.Packed, false));
  }

  lemma {:induction false} CommitThenShip(before: seq<Call>, k: Ledger, id: string)
    returns (calls: seq<Call>, l: Ledger)
    requires AfterAll(before) == Some(k) && id in k.orders
    ensures AfterAll(calls) == Some(l) && id in l.orders && Committing(id, EventType.Shipped, false) in calls
    ensures LastReserved(calls, id) == Some(EventType.Shipped)
  {
    calls, l := before, k;
    AfterOne(calls, l, Committing(id, EventType.Packed, false));
    calls, l := calls + [Committing(id, EventType.Packed, false)], After(l, Committing(id, EventType.Packed, false));
    AfterOne(calls, l, Reserving(id, EventType.Shipped, false));
    calls, l := calls + [Reserving(id, EventType.Shipped, false)], After(l, Reserving(id, EventType.Shipped, false));
    AfterOne(calls, l, Committing(id, EventType.Shipped, false));
    calls, l := calls + [Committing(id, EventType.Shipped, false)], After(l, Committing(id, EventType.Shipped, false));
  }

  /** The aggregate itself, with the sequences it handed out as history. */
  class OrderStore {
    var orders: Book
    ghost var issued: map<string, seq<nat>>

    ghost predicate Valid() reads this { Sound(orders, issued) }

    constructor ()
      ensures Valid() && orders == map[] && issued == map[]
    {
      orders := map[];
      issued := map[];
    }

    /** Called after the creation event has been acknowledged, with a fresh identifier. */
    method Register(id: string)
      requires Valid() && id !in issued
      modifies this
      ensures Valid()
      ensures Ledger(orders, issued) == After(old(Ledger(orders, issued)), Registering(id))
    {
      orders := orders[id := Order(OrderState.Created, 1)];
      issued := issued[id := []];
    }

    method Reserve(id: string, t: EventType, force: bool) returns (r: Result<nat>)
      requires Valid()
      modifies this
      ensures Valid()
      ensures r == ReserveResult(old(orders), id, t, force)
      ensures Ledger(orders, issued) == After(old(Ledger(orders, issued)), Reserving(id, t, force))
      ensures r == Refused(UnknownOrder) <==> id !in old(orders)
      ensures r.Ok? <==> id in old(orders) && (force || LegalPredecessor(t) == Some(old(orders)[id].state))
      ensures r.Ok? ==> id in old(issued) && r.value == |old(issued[id])| + 2
    {
      if id !in orders { return Refused(UnknownOrder); }
      var order := orders[id];
      if !force && !IsLegalTransition(t, Some(order.state)) { return Refused(IllegalTransition); }
      var sequence := order.lastSequence + 1;
      orders := orders[id := order.(lastSequence := sequence)];
      issued := issued[id := issued[id] + [sequence]];
      return Ok(sequence);
    }

    method Commit(id: string, t: EventType, force: bool) returns (r: Result<Order>)
      requires Valid()
      modifies this`orders
      ensures Valid()
      ensures orders == Committed(old(orders), id, t, force)
      ensures if id in orders then r == Ok(orders[id]) else r == Refused(UnknownOrder)
    {
      if id !in orders { return Refused(UnknownOrder); }
      var order := orders[id];
      if force && !IsLegalTransition(t, Some(order.state)) { return Ok(order); }
      orders := orders[id := order.(state := ResultingState(t))];
      return Ok(orders[id]);
    }

    method Remove(id: string) returns (r: Result<Order>)
      requires Valid()
      modifies this`orders
      ensures Valid()
      ensures orders == old(orders) - {id}
      ensures if id in old(orders) then r == Ok(old(orders)[id]) else r == Refused(UnknownOrder)
    {
      if id !in orders { return Refused(UnknownOrder); }
      r := Ok(orders[id]);
      orders := orders - {id};
    }
  }
}
