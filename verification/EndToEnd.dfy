/** From the order service's request handlers, through the topic, to the alarms a consumer logs.
    Requests for one order are serial and every publish is acknowledged; requests for different
    orders, and everything the consumer does, interleave freely. */
module EndToEnd {
  import opened Events
  import opened Folds
  import opened Histories
  import opened Orders
  import Loop = AtLeastOnce

  // ---- What the topic has to look like for a consumer to stay silent ----

  predicate At(log: seq<Loop.Message>, j: nat, e: Event) {
    j < |log| && log[j] == Loop.Decoded(e)
  }

  predicate Carries(log: seq<Loop.Message>, i: nat, id: string, sequence: int) {
    i < |log| && log[i].Decoded? && log[i].event.orderId == id && log[i].event.sequence == sequence
  }

  /** Offset i holds the event just before e of the same order. */
  predicate Precedes(log: seq<Loop.Message>, i: nat, e: Event) {
    Carries(log, i, e.orderId, e.sequence - 1)
  }

  /** Every event past the first of its order comes after its predecessor. */
  ghost predicate PredecessorClosed(log: seq<Loop.Message>) {
    forall j: nat, e :: At(log, j, e) && e.sequence > 1 ==> exists i :: 0 <= i < j && Precedes(log, i, e)
  }

  /** Consecutive events of an order are consecutive lifecycle steps. */
  ghost predicate TransitionsLegal(log: seq<Loop.Message>) {
    && (forall i :: 0 <= i < |log| && log[i].Decoded? && log[i].event.sequence == 1 ==>
          IsLegalTransition(log[i].event.eventType, None))
    && (forall i, j :: 0 <= i < |log| && 0 <= j < |log| && log[i].Decoded? && log[j].Decoded? &&
                       log[i].event.orderId == log[j].event.orderId &&
                       log[j].event.sequence == log[i].event.sequence + 1 ==>
          IsLegalTransition(log[j].event.eventType, Some(ResultingState(log[i].event.eventType))))
  }

  predicate NoGaps(alarms: seq<Violation>) {
    forall a :: a in alarms ==> !a.SequenceGap?
  }

  /** A ready consumer anywhere in what has been dealt with, wherever its committed offset is. */
  ghost predicate Caught(s: Loop.State) {
    && Loop.Coherent(s) && s.phase.Ready? && s.pending == [] && s.moved == {}
    && s.position < |s.log| && forall i :: 0 <= i < s.position ==> Loop.Covered(s, i)
  }

  /** A ready consumer that has handled everything before its position already holds the
      predecessor of the event it reads next. */
  lemma {:induction false} PredecessorIsStored(s: Loop.State, e: Event)
    requires Caught(s)
    requires s.log[s.position] == Loop.Decoded(e) && PredecessorClosed(s.log)
    ensures e.sequence - 1 <= LastSequence(Get(s.store, e.orderId))
  {
    if e.sequence > 1 {
      assert At(s.log, s.position, e);
      var i :| 0 <= i < s.position && Precedes(s.log, i, e);
      assert Loop.Covered(s, i);
      var d :| d in s.landed && d.offset == i;
      assert d in Loop.All(s);
      assert Loop.Genuine(s, d);
      FoldAtKey(Loop.All(s), e.orderId);
    }
  }

  /** The stored state is the outcome of an event of the topic carrying the stored sequence. */
  lemma {:induction false} StoredStateIsGenuine(s: Loop.State, id: string) returns (i: nat)
    requires Caught(s) && id in s.store
    ensures Carries(s.log, i, id, s.store[id].fold.lastSequence)
    ensures s.store[id].fold.state == Some(ResultingState(s.log[i].event.eventType))
  {
    FoldAtKey(Loop.All(s), id);
    var d :| d in Loop.All(s) && d.event.orderId == id && Reflects(s.store[id], d.event);
    assert Loop.Genuine(s, d);
    i := d.offset;
  }

  lemma {:induction false} ReadingRaisesNoAlarm(s: Loop.State)
    requires Caught(s)
    requires PredecessorClosed(s.log)
    ensures NoGaps(Loop.Reported(s, s.log[s.position]))
    ensures TransitionsLegal(s.log) ==> Loop.Reported(s, s.log[s.position]) == []
  {
    var m := s.log[s.position];
    if m.Decoded? {
      PredecessorIsStored(s, m.event);
      if m.event.orderId in s.store {
        var i := StoredStateIsGenuine(s, m.event.orderId);
      }
    }
  }

  // ---- The producer's request handlers beside the consume loop ----

  /** How far the one open request of an order has got. */
  datatype Request =
    | Creating                                                         // published, not registered
    | Holding(sequence: Sequence, eventType: EventType, force: bool)   // reserved, not published
    | Recording(eventType: EventType, force: bool)                     // published, not recorded

  datatype World = World(
    loop: Loop.State,
    orders: Book,
    open: map<string, Request>,
    tail: map<string, Event>,      // the last event published for each order
    forced: bool)                  // whether any request ever bypassed the guard

  datatype Step =
    | Create(id: string, eventId: string)
    | FinishCreate(id: string)
    | Ask(id: string, eventType: EventType, force: bool)
    | Send(id: string, eventId: string)
    | FinishSend(id: string)
    | Consume(a: Loop.Action)

  /** Handlers succeed; the topic otherwise grows only by retries addressed to other services. */
  predicate LoopMay(a: Loop.Action) {
    !a.RouteAway? && !a.RouteFailed? && !a.LoseRecord? && !a.Erase? && (a.Append? ==> a.m.NotOurs?)
  }

  predicate Enabled(w: World, st: Step) {
    match st
    case Create(id, _) => id !in w.tail
    case FinishCreate(id) => id in w.open && w.open[id].Creating?
    case Ask(id, _, _) => id !in w.open
    case Send(id, _) => id in w.open && w.open[id].Holding?
    case FinishSend(id) => id in w.open && w.open[id].Recording?
    case Consume(a) => LoopMay(a) && Loop.Enabled(w.loop, a)
  }

  function Published(w: World, e: Event): World {
    w.(loop := Loop.Do(w.loop, Loop.Append(Loop.Decoded(e))), tail := w.tail[e.orderId := e])
  }

  function Do(w: World, st: Step): World
    requires Enabled(w, st)
  {
    match st
    case Create(id, eventId) =>
      Published(w, Event(eventId, id, 1, EventType.OrderCreated)).(open := w.open[id := Creating])
    case FinishCreate(id) => w.(orders := Registered(w.orders, id), open := w.open - {id})
    case Ask(id, t, force) =>
      var r := ReserveResult(w.orders, id, t, force);
      if r.Ok?
      then w.(orders := Reserved(w.orders, id, t, force), open := w.open[id := Holding(r.value, t, force)],
              forced := w.forced || force)
      else w
    case Send(id, eventId) =>
      var q := w.open[id];
      Published(w, Event(eventId, id, q.sequence, q.eventType)).(open := w.open[id := Recording(q.eventType, q.force)])
    case FinishSend(id) =>
      w.(orders := Committed(w.orders, id, w.open[id].eventType, w.open[id].force), open := w.open - {id})
    case Consume(a) => w.(loop := Loop.Do(w.loop, a))
  }

  function Start(): World { World(Loop.Init(Loop.StateFirst), map[], map[], map[], false) }

  function Exec(steps: seq<Step>): Option<World> {
    if steps == [] then Some(Start())
    else
      var before := Exec(steps[..|steps| - 1]);
      if before.Some? && Enabled(before.value, steps[|steps| - 1])
      then Some(Do(before.value, steps[|steps| - 1])) else None
  }

  // ---- The invariant ----

  /** The tail of an order is its last event, and sequences only climb. */
  ghost predicate TailIsLast(log: seq<Loop.Message>, tail: map<string, Event>) {
    && (forall i :: 0 <= i < |log| && log[i].Decoded? ==>
          && log[i].event.orderId in tail
          && log[i].event.sequence <= tail[log[i].event.orderId].sequence
          && (log[i].event.sequence == tail[log[i].event.orderId].sequence ==>
             log[i].event == tail[log[i].event.orderId]))
    && (forall id :: id in tail ==> exists i :: Carries(log, i, id, tail[id].sequence))
  }

  /** Where one order stands between its last published event and the service's record. */
  predicate InStep(w: World, id: string) {
    if id !in w.tail then id !in w.open && id !in w.orders
    else
      var last := w.tail[id];
      && last.orderId == id
      && (id !in w.orders ==> id in w.open && w.open[id].Creating? && last.sequence == 1)
      && (id in w.orders ==>
            if id in w.open && w.open[id].Holding?
            then w.orders[id].lastSequence == w.open[id].sequence == last.sequence + 1
            else w.orders[id].lastSequence == last.sequence)
      && (id in w.open && !w.open[id].Creating? ==> id in w.orders)
      && (id in w.open && w.open[id].Creating? ==> id !in w.orders && last.eventType == EventType.OrderCreated)
  }

  /** With nothing forced, the recorded state trails the topic by at most the open request. */
  predicate InState(w: World, id: string) {
    id in w.tail && id in w.orders ==>
      if id in w.open && w.open[id].Recording?
      then w.open[id].eventType == w.tail[id].eventType && !w.open[id].force
      else
        && w.orders[id].state == ResultingState(w.tail[id].eventType)
        && (id in w.open && w.open[id].Holding? ==>
              IsLegalTransition(w.open[id].eventType, Some(w.orders[id].state)) && !w.open[id].force)
  }

  ghost predicate ProducerInv(w: World) {
    && TailIsLast(w.loop.log, w.tail)
    && PredecessorClosed(w.loop.log)
    && (forall id :: InStep(w, id))
    && (!w.forced ==> TransitionsLegal(w.loop.log) && forall id :: InState(w, id))
  }

  ghost predicate LoopInv(w: World) {
    && w.loop.order.StateFirst? && w.loop.moved == {} && Loop.Clean(w.loop)
    && Loop.Inv(w.loop)
  }

  ghost predicate Quiet(w: World) {
    NoGaps(w.loop.alarms) && (!w.forced ==> w.loop.alarms == [])
  }

  lemma {:induction false} AppendKeepsClosed(log: seq<Loop.Message>, m: Loop.Message)
    requires PredecessorClosed(log)
    requires m.Decoded? && m.event.sequence > 1 ==> exists i :: 0 <= i < |log| && Precedes(log, i, m.event)
    ensures PredecessorClosed(log + [m])
  {
    var longer := log + [m];
    forall j: nat, e | At(longer, j, e) && e.sequence > 1
      ensures exists i :: 0 <= i < j && Precedes(longer, i, e)
    {
      assert j < |log| ==> At(log, j, e);
      var i :| 0 <= i < j && Precedes(log, i, e);
      assert Precedes(longer, i, e);
    }
  }

  /** A message keeps tails in place if it carries no event, or carries the new tail. */
  lemma {:induction false} AppendKeepsTail(
    log: seq<Loop.Message>, tail: map<string, Event>, m: Loop.Message, longerTail: map<string, Event>)
    requires TailIsLast(log, tail)
    requires if m.Decoded? then longerTail == tail[m.event.orderId := m.event] else longerTail == tail
    requires m.Decoded? && m.event.orderId in tail ==> m.event.sequence > tail[m.event.orderId].sequence
    ensures TailIsLast(log + [m], longerTail)
  {
    var longer := log + [m];
    forall id | id in longerTail ensures exists i :: Carries(longer, i, id, longerTail[id].sequence) {
      if m.Decoded? && id == m.event.orderId {
        assert Carries(longer, |log|, id, longerTail[id].sequence);
      } else {
        var i :| Carries(log, i, id, tail[id].sequence);
        assert Carries(longer, i, id, tail[id].sequence);
      }
    }
  }

  lemma {:induction false} AppendKeepsLegality(log: seq<Loop.Message>, tail: map<string, Event>, e: Event)
    requires TailIsLast(log, tail) && TransitionsLegal(log)
    requires if e.orderId in tail then e.sequence == tail[e.orderId].sequence + 1 else e.sequence == 1
    requires IsLegalTransition(e.eventType,
                               if e.orderId in tail then Some(ResultingState(tail[e.orderId].eventType)) else None)
    ensures TransitionsLegal(log + [Loop.Decoded(e)])
  {
  }

  lemma {:induction false} PublishKeepsTopic(w: World, e: Event)
    requires ProducerInv(w)
    requires if e.orderId in w.tail then e.sequence == w.tail[e.orderId].sequence + 1 else e.sequence == 1
    requires !w.forced ==>
               IsLegalTransition(e.eventType,
                                 if e.orderId !in w.tail then None
                                 else Some(ResultingState(w.tail[e.orderId].eventType)))
    ensures TailIsLast(Published(w, e).loop.log, Published(w, e).tail)
    ensures PredecessorClosed(Published(w, e).loop.log)
    ensures !w.forced ==> TransitionsLegal(Published(w, e).loop.log)
  {
    AppendKeepsTail(w.loop.log, w.tail, Loop.Decoded(e), Published(w, e).tail);
    if e.sequence > 1 {
      var i :| Carries(w.loop.log, i, e.orderId, w.tail[e.orderId].sequence);
      assert Precedes(w.loop.log, i, e);
    }
    AppendKeepsClosed(w.loop.log, Loop.Decoded(e));
    if !w.forced { AppendKeepsLegality(w.loop.log, w.tail, e); }
  }

  lemma {:induction false} RequestKeepsStep(w: World, st: Step, other: string)
    requires Enabled(w, st) && !st.Consume? && InStep(w, st.id) && InStep(w, other)
    ensures InStep(Do(w, st), other)
  {
  }

  lemma {:induction false} RequestKeepsState(w: World, st: Step, other: string)
    requires Enabled(w, st) && !st.Consume? && !Do(w, st).forced
    requires InStep(w, other) && InState(w, other)
    ensures InState(Do(w, st), other)
  {
  }

  lemma {:induction false} ProducerStepKeepsInv(w: World, st: Step)
    requires ProducerInv(w) && Enabled(w, st) && !st.Consume?
    ensures ProducerInv(Do(w, st))
  {
    var id := st.id;
    assert InStep(w, id);
    if st.Create? {
      PublishKeepsTopic(w, Event(st.eventId, id, 1, EventType.OrderCreated));
    } else if st.Send? {
      assert !w.forced ==> InState(w, id);
      PublishKeepsTopic(w, Event(st.eventId, id, w.open[id].sequence, w.open[id].eventType));
    }
    forall other ensures InStep(Do(w, st), other) {
      assert InStep(w, other);
      RequestKeepsStep(w, st, other);
    }
    if !Do(w, st).forced {
      forall other ensures InState(Do(w, st), other) {
        assert InState(w, other) && InStep(w, other);
        RequestKeepsState(w, st, other);
      }
    }
  }

  lemma {:induction false} OnlyAppendChangesLog(s: Loop.State, a: Loop.Action)
    requires Loop.Enabled(s, a)
    ensures Loop.Do(s, a).log == if a.Append? then s.log + [a.m] else s.log
  {
  }

  /** The producer's invariant does not look at the loop beyond the topic, and a retry
      addressed to another service does not disturb it. */
  lemma {:induction false} LoopKeepsProducer(w: World, after: Loop.State)
    requires ProducerInv(w)
    requires after.log == w.loop.log || after.log == w.loop.log + [Loop.NotOurs]
    ensures ProducerInv(w.(loop := after))
  {
    var v := w.(loop := after);
    assert !v.forced ==> TransitionsLegal(v.loop.log);
    if after.log != w.loop.log {
      AppendKeepsTail(w.loop.log, w.tail, Loop.NotOurs, w.tail);
      AppendKeepsClosed(w.loop.log, Loop.NotOurs);
    }
    forall id ensures InStep(v, id) { assert InStep(w, id); }
    if !v.forced {
      forall id ensures InState(v, id) { assert InState(w, id); }
    }
  }

  lemma {:induction false} LoopStepKeepsLoop(w: World, a: Loop.Action)
    requires LoopInv(w) && Loop.Enabled(w.loop, a) && !a.RouteAway? && !a.LoseRecord? && !a.Erase?
    ensures LoopInv(w.(loop := Loop.Do(w.loop, a)))
  {
    Loop.CoherentKept(w.loop, a);
    Loop.PlacedKept(w.loop, a);
    Loop.ProgressKept(w.loop, a);
  }

  lemma {:induction false} ConsumerStepStaysQuiet(w: World, a: Loop.Action)
    requires ProducerInv(w) && LoopInv(w) && Quiet(w) && Enabled(w, Consume(a))
    ensures Quiet(Do(w, Consume(a)))
  {
    if a.Handle? {
      var s := w.loop;
      assert Caught(s);
      ReadingRaisesNoAlarm(s);
      GapsAppend(s.alarms, Loop.Reported(s, s.log[s.position]));
      assert Do(w, Consume(a)).loop.alarms == s.alarms + Loop.Reported(s, s.log[s.position]);
    } else {
      OthersLogNothing(w.loop, a);
    }
  }

  lemma {:induction false} GapsAppend(a: seq<Violation>, b: seq<Violation>)
    requires NoGaps(a) && NoGaps(b)
    ensures NoGaps(a + b)
  {
  }

  lemma {:induction false} OthersLogNothing(s: Loop.State, a: Loop.Action)
    requires Loop.Enabled(s, a) && LoopMay(a) && !a.Handle?
    ensures Loop.Do(s, a).alarms == s.alarms
  {
  }

  lemma {:induction false} ProducerStepKeepsLoop(w: World, st: Step)
    requires LoopInv(w) && Quiet(w) && Enabled(w, st) && !st.Consume?
    ensures LoopInv(Do(w, st)) && Quiet(Do(w, st))
  {
    if st.Create? {
      LoopStepKeepsLoop(w, Loop.Append(Loop.Decoded(Event(st.eventId, st.id, 1, EventType.OrderCreated))));
    } else if st.Send? {
      var q := w.open[st.id];
      LoopStepKeepsLoop(w, Loop.Append(Loop.Decoded(Event(st.eventId, st.id, q.sequence, q.eventType))));
    }
  }

  lemma {:induction false} StartHolds(w: World)
    requires w == Start()
    ensures ProducerInv(w) && LoopInv(w) && Quiet(w)
  {
    Loop.InvHolds([], w.loop);
    assert w.loop.log == [] && w.tail == map[] && w.orders == map[] && w.open == map[];
    assert TailIsLast(w.loop.log, w.tail) && PredecessorClosed(w.loop.log) && TransitionsLegal(w.loop.log);
    forall id ensures InStep(w, id) && InState(w, id) { }
  }

  lemma {:induction false} EverythingHolds(steps: seq<Step>, w: World)
    requires Exec(steps) == Some(w)
    ensures ProducerInv(w) && LoopInv(w) && Quiet(w)
  {
    if steps != [] {
      var before := Exec(steps[..|steps| - 1]).value;
      var st := steps[|steps| - 1];
      EverythingHolds(steps[..|steps| - 1], before);
      if st.Consume? {
        OnlyAppendChangesLog(before.loop, st.a);
        LoopKeepsProducer(before, Loop.Do(before.loop, st.a));
        LoopStepKeepsLoop(before, st.a);
        ConsumerStepStaysQuiet(before, st.a);
      } else {
        ProducerStepKeepsInv(before, st);
        ProducerStepKeepsLoop(before, st);
      }
    } else {
      StartHolds(w);
    }
  }

  /** No interleaving of serial requests, rewinds, offset resets, crashes and rebuilds makes the consumer
      report a sequence gap; with nothing forced it reports nothing at all. */
  lemma {:induction false} NoFalseAlarms(steps: seq<Step>, w: World)
    requires Exec(steps) == Some(w)
    ensures NoGaps(w.loop.alarms)
    ensures !w.forced ==> w.loop.alarms == []
  {
    EverythingHolds(steps, w);
  }

  /** What an unforced reservation costs downstream, over every interleaving of the allocator's calls: a
      consumer that folds the order's last reserved event and then the newly reserved one reports an
      illegal transition exactly when the event last recorded is not of the last reserved type. */
  lemma {:induction false} AlarmIffUnrecorded(calls: seq<Call>, l: Ledger, a: Event, b: Event, before: Option<Record>)
    requires AfterAll(calls) == Some(l) && ReserveResult(l.orders, b.orderId, b.eventType, false) == Ok(b.sequence)
    requires a.orderId == b.orderId && LastReserved(calls, b.orderId) == Some(a.eventType)
    requires a.sequence + 1 == b.sequence && LastSequence(before) < a.sequence
    ensures (exists v :: v in Alarms(Some(Deliver(before, a).record), b) && v.IllegalTransition?) <==>
            LastRecorded(calls, b.orderId) != Some(a.eventType)
  {
    var first := Deliver(before, a).record;
    ReservationFollowsIff(calls, l, b.orderId, b.eventType);
    assert first.fold.lastSequence == a.sequence && first.fold.state == Some(ResultingState(a.eventType));
    var v := Violation.IllegalTransition(b.orderId, b.sequence, b.eventType, ExpectedNextEvent(first.fold.state));
    if !IsLegalTransition(b.eventType, first.fold.state) {
      assert v in Alarms(Some(first), b);
    }
  }

  /** So two requests that both reserve before either records raise an alarm nobody forced. */
  lemma {:induction false} ConcurrentReservesRaiseAlarm(
    calls: seq<Call>, l: Ledger, a: Event, b: Event, before: Option<Record>)
    requires AfterAll(calls) == Some(l) && ReserveResult(l.orders, a.orderId, a.eventType, false) == Ok(a.sequence)
    requires b.orderId == a.orderId && b.eventType == a.eventType && b.sequence == a.sequence + 1
    requires LastSequence(before) < a.sequence
    ensures var both := AfterAll(calls + [Reserving(a.orderId, a.eventType, false)]);
            both.Some? && ReserveResult(both.value.orders, a.orderId, b.eventType, false) == Ok(b.sequence)
    ensures exists v :: v in Alarms(Some(Deliver(before, a).record), b) && v.IllegalTransition?
  {
    ConcurrentReservesAccepted(calls, l, a.orderId, a.eventType);
    var first := calls + [Reserving(a.orderId, a.eventType, false)];
    AlarmIffUnrecorded(first, AfterAll(first).value, a, b, before);
  }
}
