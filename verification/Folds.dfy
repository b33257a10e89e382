/** One order as one consumer sees it: folding an event, the sequence guard the store puts
    around the fold, and what any list of deliveries leaves behind. */
module Folds {
  import opened Events

  datatype OrderFold = OrderFold(orderId: string, lastSequence: nat, state: Option<OrderState>)

  datatype Violation =
    | SequenceGap(orderId: string, sequence: nat, expected: nat)
    | IllegalTransition(orderId: string, sequence: nat, observed: EventType, expectedNext: Option<EventType>)

  /** A stored row: the fold plus the store's own bookkeeping about it. */
  datatype Record = Record(fold: OrderFold, lastEventId: string, handledCount: nat)

  function ApplyEvent(current: Option<OrderFold>, e: Event): (OrderFold, seq<Violation>) {
    var fold := if current.Some? then current.value else OrderFold(e.orderId, 0, None);
    var gap := if e.sequence != fold.lastSequence + 1
               then [SequenceGap(e.orderId, e.sequence, fold.lastSequence + 1)] else [];
    var illegal := if !IsLegalTransition(e.eventType, fold.state)
                   then [IllegalTransition(e.orderId, e.sequence, e.eventType, ExpectedNextEvent(fold.state))] else [];
    (fold.(lastSequence := e.sequence, state := Some(ResultingState(e.eventType))), gap + illegal)
  }

  datatype SaveOutcome = SaveOutcome(record: Record, applied: bool)

  /** The store's guard: the fold moves only forward, the delivery count always moves. */
  function Guarded(previous: Option<Record>, fold: OrderFold, eventId: string): SaveOutcome {
    var before := if previous.None? then 0 else previous.value.fold.lastSequence;
    var count := if previous.None? then 1 else previous.value.handledCount + 1;
    var applied := fold.lastSequence > before;
    if applied || previous.None?
    then SaveOutcome(Record(fold, eventId, count), applied)
    else SaveOutcome(previous.value.(handledCount := count), applied)
  }

  function FoldOf(previous: Option<Record>): Option<OrderFold> {
    if previous.Some? then Some(previous.value.fold) else None
  }

  function LastSequence(r: Option<Record>): nat {
    if r.Some? then r.value.fold.lastSequence else 0
  }

  /** The loop's test, made before the handler runs. */
  predicate Redelivered(previous: Option<Record>, e: Event) {
    previous.Some? && e.sequence <= previous.value.fold.lastSequence
  }

  /** What the loop logs for one delivery: nothing at all for a repeat. */
  function Alarms(previous: Option<Record>, e: Event): seq<Violation> {
    if Redelivered(previous, e) then [] else ApplyEvent(FoldOf(previous), e).1
  }

  /** What the store holds after one successfully handled delivery. */
  function Deliver(previous: Option<Record>, e: Event): SaveOutcome {
    Guarded(previous, ApplyEvent(FoldOf(previous), e).0, e.eventId)
  }

  function DeliverAll(previous: Option<Record>, es: seq<Event>): Option<Record> {
    if es == [] then previous
    else Some(Deliver(DeliverAll(previous, es[..|es| - 1]), es[|es| - 1]).record)
  }

  // ---- Gap accounting ----

  /** The total of (observed - expected) over the sequence gaps in a list of alarms. */
  function GapTotal(alarms: seq<Violation>): int {
    if alarms == [] then 0
    else GapTotal(alarms[..|alarms| - 1]) + GapOf(alarms[|alarms| - 1])
  }

  function GapOf(a: Violation): int { if a.SequenceGap? then a.sequence - a.expected else 0 }

  lemma {:induction false} GapTotalOfTwo(a: Violation, b: Violation)
    ensures GapTotal([]) == 0 && GapTotal([a]) == GapOf(a) && GapTotal([a, b]) == GapOf(a) + GapOf(b)
  {
    assert [a][..0] == [] && [a, b][..1] == [a];
  }

  /** How many deliveries the store reports as having advanced the fold. */
  function Advances(previous: Option<Record>, es: seq<Event>): nat {
    if es == [] then 0
    else
      var init := es[..|es| - 1];
      Advances(previous, init) +
      if Deliver(DeliverAll(previous, init), es[|es| - 1]).applied then 1 else 0
  }

  function GapsReported(previous: Option<Record>, es: seq<Event>): int {
    if es == [] then 0
    else
      var init := es[..|es| - 1];
      GapsReported(previous, init) + GapTotal(Alarms(DeliverAll(previous, init), es[|es| - 1]))
  }

  /** The loop's redelivery test and the store's applied test never agree, whatever came before. */
  lemma {:induction false} GuardsDisagree(previous: Option<Record>, e: Event)
    ensures Redelivered(previous, e) <==> !Deliver(previous, e).applied
  {
  }

  lemma {:induction false} GapTotalOfOne(previous: Option<Record>, e: Event)
    ensures GapTotal(Alarms(previous, e)) ==
            if Redelivered(previous, e) then 0 else e.sequence - LastSequence(previous) - 1
  {
    var alarms := Alarms(previous, e);
    if |alarms| == 1 {
      assert alarms == [alarms[0]];
      GapTotalOfTwo(alarms[0], alarms[0]);
    } else if |alarms| == 2 {
      assert alarms == [alarms[0], alarms[1]];
      GapTotalOfTwo(alarms[0], alarms[1]);
    }
  }

  /** Every step the stored sequence took is either one advance or part of a reported gap. */
  lemma {:induction false} GapAccounting(previous: Option<Record>, es: seq<Event>)
    ensures LastSequence(DeliverAll(previous, es)) ==
            LastSequence(previous) + Advances(previous, es) + GapsReported(previous, es)
  {
    if es != [] {
      var init, e := es[..|es| - 1], es[|es| - 1];
      GapAccounting(previous, init);
      var middle := DeliverAll(previous, init);
      GuardsDisagree(middle, e);
      GapTotalOfOne(middle, e);
    }
  }

  // ---- Illegal transitions ----

  /** The state an order is known to be in: none when it has no row. */
  function StateOf(previous: Option<Record>): Option<OrderState> {
    if previous.Some? then previous.value.fold.state else None
  }

  /** An illegal transition is reported for exactly the deliveries that are no repeat and whose legal
      predecessor is not the stored state, with or without a gap beside it; it names the event and the
      sequence observed, and the one event that may follow that state. */
  lemma {:induction false} IllegalIff(previous: Option<Record>, e: Event)
    ensures (exists v :: v in Alarms(previous, e) && v.IllegalTransition?) <==>
            !Redelivered(previous, e) && LegalPredecessor(e.eventType) != StateOf(previous)
    ensures forall v :: v in Alarms(previous, e) && v.IllegalTransition? ==>
              && v.orderId == e.orderId && v.sequence == e.sequence && v.observed == e.eventType
              && forall t: EventType :: v.expectedNext == Some(t) <==> LegalPredecessor(t) == StateOf(previous)
  {
    var (_, violations) := ApplyEvent(FoldOf(previous), e);
    if !IsLegalTransition(e.eventType, StateOf(previous)) {
      var v := violations[|violations| - 1];
      assert v in violations && v.IllegalTransition?;
    }
  }

  /** A gap is reported for exactly the deliveries that jump ahead, with the sequence awaited. */
  lemma {:induction false} GapIff(previous: Option<Record>, e: Event)
    ensures (exists v :: v in Alarms(previous, e) && v.SequenceGap?) <==> e.sequence > LastSequence(previous) + 1
    ensures forall v :: v in Alarms(previous, e) && v.SequenceGap? ==>
              v == SequenceGap(e.orderId, e.sequence, LastSequence(previous) + 1)
  {
    var (_, violations) := ApplyEvent(FoldOf(previous), e);
    if e.sequence != LastSequence(previous) + 1 {
      assert violations[0] in violations && violations[0].SequenceGap?;
    }
  }

  function IllegalCount(alarms: seq<Violation>): nat {
    if alarms == [] then 0
    else IllegalCount(alarms[..|alarms| - 1]) + if alarms[|alarms| - 1].IllegalTransition? then 1 else 0
  }

  lemma {:induction false} IllegalCountOfTwo(a: Violation, b: Violation)
    ensures IllegalCount([]) == 0 && IllegalCount([a]) == (if a.IllegalTransition? then 1 else 0)
    ensures IllegalCount([a, b]) == IllegalCount([a]) + IllegalCount([b])
  {
    assert [a][..0] == [] && [b][..0] == [] && [a, b][..1] == [a];
  }

  lemma {:induction false} IllegalCountOfOne(previous: Option<Record>, e: Event)
    ensures IllegalCount(Alarms(previous, e)) ==
            if !Redelivered(previous, e) && LegalPredecessor(e.eventType) != StateOf(previous) then 1 else 0
  {
    var alarms := Alarms(previous, e);
    if |alarms| == 1 {
      assert alarms == [alarms[0]];
      IllegalCountOfTwo(alarms[0], alarms[0]);
    } else if |alarms| == 2 {
      assert alarms == [alarms[0], alarms[1]];
      IllegalCountOfTwo(alarms[0], alarms[1]);
    }
  }

  function IllegalsReported(previous: Option<Record>, es: seq<Event>): nat {
    if es == [] then 0
    else
      var init := es[..|es| - 1];
      IllegalsReported(previous, init) + IllegalCount(Alarms(DeliverAll(previous, init), es[|es| - 1]))
  }

  /** The highest sequence among the deliveries, or the one to begin with. */
  function Highest(base: nat, es: seq<Event>): nat {
    if es == [] then base
    else
      var before := Highest(base, es[..|es| - 1]);
      if es[|es| - 1].sequence > before then es[|es| - 1].sequence else before
  }

  /** The types of the deliveries that went past everything before them, in order. */
  function Climb(base: nat, es: seq<Event>): seq<EventType> {
    if es == [] then []
    else
      var init, e := es[..|es| - 1], es[|es| - 1];
      Climb(base, init) + if e.sequence > Highest(base, init) then [e.eventType] else []
  }

  /** How many events of a list do not legally follow the one before, starting from a state. */
  function Missteps(start: Option<OrderState>, ts: seq<EventType>): nat {
    if ts == [] then 0
    else
      var init, t := ts[..|ts| - 1], ts[|ts| - 1];
      Missteps(start, init) + if LegalPredecessor(t) != StateAfter(start, init) then 1 else 0
  }

  lemma {:induction false} ClimbIsFold(previous: Option<Record>, es: seq<Event>)
    ensures LastSequence(DeliverAll(previous, es)) == Highest(LastSequence(previous), es)
    ensures StateOf(DeliverAll(previous, es)) == StateAfter(StateOf(previous), Climb(LastSequence(previous), es))
  {
    if es != [] { ClimbIsFold(previous, es[..|es| - 1]); }
  }

  /** Over any deliveries of one order, gaps among them or not: the illegal transitions reported are
      exactly the missteps along the deliveries that went past all the earlier ones. */
  lemma {:induction false} IllegalAccounting(previous: Option<Record>, es: seq<Event>)
    ensures IllegalsReported(previous, es) == Missteps(StateOf(previous), Climb(LastSequence(previous), es))
  {
    if es != [] {
      var init, e := es[..|es| - 1], es[|es| - 1];
      IllegalAccounting(previous, init);
      ClimbIsFold(previous, init);
      IllegalCountOfOne(DeliverAll(previous, init), e);
      var climbed := Climb(LastSequence(previous), init);
      assert (climbed + [e.eventType])[..|climbed|] == climbed && climbed + [] == climbed;
    }
  }

  lemma {:induction false} NoMisstepIff(ts: seq<EventType>)
    ensures Missteps(None, ts) == 0 <==> LegalRun(ts)
  {
    if ts != [] { NoMisstepIff(ts[..|ts| - 1]); }
  }

  /** So a consumer new to an order reports no illegal transition exactly when what carried it forward
      is a beginning of the lifecycle. */
  lemma {:induction false} NoIllegalIff(es: seq<Event>)
    ensures IllegalsReported(None, es) == 0 <==> Climb(0, es) <= LIFECYCLE
  {
    IllegalAccounting(None, es);
    NoMisstepIff(Climb(0, es));
    LegalRunIff(Climb(0, es));
  }

  // ---- Order independence ----

  /** The stored row is the delivered event with the highest sequence, counted once a delivery. */
  ghost predicate IsTop(r: Record, es: seq<Event>) {
    && r.handledCount == |es|
    && (forall e :: e in es ==> e.sequence <= r.fold.lastSequence)
    && exists e :: e in es && Reflects(r, e)
  }

  ghost predicate Reflects(r: Record, e: Event) {
    && r.fold.lastSequence == e.sequence
    && r.fold.state == Some(ResultingState(e.eventType))
    && r.lastEventId == e.eventId
  }

  lemma {:induction false} DeliverOne(e: Event)
    ensures DeliverAll(None, [e]) == Some(Deliver(None, e).record)
  {
    assert [e][..0] == [];
    assert DeliverAll(None, []) == None;
  }

  lemma {:induction false} DeliverAllIsTop(es: seq<Event>)
    requires es != []
    ensures DeliverAll(None, es).Some? && IsTop(DeliverAll(None, es).value, es)
  {
    var init, last := es[..|es| - 1], es[|es| - 1];
    var r := DeliverAll(None, es).value;
    assert es == init + [last];
    if init == [] {
      DeliverOne(last);
      assert es == [last];
      assert Reflects(r, last);
    } else {
      DeliverAllIsTop(init);
      var before := DeliverAll(None, init).value;
      var top :| top in init && Reflects(before, top);
      assert Reflects(r, if last.sequence > before.fold.lastSequence then last else top);
    }
  }

  ghost predicate OneTypePerSequence(es: seq<Event>) {
    forall a, b :: a in es && b in es && a.sequence == b.sequence ==> a.eventType == b.eventType
  }

  /** Which sequences were delivered, and with which type: neither order nor repetition. */
  ghost function Seen(es: seq<Event>): set<(nat, EventType)> {
    set e | e in es :: (e.sequence, e.eventType)
  }

  /** Permuting, repeating or re-reading deliveries does not change the stored fold. */
  lemma {:induction false} OrderIndependence(es: seq<Event>, fs: seq<Event>)
    requires es != [] && fs != [] && OneTypePerSequence(es)
    requires Seen(es) == Seen(fs)
    ensures var r, s := DeliverAll(None, es), DeliverAll(None, fs);
            && r.Some? && s.Some?
            && r.value.fold.lastSequence == s.value.fold.lastSequence
            && r.value.fold.state == s.value.fold.state
  {
    DeliverAllIsTop(es);
    DeliverAllIsTop(fs);
    var a :| a in es && Reflects(DeliverAll(None, es).value, a);
    var b :| b in fs && Reflects(DeliverAll(None, fs).value, b);
    assert (a.sequence, a.eventType) in Seen(fs) && (b.sequence, b.eventType) in Seen(es);
  }

  /** Consuming a whole topic a second time leaves every fold as it was. */
  lemma {:induction false} ReconsumingIsHarmless(es: seq<Event>)
    requires es != [] && OneTypePerSequence(es)
    ensures var once, twice := DeliverAll(None, es), DeliverAll(None, es + es);
            && once.Some? && twice.Some?
            && twice.value.fold.lastSequence == once.value.fold.lastSequence
            && twice.value.fold.state == once.value.fold.state
            && twice.value.handledCount == 2 * once.value.handledCount
  {
    DeliverAllIsTop(es);
    DeliverAllIsTop(es + es);
    assert Seen(es + es) == Seen(es);
    OrderIndependence(es, es + es);
  }
}
