/** Reading messages again: after a reset of the group's offsets, a crash or a rebalance. What is
    stored for an order changes exactly when something new about it is handled, and re-reading the
    whole topic against populated state changes nothing but the delivery counts. */
module Reconsume {
  import opened Events
  import opened Folds
  import opened Histories
  import opened AtLeastOnce

  // ---- What more deliveries do to one order ----

  /** The row of an order, its delivery count aside. */
  predicate SameFold(a: Record, b: Record) { a.fold == b.fold && a.lastEventId == b.lastEventId }

  predicate NothingPast(ds: seq<Delivery>, key: string, last: nat) {
    forall d :: d in ds && d.event.orderId == key ==> d.event.sequence <= last
  }

  lemma {:induction false} FoldStands(h: seq<Delivery>, more: seq<Delivery>, key: string)
    requires key in FoldAll(h) && NothingPast(more, key, FoldAll(h)[key].fold.lastSequence)
    ensures key in FoldAll(h + more) && SameFold(FoldAll(h + more)[key], FoldAll(h)[key])
  {
    if more == [] {
      assert h + more == h;
    } else {
      var init, d := more[..|more| - 1], more[|more| - 1];
      assert forall e :: e in init ==> e in more;
      FoldStands(h, init, key);
      assert d in more;
      assert h + more == (h + init) + [d];
      HistoryAppend(h + init, d);
    }
  }

  /** Handling more leaves the row as it was exactly when none of it goes past the stored sequence. */
  lemma {:induction false} FoldStandsIff(h: seq<Delivery>, more: seq<Delivery>, key: string)
    requires key in FoldAll(h)
    ensures key in FoldAll(h + more)
    ensures SameFold(FoldAll(h + more)[key], FoldAll(h)[key]) <==>
            NothingPast(more, key, FoldAll(h)[key].fold.lastSequence)
  {
    FoldAtKey(h, key);
    FoldAtKey(h + more, key);
    var d :| d in h && d.event.orderId == key;
    assert d in h + more;
    if NothingPast(more, key, FoldAll(h)[key].fold.lastSequence) {
      FoldStands(h, more, key);
    } else {
      var e :| e in more && e.event.orderId == key && e.event.sequence > FoldAll(h)[key].fold.lastSequence;
      assert e in h + more;
    }
  }

  // ---- Over runs ----

  lemma {:induction false} StepGrows(s: State, a: Action)
    requires Enabled(s, a)
    ensures s.landed <= Do(s, a).landed && s.log <= Do(s, a).log && Do(s, a).order == s.order
    ensures s.deliveryErrors <= Do(s, a).deliveryErrors && s.erased <= Do(s, a).erased
  {
  }

  /** What has landed stays, and the topic only grows. */
  lemma {:induction false} HistoryGrows(s: State, acts: seq<Action>, t: State)
    requires Exec(s, acts) == Some(t)
    ensures s.landed <= t.landed && s.log <= t.log
    ensures t.order == s.order && s.deliveryErrors <= t.deliveryErrors && s.erased <= t.erased
  {
    if acts != [] {
      var before := Exec(s, acts[..|acts| - 1]).value;
      HistoryGrows(s, acts[..|acts| - 1], before);
      StepGrows(before, acts[|acts| - 1]);
    }
  }

  lemma {:induction false} StaysReachable(s: State, acts: seq<Action>, t: State)
    requires Reachable(StateFirst, s) && Exec(s, acts) == Some(t)
    ensures Reachable(StateFirst, t)
  {
    var before :| Exec(Init(StateFirst), before) == Some(s);
    ExecConcat(Init(StateFirst), before, s, acts, t);
  }

  /** From any reachable state, through any run with resets, crashes, rewinds and rebuilds: the row a
      rebuild reads for an order is what it was exactly when nothing further about that order landed. */
  lemma {:induction false} RowStandsIff(s: State, acts: seq<Action>, t: State, key: string)
    requires Reachable(StateFirst, s) && Exec(s, acts) == Some(t) && Clean(t) && key in Rebuilt(s)
    ensures key in Rebuilt(t)
    ensures SameFold(Rebuilt(t)[key], Rebuilt(s)[key]) <==>
            NothingPast(t.landed, key, Rebuilt(s)[key].fold.lastSequence)
  {
    HistoryGrows(s, acts, t);
    StaysReachable(s, acts, t);
    RecoveryAnywhere(s);
    RecoveryAnywhere(t);
    var more := t.landed[|s.landed|..];
    assert t.landed == s.landed + more;
    FoldStandsIff(s.landed, more, key);
    FoldAtKey(s.landed, key);
    forall d | d in t.landed && d !in more ensures d in s.landed { }
  }

  /** If the run handled no message that had not been handled before, every row stands and no order is
      added; the counts grow by one for each delivery. */
  lemma {:induction false} NothingNewChangesNothing(s: State, acts: seq<Action>, t: State)
    requires Reachable(StateFirst, s) && Exec(s, acts) == Some(t) && Clean(t)
    requires Offsets(t.landed) <= Offsets(s.landed)
    ensures Rebuilt(t).Keys == Rebuilt(s).Keys
    ensures forall key :: key in Rebuilt(s) ==> SameFold(Rebuilt(t)[key], Rebuilt(s)[key])
    ensures TotalHandled(Rebuilt(t)) == TotalHandled(Rebuilt(s)) + |t.landed| - |s.landed|
  {
    HistoryGrows(s, acts, t);
    StaysReachable(s, acts, t);
    RecoveryAnywhere(s);
    RecoveryAnywhere(t);
    TotalIsLength(s.landed);
    TotalIsLength(t.landed);
    forall d | d in t.landed ensures exists e :: e in s.landed && e == d {
      assert d.offset in Offsets(s.landed);
      var e :| e in s.landed && e.offset == d.offset;
      assert Genuine(s, e) && Genuine(t, d);
    }
    forall key ensures key in Rebuilt(t) <==> key in Rebuilt(s) {
      FoldAtKey(s.landed, key);
      FoldAtKey(t.landed, key);
      if key in Rebuilt(s) { RowStandsIff(s, acts, t, key); }
    }
    forall key | key in Rebuilt(s) ensures SameFold(Rebuilt(t)[key], Rebuilt(s)[key]) {
      FoldAtKey(s.landed, key);
      RowStandsIff(s, acts, t, key);
    }
  }

  // ---- The whole topic again ----

  /** A ready loop about to read the message at its committed offset, everything up to n accounted for. */
  ghost predicate Rereading(s: State, n: nat) {
    && Inv(s) && s.order.StateFirst? && Clean(s) && s.phase.Ready? && s.position == s.committed <= n
    && n <= |s.log| && forall i :: 0 <= i < n ==> Covered(s, i)
  }

  /** Nothing differs but the offsets, and the deliveries handled again. */
  predicate SameTopic(s: State, t: State) {
    t.log == s.log && t.moved == s.moved && Offsets(t.landed) == Offsets(s.landed)
  }

  lemma {:induction false} KeepsInv(s: State, a: Action)
    requires Inv(s) && s.order.StateFirst? && Enabled(s, a) && !a.LoseRecord? && !a.Erase?
    ensures Inv(Do(s, a)) && Do(s, a).order.StateFirst? && (Clean(s) ==> Clean(Do(s, a)))
  {
    CoherentKept(s, a);
    PlacedKept(s, a);
    ProgressKept(s, a);
  }

  lemma {:induction false} StillRereading(s: State, t: State, n: nat)
    requires Rereading(s, n) && Inv(t) && t.order.StateFirst? && Clean(t) && t.phase.Ready?
    requires SameTopic(s, t) && t.position == t.committed <= n
    ensures Rereading(t, n)
  {
    forall i | 0 <= i < n ensures Covered(t, i) { assert Covered(s, i); }
  }

  /** Two steps that keep the invariant. */
  lemma {:induction false} TwoSteps(s: State, a: Action, b: Action) returns (t: State)
    requires Inv(s) && s.order.StateFirst? && Enabled(s, a) && Enabled(Do(s, a), b)
    requires !a.LoseRecord? && !a.Erase? && !b.LoseRecord? && !b.Erase?
    ensures t == Do(Do(s, a), b) && Exec(s, [a, b]) == Some(t) && Inv(t) && t.order.StateFirst? &&
            (Clean(s) ==> Clean(t))
  {
    var mid := Do(s, a);
    t := Do(mid, b);
    ExecOne(s, a);
    ExecAppend(s, [a], mid, b);
    assert [a] + [b] == [a, b];
    KeepsInv(s, a);
    KeepsInv(mid, b);
  }

  lemma {:induction false} PassAgain(s: State, n: nat) returns (t: State)
    requires Rereading(s, n) && s.position < n && Current(s).NotOurs?
    ensures Exec(s, [PassOver, Commit]) == Some(t) && Rereading(t, n)
    ensures SameTopic(s, t) && t.landed == s.landed && t.alarms == s.alarms && t.committed == s.committed + 1
  {
    t := TwoSteps(s, PassOver, Commit);
    StillRereading(s, t, n);
  }

  lemma {:induction false} RouteAgain(s: State, n: nat) returns (t: State)
    requires Rereading(s, n) && s.position < n && !Current(s).NotOurs? && s.position !in Offsets(s.landed)
    ensures Exec(s, [RouteAway, Commit]) == Some(t) && Rereading(t, n)
    ensures SameTopic(s, t) && t.landed == s.landed && t.committed == s.committed + 1 && s.moved != {}
  {
    assert Covered(s, s.position) && s.position in s.moved;
    t := TwoSteps(s, RouteAway, Commit);
    assert t.moved == s.moved;
    StillRereading(s, t, n);
  }

  /** A message handled before is a repeat to the loop: it logs nothing. */
  lemma {:induction false} RepeatIsSilent(s: State)
    requires Inv(s) && s.phase.Ready? && s.position < |s.log| && s.position in Offsets(s.landed)
    ensures Current(s).Decoded? && Reported(s, Current(s)) == []
    ensures Delivery(s.position, Current(s).event) in s.landed
  {
    var d :| d in s.landed && d.offset == s.position;
    assert d in All(s);
    assert Genuine(s, d);
    FoldAtKey(All(s), d.event.orderId);
  }

  /** The handler has run again and the fold is enqueued. */
  predicate Resaved(s: State, t: State) {
    && t.order.StateFirst? && t.phase.Saved? && t.pending == [t.phase.d] && |t.inFlight| == 1
    && t.phase.d.offset == s.position && t.position == s.position + 1 && t.landed == s.landed
    && t.log == s.log && t.moved == s.moved && t.alarms == s.alarms
  }

  lemma {:induction false} SaveAgain(s: State) returns (t: State)
    requires Inv(s) && s.order.StateFirst? && Clean(s) && Enabled(s, Handle) && Reported(s, Current(s)) == []
    ensures Exec(s, [Handle, Save]) == Some(t) && Inv(t) && Clean(t) && Resaved(s, t)
  {
    assert s.pending == [] && s.inFlight == [];
    t := TwoSteps(s, Handle, Save);
  }

  lemma {:induction false} LandAgain(s: State, saved: State) returns (t: State)
    requires Inv(saved) && Clean(saved) && Resaved(s, saved)
    ensures Exec(saved, [Land, Flush]) == Some(t) && Inv(t) && t.order.StateFirst? && Clean(t)
    ensures t.phase == Flushed(saved.phase.d) && t.landed == s.landed + [saved.phase.d] && t.position == s.position + 1
    ensures t.log == s.log && t.moved == s.moved && t.alarms == s.alarms
  {
    t := TwoSteps(saved, Land, Flush);
  }

  lemma {:induction false} HandleAgain(s: State, n: nat) returns (t: State)
    requires Rereading(s, n) && s.position < n && s.position in Offsets(s.landed)
    ensures Exec(s, [Handle, Save] + [Land, Flush] + [Commit]) == Some(t) && Rereading(t, n)
    ensures SameTopic(s, t) && |t.landed| == |s.landed| + 1 && t.alarms == s.alarms && t.committed == s.committed + 1
  {
    RepeatIsSilent(s);
    var saved := SaveAgain(s);
    var flushed := LandAgain(s, saved);
    ExecConcat(s, [Handle, Save], saved, [Land, Flush], flushed);
    t := Do(flushed, Commit);
    ExecAppend(s, [Handle, Save] + [Land, Flush], flushed, Commit);
    KeepsInv(flushed, Commit);
    OffsetsAgain(s.landed, saved.phase.d);
    StillRereading(s, t, n);
  }

  lemma {:induction false} OffsetsAgain(h: seq<Delivery>, d: Delivery)
    requires d.offset in Offsets(h)
    ensures Offsets(h + [d]) == Offsets(h)
  {
  }

  /** How the loop deals with a message it dealt with before. */
  function AgainPath(s: State): seq<Action>
    requires s.position < |s.log|
  {
    if Current(s).NotOurs? then [PassOver, Commit]
    else if s.position in Offsets(s.landed) then [Handle, Save] + [Land, Flush] + [Commit]
    else [RouteAway, Commit]
  }

  lemma {:induction false} ReadAgain(s: State, n: nat) returns (t: State)
    requires Rereading(s, n) && s.position < n
    ensures Exec(s, AgainPath(s)) == Some(t) && Rereading(t, n) && SameTopic(s, t) && t.committed == s.committed + 1
    ensures |t.landed| == |s.landed| + if s.position in Offsets(s.landed) then 1 else 0
    ensures s.moved == {} ==> t.alarms == s.alarms
  {
    if s.position in Offsets(s.landed) {
      RepeatIsSilent(s);
      t := HandleAgain(s, n);
    } else if Current(s).NotOurs? {
      t := PassAgain(s, n);
    } else {
      t := RouteAgain(s, n);
    }
  }

  /** The handled messages from an offset up to n. */
  function HandledFrom(offsets: set<nat>, from: nat, n: nat): set<nat> { set o | o in offsets && from <= o < n }

  lemma {:induction false} HandledFromNext(offsets: set<nat>, from: nat, n: nat)
    requires from < n
    ensures |HandledFrom(offsets, from, n)| == |HandledFrom(offsets, from + 1, n)| + if from in offsets then 1 else 0
  {
    var later := HandledFrom(offsets, from + 1, n);
    assert from !in later;
    assert HandledFrom(offsets, from, n) == if from in offsets then later + {from} else later;
  }

  lemma {:induction false} ReadAllAgain(s: State, n: nat) returns (acts: seq<Action>, t: State)
    requires Rereading(s, n)
    ensures Exec(s, acts) == Some(t) && Rereading(t, n) && SameTopic(s, t) && t.committed == n
    ensures AllLanded(s, t, n)
    ensures s.moved == {} ==> t.alarms == s.alarms
    decreases n - s.committed
  {
    if s.committed == n {
      acts, t := [], s;
      assert HandledFrom(Offsets(s.landed), s.committed, n) == {};
    } else {
      var next := ReadAgain(s, n);
      var rest;
      rest, t := ReadAllAgain(next, n);
      acts := AgainPath(s) + rest;
      ReadOn(s, n, AgainPath(s), next, rest, t);
    }
  }

  /** How much has landed by the time everything up to n has been read again. */
  predicate AllLanded(s: State, t: State, n: nat) {
    |t.landed| == |s.landed| + |HandledFrom(Offsets(s.landed), s.committed, n)|
  }

  lemma {:induction false} ReadOn(
    s: State, n: nat, path: seq<Action>, next: State, rest: seq<Action>, t: State)
    requires s.committed == s.position < n && Exec(s, path) == Some(next) && Exec(next, rest) == Some(t)
    requires SameTopic(s, next) && next.committed == s.committed + 1
    requires |next.landed| == |s.landed| + if s.position in Offsets(s.landed) then 1 else 0
    requires SameTopic(next, t) && AllLanded(next, t, n)
    ensures Exec(s, path + rest) == Some(t) && SameTopic(s, t) && AllLanded(s, t, n)
  {
    ExecConcat(s, path, next, rest, t);
    HandledFromNext(Offsets(s.landed), s.committed, n);
  }

  lemma {:induction false} ResetAndRestart(s: State, back: nat) returns (t: State)
    requires Inv(s) && s.order.StateFirst? && Clean(s) && s.phase.Down? && back <= s.committed
    ensures Exec(s, [Reset(back), Restart]) == Some(t) && Rereading(t, s.committed)
    ensures t.committed == back && t.landed == s.landed && t.moved == s.moved && t.alarms == s.alarms
  {
    t := TwoSteps(s, Reset(back), Restart);
    forall i | 0 <= i < s.committed ensures Covered(t, i) { assert Covered(s, i); }
  }

  /** The group's offsets are reset and everything read before is read again against populated state:
      the loop gets back to where it was, every stored fold is what it was, no order is added, each
      message handled before is handled and counted once more, and nothing is reported. */
  lemma {:induction false} ResetAndReread(s: State, back: nat) returns (acts: seq<Action>, t: State)
    requires Reachable(StateFirst, s) && Clean(s) && s.phase.Down? && back <= s.committed
    ensures [Reset(back), Restart] <= acts && Exec(s, acts) == Some(t) && t.committed == s.committed
    ensures Rebuilt(t).Keys == Rebuilt(s).Keys
    ensures forall key :: key in Rebuilt(s) ==> SameFold(Rebuilt(t)[key], Rebuilt(s)[key])
    ensures TotalHandled(Rebuilt(t)) == TotalHandled(Rebuilt(s)) + |HandledFrom(Offsets(s.landed), back, s.committed)|
    ensures s.moved == {} ==> t.alarms == s.alarms
  {
    var before :| Exec(Init(StateFirst), before) == Some(s);
    InvHolds(before, s);
    var up := ResetAndRestart(s, back);
    var rest;
    rest, t := ReadAllAgain(up, s.committed);
    acts := [Reset(back), Restart] + rest;
    ExecConcat(s, [Reset(back), Restart], up, rest, t);
    NothingNewChangesNothing(s, acts, t);
  }
}
