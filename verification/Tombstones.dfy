/** The tombstone path of the consume loop: the order is erased locally and its tombstone enqueued,
    and the offset is committed without waiting for either to be durable. */
module Tombstones {
  import opened Events
  import opened Folds
  import opened Histories
  import opened AtLeastOnce
  import opened Reconsume

  function Lands(n: nat): seq<Action> { seq(n, _ => Land) }

  lemma {:induction false} LandMany(s: State, n: nat) returns (t: State)
    requires n <= |s.inFlight|
    ensures Exec(s, Lands(n)) == Some(t)
    ensures t.changelog == s.changelog + s.inFlight[..n] && t.inFlight == s.inFlight[n..]
    ensures t.committed == s.committed && t.phase == s.phase && t.log == s.log
  {
    if n == 0 {
      t := s;
    } else {
      var before := LandMany(s, n - 1);
      ExecAppend(s, Lands(n - 1), before, Land);
      assert Lands(n - 1) + [Land] == Lands(n);
      t := Do(before, Land);
    }
  }

  lemma {:induction false} TombstoneErases(s: Store, ws: seq<Write>, id: string)
    ensures id !in Replay(s, ws + [Write(id, None)])
  {
    ReplayAppend(s, ws, Write(id, None));
  }

  /** Read a tombstone, commit, and let n of the records in flight land before the process dies. */
  function EraseRun(n: nat): seq<Action> { [Erase, Commit] + Lands(n) + [Crash] }

  /** From every state in which the loop reads a tombstone, whatever was in flight: the committed offset
      is past the tombstone, and a rebuild has the order exactly when the tombstone did not land and
      what landed before it leaves the order stored. */
  lemma {:induction false} ErasedComesBackIff(s: State, n: nat) returns (t: State)
    requires Enabled(s, Erase) && n <= |s.inFlight| + 1
    ensures Exec(s, EraseRun(n)) == Some(t) && t.committed == s.position + 1 && t.log == s.log
    ensures Current(s).orderId in Rebuilt(t) <==>
            n <= |s.inFlight| && Current(s).orderId in Replay(map[], s.changelog + s.inFlight[..n])
  {
    var id := Current(s).orderId;
    var erased := Do(s, Erase);
    var settled := Do(erased, Commit);
    ExecOne(s, Erase);
    ExecAppend(s, [Erase], erased, Commit);
    assert [Erase] + [Commit] == [Erase, Commit];
    var landed := LandMany(settled, n);
    ExecConcat(s, [Erase, Commit], settled, Lands(n), landed);
    ExecAppend(s, [Erase, Commit] + Lands(n), landed, Crash);
    t := Do(landed, Crash);
    if n <= |s.inFlight| {
      assert settled.inFlight[..n] == s.inFlight[..n];
    } else {
      assert s.changelog + settled.inFlight[..n] == (s.changelog + s.inFlight) + [Write(id, None)];
      TombstoneErases(map[], s.changelog + s.inFlight, id);
    }
  }

  lemma {:induction false} FirstHandled(e: Event) returns (acts: seq<Action>, s: State)
    ensures Exec(Init(StateFirst), acts) == Some(s) && Inv(s) && s.order.StateFirst? && Clean(s)
    ensures s.log == [Decoded(e), Tombstone(e.orderId)] && s.phase == Ran(Delivery(0, e)) && s.position == 1
    ensures s.inFlight == [] && s.landed == [] && s.pending == []
  {
    var start := Init(StateFirst);
    InvHolds([], start);
    var topic := TwoSteps(start, Append(Decoded(e)), Append(Tombstone(e.orderId)));
    s := TwoSteps(topic, Restart, Handle);
    var one, two := [Append(Decoded(e)), Append(Tombstone(e.orderId))], [Restart, Handle];
    ExecConcat(start, one, topic, two, s);
    acts := one + two;
  }

  lemma {:induction false} SaveAndLand(s: State) returns (t: State)
    requires Inv(s) && s.order.StateFirst? && Clean(s) && s.phase.Ran? && s.inFlight == [] && s.pending == []
    ensures Exec(s, [Save, Land]) == Some(t) && Inv(t) && t.order.StateFirst? && Clean(t)
    ensures t.phase == Saved(s.phase.d) && t.inFlight == [] && t.landed == s.landed + [s.phase.d]
    ensures t.log == s.log && t.position == s.position
  {
    t := TwoSteps(s, Save, Land);
  }

  lemma {:induction false} LandedIsRebuilt(s: State, d: Delivery)
    requires Coherent(s) && d in s.landed
    ensures d.event.orderId in Rebuilt(s)
  {
    ChangelogIsLanded(s);
    FoldAtKey(s.landed, d.event.orderId);
  }

  /** A loop that has handled and committed one order's event and is about to read its tombstone. */
  lemma {:induction false} AboutToErase(e: Event) returns (acts: seq<Action>, s: State)
    ensures Exec(Init(StateFirst), acts) == Some(s) && Enabled(s, Erase) && s.inFlight == [] && s.position == 1
    ensures s.log == [Decoded(e), Tombstone(e.orderId)] && e.orderId in Rebuilt(s)
  {
    var before, ran := FirstHandled(e);
    var saved := SaveAndLand(ran);
    s := TwoSteps(saved, Flush, Commit);
    ExecConcat(Init(StateFirst), before, ran, [Save, Land], saved);
    ExecConcat(Init(StateFirst), before + [Save, Land], saved, [Flush, Commit], s);
    acts := before + [Save, Land] + [Flush, Commit];
    LandedIsRebuilt(s, Delivery(0, e));
  }

  /** So a whole run exists in which the offset is past the tombstone and the order is rebuilt. */
  lemma {:induction false} ErasedOrderComesBack(e: Event) returns (acts: seq<Action>, t: State)
    ensures Exec(Init(StateFirst), acts) == Some(t)
    ensures t.committed == 2 && t.log == [Decoded(e), Tombstone(e.orderId)] && e.orderId in Rebuilt(t)
  {
    var before, s := AboutToErase(e);
    t := ErasedComesBackIff(s, 0);
    acts := before + EraseRun(0);
    ExecConcat(Init(StateFirst), before, s, EraseRun(0), t);
    assert s.changelog + s.inFlight[..0] == s.changelog;
  }
}
