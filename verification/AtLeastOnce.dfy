/** The at-least-once consume loop over one partition, as steps with a crash possible between
    any two of them. The store, the changelog, the read position and the committed offset are
    four separate pieces of state; the history variables (landed, pending, moved, alarms and
    the counters) record what happened and decide nothing: no step is enabled or blocked by one.
    The deliveries in landed and pending are those behind the changelog and the records in flight,
    for as long as no tombstone has been read.

    Partitions do not interact under this guarantee, so a consumer is one such state for each
    partition it holds. */
module AtLeastOnce {
  import opened Events
  import opened Folds
  import opened Histories

  /** A message of the lifecycle topic: an event for this service, a retry addressed to another
      service, bytes that do not parse, or a tombstone. */
  datatype Message = Decoded(event: Event) | NotOurs | Undecodable | Tombstone(orderId: string)

  /** A message that can fail and be sent elsewhere. */
  predicate Routable(m: Message) { m.Decoded? || m.Undecodable? }

  datatype WriteOrder = StateFirst | OffsetFirst

  /** Where the loop is inside one iteration. */
  datatype Phase =
    | Down                      // no process owns the partition
    | Ready                     // between iterations
    | Ran(d: Delivery)          // the handler returned
    | Saved(d: Delivery)        // the fold is written locally and enqueued
    | Flushed(d: Delivery)      // flush returned
    | Moved(offset: nat)        // skipped, or safely on the retry or dead-letter topic
    | Early(d: Delivery)        // offset_first only: committed before the fold is written

  datatype State = State(
    order: WriteOrder,
    log: seq<Message>,
    committed: nat,
    position: nat,
    store: Store,
    inFlight: seq<Write>,
    changelog: seq<Write>,
    phase: Phase,
    landed: seq<Delivery>,
    pending: seq<Delivery>,
    moved: set<nat>,
    alarms: seq<Violation>,
    crashes: nat,
    rejected: nat,
    deliveryErrors: nat,
    putBack: nat,               // offsets that resets put back to be read again
    erased: nat)                // tombstones read

  datatype Action =
    | Append(m: Message)        // a producer adds to the topic
    | Handle                    // poll, report violations, run the handler to success
    | PassOver                  // poll a retry meant for another service
    | RouteAway                 // poll, fail, and get the copy acknowledged elsewhere
    | RouteFailed               // poll, fail, and fail to publish the copy: seek back
    | Erase                     // poll a tombstone: delete locally, enqueue, and go on to commit
    | Save
    | Land                      // the broker appends the oldest enqueued record
    | LoseRecord                // a delivery report carrying an error: logged, nothing else
    | Flush
    | Commit
    | RejectCommit
    | Rewind(to: nat)
    | Crash
    | Restart                   // a member is assigned the partition and rebuilds it in full
    | Handover                  // a release and re-assignment without a crash
    | Reset(back: nat)          // the idle group's committed offset is set back by an operator

  function Current(s: State): Message
    requires s.position < |s.log|
  {
    s.log[s.position]
  }

  function Reported(s: State, m: Message): seq<Violation> {
    if m.Decoded? then Alarms(Get(s.store, m.event.orderId), m.event) else []
  }

  predicate Enabled(s: State, a: Action) {
    match a
    case Append(_) => true
    case Handle => s.phase.Ready? && s.position < |s.log| && Current(s).Decoded?
    case PassOver => s.phase.Ready? && s.position < |s.log| && Current(s).NotOurs?
    case RouteAway => s.phase.Ready? && s.position < |s.log| && Routable(Current(s))
    case RouteFailed => s.phase.Ready? && s.position < |s.log| && Routable(Current(s))
    case Erase => s.phase.Ready? && s.position < |s.log| && Current(s).Tombstone?
    case Save => s.phase.Early? || (s.phase.Ran? && s.order.StateFirst?)
    case Land => s.inFlight != []
    case LoseRecord => s.inFlight != []
    case Flush => s.phase.Saved? && s.inFlight == []
    case Commit => s.phase.Flushed? || s.phase.Moved? || (s.phase.Ran? && s.order.OffsetFirst?)
    case RejectCommit => s.phase.Flushed? || s.phase.Moved? || (s.phase.Ran? && s.order.OffsetFirst?)
    case Rewind(to) => s.phase.Ready? && s.committed <= to <= s.position
    case Crash => !s.phase.Down?
    case Restart => s.phase.Down?
    case Handover => s.phase.Ready? && s.inFlight == []
    case Reset(back) => s.phase.Down? && back <= s.committed
  }

  function First(ds: seq<Delivery>): seq<Delivery> { if ds == [] then [] else ds[..1] }

  function Rest(ds: seq<Delivery>): seq<Delivery> { if ds == [] then [] else ds[1..] }

  function Settled(s: State): State
    requires s.phase.Flushed? || s.phase.Moved? || s.phase.Ran?
  {
    s.(phase := if s.phase.Ran? then Early(s.phase.d) else Ready)
  }

  function SettledOffset(s: State): nat
    requires s.phase.Flushed? || s.phase.Moved? || s.phase.Ran?
  {
    if s.phase.Moved? then s.phase.offset else s.phase.d.offset
  }

  function Do(s: State, a: Action): State
    requires Enabled(s, a)
  {
    match a
    case Append(m) => s.(log := s.log + [m])
    case Handle =>
      s.(phase := Ran(Delivery(s.position, Current(s).event)), position := s.position + 1,
         alarms := s.alarms + Reported(s, Current(s)))
    case PassOver => s.(phase := Moved(s.position), position := s.position + 1)
    case RouteAway =>
      s.(phase := Moved(s.position), position := s.position + 1, moved := s.moved + {s.position},
         alarms := s.alarms + Reported(s, Current(s)))
    case RouteFailed => s.(alarms := s.alarms + Reported(s, Current(s)))
    case Erase =>
      var w := Write(Current(s).orderId, None);
      s.(phase := Moved(s.position), position := s.position + 1, store := Apply(s.store, w),
         inFlight := s.inFlight + [w], erased := s.erased + 1)
    case Save =>
      var d := s.phase.d;
      s.(phase := if s.phase.Early? then Ready else Saved(d),
         store := Handled(s.store, d.event),
         inFlight := s.inFlight + [WriteOf(s.store, d.event)],
         pending := s.pending + [d])
    case Land =>
      s.(changelog := s.changelog + [s.inFlight[0]], inFlight := s.inFlight[1..],
         landed := s.landed + First(s.pending), pending := Rest(s.pending))
    case LoseRecord =>
      s.(inFlight := s.inFlight[1..], pending := Rest(s.pending), deliveryErrors := s.deliveryErrors + 1)
    case Flush => s.(phase := Flushed(s.phase.d))
    case Commit => Settled(s).(committed := SettledOffset(s) + 1)
    case RejectCommit => Settled(s).(rejected := s.rejected + 1)
    case Rewind(to) => s.(position := to)
    case Crash => s.(phase := Down, inFlight := [], pending := [], crashes := s.crashes + 1)
    case Restart => s.(phase := Ready, store := Replay(map[], s.changelog), position := s.committed)
    case Handover => s.(store := Replay(map[], s.changelog), position := s.committed)
    case Reset(back) => s.(committed := back, putBack := s.putBack + s.committed - back)
  }

  function Init(order: WriteOrder): State {
    State(order, [], 0, 0, map[], [], [], Down, [], [], {}, [], 0, 0, 0, 0, 0)
  }

  /** The state a list of actions leads to, if each was possible when its turn came. */
  function Exec(s: State, acts: seq<Action>): Option<State> {
    if acts == [] then Some(s)
    else
      var before := Exec(s, acts[..|acts| - 1]);
      if before.Some? && Enabled(before.value, acts[|acts| - 1])
      then Some(Do(before.value, acts[|acts| - 1])) else None
  }

  lemma {:induction false} ExecAppend(s: State, acts: seq<Action>, t: State, a: Action)
    requires Exec(s, acts) == Some(t) && Enabled(t, a)
    ensures Exec(s, acts + [a]) == Some(Do(t, a))
  {
    assert (acts + [a])[..|acts|] == acts;
  }

  lemma {:induction false} ExecOne(s: State, a: Action)
    requires Enabled(s, a)
    ensures Exec(s, [a]) == Some(Do(s, a))
  {
    assert [a][..0] == [];
  }

  lemma {:induction false} ExecConcat(s: State, acts: seq<Action>, t: State, more: seq<Action>, u: State)
    requires Exec(s, acts) == Some(t) && Exec(t, more) == Some(u)
    ensures Exec(s, acts + more) == Some(u)
  {
    if more == [] {
      assert acts + more == acts;
    } else {
      var init := more[..|more| - 1];
      ExecConcat(s, acts, t, init, Exec(t, init).value);
      assert (acts + more)[..|acts + more| - 1] == acts + init;
    }
  }

  ghost predicate Reachable(order: WriteOrder, s: State) {
    exists acts :: Exec(Init(order), acts) == Some(s)
  }

  /** No record was lost to a delivery error, and no tombstone was read. */
  predicate Clean(s: State) { s.deliveryErrors == 0 && s.erased == 0 }

  // ---- The invariant of state_first without delivery errors or tombstones ----

  function All(s: State): seq<Delivery> { s.landed + s.pending }

  /** Accounted for without the local store: rebuilt from the changelog, moved elsewhere, or
      never this service's to handle. */
  predicate Covered(s: State, i: nat) {
    i < |s.log| && (s.log[i].NotOurs? || i in s.moved || i in Offsets(s.landed))
  }

  predicate Genuine(s: State, d: Delivery) {
    d.offset < |s.log| && s.log[d.offset] == Decoded(d.event)
  }

  ghost predicate Coherent(s: State) {
    && (forall d :: d in All(s) ==> Genuine(s, d))
    && |s.inFlight| == |s.pending|
    && s.changelog + s.inFlight == WritesOf(All(s))
    && |s.changelog| == |s.landed|
    && (!s.phase.Down? ==> s.store == FoldAll(All(s)))
    && (forall i :: i in s.moved ==> i < |s.log| && Routable(s.log[i]))
  }

  ghost predicate Placed(s: State) {
    match s.phase
    case Down => s.pending == []
    case Ready => s.pending == []
    case Ran(d) => s.pending == [] && d.offset + 1 == s.position && Genuine(s, d)
    case Saved(d) => d in All(s) && (forall e :: e in s.pending ==> e == d) && d.offset + 1 == s.position
    case Flushed(d) => s.pending == [] && d in s.landed && d.offset + 1 == s.position
    case Moved(o) => s.pending == [] && Covered(s, o) && o + 1 == s.position
    case Early(_) => false
  }

  /** The offset being worked on, or one past everything. */
  function InHand(s: State): int {
    match s.phase
    case Ran(d) => d.offset
    case Saved(d) => d.offset
    case _ => -1
  }

  ghost predicate Progress(s: State) {
    && s.committed <= |s.log| && s.position <= |s.log|
    && (!s.phase.Down? ==> s.committed <= s.position)
    && (s.phase.Ran? || s.phase.Saved? || s.phase.Flushed? || s.phase.Moved? ==> s.committed < s.position)
    && (forall i :: 0 <= i < s.committed ==> Covered(s, i))
    && (!s.phase.Down? ==> forall i :: 0 <= i < s.position && i != InHand(s) ==> Covered(s, i))
  }

  ghost predicate Inv(s: State) {
    Coherent(s) && Placed(s) && Progress(s)
  }

  lemma {:induction false} SaveIsCoherent(s: State)
    requires Coherent(s) && Enabled(s, Save) && Genuine(s, s.phase.d)
    ensures Coherent(Do(s, Save))
  {
    var t := Do(s, Save);
    HistoryAppend(All(s), s.phase.d);
    assert All(t) == All(s) + [s.phase.d];
    assert t.changelog + t.inFlight == (s.changelog + s.inFlight) + [WriteOf(s.store, s.phase.d.event)];
  }

  lemma {:induction false} LandMovesOne(s: State)
    requires Enabled(s, Land)
    ensures All(Do(s, Land)) == All(s)
  {
    assert s.pending == First(s.pending) + Rest(s.pending);
    assert All(s) == s.landed + First(s.pending) + Rest(s.pending);
  }

  lemma {:induction false} LandIsCoherent(s: State)
    requires Coherent(s) && Enabled(s, Land)
    ensures Coherent(Do(s, Land))
  {
    var t := Do(s, Land);
    LandMovesOne(s);
    assert t.changelog + t.inFlight == s.changelog + s.inFlight;
  }

  /** What is left after losing everything in flight is exactly the writes that landed. */
  lemma {:induction false} ChangelogIsLanded(s: State)
    requires Coherent(s)
    ensures s.changelog == WritesOf(s.landed)
    ensures Replay(map[], s.changelog) == FoldAll(s.landed)
  {
    WritesPrefix(All(s), |s.landed|);
    assert All(s)[..|s.landed|] == s.landed;
    assert (s.changelog + s.inFlight)[..|s.landed|] == s.changelog;
    ReplayIsFold(s.landed);
  }

  lemma {:induction false} CoherentKept(s: State, a: Action)
    requires s.order.StateFirst? && Inv(s) && Enabled(s, a) && !a.LoseRecord? && !a.Erase?
    ensures Coherent(Do(s, a))
  {
    match a
    case Save => SaveIsCoherent(s);
    case Land => LandIsCoherent(s);
    case Crash => ChangelogIsLanded(s);
      assert s.landed + [] == s.landed && s.changelog + [] == s.changelog;
      assert forall d :: d in s.landed ==> d in All(s);
    case Restart => ChangelogIsLanded(s);
      assert All(s) == s.landed;
    case Handover => ChangelogIsLanded(s);
      assert All(s) == s.landed;
    case _ =>
  }

  lemma {:induction false} PlacedKept(s: State, a: Action)
    requires s.order.StateFirst? && Placed(s) && |s.inFlight| == |s.pending|
    requires Enabled(s, a) && !a.LoseRecord? && !a.Erase?
    ensures Placed(Do(s, a))
  {
    if a.Save? {
      assert s.phase.d in s.pending + [s.phase.d];
      assert s.pending + [s.phase.d] == [s.phase.d];
    } else if a.Land? {
      LandMovesOne(s);
      assert forall e :: e in Rest(s.pending) ==> e in s.pending;
    }
  }

  lemma {:induction false} CoveredKept(s: State, a: Action, i: nat)
    requires Enabled(s, a) && Covered(s, i)
    ensures Covered(Do(s, a), i)
  {
    if a.Land? { assert Offsets(s.landed) <= Offsets(Do(s, a).landed); }
  }

  lemma {:induction false} ProgressKept(s: State, a: Action)
    requires s.order.StateFirst? && Placed(s) && Progress(s) && |s.inFlight| == |s.pending| &&
             Enabled(s, a) && !a.LoseRecord? && !a.Erase?
    ensures Progress(Do(s, a))
  {
    forall i | 0 <= i && Covered(s, i) ensures Covered(Do(s, a), i) { CoveredKept(s, a, i); }
  }

  lemma {:induction false} InvHolds(acts: seq<Action>, t: State)
    requires Exec(Init(StateFirst), acts) == Some(t) && Clean(t)
    ensures Inv(t) && t.order.StateFirst?
  {
    if acts != [] {
      var a, s := acts[|acts| - 1], Exec(Init(StateFirst), acts[..|acts| - 1]).value;
      InvHolds(acts[..|acts| - 1], s);
      CoherentKept(s, a);
      PlacedKept(s, a);
      ProgressKept(s, a);
    }
  }

  // ---- Crash-anywhere recovery ----

  /** What a rebuild started in this state would read back. */
  function Rebuilt(s: State): Store { Replay(map[], s.changelog) }

  /** At every point of every run, a rebuild is the fold of genuine deliveries, and it misses
      no message below the committed offset that was not moved elsewhere. */
  lemma {:induction false} RecoveryAnywhere(s: State)
    requires Reachable(StateFirst, s) && Clean(s)
    ensures Rebuilt(s) == FoldAll(s.landed)
    ensures s.committed <= |s.log|
    ensures forall i :: 0 <= i < s.committed ==> Covered(s, i)
    ensures forall d :: d in s.landed ==> Genuine(s, d)
  {
    var acts :| Exec(Init(StateFirst), acts) == Some(s);
    InvHolds(acts, s);
    ChangelogIsLanded(s);
    assert forall d :: d in s.landed ==> d in All(s);
  }

  /** Order by order: never behind an event handled below the committed offset, and exactly as far
      as the furthest delivery handled. */
  lemma {:induction false} RecoveredFoldBounds(s: State)
    requires Reachable(StateFirst, s) && Clean(s)
    ensures s.committed <= |s.log|
    ensures forall i :: 0 <= i < s.committed && s.log[i].Decoded? && i !in s.moved ==>
              && s.log[i].event.orderId in Rebuilt(s)
              && s.log[i].event.sequence <= Rebuilt(s)[s.log[i].event.orderId].fold.lastSequence
    ensures forall d :: d in s.landed ==> Genuine(s, d)
    ensures forall k :: k in Rebuilt(s) ==>
              && (exists d :: d in s.landed && d.event.orderId == k && Reflects(Rebuilt(s)[k], d.event))
              && (forall d :: d in s.landed && d.event.orderId == k ==>
                    d.event.sequence <= Rebuilt(s)[k].fold.lastSequence)
  {
    RecoveryAnywhere(s);
    forall i | 0 <= i < s.committed && s.log[i].Decoded? && i !in s.moved
      ensures s.log[i].event.orderId in Rebuilt(s)
      ensures s.log[i].event.sequence <= Rebuilt(s)[s.log[i].event.orderId].fold.lastSequence
    {
      assert Covered(s, i);
      var d :| d in s.landed && d.offset == i;
      assert Genuine(s, d);
      FoldAtKey(s.landed, d.event.orderId);
    }
    forall k | k in Rebuilt(s)
      ensures exists d :: d in s.landed && d.event.orderId == k && Reflects(Rebuilt(s)[k], d.event)
      ensures forall d :: d in s.landed && d.event.orderId == k ==>
                d.event.sequence <= Rebuilt(s)[k].fold.lastSequence
    {
      FoldAtKey(s.landed, k);
    }
  }

  /** Whether the rebuild agrees with the local store after a flush and a commit comes down to
      one thing: whether the record's delivery report carried an error. */
  lemma {:induction false} DurableIffReported(s: State, acknowledged: bool)
    requires s.order.StateFirst? && Inv(s) && s.phase.Saved? && |s.inFlight| == 1
    ensures var report := if acknowledged then Land else LoseRecord;
            && Enabled(s, report) && Enabled(Do(s, report), Flush) && Enabled(Do(Do(s, report), Flush), Commit)
            && var t := Do(Do(Do(s, report), Flush), Commit);
            && t.committed == s.phase.d.offset + 1
            && (Rebuilt(t) == t.store <==> acknowledged)
  {
    ChangelogIsLanded(s);
    TotalIsLength(All(s));
    TotalIsLength(s.landed);
    if acknowledged {
      LandIsCoherent(s);
      ChangelogIsLanded(Do(s, Land));
      assert All(Do(s, Land)) == Do(s, Land).landed;
    }
  }

  // ---- Duplicate residue ----

  /** Handled, but the offset has not moved past it yet. */
  ghost function Uncommitted(s: State): set<nat> {
    set o | o in Offsets(All(s)) && o >= s.committed
  }

  function InProgress(s: State): nat {
    if s.phase.Saved? || s.phase.Flushed? then 1 else 0
  }

  ghost predicate ResidueBounded(s: State) {
    |All(s)| + |Uncommitted(s)| <= |Offsets(All(s))| + s.crashes + s.rejected + s.putBack + InProgress(s)
  }

  lemma {:induction false} SaveResidue(s: State)
    requires s.phase.Ran? && s.order.StateFirst? && s.committed <= s.phase.d.offset && ResidueBounded(s)
    ensures ResidueBounded(Do(s, Save))
  {
    var t, o := Do(s, Save), s.phase.d.offset;
    assert All(t) == All(s) + [s.phase.d];
    assert Offsets(All(t)) == Offsets(All(s)) + {o};
    assert Uncommitted(t) == Uncommitted(s) + {o};
    assert o in Uncommitted(s) <==> o in Offsets(All(s));
  }

  lemma {:induction false} CommitResidue(s: State)
    requires Inv(s) && s.order.StateFirst? && Enabled(s, Commit) && ResidueBounded(s)
    ensures ResidueBounded(Do(s, Commit))
  {
    var t := Do(s, Commit);
    assert Uncommitted(t) <= Uncommitted(s);
    if s.phase.Flushed? {
      assert s.phase.d in All(s);
      assert Uncommitted(t) <= Uncommitted(s) - {s.phase.d.offset};
      SubsetSize(Uncommitted(t), Uncommitted(s) - {s.phase.d.offset});
    } else {
      SubsetSize(Uncommitted(t), Uncommitted(s));
    }
  }

  lemma {:induction false} SubsetSize(a: set<nat>, b: set<nat>)
    requires a <= b
    ensures |a| <= |b|
  {
    if a != {} {
      var x :| x in a;
      SubsetSize(a - {x}, b - {x});
    }
  }

  lemma {:induction false} CrashResidue(s: State)
    requires Inv(s) && s.order.StateFirst? && Enabled(s, Crash) && ResidueBounded(s)
    ensures ResidueBounded(Do(s, Crash))
  {
    var t := Do(s, Crash);
    assert All(t) == s.landed;
    if s.pending != [] {
      var d := s.phase.d;
      assert All(s) == s.landed + s.pending;
      assert forall e :: e in s.pending ==> e == d;
      assert Offsets(All(s)) == Offsets(s.landed) + {d.offset};
      assert Uncommitted(t) <= Uncommitted(s);
      SubsetSize(Uncommitted(t), Uncommitted(s));
    } else {
      assert All(s) == s.landed;
      assert Uncommitted(t) == Uncommitted(s);
    }
  }

  function Range(from: nat, to: nat): (r: set<nat>)
    ensures forall o :: o in r <==> from <= o < to
    ensures |r| == if from < to then to - from else 0
  {
    if to <= from then {} else Range(from, to - 1) + {to - 1}
  }

  lemma {:induction false} ResetResidue(s: State, back: nat)
    requires Enabled(s, Reset(back)) && ResidueBounded(s)
    ensures ResidueBounded(Do(s, Reset(back)))
  {
    var t := Do(s, Reset(back));
    SubsetSize(Uncommitted(t), Uncommitted(s) + Range(back, s.committed));
  }

  lemma {:induction false} ResidueKept(s: State, a: Action)
    requires Inv(s) && s.order.StateFirst? && Enabled(s, a) && !a.LoseRecord? && !a.Erase? && ResidueBounded(s)
    ensures ResidueBounded(Do(s, a))
  {
    if a.Save? {
      SaveResidue(s);
    } else if a.Commit? {
      CommitResidue(s);
    } else if a.Crash? {
      CrashResidue(s);
    } else if a.Reset? {
      ResetResidue(s, a.back);
    } else if a.Land? {
      LandMovesOne(s);
      assert Uncommitted(Do(s, a)) == Uncommitted(s);
    } else {
      assert All(Do(s, a)) == All(s);
      assert Uncommitted(Do(s, a)) == Uncommitted(s);
    }
  }

  lemma {:induction false} ResidueHolds(acts: seq<Action>, t: State)
    requires Exec(Init(StateFirst), acts) == Some(t) && Clean(t)
    ensures ResidueBounded(t)
  {
    if acts != [] {
      var a, s := acts[|acts| - 1], Exec(Init(StateFirst), acts[..|acts| - 1]).value;
      InvHolds(acts[..|acts| - 1], s);
      ResidueHolds(acts[..|acts| - 1], s);
      ResidueKept(s, a);
    } else {
      assert Uncommitted(t) == {};
    }
  }

  /** The delivery counts a rebuild would read exceed the number of distinct messages behind them
      by at most one for each crash, one for each rejected commit and one for each offset put back. */
  lemma {:induction false} DuplicateResidue(s: State)
    requires Reachable(StateFirst, s) && Clean(s)
    ensures TotalHandled(Rebuilt(s)) <= |Offsets(s.landed)| + s.crashes + s.rejected + s.putBack
  {
    var acts :| Exec(Init(StateFirst), acts) == Some(s);
    InvHolds(acts, s);
    ResidueHolds(acts, s);
    ChangelogIsLanded(s);
    TotalIsLength(s.landed);
    if s.phase.Saved? || s.phase.Flushed? {
      var d := s.phase.d;
      assert d in All(s) && d.offset in Uncommitted(s);
      assert Offsets(All(s)) <= Offsets(s.landed) + {d.offset};
      SubsetSize(Offsets(All(s)), Offsets(s.landed) + {d.offset});
      if s.pending == [] { assert All(s) == s.landed; }
    } else {
      assert All(s) == s.landed;
    }
  }

  // ---- Why the write order and the acknowledgement matter ----

  /** Committing first and crashing before the save: the offset is past an event that no rebuild
      will ever see, and that was moved nowhere else. */
  lemma {:induction false} OffsetFirstLosesEvents(e: Event)
    ensures var acts := [Append(Decoded(e)), Restart, Handle, Commit, Crash];
            var t := Exec(Init(OffsetFirst), acts);
            t.Some? && t.value.committed == 1 && !Covered(t.value, 0) && Rebuilt(t.value) == map[]
  {
    var acts := [Append(Decoded(e)), Restart, Handle, Commit, Crash];
    assert acts[..4] == [Append(Decoded(e)), Restart, Handle, Commit];
    assert acts[..4][..3] == [Append(Decoded(e)), Restart, Handle];
    assert acts[..4][..3][..2] == [Append(Decoded(e)), Restart];
    assert acts[..4][..3][..2][..1] == [Append(Decoded(e))];
    var one := Do(Init(OffsetFirst), Append(Decoded(e)));
    assert Exec(Init(OffsetFirst), [Append(Decoded(e))]) == Some(one);
    var two := Do(one, Restart);
    assert Exec(Init(OffsetFirst), [Append(Decoded(e)), Restart]) == Some(two);
    var three := Do(two, Handle);
    assert Exec(Init(OffsetFirst), [Append(Decoded(e)), Restart, Handle]) == Some(three);
    var four := Do(three, Commit);
    assert Exec(Init(OffsetFirst), [Append(Decoded(e)), Restart, Handle, Commit]) == Some(four);
  }
}
