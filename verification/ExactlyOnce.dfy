/** The exactly_once consume loop: several partitions, one transaction covering the changelog
    records, the failure copies and the offsets, and local stores that no transaction covers.
    Rebuilds are full and read only committed records. The history variables (landed, pending,
    moved, movedOpen and the counters) are read by no step. */
module ExactlyOnce {
  import opened Events
  import opened Folds
  import opened Histories
  import opened Commits
  import Loop = AtLeastOnce

  /** What the broker holds for one partition number, committed records only. */
  datatype Broker = Broker(
    log: seq<Loop.Message>,
    committed: nat,
    changelog: seq<Write>,
    landed: seq<Delivery>,
    moved: set<nat>)             // failed messages whose copy was committed elsewhere

  /** What the process holds for it, with the records produced in the open transaction. */
  datatype Local = Local(
    position: nat,
    store: Store,
    inTxn: seq<Write>,
    pending: seq<Delivery>,
    movedOpen: set<nat>)

  datatype Lane = Lane(broker: Broker, local: Local, held: bool)

  datatype Phase =
    | Down
    | Ready
    | Unnoted(m: Mark)           // produced, or nothing to produce; note comes next

  datatype State = State(
    lanes: seq<Lane>,
    txn: Txn,
    client: Client,
    phase: Phase,
    passers: nat,                // messages that needed no produce: snapshots, others' retries
    partialRevokes: nat)         // revocations that kept a partition the open transaction dirtied

  datatype Action =
    | Append(p: nat, m: Loop.Message)
    | Elsewhere(p: nat, b: Broker)   // another member's transactions, on a partition not held here
    | Assign(p: nat)
    | Handle(p: nat)             // handler succeeds, fold saved locally and produced
    | RouteAway(p: nat)          // handler fails, copy produced to the retry or dead-letter topic
    | PassOver(p: nat)           // a retry addressed to another service
    | ReadSnapshot(p: nat, offset: nat)
    | NoteIt
    | Commit(outcome: CommitOutcome)
    | Revoke(ps: set<nat>, resolved: bool)
    | Crash
    | Restart

  predicate CanRead(s: State, p: nat) {
    s.phase.Ready? && p < |s.lanes| && s.lanes[p].held && s.lanes[p].local.position < |s.lanes[p].broker.log|
  }

  function Head(s: State, p: nat): Loop.Message
    requires CanRead(s, p)
  {
    s.lanes[p].broker.log[s.lanes[p].local.position]
  }

  /** What other members' committed transactions may make of a partition: more of the same topic dealt
      with, nothing taken back, and the committed state as accounted for as it was. */
  ghost predicate Advances(b: Broker, c: Broker) {
    c.log == b.log && b.committed <= c.committed && b.landed <= c.landed && b.moved <= c.moved && Durable(c)
  }

  ghost predicate Enabled(s: State, a: Action) {
    match a
    case Append(p, _) => p < |s.lanes|
    case Elsewhere(p, b) =>
      p < |s.lanes| && (s.phase.Down? || !s.lanes[p].held) && Advances(s.lanes[p].broker, b)
    case Assign(p) => s.phase.Ready? && p < |s.lanes| && !s.lanes[p].held
    case Handle(p) => CanRead(s, p) && Head(s, p).Decoded?
    case RouteAway(p) => CanRead(s, p) && Loop.Routable(Head(s, p))
    case PassOver(p) => CanRead(s, p) && Head(s, p).NotOurs?
    case ReadSnapshot(p, _) => s.phase.Ready? && p < |s.lanes| && s.lanes[p].held
    case NoteIt => s.phase.Unnoted?
    case Commit(_) => s.phase.Ready? && s.txn.open
    case Revoke(_, _) => s.phase.Ready?
    case Crash => !s.phase.Down?
    case Restart => s.phase.Down?
  }

  /** Where a partition would resume if the open transaction committed now. */
  function Resume(t: Txn, p: nat, b: Broker): nat {
    if (Lifecycle, p) in t.offsets then t.offsets[(Lifecycle, p)] else b.committed
  }

  function Grown(b: Broker, m: Loop.Message): Broker { b.(log := b.log + [m]) }

  /** A full rebuild, reading committed records only. */
  function Rebuilt(b: Broker): Local { Local(b.committed, Replay(map[], b.changelog), [], [], {}) }

  function Saved(l: Local, e: Event): Local {
    Local(l.position + 1, Handled(l.store, e), l.inTxn + [WriteOf(l.store, e)],
          l.pending + [Delivery(l.position, e)], l.movedOpen)
  }

  function Moved(l: Local): Local { l.(position := l.position + 1, movedOpen := l.movedOpen + {l.position}) }

  function Passed(l: Local): Local { l.(position := l.position + 1) }

  /** The broker takes over what the transaction held. */
  function Landed(b: Broker, l: Local, resume: nat): Broker {
    Broker(b.log, resume, b.changelog + l.inTxn, b.landed + l.pending, b.moved + l.movedOpen)
  }

  /** The transaction is gone from the process's hands; store and position stay as they are. */
  function Emptied(l: Local): Local { l.(inTxn := [], pending := [], movedOpen := {}) }

  predicate Dirty(l: Local) {
    l.pending != [] || l.movedOpen != {}
  }

  function LandLane(t: Txn, p: nat, lane: Lane): Lane {
    Lane(Landed(lane.broker, lane.local, Resume(t, p, lane.broker)), Emptied(lane.local), lane.held)
  }

  function ReleaseLane(lane: Lane, given: bool, aborted: bool): Lane {
    Lane(lane.broker, if aborted then Emptied(lane.local) else lane.local, lane.held && !given)
  }

  function LandAll(s: State): seq<Lane> {
    seq(|s.lanes|, p requires 0 <= p < |s.lanes| => LandLane(s.txn, p, s.lanes[p]))
  }

  function ReleaseAll(s: State, ps: set<nat>): seq<Lane> {
    seq(|s.lanes|, p requires 0 <= p < |s.lanes| => ReleaseLane(s.lanes[p], p in ps, s.txn.open))
  }

  function EmptyAll(s: State): seq<Lane> {
    seq(|s.lanes|, p requires 0 <= p < |s.lanes| => Lane(s.lanes[p].broker, Emptied(s.lanes[p].local), false))
  }

  /** No partition the open transaction wrote to stays with this member. */
  predicate Covering(s: State, ps: set<nat>) {
    s.txn.open ==> forall p :: 0 <= p < |s.lanes| && s.lanes[p].held && p !in ps ==> !Dirty(s.lanes[p].local)
  }

  function Read(s: State, p: nat, l: Local): State
    requires p < |s.lanes|
  {
    s.(lanes := s.lanes[p := s.lanes[p].(local := l)], phase := Unnoted(Mark(Lifecycle, p, s.lanes[p].local.position)))
  }

  function Do(s: State, a: Action): State
    requires Enabled(s, a)
  {
    match a
    case Append(p, m) => s.(lanes := s.lanes[p := s.lanes[p].(broker := Grown(s.lanes[p].broker, m))])
    case Elsewhere(p, b) => s.(lanes := s.lanes[p := s.lanes[p].(broker := b)])
    case Assign(p) => s.(lanes := s.lanes[p := Lane(s.lanes[p].broker, Rebuilt(s.lanes[p].broker), true)])
    case Handle(p) =>
      // The fold is produced before anything opens a transaction: outside one the client
      // refuses, and the loop stops.
      if s.client.InTransaction? then Read(s, p, Saved(s.lanes[p].local, Head(s, p).event)) else s.(phase := Down)
    case RouteAway(p) =>
      // A refused copy is a failed publication: seek back, nothing noted.
      if s.client.InTransaction? then Read(s, p, Moved(s.lanes[p].local)) else s
    case PassOver(p) => Read(s, p, Passed(s.lanes[p].local)).(passers := s.passers + 1)
    case ReadSnapshot(p, offset) => s.(phase := Unnoted(Mark(Snapshot, p, offset)), passers := s.passers + 1)
    case NoteIt =>
      if s.txn.open || s.client.NoTransaction?
      then s.(txn := Noted(s.txn, s.phase.m), client := InTransaction, phase := Ready)
      else s.(phase := Down)
    case Commit(outcome) =>
      (match outcome
       case Committed => s.(lanes := LandAll(s), txn := CLOSED, client := NoTransaction)
       case LandedUnknown => s.(lanes := LandAll(s), txn := CLOSED, client := Unresolved)
       case Failed => s.(txn := CLOSED, client := Unresolved)
       case Fenced => s.(txn := CLOSED, client := Unresolved, phase := Down))
    case Revoke(ps, resolved) =>
      s.(lanes := ReleaseAll(s, ps), txn := CLOSED,
         client := if !s.txn.open then s.client else if resolved then NoTransaction else Unresolved,
         partialRevokes := s.partialRevokes + if Covering(s, ps) then 0 else 1)
    case Crash => s.(phase := Down)
    case Restart =>
      // A new process: initialising transactions aborts whatever the last one left open.
      s.(lanes := EmptyAll(s), txn := CLOSED, client := NoTransaction, phase := Ready)
  }

  ghost function Exec(s: State, acts: seq<Action>): Option<State> {
    if acts == [] then Some(s)
    else
      var before := Exec(s, acts[..|acts| - 1]);
      if before.Some? && Enabled(before.value, acts[|acts| - 1])
      then Some(Do(before.value, acts[|acts| - 1])) else None
  }

  const EMPTY_LANE := Lane(Broker([], 0, [], [], {}), Local(0, map[], [], [], {}), false)

  function Init(partitions: nat): State {
    State(seq(partitions, _ => EMPTY_LANE), CLOSED, NoTransaction, Down, 0, 0)
  }

  // ---- The invariant ----

  predicate Genuine(log: seq<Loop.Message>, d: Delivery) {
    d.offset < |log| && log[d.offset] == Loop.Decoded(d.event)
  }

  predicate Ascending(h: seq<Delivery>) {
    forall i, j :: 0 <= i < j < |h| ==> h[i].offset < h[j].offset
  }

  /** A message is dealt with exactly once: folded, moved elsewhere, or never ours. */
  predicate Accounted(log: seq<Loop.Message>, i: nat, folded: set<nat>, moved: set<nat>) {
    && i < |log|
    && (log[i].NotOurs? || i in folded || i in moved)
    && !(i in folded && i in moved)
  }

  /** What the broker's committed state satisfies at all times. */
  ghost predicate Durable(b: Broker) {
    && b.committed <= |b.log|
    && b.changelog == WritesOf(b.landed)
    && Ascending(b.landed)
    && (forall d :: d in b.landed ==> Genuine(b.log, d) && d.offset < b.committed)
    && (forall i :: i in b.moved ==> i < b.committed)
    && (forall i :: 0 <= i < b.committed ==> Accounted(b.log, i, Offsets(b.landed), b.moved))
  }

  /** A held partition's store is the fold of everything folded so far. */
  ghost predicate Folded(b: Broker, l: Local) {
    && l.store == FoldAll(b.landed + l.pending)
    && b.changelog + l.inTxn == WritesOf(b.landed + l.pending)
  }

  /** Every message between the committed offset and the position is dealt with in the open
      transaction or is not this service's. */
  ghost predicate Spanned(log: seq<Loop.Message>, committed: nat, l: Local) {
    && committed <= l.position <= |log|
    && Ascending(l.pending)
    && (forall d :: d in l.pending ==> Genuine(log, d) && committed <= d.offset < l.position)
    && (forall i :: i in l.movedOpen ==> committed <= i < l.position && !log[i].NotOurs?)
    && (forall i :: committed <= i < l.position ==> Accounted(log, i, Offsets(l.pending), l.movedOpen))
  }

  /** All that lies between the resume point and the position is not this service's, except the
      message still to be noted. */
  ghost predicate Settling(log: seq<Loop.Message>, committed: nat, resume: nat, position: nat, unnoted: bool) {
    && committed <= resume <= position <= |log|
    && (unnoted ==> resume < position)
    && (forall i :: resume <= i < (if unnoted then position - 1 else position) ==> log[i].NotOurs?)
  }

  ghost predicate Live(b: Broker, l: Local, resume: nat, unnoted: bool) {
    Folded(b, l) && Spanned(b.log, b.committed, l) && Settling(b.log, b.committed, resume, l.position, unnoted)
  }

  predicate Idle(l: Local) {
    l.inTxn == [] && l.pending == [] && l.movedOpen == {}
  }

  predicate IsUnnoted(s: State, p: nat) {
    s.phase.Unnoted? && s.phase.m.topic.Lifecycle? && s.phase.m.partition == p
  }

  ghost predicate LaneInv(s: State, p: nat)
    requires p < |s.lanes|
  {
    var lane := s.lanes[p];
    && Durable(lane.broker)
    && (!s.phase.Down? && !s.client.Unresolved? ==>
          if lane.held
          then Live(lane.broker, lane.local, Resume(s.txn, p, lane.broker), IsUnnoted(s, p)) &&
               (IsUnnoted(s, p) ==> s.phase.m.offset + 1 == lane.local.position)
          else Idle(lane.local) && (Lifecycle, p) !in s.txn.offsets && !IsUnnoted(s, p))
  }

  predicate TxnInv(s: State) {
    && (!s.phase.Down? ==> (s.txn.open <==> s.client.InTransaction?))
    && (!s.txn.open ==> s.txn == CLOSED)
  }

  ghost predicate Inv(s: State) {
    TxnInv(s) && forall p :: 0 <= p < |s.lanes| ==> LaneInv(s, p)
  }

  // ---- Lane lemmas ----

  lemma {:induction false} AppendKeepsDurable(b: Broker, m: Loop.Message)
    requires Durable(b)
    ensures Durable(Grown(b, m))
  {
    forall i | 0 <= i < b.committed ensures Accounted(Grown(b, m).log, i, Offsets(b.landed), b.moved) {
      assert Accounted(b.log, i, Offsets(b.landed), b.moved);
    }
  }

  lemma {:induction false} AppendKeepsLive(b: Broker, m: Loop.Message, l: Local, resume: nat, unnoted: bool)
    requires Live(b, l, resume, unnoted)
    ensures Live(Grown(b, m), l, resume, unnoted)
  {
    forall i | b.committed <= i < l.position ensures Accounted(Grown(b, m).log, i, Offsets(l.pending), l.movedOpen) {
      assert Accounted(b.log, i, Offsets(l.pending), l.movedOpen);
    }
  }

  lemma {:induction false} RebuildIsLive(b: Broker)
    requires Durable(b)
    ensures Live(b, Rebuilt(b), b.committed, false)
  {
    ReplayIsFold(b.landed);
    assert b.landed + [] == b.landed && b.changelog + [] == b.changelog;
  }

  lemma {:induction false} SaveKeepsFolded(b: Broker, l: Local, e: Event)
    requires Folded(b, l)
    ensures Folded(b, Saved(l, e))
  {
    var d, m := Delivery(l.position, e), Saved(l, e);
    HistoryAppend(b.landed + l.pending, d);
    assert b.landed + m.pending == (b.landed + l.pending) + [d];
    assert b.changelog + m.inTxn == (b.changelog + l.inTxn) + [WriteOf(l.store, e)];
  }

  lemma {:induction false} SaveKeepsSpanned(log: seq<Loop.Message>, committed: nat, l: Local, e: Event)
    requires Spanned(log, committed, l) && l.position < |log| && log[l.position] == Loop.Decoded(e)
    ensures Spanned(log, committed, Saved(l, e))
  {
    var m := Saved(l, e);
    assert Offsets(m.pending) == Offsets(l.pending) + {l.position};
    assert l.position !in l.movedOpen;
    forall i | committed <= i < m.position ensures Accounted(log, i, Offsets(m.pending), m.movedOpen) {
      assert i < l.position ==> Accounted(log, i, Offsets(l.pending), l.movedOpen);
    }
    forall d | d in l.pending ensures d.offset < l.position { }
  }

  lemma {:induction false} MoveKeepsSpanned(log: seq<Loop.Message>, committed: nat, l: Local)
    requires Spanned(log, committed, l) && l.position < |log| && !log[l.position].NotOurs?
    ensures Spanned(log, committed, Moved(l))
  {
    assert l.position !in Offsets(l.pending);
    forall i | committed <= i < l.position + 1 ensures Accounted(log, i, Offsets(l.pending), Moved(l).movedOpen) {
      assert i < l.position ==> Accounted(log, i, Offsets(l.pending), l.movedOpen);
    }
  }

  lemma {:induction false} PassKeepsSpanned(log: seq<Loop.Message>, committed: nat, l: Local)
    requires Spanned(log, committed, l) && l.position < |log| && log[l.position].NotOurs?
    ensures Spanned(log, committed, Passed(l))
  {
    assert l.position !in l.movedOpen;
    forall i | committed <= i < l.position + 1 ensures Accounted(log, i, Offsets(l.pending), l.movedOpen) {
      assert i < l.position ==> Accounted(log, i, Offsets(l.pending), l.movedOpen);
    }
  }

  lemma {:induction false} LandAscends(b: Broker, l: Local)
    requires Durable(b) && Spanned(b.log, b.committed, l)
    ensures Ascending(b.landed + l.pending)
  {
    var h := b.landed + l.pending;
    forall i, j | 0 <= i < j < |h| ensures h[i].offset < h[j].offset {
      if i < |b.landed| <= j {
        assert h[i] in b.landed && h[j] in l.pending;
      }
    }
  }

  lemma {:induction false} LandKeepsAccounts(b: Broker, l: Local, resume: nat, i: nat)
    requires Durable(b) && Live(b, l, resume, false) && i < resume
    ensures Accounted(b.log, i, Offsets(b.landed + l.pending), b.moved + l.movedOpen)
  {
    if i < b.committed {
      assert Accounted(b.log, i, Offsets(b.landed), b.moved);
      assert i !in Offsets(l.pending);
    } else {
      assert Accounted(b.log, i, Offsets(l.pending), l.movedOpen);
      assert i !in Offsets(b.landed);
    }
    assert Offsets(b.landed + l.pending) == Offsets(b.landed) + Offsets(l.pending);
  }

  lemma {:induction false} LandKeepsDurable(b: Broker, l: Local, resume: nat)
    requires Durable(b) && Live(b, l, resume, false)
    ensures Durable(Landed(b, l, resume))
  {
    LandAscends(b, l);
    forall d | d in b.landed + l.pending ensures Genuine(b.log, d) && d.offset < resume {
      assert Genuine(b.log, d);
    }
    forall i | 0 <= i < resume ensures Accounted(b.log, i, Offsets(b.landed + l.pending), b.moved + l.movedOpen) {
      LandKeepsAccounts(b, l, resume, i);
    }
  }

  lemma {:induction false} LandKeepsLive(b: Broker, l: Local, resume: nat)
    requires Live(b, l, resume, false)
    ensures Live(Landed(b, l, resume), Emptied(l), resume, false)
  {
    assert (b.landed + l.pending) + [] == b.landed + l.pending;
    assert (b.changelog + l.inTxn) + [] == b.changelog + l.inTxn;
  }

  /** A held partition the transaction did not dirty loses nothing when it is aborted. */
  lemma {:induction false} DropKeepsClean(b: Broker, l: Local, resume: nat)
    requires Durable(b) && Live(b, l, resume, false) && !Dirty(l)
    ensures Live(b, Emptied(l), b.committed, false)
  {
    assert b.landed + l.pending == b.landed;
    assert |b.changelog + l.inTxn| == |b.changelog|;
    assert l.inTxn == [];
    assert Offsets(l.pending) == {};
    forall i | b.committed <= i < l.position ensures b.log[i].NotOurs? {
      assert Accounted(b.log, i, Offsets(l.pending), l.movedOpen);
    }
  }

  /** Whatever the open transaction deals with was addressed to this service. */
  lemma {:induction false} PendingIsOurs(log: seq<Loop.Message>, committed: nat, l: Local)
    requires Spanned(log, committed, l)
    ensures Dirty(l) ==> exists i: nat :: committed <= i < l.position && !log[i].NotOurs?
  {
    if l.pending != [] {
      assert l.pending[0] in l.pending;
      assert !log[l.pending[0].offset].NotOurs?;
    } else if l.movedOpen != {} {
      var i :| i in l.movedOpen;
      assert !log[i].NotOurs?;
    }
  }

  /** With nothing noted past the committed offset, the partition holds nothing uncommitted. */
  lemma {:induction false} NothingNotedIsIdle(b: Broker, l: Local)
    requires Durable(b) && Live(b, l, b.committed, false)
    ensures Idle(l)
  {
    PendingIsOurs(b.log, b.committed, l);
    assert b.landed + l.pending == b.landed;
    assert |b.changelog + l.inTxn| == |b.changelog|;
  }

  // ---- Every step keeps every lane ----

  /** Reading one message: the lane read from moves on by one and is the only one to change. */
  lemma {:induction false} ReadKeepsLane(s: State, q: nat, after: Local, p: nat)
    requires p < |s.lanes| && LaneInv(s, p) && TxnInv(s) && CanRead(s, q) && !s.client.Unresolved?
    requires var b, l := s.lanes[q].broker, s.lanes[q].local;
             p == q ==> Folded(b, after) && Spanned(b.log, b.committed, after) && after.position == l.position + 1
    ensures LaneInv(Read(s, q, after), p)
  {
  }

  lemma {:induction false} HandleKeepsLane(s: State, q: nat, p: nat)
    requires p < |s.lanes| && LaneInv(s, p) && TxnInv(s) && Enabled(s, Handle(q))
    ensures LaneInv(Do(s, Handle(q)), p)
  {
    var b, l := s.lanes[q].broker, s.lanes[q].local;
    if s.client.InTransaction? {
      if p == q {
        SaveKeepsFolded(b, l, Head(s, q).event);
        SaveKeepsSpanned(b.log, b.committed, l, Head(s, q).event);
      }
      ReadKeepsLane(s, q, Saved(l, Head(s, q).event), p);
    }
  }

  lemma {:induction false} RouteKeepsLane(s: State, q: nat, p: nat)
    requires p < |s.lanes| && LaneInv(s, p) && TxnInv(s) && Enabled(s, RouteAway(q))
    ensures LaneInv(Do(s, RouteAway(q)), p)
  {
    var b, l := s.lanes[q].broker, s.lanes[q].local;
    if s.client.InTransaction? {
      if p == q { MoveKeepsSpanned(b.log, b.committed, l); }
      ReadKeepsLane(s, q, Moved(l), p);
    }
  }

  lemma {:induction false} PassKeepsLane(s: State, q: nat, p: nat)
    requires p < |s.lanes| && LaneInv(s, p) && TxnInv(s) && Enabled(s, PassOver(q))
    ensures LaneInv(Do(s, PassOver(q)), p)
  {
    var b, l := s.lanes[q].broker, s.lanes[q].local;
    if !s.client.Unresolved? {
      if p == q { PassKeepsSpanned(b.log, b.committed, l); }
      ReadKeepsLane(s, q, Passed(l), p);
    }
  }

  lemma {:induction false} CommitKeepsLane(s: State, outcome: CommitOutcome, p: nat)
    requires p < |s.lanes| && LaneInv(s, p) && TxnInv(s) && Enabled(s, Commit(outcome))
    ensures LaneInv(Do(s, Commit(outcome)), p)
  {
    var lane := s.lanes[p];
    var resume := Resume(s.txn, p, lane.broker);
    if lane.held {
      LandKeepsDurable(lane.broker, lane.local, resume);
      LandKeepsLive(lane.broker, lane.local, resume);
    } else {
      assert Landed(lane.broker, lane.local, resume) == lane.broker;
    }
  }

  lemma {:induction false} RevokeKeepsLane(s: State, a: Action, p: nat)
    requires p < |s.lanes| && LaneInv(s, p) && TxnInv(s) && Enabled(s, a) && a.Revoke? && Covering(s, a.ps)
    ensures LaneInv(Do(s, a), p)
  {
    var lane, t := s.lanes[p], Do(s, a);
    assert t.lanes[p] == ReleaseLane(lane, p in a.ps, s.txn.open) && t.txn == CLOSED;
    if lane.held && !s.client.Unresolved? {
      if !s.txn.open {
        NothingNotedIsIdle(lane.broker, lane.local);
      } else if p !in a.ps {
        DropKeepsClean(lane.broker, lane.local, Resume(s.txn, p, lane.broker));
      }
    }
  }

  lemma {:induction false} OtherKeepsLane(s: State, a: Action, p: nat)
    requires p < |s.lanes| && LaneInv(s, p) && TxnInv(s) && Enabled(s, a)
    requires a.Append? || a.Assign? || a.ReadSnapshot? || a.NoteIt? || a.Crash? || a.Restart? || a.Elsewhere?
    ensures LaneInv(Do(s, a), p)
  {
    var lane := s.lanes[p];
    if a.Append? && a.p == p {
      AppendKeepsDurable(lane.broker, a.m);
      if lane.held && !s.phase.Down? && !s.client.Unresolved? {
        AppendKeepsLive(lane.broker, a.m, lane.local, Resume(s.txn, p, lane.broker), IsUnnoted(s, p));
      }
    } else if a.Assign? && a.p == p {
      RebuildIsLive(lane.broker);
    }
  }

  lemma {:induction false} StepKeepsInv(s: State, a: Action)
    requires Inv(s) && Enabled(s, a) && Do(s, a).partialRevokes == 0
    ensures Inv(Do(s, a))
  {
    forall p | 0 <= p < |Do(s, a).lanes| ensures LaneInv(Do(s, a), p) {
      assert LaneInv(s, p);
      match a
      case Handle(q) => HandleKeepsLane(s, q, p);
      case RouteAway(q) => RouteKeepsLane(s, q, p);
      case PassOver(q) => PassKeepsLane(s, q, p);
      case Commit(outcome) => CommitKeepsLane(s, outcome, p);
      case Revoke(_, _) => RevokeKeepsLane(s, a, p);
      case _ => OtherKeepsLane(s, a, p);
    }
  }

  lemma {:induction false} InvHolds(partitions: nat, acts: seq<Action>, t: State)
    requires Exec(Init(partitions), acts) == Some(t) && t.partialRevokes == 0
    ensures Inv(t) && |t.lanes| == partitions
  {
    if acts != [] {
      var a, s := acts[|acts| - 1], Exec(Init(partitions), acts[..|acts| - 1]).value;
      InvHolds(partitions, acts[..|acts| - 1], s);
      StepKeepsInv(s, a);
    }
  }

  // ---- Exactly-once committed output ----

  lemma {:induction false} AscendingIsDistinct(h: seq<Delivery>)
    requires Ascending(h)
    ensures |Offsets(h)| == |h|
  {
    if h != [] {
      var init, last := h[..|h| - 1], h[|h| - 1];
      AscendingIsDistinct(init);
      assert Offsets(h) == Offsets(init) + {last.offset};
      assert last.offset !in Offsets(init);
    }
  }

  /** In every run in which each revocation covers what the open transaction dirtied, whatever
      else is committed, aborted, lost or crashed: replaying the committed changelog gives exactly
      the fold of the messages handled below the committed offset, each folded once and counted
      once, and every other message below it was moved elsewhere or was never this service's. */
  lemma {:induction false} ExactlyOnceOutput(partitions: nat, acts: seq<Action>, t: State, p: nat)
    requires Exec(Init(partitions), acts) == Some(t) && t.partialRevokes == 0 && p < partitions
    ensures |t.lanes| == partitions
    ensures var b := t.lanes[p].broker;
            && b.committed <= |b.log|
            && Replay(map[], b.changelog) == FoldAll(b.landed)
            && (forall d :: d in b.landed ==> Genuine(b.log, d) && d.offset < b.committed)
            && (forall i :: 0 <= i < b.committed ==> Accounted(b.log, i, Offsets(b.landed), b.moved))
            && TotalHandled(Replay(map[], b.changelog)) == |Offsets(b.landed)|
  {
    InvHolds(partitions, acts, t);
    assert LaneInv(t, p);
    var b := t.lanes[p].broker;
    ReplayIsFold(b.landed);
    AscendingIsDistinct(b.landed);
    TotalIsLength(b.landed);
  }

  // ---- Where the code gives less than its comments say ----

  /** A revocation aborts the whole transaction but releases only the named partitions. The stores
      kept stay in step with the changelog exactly when none of them was dirtied. */
  lemma {:induction false} RevokeKeepsInvIff(s: State, ps: set<nat>)
    requires Inv(s) && s.phase.Ready? && s.txn.open
    ensures Inv(Do(s, Revoke(ps, true))) <==> Covering(s, ps)
  {
    var a := Revoke(ps, true);
    var t := Do(s, a);
    if Covering(s, ps) {
      forall p | 0 <= p < |t.lanes| ensures LaneInv(t, p) {
        assert LaneInv(s, p);
        RevokeKeepsLane(s, a, p);
      }
    } else {
      var p :| 0 <= p < |s.lanes| && s.lanes[p].held && p !in ps && Dirty(s.lanes[p].local);
      DirtyKeptIsLost(s, ps, p);
    }
  }

  /** A fold that the abort took back is still in the kept store. */
  lemma {:induction false} PendingKeptIsLost(b: Broker, l: Local)
    requires Folded(b, l) && l.pending != []
    ensures !Folded(b, Emptied(l))
  {
    TotalIsLength(b.landed + l.pending);
    TotalIsLength(b.landed);
    assert b.landed + Emptied(l).pending == b.landed;
  }

  /** A copy that the abort took back leaves its message behind the kept position, dealt with nowhere. */
  lemma {:induction false} MovedKeptIsLost(b: Broker, l: Local)
    requires Spanned(b.log, b.committed, l) && l.movedOpen != {}
    ensures !Spanned(b.log, b.committed, Emptied(l))
  {
    var i :| i in l.movedOpen;
    assert Offsets(Emptied(l).pending) == {};
    assert !Accounted(b.log, i, {}, {});
  }

  lemma {:induction false} DirtyKeptIsLost(s: State, ps: set<nat>, p: nat)
    requires Inv(s) && s.phase.Ready? && s.txn.open && p < |s.lanes|
    requires s.lanes[p].held && p !in ps && Dirty(s.lanes[p].local)
    ensures !LaneInv(Do(s, Revoke(ps, true)), p)
  {
    assert LaneInv(s, p);
    var b, l := s.lanes[p].broker, s.lanes[p].local;
    var t := Do(s, Revoke(ps, true));
    assert t.lanes[p] == Lane(b, Emptied(l), true);
    if l.pending != [] { PendingKeptIsLost(b, l); } else { MovedKeptIsLost(b, l); }
  }

  lemma {:induction false} RevokeThenCommit(s: State, ps: set<nat>, p: nat)
    requires s.phase.Ready? && s.txn.open && p !in ps && CanRead(s, p) && Head(s, p).NotOurs?
    ensures var l := s.lanes[p].local;
            var t := Do(Do(Do(Do(s, Revoke(ps, true)), PassOver(p)), NoteIt), Commit(Committed));
            |t.lanes| == |s.lanes| && t.lanes[p].broker == Landed(s.lanes[p].broker, Emptied(l), l.position + 1)
  {
    var one := Do(s, Revoke(ps, true));
    assert one.lanes[p] == Lane(s.lanes[p].broker, Emptied(s.lanes[p].local), true);
  }

  /** What that costs: once the kept partition's offset is committed again, a message below it was
      neither folded into the changelog nor moved anywhere. */
  lemma {:induction false} PartialRevokeLosesMessage(s: State, ps: set<nat>, p: nat) returns (i: nat)
    requires Inv(s) && s.phase.Ready? && s.txn.open && p !in ps
    requires CanRead(s, p) && Head(s, p).NotOurs? && Dirty(s.lanes[p].local)
    ensures var t := Do(Do(Do(Do(s, Revoke(ps, true)), PassOver(p)), NoteIt), Commit(Committed));
            var b := t.lanes[p].broker;
            i < b.committed && !Accounted(b.log, i, Offsets(b.landed), b.moved)
  {
    assert LaneInv(s, p);
    var b, l := s.lanes[p].broker, s.lanes[p].local;
    i := NowhereButHere(b, l);
    RevokeThenCommit(s, ps, p);
    assert b.landed + [] == b.landed && b.moved + {} == b.moved;
  }

  /** What only the open transaction deals with, the broker has no account of. */
  lemma {:induction false} NowhereButHere(b: Broker, l: Local) returns (i: nat)
    requires Durable(b) && Spanned(b.log, b.committed, l) && Dirty(l)
    ensures i < l.position && !Accounted(b.log, i, Offsets(b.landed), b.moved)
  {
    if l.pending != [] {
      i := l.pending[0].offset;
      assert Genuine(b.log, l.pending[0]);
    } else {
      i :| i in l.movedOpen;
    }
    assert i !in Offsets(b.landed);
  }

  lemma {:induction false} ExecStep(s: State, acts: seq<Action>, t: State, a: Action)
    requires Exec(s, acts) == Some(t) && Enabled(t, a)
    ensures Exec(s, acts + [a]) == Some(Do(t, a))
  {
    assert (acts + [a])[..|acts|] == acts;
  }

  /** Two partitions, nothing running, and the given messages on the first. */
  predicate Written(s: State, log: seq<Loop.Message>) {
    && |s.lanes| == 2 && s.lanes[0].broker == Broker(log, 0, [], [], {}) && !s.lanes[0].held
    && s.txn == CLOSED && s.client.NoTransaction? && s.phase.Down? && s.partialRevokes == 0
  }

  lemma {:induction false} WriteOne(acts: seq<Action>, s: State, log: seq<Loop.Message>, m: Loop.Message)
    requires Exec(Init(2), acts) == Some(s) && Written(s, log)
    ensures Enabled(s, Append(0, m)) && Written(Do(s, Append(0, m)), log + [m])
    ensures Exec(Init(2), acts + [Append(0, m)]) == Some(Do(s, Append(0, m)))
  {
    ExecStep(Init(2), acts, s, Append(0, m));
  }

  /** The first partition holds a retry of another service, an event, and such a retry again. */
  lemma {:induction false} TopicWritten(e: Event) returns (acts: seq<Action>, s: State)
    ensures Exec(Init(2), acts) == Some(s) && Written(s, [Loop.NotOurs, Loop.Decoded(e), Loop.NotOurs])
  {
    acts, s := [], Init(2);
    WriteOne(acts, s, [], Loop.NotOurs);
    acts, s := acts + [Append(0, Loop.NotOurs)], Do(s, Append(0, Loop.NotOurs));
    WriteOne(acts, s, [] + [Loop.NotOurs], Loop.Decoded(e));
    acts, s := acts + [Append(0, Loop.Decoded(e))], Do(s, Append(0, Loop.Decoded(e)));
    WriteOne(acts, s, [] + [Loop.NotOurs] + [Loop.Decoded(e)], Loop.NotOurs);
    acts, s := acts + [Append(0, Loop.NotOurs)], Do(s, Append(0, Loop.NotOurs));
    assert [] + [Loop.NotOurs] + [Loop.Decoded(e)] + [Loop.NotOurs] == [Loop.NotOurs, Loop.Decoded(e), Loop.NotOurs];
  }

  /** The first retry has been read, and noting it opened a transaction. */
  lemma {:induction false} TransactionOpened(e: Event) returns (acts: seq<Action>, s: State)
    ensures Exec(Init(2), acts) == Some(s) && |s.lanes| == 2
    ensures s.lanes[0].broker.log == [Loop.NotOurs, Loop.Decoded(e), Loop.NotOurs] && s.lanes[0].held
    ensures s.lanes[0].local.position == 1 && s.lanes[0].local.pending == []
    ensures s.txn.open && s.client.InTransaction? && s.phase.Ready? && s.partialRevokes == 0
  {
    acts, s := TopicWritten(e);
    ExecStep(Init(2), acts, s, Restart);
    acts, s := acts + [Restart], Do(s, Restart);
    ExecStep(Init(2), acts, s, Assign(0));
    acts, s := acts + [Assign(0)], Do(s, Assign(0));
    ExecStep(Init(2), acts, s, PassOver(0));
    acts, s := acts + [PassOver(0)], Do(s, PassOver(0));
    ExecStep(Init(2), acts, s, NoteIt);
    acts, s := acts + [NoteIt], Do(s, NoteIt);
  }

  /** And the event handled inside it: losing the other partition now meets every condition of
      PartialRevokeLosesMessage. */
  lemma {:induction false} PartialRevokeHappens(e: Event) returns (acts: seq<Action>, s: State)
    ensures Exec(Init(2), acts) == Some(s) && Inv(s) && s.phase.Ready? && s.txn.open
    ensures CanRead(s, 0) && Head(s, 0).NotOurs? && Dirty(s.lanes[0].local)
  {
    acts, s := TransactionOpened(e);
    ExecStep(Init(2), acts, s, Handle(0));
    acts, s := acts + [Handle(0)], Do(s, Handle(0));
    ExecStep(Init(2), acts, s, NoteIt);
    acts, s := acts + [NoteIt], Do(s, NoteIt);
    InvHolds(2, acts, s);
  }

  /** A fold can only be produced inside a transaction that an earlier message already opened. */
  lemma {:induction false} FoldNeedsOpenTransaction(s: State, p: nat)
    requires TxnInv(s) && Enabled(s, Handle(p))
    ensures s.txn.open <==> Do(s, Handle(p)).phase.Unnoted?
    ensures !s.txn.open ==> Do(s, Handle(p)).phase.Down? && Do(s, Handle(p)).lanes == s.lanes
  {
  }

  /** So can a failure's copy; outside one the message is simply read again. */
  lemma {:induction false} CopyNeedsOpenTransaction(s: State, p: nat)
    requires TxnInv(s) && Enabled(s, RouteAway(p))
    ensures s.txn.open <==> Do(s, RouteAway(p)).phase.Unnoted?
    ensures !s.txn.open ==> Do(s, RouteAway(p)) == s
  {
  }

  /** So while no snapshot and no other service's retry is ever read, this process commits nothing:
      every handled event stops the process and is read again after the restart. */
  lemma {:induction false} NothingStartsWithoutPassers(partitions: nat, acts: seq<Action>, t: State)
    requires Exec(Init(partitions), acts) == Some(t) && t.passers == 0
    requires forall a :: a in acts ==> !a.Elsewhere?
    ensures t.client.NoTransaction? && t.txn == CLOSED && !t.phase.Unnoted?
    ensures forall p :: 0 <= p < |t.lanes| ==>
              t.lanes[p].broker.committed == 0 && t.lanes[p].broker.changelog == []
  {
    if acts != [] {
      var s := Exec(Init(partitions), acts[..|acts| - 1]).value;
      assert forall a :: a in acts[..|acts| - 1] ==> a in acts;
      NothingStartsWithoutPassers(partitions, acts[..|acts| - 1], s);
      assert !acts[|acts| - 1].Elsewhere?;
    }
  }

  /** A commit clears the committer whatever came of it, so only the client knows whether the transaction
      is resolved: the next message that needs no produce is noted, and the loop goes on, exactly when
      the commit succeeded. After a commit that failed outright nothing was landed and nothing repaired. */
  lemma {:induction false} LoopGoesOnIffCommitted(s: State, outcome: CommitOutcome, p: nat, offset: nat)
    requires s.phase.Ready? && s.txn.open && CanRead(s, p) && Head(s, p).NotOurs? && !outcome.Fenced?
    ensures var t := Do(s, Commit(outcome));
            && !t.txn.open && (t.client.NoTransaction? <==> outcome.Committed?)
            && (outcome.Failed? ==> t.lanes == s.lanes)
            && Enabled(t, PassOver(p)) && Enabled(Do(t, PassOver(p)), NoteIt)
            && (Do(Do(t, PassOver(p)), NoteIt).phase.Ready? <==> outcome.Committed?)
            && Enabled(t, ReadSnapshot(p, offset)) && Enabled(Do(t, ReadSnapshot(p, offset)), NoteIt)
            && (Do(Do(t, ReadSnapshot(p, offset)), NoteIt).phase.Ready? <==> outcome.Committed?)
  {
    var t := Do(s, Commit(outcome));
    assert |t.lanes| == |s.lanes| && t.lanes[p].held;
    assert t.lanes[p].local.position == s.lanes[p].local.position && t.lanes[p].broker.log == s.lanes[p].broker.log;
  }

  /** A revocation with a transaction open gives it up: nothing is committed, exactly the named partitions
      are let go, and the loop goes on with what it keeps exactly when the abort was resolved. */
  lemma {:induction false} LoopGoesOnIffAborted(s: State, ps: set<nat>, resolved: bool, p: nat, offset: nat)
    requires s.phase.Ready? && s.txn.open && p < |s.lanes| && s.lanes[p].held && p !in ps
    ensures var t := Do(s, Revoke(ps, resolved));
            && !t.txn.open && SameCommitted(s, t)
            && (forall q :: 0 <= q < |s.lanes| ==> (t.lanes[q].held <==> s.lanes[q].held && q !in ps))
            && Enabled(t, ReadSnapshot(p, offset)) && Enabled(Do(t, ReadSnapshot(p, offset)), NoteIt)
            && (Do(Do(t, ReadSnapshot(p, offset)), NoteIt).phase.Ready? <==> resolved)
  {
    var t := Do(s, Revoke(ps, resolved));
    assert |t.lanes| == |s.lanes|;
    assert t.lanes[p].held;
  }

  /** What a commit leaves with the broker. If the broker committed, whether or not the call says so, each held
      partition's changelog rebuilds to the local store, and what lies between its committed offset and its
      position is not this service's; the partitions not held are as they were. If it did not, nothing is.
      Only a fenced process stops at once. */
  lemma {:induction false} CommitLandsIff(s: State, outcome: CommitOutcome, p: nat)
    requires Inv(s) && Enabled(s, Commit(outcome)) && p < |s.lanes|
    ensures |Do(s, Commit(outcome)).lanes| == |s.lanes| && (Do(s, Commit(outcome)).phase.Down? <==> outcome.Fenced?)
    ensures var before, after := s.lanes[p], Do(s, Commit(outcome)).lanes[p];
            && ((outcome.Failed? || outcome.Fenced?) || !before.held ==> after.broker == before.broker)
            && ((outcome.Committed? || outcome.LandedUnknown?) && before.held ==>
                  && Replay(map[], after.broker.changelog) == before.local.store
                  && before.broker.committed <= after.broker.committed
                  && after.broker.committed <= before.local.position <= |before.broker.log|
                  && (forall i :: after.broker.committed <= i < before.local.position ==> before.broker.log[i].NotOurs?)
                  && ((Lifecycle, p) in s.txn.offsets ==> after.broker.committed == s.txn.offsets[(Lifecycle, p)]))
  {
    assert LaneInv(s, p);
    var lane := s.lanes[p];
    if lane.held {
      ReplayIsFold(lane.broker.landed + lane.local.pending);
    } else {
      assert Landed(lane.broker, lane.local, Resume(s.txn, p, lane.broker)) == lane.broker;
    }
  }

  predicate SameCommitted(s: State, t: State) {
    |t.lanes| == |s.lanes| && forall p :: 0 <= p < |s.lanes| ==>
      t.lanes[p].broker.committed == s.lanes[p].broker.committed &&
          t.lanes[p].broker.changelog == s.lanes[p].broker.changelog
  }

  lemma {:induction false} UnresolvedStepCommitsNothing(s: State, a: Action)
    requires s.client.Unresolved? && !s.txn.open && Enabled(s, a) && !a.Restart? && !a.Elsewhere?
    ensures var t := Do(s, a); t.client.Unresolved? && !t.txn.open && SameCommitted(s, t)
  {
  }

  /** And until it is restarted, a process whose transaction is unresolved moves no committed offset and
      adds to no changelog, whatever it reads, whatever is revoked or assigned. */
  lemma {:induction false} UnresolvedCommitsNothing(s: State, acts: seq<Action>, t: State)
    requires s.client.Unresolved? && !s.txn.open && Exec(s, acts) == Some(t)
    requires forall a :: a in acts ==> !a.Restart? && !a.Elsewhere?
    ensures t.client.Unresolved? && !t.txn.open && SameCommitted(s, t)
  {
    if acts != [] {
      var before := Exec(s, acts[..|acts| - 1]).value;
      assert forall a :: a in acts[..|acts| - 1] ==> a in acts;
      UnresolvedCommitsNothing(s, acts[..|acts| - 1], before);
      UnresolvedStepCommitsNothing(before, acts[|acts| - 1]);
    }
  }
}
