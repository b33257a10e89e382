/** The retry worker's scheduler: it holds a message back by pausing its partition and seeking to it,
    and passes it on when it is due. */
module Worker {
  import opened Events
  import opened Maps
  import opened Retry

  /** One offset of a retry partition: a record, or a hole left by an aborted transaction or a marker. */
  datatype Slot = Hole | Stored(message: Message)

  datatype Fate = Released | GaveUp | Unmoved

  /** A message the worker went past, when, and what became of it. */
  datatype Passed = Passed(offset: nat, at: real, fate: Fate)

  /** The settings, the services with a handler, and the values that do not decode. */
  datatype Config = Config(settings: Settings, services: set<string>, undecodable: set<string>)

  /** The retry topic by partition, as far as the run will see it written. */
  type Topic = seq<seq<Slot>>

  // ---- What the worker does with one message ----

  function Due(m: Message): Option<real> { m.headers.retryAt }

  predicate IsDue(m: Message, now: real) { Due(m).None? || Due(m).value <= now }

  /** Some handler is registered for it, and it decodes. */
  predicate Releasable(c: Config, m: Message) { ServiceOf(m) in c.services && m.value !in c.undecodable }

  // ---- Offsets ----

  /** The offsets of the records in [from, to), in order. */
  function Readable(slots: seq<Slot>, from: nat, to: nat): seq<nat>
    requires to <= |slots|
  {
    if to <= from then []
    else if slots[to - 1].Stored? then Readable(slots, from, to - 1) + [to - 1]
    else Readable(slots, from, to - 1)
  }

  predicate AreRecords(slots: seq<Slot>, r: seq<nat>, from: nat, to: nat) {
    to <= |slots| && forall k :: 0 <= k < |r| ==> from <= r[k] < to && slots[r[k]].Stored?
  }

  predicate Climbs(r: seq<nat>) { forall j, k :: 0 <= j < k < |r| ==> r[j] < r[k] }

  lemma {:induction false} ReadableClimbs(slots: seq<Slot>, from: nat, to: nat)
    requires to <= |slots|
    ensures AreRecords(slots, Readable(slots, from, to), from, to) && Climbs(Readable(slots, from, to))
  {
    if from < to {
      var less := Readable(slots, from, to - 1);
      ReadableClimbs(slots, from, to - 1);
      assert AreRecords(slots, less, from, to);
      if slots[to - 1].Stored? {
        RecordsAppend(slots, less, from, to);
        ClimbsAppend(less, to - 1);
      }
    }
  }

  lemma {:induction false} RecordsAppend(slots: seq<Slot>, r: seq<nat>, from: nat, to: nat)
    requires from < to && AreRecords(slots, r, from, to) && slots[to - 1].Stored?
    ensures AreRecords(slots, r + [to - 1], from, to)
  {
  }

  lemma {:induction false} ClimbsAppend(r: seq<nat>, x: nat)
    requires Climbs(r) && forall k :: 0 <= k < |r| ==> r[k] < x
    ensures Climbs(r + [x])
  {
  }

  lemma {:induction false} ReadableIsAll(slots: seq<Slot>, from: nat, to: nat, o: nat)
    requires from <= o < to <= |slots| && slots[o].Stored?
    ensures o in Readable(slots, from, to)
  {
    if o < to - 1 { ReadableIsAll(slots, from, to - 1, o); }
  }

  lemma {:induction false} HolesAddNothing(slots: seq<Slot>, from: nat, to: nat, o: nat)
    requires from <= to && Holes(slots, to, o)
    ensures Readable(slots, from, o) == Readable(slots, from, to)
    decreases o - to
  {
    if to < o { HolesAddNothing(slots, from, to, o - 1); }
  }

  function OffsetsOf(ps: seq<Passed>): seq<nat> {
    seq(|ps|, k requires 0 <= k < |ps| => ps[k].offset)
  }

  /** Over all assignments, the records moved on and those whose release failed. */
  datatype Account = Account(moves: set<(nat, nat)>, failed: set<(nat, nat)>)

  /** No record of a partition below n is left behind: each was moved, or its release failed. */
  ghost predicate Covered(slots: seq<Slot>, p: nat, n: nat, a: Account) {
    n <= |slots| && forall o :: 0 <= o < n && slots[o].Stored? ==> (p, o) in a.moves || (p, o) in a.failed
  }

  function Noted(a: Account, p: nat, x: Passed): Account {
    if x.fate.Unmoved? then a.(failed := a.failed + {(p, x.offset)}) else a.(moves := a.moves + {(p, x.offset)})
  }

  /** A held partition: the client's read position; where it was assigned, and what was passed since. */
  datatype Lane = Lane(at: nat, start: nat, passed: seq<Passed>)

  /** The deferrals, the held partitions, the group's committed offsets, and what the run has done. */
  datatype State = State(
    deferred: map<nat, real>, lanes: map<nat, Lane>, committed: map<nat, nat>, account: Account, clock: real)

  /** What became of a message is what its headers and value ask for, and not before it was due. */
  predicate Genuine(c: Config, slots: seq<Slot>, x: Passed) {
    && x.offset < |slots| && slots[x.offset].Stored?
    && var m := slots[x.offset].message;
    && IsDue(m, x.at)
    && (x.fate.GaveUp? <==> !Releasable(c, m))
  }

  predicate Holes(slots: seq<Slot>, from: nat, to: nat) {
    from <= to <= |slots| && forall k :: from <= k < to ==> slots[k].Hole?
  }

  /** The records of [from, to) passed in offset order, none skipped, the clock never going back:
      after the last of them there are only holes, and so on down. */
  predicate Trail(c: Config, slots: seq<Slot>, xs: seq<Passed>, from: nat, to: nat, clock: real) {
    if xs == [] then Holes(slots, from, to)
    else
      var x := xs[|xs| - 1];
      && from <= x.offset && Genuine(c, slots, x) && x.at <= clock && Holes(slots, x.offset + 1, to)
      && Trail(c, slots, xs[..|xs| - 1], from, x.offset, x.at)
  }

  lemma {:induction false} OffsetsOfOne(xs: seq<Passed>, x: Passed)
    ensures OffsetsOf(xs + [x]) == OffsetsOf(xs) + [x.offset]
  {
  }

  lemma {:induction false} TrailIsInOrder(c: Config, slots: seq<Slot>, xs: seq<Passed>, from: nat, to: nat, clock: real)
    requires Trail(c, slots, xs, from, to, clock)
    ensures from <= to <= |slots| && OffsetsOf(xs) == Readable(slots, from, to)
  {
    if xs == [] {
      HolesAddNothing(slots, from, from, to);
    } else {
      var less, x := xs[..|xs| - 1], xs[|xs| - 1];
      TrailIsInOrder(c, slots, less, from, x.offset, x.at);
      HolesAddNothing(slots, from, x.offset + 1, to);
      OffsetsOfOne(less, x);
      assert xs == less + [x];
    }
  }

  ghost predicate AllGenuine(c: Config, slots: seq<Slot>, xs: seq<Passed>) {
    forall k :: 0 <= k < |xs| ==> Genuine(c, slots, xs[k])
  }

  predicate InTime(xs: seq<Passed>, clock: real) {
    && (forall k :: 0 <= k < |xs| ==> xs[k].at <= clock)
    && (forall j, k :: 0 <= j < k < |xs| ==> xs[j].at <= xs[k].at)
  }

  lemma {:induction false} TrailIsGenuine(c: Config, slots: seq<Slot>, xs: seq<Passed>, from: nat, to: nat, clock: real)
    requires Trail(c, slots, xs, from, to, clock)
    ensures AllGenuine(c, slots, xs) && InTime(xs, clock)
  {
    if xs != [] {
      var less, x := xs[..|xs| - 1], xs[|xs| - 1];
      TrailIsGenuine(c, slots, less, from, x.offset, x.at);
      assert xs == less + [x];
    }
  }

  lemma {:induction false} TrailPastHoles(
    c: Config, slots: seq<Slot>, xs: seq<Passed>, from: nat, to: nat, o: nat, clock: real, later: real)
    requires Trail(c, slots, xs, from, to, clock) && Holes(slots, to, o) && clock <= later
    ensures Trail(c, slots, xs, from, o, later)
  {
  }

  ghost predicate LaneHolds(c: Config, log: Topic, p: nat, lane: Lane, a: Account, clock: real) {
    p < |log| && Trail(c, log[p], lane.passed, lane.start, lane.at, clock) && Covered(log[p], p, lane.at, a)
  }

  /** A deferred partition stands at the message it waits for. */
  predicate AtHead(log: Topic, p: nat, n: nat, due: real) {
    p < |log| && n < |log[p]| && log[p][n].Stored? && Due(log[p][n].message) == Some(due)
  }

  // ---- Steps ----

  predicate Deliverable(log: Topic, s: State, p: nat, o: nat) {
    && p in s.lanes && p !in s.deferred && p < |log| && o < |log[p]| && log[p][o].Stored?
    && Holes(log[p], s.lanes[p].at, o)
  }

  function Undue(deferred: map<nat, real>, now: real): map<nat, real> {
    map p | p in deferred && deferred[p] > now :: deferred[p]
  }

  /** What the worker does with a message it reads now. */
  datatype Outcome = Waits(due: real) | Passes(fate: Fate) | Rereads

  function OutcomeOf(c: Config, m: Message, now: real, published: bool): Outcome {
    if !IsDue(m, now) then Waits(Due(m).value)
    else if Releasable(c, m) then Passes(if published then Released else Unmoved)
    else if published then Passes(GaveUp)
    else Rereads
  }

  function MovedPast(s: State, p: nat, x: Passed, commits: bool): State
    requires p in s.lanes
  {
    State(s.deferred, s.lanes[p := Lane(x.offset + 1, s.lanes[p].start, s.lanes[p].passed + [x])],
          if commits then s.committed[p := x.offset + 1] else s.committed, Noted(s.account, p, x), x.at)
  }

  function SoughtBack(s: State, p: nat, o: nat): State
    requires p in s.lanes
  {
    s.(lanes := s.lanes[p := s.lanes[p].(at := o)])
  }

  function Handled(c: Config, s: State, p: nat, o: nat, m: Message, now: real, published: bool, accepted: bool): State
    requires p in s.lanes
  {
    match OutcomeOf(c, m, now, published)
    case Waits(due) => SoughtBack(s, p, o).(deferred := s.deferred[p := due])
    case Rereads => SoughtBack(s, p, o)
    case Passes(fate) => MovedPast(s, p, Passed(o, now, fate), !fate.Unmoved? && accepted)
  }

  /** A new partition is read from its committed offset. */
  function Assign(log: Topic, s: State, ps: set<nat>): State {
    s.(lanes := (map p | p in ps && p < |log| :: Lane(At(s.committed, p), At(s.committed, p), [])) + s.lanes)
  }

  function Revoke(s: State, ps: set<nat>): State { s.(deferred := s.deferred - ps, lanes := s.lanes - ps) }

  datatype Poll =
    | Nothing
    | Errored
    | Got(partition: nat, offset: nat, published: bool, accepted: bool)
    | Assigned(partitions: set<nat>)
    | Revoked(partitions: set<nat>)

  /** One turn of the loop: the clock as it resumes partitions, what the poll brings, the clock then. */
  datatype Turn = Turn(now: real, poll: Poll, later: real)

  function Polled(c: Config, log: Topic, s: State, t: Turn): State {
    match t.poll
    case Nothing => s
    case Errored => s
    case Assigned(ps) => Assign(log, s, ps)
    case Revoked(ps) => Revoke(s, ps)
    case Got(p, o, published, accepted) =>
      if Deliverable(log, s, p, o)
      then Handled(c, s, p, o, log[p][o].message, t.later, published, accepted) else s
  }

  function Resumed(s: State, t: Turn): State { s.(deferred := Undue(s.deferred, t.now), clock := t.later) }

  function Turned(c: Config, log: Topic, s: State, t: Turn): State {
    Polled(c, log, Resumed(s, t), t)
  }

  const IDLE := State(map[], map[], map[], Account({}, {}), 0.0)

  function Exec(c: Config, log: Topic, turns: seq<Turn>): State {
    if turns == [] then IDLE else Turned(c, log, Exec(c, log, turns[..|turns| - 1]), turns[|turns| - 1])
  }

  /** The clock never goes back. */
  ghost predicate Monotone(turns: seq<Turn>) {
    && (forall i :: 0 <= i < |turns| ==> 0.0 <= turns[i].now <= turns[i].later)
    && (forall i, j :: 0 <= i < j < |turns| ==> turns[i].later <= turns[j].now)
  }

  // ---- Every run ----

  ghost predicate LanesHold(c: Config, log: Topic, s: State) {
    forall p :: p in s.lanes ==> LaneHolds(c, log, p, s.lanes[p], s.account, s.clock)
  }

  ghost predicate HeadsHold(log: Topic, s: State) {
    forall p :: p in s.deferred ==> p in s.lanes && AtHead(log, p, s.lanes[p].at, s.deferred[p])
  }

  ghost predicate CommitsHold(log: Topic, s: State) {
    forall p :: p in s.committed ==> p < |log| && Covered(log[p], p, s.committed[p], s.account)
  }

  /** No held partition is read below its committed offset. */
  ghost predicate PastCommits(s: State) {
    forall p :: p in s.lanes ==> At(s.committed, p) <= s.lanes[p].at
  }

  ghost predicate Inv(c: Config, log: Topic, s: State) {
    LanesHold(c, log, s) && HeadsHold(log, s) && CommitsHold(log, s) && PastCommits(s)
  }

  /** The poll skips holes only. */
  lemma {:induction false} ReadLane(
    c: Config, log: Topic, p: nat, lane: Lane, a: Account, clock: real, o: nat, later: real)
    requires LaneHolds(c, log, p, lane, a, clock) && Holes(log[p], lane.at, o) && clock <= later
    ensures LaneHolds(c, log, p, lane.(at := o), a, later)
  {
    TrailPastHoles(c, log[p], lane.passed, lane.start, lane.at, o, clock, later);
  }

  lemma {:induction false} GrowLane(c: Config, log: Topic, p: nat, lane: Lane, a: Account, x: Passed)
    requires LaneHolds(c, log, p, lane, a, x.at) && lane.at == x.offset && Genuine(c, log[p], x)
    ensures LaneHolds(c, log, p, Lane(x.offset + 1, lane.start, lane.passed + [x]), Noted(a, p, x), x.at)
  {
    TrailGrows(c, log[p], lane.passed, lane.start, x);
    CoveredGrows(log[p], p, a, x);
  }

  lemma {:induction false} TrailGrows(c: Config, slots: seq<Slot>, xs: seq<Passed>, from: nat, x: Passed)
    requires Trail(c, slots, xs, from, x.offset, x.at) && Genuine(c, slots, x)
    ensures Trail(c, slots, xs + [x], from, x.offset + 1, x.at)
  {
    assert (xs + [x])[..|xs|] == xs;
    TrailFits(c, slots, xs, from, x.offset, x.at);
  }

  lemma {:induction false} TrailFits(c: Config, slots: seq<Slot>, xs: seq<Passed>, from: nat, to: nat, clock: real)
    requires Trail(c, slots, xs, from, to, clock)
    ensures from <= to <= |slots|
  {
  }

  lemma {:induction false} CoveredGrows(slots: seq<Slot>, p: nat, a: Account, x: Passed)
    requires Covered(slots, p, x.offset, a) && x.offset < |slots|
    ensures Covered(slots, p, x.offset + 1, Noted(a, p, x))
  {
  }

  lemma {:induction false} PassKeepsLanes(c: Config, log: Topic, s: State, p: nat, x: Passed, commits: bool)
    requires LanesHold(c, log, s) && Deliverable(log, s, p, x.offset) && Genuine(c, log[p], x) && s.clock <= x.at
    ensures LanesHold(c, log, MovedPast(s, p, x, commits))
  {
    var t := MovedPast(s, p, x, commits);
    forall q | q in t.lanes ensures LaneHolds(c, log, q, t.lanes[q], t.account, t.clock) {
      var lane := s.lanes[q];
      if q == p {
        ReadLane(c, log, p, lane, s.account, s.clock, x.offset, x.at);
        GrowLane(c, log, p, lane.(at := x.offset), s.account, x);
      } else {
        ReadLane(c, log, q, lane, s.account, s.clock, lane.at, x.at);
      }
    }
  }

  lemma {:induction false} PassKeepsCommits(c: Config, log: Topic, s: State, p: nat, x: Passed, commits: bool)
    requires CommitsHold(log, s) && p in s.lanes && LanesHold(c, log, MovedPast(s, p, x, commits))
    ensures CommitsHold(log, MovedPast(s, p, x, commits))
  {
    var t := MovedPast(s, p, x, commits);
    assert LaneHolds(c, log, p, t.lanes[p], t.account, t.clock);
  }

  lemma {:induction false} PassKeepsHeads(log: Topic, s: State, p: nat, x: Passed, commits: bool)
    requires HeadsHold(log, s) && p in s.lanes && p !in s.deferred
    ensures HeadsHold(log, MovedPast(s, p, x, commits))
  {
  }

  lemma {:induction false} PassKeepsPast(log: Topic, s: State, p: nat, x: Passed, commits: bool)
    requires PastCommits(s) && Deliverable(log, s, p, x.offset)
    ensures PastCommits(MovedPast(s, p, x, commits))
  {
    var t := MovedPast(s, p, x, commits);
    forall q | q in t.lanes ensures At(t.committed, q) <= t.lanes[q].at {
      assert At(s.committed, q) <= s.lanes[q].at;
    }
  }

  lemma {:induction false} PassKeepsInv(c: Config, log: Topic, s: State, p: nat, x: Passed, commits: bool)
    requires Inv(c, log, s) && Deliverable(log, s, p, x.offset) && Genuine(c, log[p], x) && s.clock <= x.at
    ensures Inv(c, log, MovedPast(s, p, x, commits))
  {
    PassKeepsLanes(c, log, s, p, x, commits);
    PassKeepsCommits(c, log, s, p, x, commits);
    PassKeepsHeads(log, s, p, x, commits);
    PassKeepsPast(log, s, p, x, commits);
  }

  lemma {:induction false} OutcomeIsGenuine(c: Config, slots: seq<Slot>, o: nat, now: real, published: bool)
    requires o < |slots| && slots[o].Stored?
    ensures var outcome := OutcomeOf(c, slots[o].message, now, published);
            outcome.Passes? ==> Genuine(c, slots, Passed(o, now, outcome.fate))
  {
  }

  lemma {:induction false} SeekKeepsInv(c: Config, log: Topic, s: State, p: nat, o: nat)
    requires Inv(c, log, s) && Deliverable(log, s, p, o)
    ensures Inv(c, log, SoughtBack(s, p, o))
  {
    ReadLane(c, log, p, s.lanes[p], s.account, s.clock, o, s.clock);
  }

  lemma {:induction false} DeferKeepsInv(c: Config, log: Topic, s: State, p: nat, due: real)
    requires Inv(c, log, s) && p in s.lanes && AtHead(log, p, s.lanes[p].at, due)
    ensures Inv(c, log, s.(deferred := s.deferred[p := due]))
  {
  }

  lemma {:induction false} HandleKeepsInv(
    c: Config, log: Topic, s: State, p: nat, o: nat, now: real, published: bool, accepted: bool)
    requires Inv(c, log, s) && Deliverable(log, s, p, o) && s.clock <= now
    ensures Inv(c, log, Handled(c, s, p, o, log[p][o].message, now, published, accepted))
  {
    var outcome := OutcomeOf(c, log[p][o].message, now, published);
    if outcome.Passes? {
      OutcomeIsGenuine(c, log[p], o, now, published);
      PassKeepsInv(c, log, s, p, Passed(o, now, outcome.fate), !outcome.fate.Unmoved? && accepted);
    } else {
      SeekKeepsInv(c, log, s, p, o);
      if outcome.Waits? { DeferKeepsInv(c, log, SoughtBack(s, p, o), p, outcome.due); }
    }
  }

  lemma {:induction false} AssignKeepsInv(c: Config, log: Topic, s: State, ps: set<nat>)
    requires Inv(c, log, s)
    ensures Inv(c, log, Assign(log, s, ps))
  {
    var t := Assign(log, s, ps);
    forall p | p in t.lanes ensures LaneHolds(c, log, p, t.lanes[p], t.account, t.clock) {
      if p !in s.lanes { assert Holes(log[p], At(s.committed, p), At(s.committed, p)); }
    }
  }

  lemma {:induction false} RevokeKeepsInv(c: Config, log: Topic, s: State, ps: set<nat>)
    requires Inv(c, log, s)
    ensures Inv(c, log, Revoke(s, ps))
  {
  }

  lemma {:induction false} ResumeKeepsInv(c: Config, log: Topic, s: State, t: Turn)
    requires Inv(c, log, s) && s.clock <= t.later
    ensures Inv(c, log, Resumed(s, t))
  {
    forall p | p in s.lanes ensures LaneHolds(c, log, p, s.lanes[p], s.account, t.later) {
      ReadLane(c, log, p, s.lanes[p], s.account, s.clock, s.lanes[p].at, t.later);
    }
  }

  lemma {:induction false} PollKeepsInv(c: Config, log: Topic, s: State, t: Turn)
    requires Inv(c, log, s) && s.clock <= t.later
    ensures Inv(c, log, Polled(c, log, s, t))
  {
    if t.poll.Assigned? {
      AssignKeepsInv(c, log, s, t.poll.partitions);
    } else if t.poll.Revoked? {
      RevokeKeepsInv(c, log, s, t.poll.partitions);
    } else if t.poll.Got? && Deliverable(log, s, t.poll.partition, t.poll.offset) {
      HandleKeepsInv(c, log, s, t.poll.partition, t.poll.offset, t.later, t.poll.published, t.poll.accepted);
    }
  }

  lemma {:induction false} TurnKeepsInv(c: Config, log: Topic, s: State, t: Turn)
    requires Inv(c, log, s) && s.clock <= t.now <= t.later
    ensures Inv(c, log, Turned(c, log, s, t)) && Turned(c, log, s, t).clock == t.later
  {
    ResumeKeepsInv(c, log, s, t);
    PollKeepsInv(c, log, Resumed(s, t), t);
  }

  lemma {:induction false} InvHolds(c: Config, log: Topic, turns: seq<Turn>)
    requires Monotone(turns)
    ensures Inv(c, log, Exec(c, log, turns))
    ensures Exec(c, log, turns).clock == if turns == [] then 0.0 else turns[|turns| - 1].later
  {
    if turns != [] {
      InvHolds(c, log, turns[..|turns| - 1]);
      TurnKeepsInv(c, log, Exec(c, log, turns[..|turns| - 1]), turns[|turns| - 1]);
    }
  }

  /** After every turn, whatever it brought: a partition held back waits for a message that was not due as
      the turn began, and one held back before it is let go exactly when its message has come due, unless
      it was taken away or the message just read is the one deferred. */
  lemma {:induction false} DueAreResumed(c: Config, log: Topic, s: State, t: Turn)
    requires t.now <= t.later
    ensures var after := Turned(c, log, s, t).deferred;
            && (forall p :: p in after ==> t.now < after[p])
            && (forall p :: p in s.deferred && t.now < s.deferred[p] && !(t.poll.Revoked? && p in t.poll.partitions) ==>
                  p in after && after[p] == s.deferred[p])
            && (forall p :: p in after && p !in Undue(s.deferred, t.now) ==>
                  t.poll.Got? && t.poll.partition == p && t.later < after[p])
  {
    var r := Resumed(s, t);
    if t.poll.Got? && Deliverable(log, r, t.poll.partition, t.poll.offset) {
      assert t.poll.partition !in r.deferred;
    }
  }

  predicate MovedIn(xs: seq<Passed>, o: nat) { exists k :: 0 <= k < |xs| && xs[k].offset == o && !xs[k].fate.Unmoved? }

  /** None of the records is skipped exactly when no release failed. */
  lemma {:induction false} MovedAllIff(c: Config, slots: seq<Slot>, xs: seq<Passed>, from: nat, to: nat, clock: real)
    requires Trail(c, slots, xs, from, to, clock)
    ensures from <= to <= |slots|
    ensures (forall o :: from <= o < to && slots[o].Stored? ==> MovedIn(xs, o)) <==>
            (forall k :: 0 <= k < |xs| ==> !xs[k].fate.Unmoved?)
  {
    TrailIsInOrder(c, slots, xs, from, to, clock);
    ReadableClimbs(slots, from, to);
    var offsets := OffsetsOf(xs);
    if forall k :: 0 <= k < |xs| ==> !xs[k].fate.Unmoved? {
      forall o | from <= o < to && slots[o].Stored? ensures MovedIn(xs, o) {
        ReadableIsAll(slots, from, to, o);
        var k :| 0 <= k < |offsets| && offsets[k] == o;
        assert xs[k].offset == o;
      }
    } else {
      var k :| 0 <= k < |xs| && xs[k].fate.Unmoved?;
      var o := offsets[k];
      assert slots[o].Stored?;
      forall j | 0 <= j < |xs| && j != k ensures xs[j].offset != o {
        assert offsets[j] == xs[j].offset && offsets[j] != offsets[k];
      }
      assert !MovedIn(xs, o);
    }
  }

  /** Scheduler safety, whatever the run: since its assignment each held partition has been passed in
      offset order without a hole, no message before it was due; every one was moved on exactly when
      no release failed; and a deferred partition stands at the message it waits for. */
  lemma {:induction false} SchedulerSafety(c: Config, log: Topic, turns: seq<Turn>, p: nat)
    requires Monotone(turns) && p in Exec(c, log, turns).lanes
    ensures var s := Exec(c, log, turns);
            var lane := s.lanes[p];
            && p < |log| && lane.start <= lane.at <= |log[p]| && At(s.committed, p) <= lane.at
            && OffsetsOf(lane.passed) == Readable(log[p], lane.start, lane.at) && Climbs(OffsetsOf(lane.passed))
            && AllGenuine(c, log[p], lane.passed) && InTime(lane.passed, s.clock)
            && ((forall o :: lane.start <= o < lane.at && log[p][o].Stored? ==> MovedIn(lane.passed, o)) <==>
                (forall k :: 0 <= k < |lane.passed| ==> !lane.passed[k].fate.Unmoved?))
            && (p in s.deferred ==> AtHead(log, p, lane.at, s.deferred[p]))
  {
    InvHolds(c, log, turns);
    var s := Exec(c, log, turns);
    var lane := s.lanes[p];
    assert LaneHolds(c, log, p, lane, s.account, s.clock);
    TrailIsInOrder(c, log[p], lane.passed, lane.start, lane.at, s.clock);
    TrailIsGenuine(c, log[p], lane.passed, lane.start, lane.at, s.clock);
    ReadableClimbs(log[p], lane.start, lane.at);
    MovedAllIff(c, log[p], lane.passed, lane.start, lane.at, s.clock);
  }

  /** Across every reassignment, a record below the committed offset was moved on, or its release failed. */
  lemma {:induction false} CommittedIsMoved(c: Config, log: Topic, turns: seq<Turn>, p: nat, o: nat)
    requires Monotone(turns)
    requires var s := Exec(c, log, turns); p in s.committed && o < s.committed[p]
    ensures var s := Exec(c, log, turns);
            && p < |log| && o < |log[p]|
            && (log[p][o].Stored? ==> (p, o) in s.account.moves || (p, o) in s.account.failed)
  {
    InvHolds(c, log, turns);
    var s := Exec(c, log, turns);
    assert Covered(log[p], p, s.committed[p], s.account);
  }

  // ---- The worker ----

  class RetryWorker {
    const config: Config
    var deferred: map<nat, real>
    // The client: what it does not fetch, and where it reads next; and the group's committed offsets.
    var paused: set<nat>
    var position: map<nat, nat>
    var committed: map<nat, nat>

    ghost predicate Valid()
      reads this
    {
      paused == deferred.Keys
    }

    ghost predicate Mirrors(s: State)
      reads this
    {
      && Valid() && deferred == s.deferred && committed == s.committed && position.Keys == s.lanes.Keys
      && forall p :: p in position ==> position[p] == s.lanes[p].at
    }

    constructor (config: Config)
      ensures this.config == config && Mirrors(IDLE)
    {
      this.config := config;
      deferred, paused, position, committed := map[], {}, map[], map[];
    }

    /** Exactly the partitions whose head has come due are resumed. */
    method ResumeDue(now: real)
      requires Valid()
      modifies this`deferred, this`paused
      ensures Valid() && deferred == Undue(old(deferred), now)
      ensures forall p :: p in old(deferred) ==> (p in deferred <==> now < old(deferred)[p])
      ensures forall p :: p in deferred ==> p in old(deferred) && deferred[p] == old(deferred)[p]
    {
      var items := deferred;
      var todo := items.Keys;
      while todo != {}
        invariant todo <= items.Keys && Valid()
        invariant deferred == map p | p in items && (p in todo || items[p] > now) :: items[p]
        decreases |todo|
      {
        var p :| p in todo;
        todo := todo - {p};
        if items[p] <= now {
          deferred := deferred - {p};
          paused := paused - {p};
        }
      }
    }

    /** Pause and seek back, so that the message is read again when it is due. */
    method Defer(p: nat, o: nat, due: real)
      requires Valid()
      modifies this`deferred, this`paused, this`position
      ensures Valid() && deferred == old(deferred)[p := due] && position == old(position)[p := o]
    {
      paused := paused + {p};
      position := position[p := o];
      deferred := deferred[p := due];
    }

    /** Forget the deferrals of lost partitions; the client forgets the rest. */
    method OnRevoke(ps: set<nat>)
      requires Valid()
      modifies this`deferred, this`paused, this`position
      ensures Valid() && deferred == old(deferred) - ps && position == old(position) - ps
    {
      deferred := deferred - ps;
      paused := paused - ps;
      position := position - ps;
    }

    method Commit(p: nat, o: nat, accepted: bool)
      modifies this`committed
      ensures committed == if accepted then old(committed)[p := o + 1] else old(committed)
    {
      if accepted {
        committed := committed[p := o + 1];
      }
    }

    /** A failed republication is only logged: neither committed nor sought back. An acknowledged one went
        to the topic the headers name as the origin, for the one service that asked for it. */
    method Release(p: nat, o: nat, m: Message, published: bool, accepted: bool) returns (sent: Option<Publication>)
      modifies this`committed
      ensures sent.Some? <==> published
      ensures published ==> sent.value == BackToSource(config.settings, m, o)
      ensures published ==> IsReturnOf(sent.value, config.settings, m, o)
      ensures committed == if published && accepted then old(committed)[p := o + 1] else old(committed)
    {
      if !published {
        return None;
      }
      Commit(p, o, accepted);
      sent := Some(BackToSource(config.settings, m, o));
    }

    /** A dead letter that is not acknowledged leaves the message to be read again. */
    method GiveUp(p: nat, o: nat, m: Message, published: bool, accepted: bool) returns (sent: Option<Publication>)
      modifies this`committed, this`position
      ensures sent.Some? <==> published
      ensures published ==> sent.value == ToDeadLetters(Letter(config.settings, m, o))
      ensures published ==> IsLetterOf(sent.value.message, config.settings, m, o)
      ensures committed == if published && accepted then old(committed)[p := o + 1] else old(committed)
      ensures position == if published then old(position) else old(position)[p := o]
    {
      if !published {
        position := position[p := o];
        return None;
      }
      Commit(p, o, accepted);
      sent := Some(ToDeadLetters(Letter(config.settings, m, o)));
    }

    /** One message, the read position already past it. A step of the scheduler, in the state before
        the poll moved that position. */
    method HandleMessage(p: nat, o: nat, m: Message, now: real, published: bool, accepted: bool, ghost s: State)
      returns (sent: Option<Publication>)
      requires Valid() && p in s.lanes && deferred == s.deferred && committed == s.committed
      requires position.Keys == s.lanes.Keys && position[p] == o + 1
      requires forall q :: q in position && q != p ==> position[q] == s.lanes[q].at
      modifies this
      ensures Mirrors(Handled(config, s, p, o, m, now, published, accepted))
      ensures sent.Some? <==> published && (m.headers.retryAt.Some? ==> m.headers.retryAt.value <= now)
      ensures sent.Some? && ServiceOf(m) in config.services && m.value !in config.undecodable ==>
                sent.value == BackToSource(config.settings, m, o) && IsReturnOf(sent.value, config.settings, m, o)
      ensures sent.Some? && (ServiceOf(m) !in config.services || m.value in config.undecodable) ==>
                && sent.value == ToDeadLetters(Letter(config.settings, m, o))
                && IsLetterOf(sent.value.message, config.settings, m, o)
    {
      if m.headers.retryAt.Some? && m.headers.retryAt.value > now {
        Defer(p, o, m.headers.retryAt.value);
        return None;
      }
      if ServiceOf(m) !in config.services {
        sent := GiveUp(p, o, m, published, accepted);
        return;
      }
      if m.value in config.undecodable {
        sent := GiveUp(p, o, m, published, accepted);
        return;
      }
      sent := Release(p, o, m, published, accepted);
    }

    /** The loop, over whatever the polls bring: the worker's state is the scheduler's after that run,
        and the paused partitions are exactly the deferred ones. */
    method Run(log: Topic, turns: seq<Turn>)
      requires Mirrors(IDLE)
      modifies this
      ensures Mirrors(Exec(config, log, turns)) && paused == deferred.Keys
    {
      for i := 0 to |turns|
        invariant Mirrors(Exec(config, log, turns[..i]))
      {
        ghost var s := Exec(config, log, turns[..i]);
        assert turns[..i + 1][..i] == turns[..i];
        Iterate(log, turns[i], s);
      }
      assert turns[..|turns|] == turns;
    }

    method Iterate(log: Topic, turn: Turn, ghost s: State)
      requires Mirrors(s)
      modifies this
      ensures Mirrors(Turned(config, log, s, turn))
    {
      ResumeDue(turn.now);
      ghost var r := Resumed(s, turn);
      match turn.poll {
        case Nothing =>
        case Errored =>
        case Revoked(ps) => OnRevoke(ps);
        case Assigned(ps) =>
          // The client starts a new partition at its committed offset.
          position := (map p | p in ps && p < |log| :: At(committed, p)) + position;
        case Got(p, o, published, accepted) =>
          if && p in position && p !in paused && p < |log| && o < |log[p]|
             && log[p][o].Stored? && Holes(log[p], position[p], o)
          {
            position := position[p := o + 1];
            var sent := HandleMessage(p, o, log[p][o].message, turn.later, published, accepted, r);
          }
      }
    }
  }
}
