/** The consume loop under at_least_once and state_first, as the program runs it: a store, a read
    position and a committed offset changed one after the other. Every path through one message is
    a run of the step relation in AtLeastOnce, so what holds at every point of every run holds at
    every point of this loop. */
module Runtime {
  import opened Events
  import opened Folds
  import opened Histories
  import opened Changelog
  import opened LocalStore
  import Loop = AtLeastOnce

  /** What the environment decides while one message is handled. */
  datatype Fate = Fate(
    handlerSucceeds: bool,
    copyAcknowledged: bool,      // the retry or dead-letter publication, if one is made
    reports: seq<Report>,        // delivery reports that arrive before flush times out
    closing: seq<Report>,        // those that arrive while a process that gave up is shutting down
    commitAccepted: bool)

  function Settles(fate: Fate): Loop.Action {
    if fate.commitAccepted then Loop.Commit else Loop.RejectCommit
  }

  function ReportStep(r: Report): Loop.Action { if r.Acknowledged? then Loop.Land else Loop.LoseRecord }

  function ReportSteps(reports: seq<Report>): seq<Loop.Action> {
    if reports == [] then [] else [ReportStep(reports[0])] + ReportSteps(reports[1..])
  }

  function Least(a: nat, b: nat): nat { if a < b then a else b }

  /** Save, wait for everything in flight, commit; or, when flush times out, stop: shutting down flushes
      once more, and no offset is committed any more. */
  function SavePath(inFlight: nat, fate: Fate): seq<Loop.Action> {
    var due := inFlight + 1;
    if due <= |fate.reports| then [Loop.Save] + ReportSteps(fate.reports[..due]) + [Loop.Flush, Settles(fate)]
    else
      var last := Least(due - |fate.reports|, |fate.closing|);
      [Loop.Save] + ReportSteps(fate.reports) + ReportSteps(fate.closing[..last]) + [Loop.Crash]
  }

  lemma {:induction false} SettledPath(k: nat, fate: Fate, saving: seq<Loop.Action>)
    requires k < |fate.reports| && saving == [Loop.Save] + ReportSteps(fate.reports[..Least(k + 1, |fate.reports|)])
    ensures saving + [Loop.Flush, Settles(fate)] == SavePath(k, fate)
  {
  }

  lemma {:induction false} StoppedPath(k: nat, fate: Fate, saving: seq<Loop.Action>, closing: seq<Loop.Action>)
    requires |fate.reports| <= k && saving == [Loop.Save] + ReportSteps(fate.reports[..Least(k + 1, |fate.reports|)])
    requires closing == ReportSteps(fate.closing[..Least(k + 1 - |fate.reports|, |fate.closing|)]) + [Loop.Crash]
    ensures saving + closing == SavePath(k, fate)
  {
    assert fate.reports[..|fate.reports|] == fate.reports;
  }

  /** The steps the message at the position takes, given its fate. */
  function Path(w: Loop.State, fate: Fate): seq<Loop.Action>
    requires w.position < |w.log|
  {
    match Loop.Current(w)
    case NotOurs => [Loop.PassOver, Settles(fate)]
    case Tombstone(_) => [Loop.Erase, Settles(fate)]
    case Undecodable => RoutePath(fate)
    case Decoded(_) => if fate.handlerSucceeds then [Loop.Handle] + SavePath(|w.inFlight|, fate) else RoutePath(fate)
  }

  function RoutePath(fate: Fate): seq<Loop.Action> {
    if fate.copyAcknowledged then [Loop.RouteAway, Settles(fate)] else [Loop.RouteFailed]
  }

  /** Where one turn takes the loop, if it is still up and there is a message. */
  function Turned(w: Loop.State, fate: Fate): Option<Loop.State> {
    if w.phase.Ready? && w.position < |w.log| then Loop.Exec(w, Path(w, fate)) else Some(w)
  }

  /** Where a list of fates takes the loop: one message each, until it stops or runs out of log. */
  function After(w: Loop.State, fates: seq<Fate>): Option<Loop.State> {
    if fates == [] then Some(w)
    else
      var before := After(w, fates[..|fates| - 1]);
      if before.None? then None else Turned(before.value, fates[|fates| - 1])
  }

  lemma {:induction false} AfterOne(w: Loop.State, fates: seq<Fate>, i: nat, t: Loop.State)
    requires i < |fates| && After(w, fates[..i]) == Some(t)
    ensures After(w, fates[..i + 1]) == Turned(t, fates[i])
  {
    assert fates[..i + 1][..i] == fates[..i];
  }

  /** So wherever the loop gets to is a run of the step relation. */
  lemma {:induction false} LoopIsARun(w: Loop.State, fates: seq<Fate>, t: Loop.State) returns (acts: seq<Loop.Action>)
    requires After(w, fates) == Some(t)
    ensures Loop.Exec(w, acts) == Some(t)
  {
    acts := [];
    if fates != [] {
      var before, fate := After(w, fates[..|fates| - 1]).value, fates[|fates| - 1];
      acts := LoopIsARun(w, fates[..|fates| - 1], before);
      if before.phase.Ready? && before.position < |before.log| {
        Loop.ExecConcat(w, acts, before, Path(before, fate), t);
        acts := acts + Path(before, fate);
      }
    }
  }

  lemma {:induction false} TwoRun(w: Loop.State, a: Loop.Action, b: Loop.Action)
    requires Loop.Enabled(w, a) && Loop.Enabled(Loop.Do(w, a), b)
    ensures Loop.Exec(w, [a, b]) == Some(Loop.Do(Loop.Do(w, a), b))
  {
    Loop.ExecOne(w, a);
    Loop.ExecAppend(w, [a], Loop.Do(w, a), b);
    assert [a] + [b] == [a, b];
  }

  lemma {:induction false} ElsewhereKept<V>(m: map<nat, V>, p: nat, v: V)
    ensures m[p := v] - {p} == m - {p}
  {
  }

  // ---- Delivery reports as steps ----

  /** Only this partition's records are in the producer's queue. */
  predicate Only(queue: Queue, p: nat) { |InFlight(queue, p)| == |queue| }

  lemma {:induction false} InFlightFits(queue: Queue, p: nat)
    ensures |InFlight(queue, p)| <= |queue|
  {
    if queue != [] { InFlightFits(queue[..|queue| - 1], p); }
  }

  lemma {:induction false} OnlyAppend(queue: Queue, w: Write, p: nat)
    requires Only(queue, p)
    ensures Only(queue + [(p, w)], p) && InFlight(queue + [(p, w)], p) == InFlight(queue, p) + [w]
  {
    InFlightAppend(queue, (p, w), p);
  }

  lemma {:induction false} OnlyRest(queue: Queue, p: nat)
    requires Only(queue, p) && queue != []
    ensures queue[0].0 == p && Only(queue[1..], p) && InFlight(queue, p) == [queue[0].1] + InFlight(queue[1..], p)
  {
    InFlightHead(queue, p);
    InFlightFits(queue[1..], p);
  }

  lemma {:induction false} OnlyDrop(queue: Queue, p: nat, n: nat)
    requires Only(queue, p) && n <= |queue|
    ensures Only(queue[n..], p)
  {
    if n > 0 {
      OnlyRest(queue, p);
      OnlyDrop(queue[1..], p, n - 1);
      assert queue[1..][n - 1..] == queue[n..];
    } else {
      assert queue[0..] == queue;
    }
  }

  lemma {:induction false} LandingElsewhere(log: seq<Stamped>, queue: Queue, reports: seq<Report>, p: nat, q: nat)
    requires Only(queue, p) && q != p
    ensures Landing(log, queue, reports, q) == log
    decreases |queue|
  {
    if queue != [] && reports != [] {
      OnlyRest(queue, p);
      LandingElsewhere(log, queue[1..], reports[1..], p, q);
    }
  }

  /** Nothing but the records in flight, the changelog and the history has changed. */
  predicate OnlyReported(w: Loop.State, t: Loop.State) {
    && t.order == w.order && t.log == w.log && t.committed == w.committed && t.position == w.position
    && t.store == w.store && t.phase == w.phase && t.alarms == w.alarms
  }

  /** As many reports as there are records in flight, or as arrive: each is a step of the relation. */
  lemma {:induction false} ReportRun(w: Loop.State, log: seq<Stamped>, queue: Queue, reports: seq<Report>, p: nat)
    returns (t: Loop.State)
    requires Only(queue, p) && w.inFlight == InFlight(queue, p) && w.changelog == Writes(log)
    ensures Loop.Exec(w, ReportSteps(reports[..Settled(queue, reports)])) == Some(t) && OnlyReported(w, t)
    ensures t.inFlight == InFlight(queue[Settled(queue, reports)..], p)
    ensures t.changelog == Writes(Landing(log, queue, reports, p))
    decreases |queue|
  {
    var n := Settled(queue, reports);
    if n == 0 {
      t := w;
      assert queue[0..] == queue && reports[..0] == [];
    } else {
      var step := ReportStep(reports[0]);
      var first := Loop.Do(w, step);
      ReportOne(w, log, queue, reports[0], p);
      OnlyRest(queue, p);
      assert Settled(queue[1..], reports[1..]) == n - 1;
      t := ReportRun(first, Landed(log, queue[0], reports[0], p), queue[1..], reports[1..], p);
      StepsHead(w, first, reports, n, t);
      assert queue[1..][n - 1..] == queue[n..];
    }
  }

  lemma {:induction false} StepsHead(w: Loop.State, first: Loop.State, reports: seq<Report>, n: nat, t: Loop.State)
    requires 0 < n <= |reports| && Loop.Enabled(w, ReportStep(reports[0])) &&
             first == Loop.Do(w, ReportStep(reports[0]))
    requires Loop.Exec(first, ReportSteps(reports[1..][..n - 1])) == Some(t)
    ensures Loop.Exec(w, ReportSteps(reports[..n])) == Some(t)
  {
    var step := ReportStep(reports[0]);
    Loop.ExecOne(w, step);
    Loop.ExecConcat(w, [step], first, ReportSteps(reports[1..][..n - 1]), t);
    assert reports[..n][0] == reports[0] && reports[..n][1..] == reports[1..][..n - 1];
  }

  lemma {:induction false} ReportOne(w: Loop.State, log: seq<Stamped>, queue: Queue, r: Report, p: nat)
    requires queue != [] && Only(queue, p) && w.inFlight == InFlight(queue, p) && w.changelog == Writes(log)
    ensures Loop.Enabled(w, ReportStep(r))
    ensures var t := Loop.Do(w, ReportStep(r));
            OnlyReported(w, t) && t.inFlight == InFlight(queue[1..], p) &&
                t.changelog == Writes(Landed(log, queue[0], r, p))
  {
    OnlyRest(queue, p);
    if r.Acknowledged? {
      assert Writes(log + [Stamped(r.offset, queue[0].1)]) == Writes(log) + [queue[0].1];
    }
  }

  /** What the relation's state says of the loop's fields for one partition. */
  datatype View = View(
    log: seq<Loop.Message>, position: nat, committed: nat, store: Store, changelog: seq<Write>, inFlight: seq<Write>)

  function ViewOf(w: Loop.State): View { View(w.log, w.position, w.committed, w.store, w.changelog, w.inFlight) }

  class ServiceConsumer {
    const store: LocalStateStore
    var log: map<nat, seq<Loop.Message>>      // the lifecycle topic, by partition
    var read: map<nat, nat>
    var committed: map<nat, nat>
    var alarms: seq<Violation>

    ghost predicate Holds(p: nat)
      reads this, store
    {
      p in store.stores && p in log && p in read && p in committed
    }

    ghost function Here(p: nat): View
      requires Holds(p)
      reads this, store
    {
      View(log[p], read[p], committed[p], store.stores[p], Writes(store.LogOf(p)), InFlight(store.queue, p))
    }

    /** The loop's fields agree with a state of the step relation, apart from its phase. */
    ghost predicate Mirrors(p: nat, w: Loop.State)
      reads this, store
    {
      Holds(p) && w.order.StateFirst? && Here(p) == ViewOf(w)
    }

    /** Between two messages: the partition's loop is ready, with perhaps its tombstones in flight. */
    ghost predicate Between(p: nat, w: Loop.State)
      reads this, store
    {
      store.Valid() && Only(store.queue, p) && Mirrors(p, w) && w.phase.Ready?
    }

    /** Nothing was done to any other partition. */
    twostate predicate OthersKept(p: nat)
      reads this, store
    {
      && read - {p} == old(read) - {p}
      && committed - {p} == old(committed) - {p}
      && store.stores - {p} == old(store.stores) - {p}
      && forall q :: q != p ==> store.LogOf(q) == old(store.LogOf(q))
    }

    constructor (store: LocalStateStore)
      ensures this.store == store && log == map[] && read == map[] && committed == map[] && alarms == []
    {
      this.store := store;
      log, read, committed, alarms := map[], map[], map[], [];
    }

    method Commit(p: nat, offset: nat, accepted: bool, ghost w: Loop.State) returns (ghost a: Loop.Action)
      requires Mirrors(p, w) && (w.phase.Flushed? || w.phase.Moved?) && Loop.SettledOffset(w) == offset
      modifies this`committed
      ensures Loop.Enabled(w, a) && Mirrors(p, Loop.Do(w, a)) && Loop.Do(w, a).phase.Ready?
      ensures committed == if accepted then old(committed)[p := offset + 1] else old(committed)
      ensures a == if accepted then Loop.Commit else Loop.RejectCommit
    {
      if accepted { committed := committed[p := offset + 1]; }
      a := if accepted then Loop.Commit else Loop.RejectCommit;
    }

    /** Writes the fold locally and enqueues it. */
    method SaveFold(p: nat, e: Event, fold: OrderFold, ghost w: Loop.State) returns (applied: bool)
      requires store.Valid() && Only(store.queue, p) && Mirrors(p, w)
      requires w.phase.Ran? && w.phase.d.event == e
      requires fold == ApplyEvent(FoldOf(Get(store.stores[p], e.orderId)), e).0
      modifies store`stores, store`queue
      ensures store.Valid() && Only(store.queue, p) && |store.queue| == |old(store.queue)| + 1
      ensures Mirrors(p, Loop.Do(w, Loop.Save))
      ensures applied <==> !Redelivered(Get(old(store.stores)[p], e.orderId), e)
      ensures OthersKept(p)
    {
      var outcome := store.Save(p, e.orderId, fold, e.eventId);
      OnlyAppend(old(store.queue), Write(e.orderId, Some(outcome.record)), p);
      ElsewhereKept(old(store.stores), p, store.stores[p]);
      GuardsDisagree(Get(old(store.stores)[p], e.orderId), e);
      applied := outcome.applied;
    }

    /** Waits for everything enqueued; false when too few reports arrive in time. */
    method FlushAll(p: nat, reports: seq<Report>, ghost w: Loop.State)
      returns (ok: bool, ghost acts: seq<Loop.Action>, ghost t: Loop.State)
      requires store.Valid() && Only(store.queue, p) && Mirrors(p, w)
      modifies store`queue, store`position, store`changelog, store`errors
      ensures OthersKept(p)
      ensures acts == ReportSteps(reports[..Settled(old(store.queue), reports)])
      ensures Loop.Exec(w, acts) == Some(t) && OnlyReported(w, t)
      ensures store.Valid() && Only(store.queue, p) && Mirrors(p, t)
      ensures store.queue == old(store.queue)[Settled(old(store.queue), reports)..] && (ok <==> store.queue == [])
    {
      ghost var queue, log := store.queue, store.LogOf(p);
      t := ReportRun(w, log, queue, reports, p);
      acts := ReportSteps(reports[..Settled(queue, reports)]);
      ok := store.Flush(reports);
      OnlyDrop(queue, p, Settled(queue, reports));
      forall q | q != p ensures store.LogOf(q) == old(store.LogOf(q)) {
        LandingElsewhere(old(store.LogOf(q)), queue, reports, p, q);
      }
    }

    /** Flush timed out: the process stops. Closing the store flushes once more, so records may still
        land, but no offset is committed any more. */
    method ShutDown(p: nat, closing: seq<Report>, ghost w: Loop.State)
      returns (ghost acts: seq<Loop.Action>, ghost t: Loop.State)
      requires store.Valid() && Only(store.queue, p) && Mirrors(p, w) && w.phase.Saved?
      modifies store`queue, store`position, store`changelog, store`errors
      ensures OthersKept(p)
      ensures acts == ReportSteps(closing[..Settled(old(store.queue), closing)]) + [Loop.Crash]
      ensures Loop.Exec(w, acts) == Some(t) && t.phase.Down? && t.alarms == w.alarms && t.committed == w.committed
    {
      var _, reported, u := FlushAll(p, closing, w);
      Loop.ExecAppend(w, reported, u, Loop.Crash);
      acts, t := reported + [Loop.Crash], Loop.Do(u, Loop.Crash);
    }

    /** Persists the fold: the local write, then the changelog. */
    method SaveAndFlush(p: nat, e: Event, fold: OrderFold, reports: seq<Report>, ghost w: Loop.State)
      returns (ok: bool, ghost acts: seq<Loop.Action>, ghost t: Loop.State)
      requires store.Valid() && Only(store.queue, p) && Mirrors(p, w)
      requires w.phase.Ran? && w.phase.d.event == e
      requires fold == ApplyEvent(FoldOf(Get(store.stores[p], e.orderId)), e).0
      modifies store
      ensures OthersKept(p)
      ensures var n := Least(|old(store.queue)| + 1, |reports|);
              acts == [Loop.Save] + ReportSteps(reports[..n]) && |store.queue| == |old(store.queue)| + 1 - n
      ensures ok <==> store.queue == []
      ensures Loop.Exec(w, acts) == Some(t) && t.alarms == w.alarms && t.phase == Loop.Saved(w.phase.d)
      ensures store.Valid() && Only(store.queue, p) && Mirrors(p, t)
    {
      var _ := SaveFold(p, e, fold, w);
      ghost var saved := Loop.Do(w, Loop.Save);
      Loop.ExecOne(w, Loop.Save);
      ghost var reported;
      ok, reported, t := FlushAll(p, reports, saved);
      Loop.ExecConcat(w, [Loop.Save], saved, reported, t);
      acts := [Loop.Save] + reported;
    }

    /** Flush returned with nothing left in flight: commit. */
    method SettleFold(p: nat, fate: Fate, ghost w: Loop.State) returns (ghost t: Loop.State)
      requires store.Valid() && store.queue == [] && Mirrors(p, w)
      requires w.phase.Saved? && w.phase.d.offset + 1 == read[p]
      modifies this`committed
      ensures Loop.Exec(w, [Loop.Flush, Settles(fate)]) == Some(t) && t.alarms == w.alarms && Between(p, t)
      ensures committed == if fate.commitAccepted then old(committed)[p := read[p]] else old(committed)
    {
      ghost var flushed := Loop.Do(w, Loop.Flush);
      ghost var a := Commit(p, read[p] - 1, fate.commitAccepted, flushed);
      TwoRun(w, Loop.Flush, a);
      t := Loop.Do(flushed, a);
    }

    /** Persists the fold, then commits. When the flush times out the process stops. */
    method PersistAndCommit(p: nat, e: Event, fold: OrderFold, fate: Fate, ghost w: Loop.State)
      returns (stopped: bool, ghost t: Loop.State)
      requires store.Valid() && Only(store.queue, p) && Mirrors(p, w)
      requires w.phase.Ran? && w.phase.d.offset + 1 == read[p] && w.phase.d.event == e
      requires fold == ApplyEvent(FoldOf(Get(store.stores[p], e.orderId)), e).0
      modifies this`committed, store
      ensures Loop.Exec(w, SavePath(|w.inFlight|, fate)) == Some(t) && t.alarms == w.alarms && OthersKept(p)
      ensures stopped <==> |fate.reports| <= |w.inFlight|
      ensures if stopped then t.phase.Down? else Between(p, t)
      ensures committed == if !stopped && fate.commitAccepted then old(committed)[p := read[p]] else old(committed)
    {
      ghost var saving, u;
      ghost var k := |store.queue|;
      var ok;
      ok, saving, u := SaveAndFlush(p, e, fold, fate.reports, w);
      stopped := !ok;
      if ok {
        t := SettleFold(p, fate, u);
        Loop.ExecConcat(w, saving, u, [Loop.Flush, Settles(fate)], t);
        SettledPath(k, fate, saving);
        ElsewhereKept(old(committed), p, read[p]);
      } else {
        ghost var closing;
        closing, t := ShutDown(p, fate.closing, u);
        Loop.ExecConcat(w, saving, u, closing, t);
        StoppedPath(k, fate, saving, closing);
      }
    }

    /** Moves a failed message elsewhere and commits, or leaves it to be read again. */
    method RouteFailure(p: nat, fate: Fate, ghost w: Loop.State)
      returns (ghost t: Loop.State)
      requires Between(p, w) && read[p] < |log[p]| && Loop.Routable(log[p][read[p]])
      modifies this`read, this`committed
      ensures Loop.Exec(w, RoutePath(fate)) == Some(t) && Between(p, t)
      ensures t.alarms == w.alarms + Loop.Reported(w, log[p][old(read[p])])
      ensures read == if fate.copyAcknowledged then old(read)[p := old(read[p]) + 1] else old(read)
      ensures committed == if fate.copyAcknowledged && fate.commitAccepted
                           then old(committed)[p := old(read[p]) + 1] else old(committed)
    {
      if !fate.copyAcknowledged {
        Loop.ExecOne(w, Loop.RouteFailed);
        return Loop.Do(w, Loop.RouteFailed);
      }
      var offset := read[p];
      read := read[p := offset + 1];
      ghost var moved := Loop.Do(w, Loop.RouteAway);
      ghost var a := Commit(p, offset, fate.commitAccepted, moved);
      TwoRun(w, Loop.RouteAway, a);
      return Loop.Do(moved, a);
    }

    /** A retry addressed to another service: commit and move on. */
    method PassOver(p: nat, fate: Fate, ghost w: Loop.State)
      returns (ghost t: Loop.State)
      requires Between(p, w) && read[p] < |log[p]| && log[p][read[p]].NotOurs?
      modifies this`read, this`committed
      ensures Loop.Exec(w, [Loop.PassOver, Settles(fate)]) == Some(t) && Between(p, t) && t.alarms == w.alarms
      ensures read == old(read)[p := old(read[p]) + 1]
      ensures committed == if fate.commitAccepted then old(committed)[p := old(read[p]) + 1] else old(committed)
    {
      var offset := read[p];
      read := read[p := offset + 1];
      ghost var passed := Loop.Do(w, Loop.PassOver);
      ghost var a := Commit(p, offset, fate.commitAccepted, passed);
      TwoRun(w, Loop.PassOver, a);
      return Loop.Do(passed, a);
    }

    /** Erases the order locally and enqueues its tombstone. */
    method EraseOrder(p: nat, ghost w: Loop.State) returns (existed: bool)
      requires Between(p, w) && read[p] < |log[p]| && log[p][read[p]].Tombstone?
      modifies this`read, store`stores, store`queue
      ensures store.Valid() && Only(store.queue, p) && Mirrors(p, Loop.Do(w, Loop.Erase)) && OthersKept(p)
      ensures read == old(read)[p := old(read[p]) + 1]
      ensures var id := log[p][old(read[p])].orderId;
              store.queue == old(store.queue) + [(p, Write(id, None))] && (existed <==> id in old(store.stores)[p])
    {
      var id := log[p][read[p]].orderId;
      existed := store.Delete(p, id);
      OnlyAppend(old(store.queue), Write(id, None), p);
      ElsewhereKept(old(store.stores), p, store.stores[p]);
      ElsewhereKept(read, p, read[p] + 1);
      read := read[p := read[p] + 1];
    }

    /** A tombstone: the offset is committed at once, with the tombstone still in flight. */
    method HandleTombstone(p: nat, fate: Fate, ghost w: Loop.State)
      returns (existed: bool, ghost t: Loop.State)
      requires Between(p, w) && read[p] < |log[p]| && log[p][read[p]].Tombstone?
      modifies this`read, this`committed, store`stores, store`queue
      ensures Loop.Exec(w, [Loop.Erase, Settles(fate)]) == Some(t) && t.alarms == w.alarms
      ensures Between(p, t) && OthersKept(p)
      ensures var id := log[p][old(read[p])].orderId;
              store.queue == old(store.queue) + [(p, Write(id, None))] && (existed <==> id in old(store.stores)[p])
      ensures committed == if fate.commitAccepted then old(committed)[p := old(read[p]) + 1] else old(committed)
    {
      var offset := read[p];
      ghost var erased := Loop.Do(w, Loop.Erase);
      existed := EraseOrder(p, w);
      ghost var a := Commit(p, offset, fate.commitAccepted, erased);
      TwoRun(w, Loop.Erase, a);
      t := Loop.Do(erased, a);
    }

    /** Compares an event with the stored fold and logs what is wrong, unless it is a repeat. */
    method ReportViolations(p: nat, e: Event) returns (updated: OrderFold)
      requires p in store.stores
      modifies this`alarms
      ensures updated == ApplyEvent(FoldOf(Get(store.stores[p], e.orderId)), e).0
      ensures alarms == old(alarms) + Alarms(Get(store.stores[p], e.orderId), e)
    {
      var current := store.Load(p, e.orderId);
      var redelivered := current.Some? && e.sequence <= current.value.lastSequence;
      var (fold, violations) := ApplyEvent(current, e);
      if !redelivered { alarms := alarms + violations; }
      return fold;
    }

    /** The path of a message whose handler succeeded. */
    method FoldMessage(p: nat, e: Event, updated: OrderFold, fate: Fate, ghost w: Loop.State)
      returns (stopped: bool, ghost t: Loop.State)
      requires Between(p, w) && read[p] < |log[p]| && log[p][read[p]] == Loop.Decoded(e)
      requires updated == ApplyEvent(FoldOf(Get(store.stores[p], e.orderId)), e).0 && fate.handlerSucceeds
      modifies this`read, this`committed, store
      ensures Loop.Exec(w, Path(w, fate)) == Some(t) && OthersKept(p)
      ensures t.alarms == w.alarms + Loop.Reported(w, Loop.Decoded(e))
      ensures if stopped then t.phase.Down? else Between(p, t)
      ensures stopped <==> |fate.reports| <= |w.inFlight|
      ensures read == old(read)[p := old(read[p]) + 1]
      ensures committed == if !stopped && fate.commitAccepted then old(committed)[p := read[p]] else old(committed)
    {
      ElsewhereKept(read, p, read[p] + 1);
      read := read[p := read[p] + 1];
      Loop.ExecOne(w, Loop.Handle);
      ghost var ran := Loop.Do(w, Loop.Handle);
      stopped, t := PersistAndCommit(p, e, updated, fate, ran);
      Loop.ExecConcat(w, [Loop.Handle], ran, SavePath(|w.inFlight|, fate), t);
    }

    /** An event: compare it with what is stored, run the handler, and fold it or send it elsewhere. */
    method HandleEvent(p: nat, e: Event, fate: Fate, ghost w: Loop.State)
      returns (stopped: bool, ghost t: Loop.State)
      requires Between(p, w) && read[p] < |log[p]| && log[p][read[p]] == Loop.Decoded(e)
      modifies this`read, this`committed, this`alarms, store
      ensures Loop.Exec(w, Path(w, fate)) == Some(t)
      ensures if stopped then t.phase.Down? else Between(p, t)
      ensures var reported := Loop.Reported(w, Loop.Decoded(e));
              alarms == old(alarms) + reported && t.alarms == w.alarms + reported
      ensures OthersKept(p)
    {
      var updated := ReportViolations(p, e);
      if fate.handlerSucceeds {
        stopped, t := FoldMessage(p, e, updated, fate, w);
      } else {
        stopped := false;
        t := RouteFailure(p, fate, w);
      }
    }

    /** One message: skip it, fold it, or send it elsewhere, then settle its offset. */
    method HandleMessage(p: nat, fate: Fate, ghost w: Loop.State)
      returns (stopped: bool, ghost t: Loop.State)
      requires Between(p, w) && read[p] < |log[p]|
      modifies this`read, this`committed, this`alarms, store
      ensures Loop.Exec(w, Path(w, fate)) == Some(t)
      ensures if stopped then t.phase.Down? else Between(p, t)
      ensures var reported := Loop.Reported(w, log[p][old(read[p])]);
              alarms == old(alarms) + reported && t.alarms == w.alarms + reported
      ensures OthersKept(p)
    {
      stopped := false;
      var message := log[p][read[p]];
      if message.NotOurs? {
        t := PassOver(p, fate, w);
      } else if message.Tombstone? {
        var existed;
        existed, t := HandleTombstone(p, fate, w);
      } else if message.Undecodable? {
        t := RouteFailure(p, fate, w);
      } else {
        stopped, t := HandleEvent(p, message.event, fate, w);
      }
    }

    /** One turn of the loop: nothing, when the log has been read to its end. */
    method Turn(p: nat, fate: Fate, ghost w: Loop.State) returns (stopped: bool, ghost t: Loop.State)
      requires Between(p, w)
      modifies this`read, this`committed, this`alarms, store
      ensures Turned(w, fate) == Some(t)
      ensures if stopped then t.phase.Down? else Between(p, t)
    {
      stopped, t := false, w;
      if read[p] < |log[p]| { stopped, t := HandleMessage(p, fate, w); }
    }

    /** The poll loop over one held partition: one fate for each message it gets to. */
    method Run(p: nat, fates: seq<Fate>, ghost w: Loop.State) returns (stopped: bool, ghost t: Loop.State)
      requires Between(p, w)
      modifies this`read, this`committed, this`alarms, store
      ensures After(w, fates) == Some(t)
      ensures if stopped then t.phase.Down? else Between(p, t)
    {
      stopped, t := false, w;
      for i := 0 to |fates|
        invariant After(w, fates[..i]) == Some(t)
        invariant if stopped then t.phase.Down? else Between(p, t)
      {
        AfterOne(w, fates, i, t);
        if !stopped { stopped, t := Turn(p, fates[i], t); }
      }
      assert fates[..|fates|] == fates;
    }
  }
}
