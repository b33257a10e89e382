/** The durable store: one local map for each held partition, every mutation also enqueued for a
    compacted changelog, and delivery reports arriving later. */
module LocalStore {
  import opened Events
  import opened Maps
  import opened Folds
  import opened Histories
  import opened Changelog
  import opened Checkpoints

  datatype RebuildMode = Full | Checkpoint

  /** What the broker said about one enqueued record. */
  datatype Report = Acknowledged(offset: nat) | Errored

  type Queue = seq<(nat, Write)>

  /** The enqueued writes of one partition, oldest first. */
  function InFlight(queue: Queue, p: nat): seq<Write> {
    if queue == [] then []
    else
      var rest := InFlight(queue[..|queue| - 1], p);
      if queue[|queue| - 1].0 == p then rest + [queue[|queue| - 1].1] else rest
  }

  lemma {:induction false} InFlightAppend(queue: Queue, item: (nat, Write), p: nat)
    ensures InFlight(queue + [item], p) == InFlight(queue, p) + (if item.0 == p then [item.1] else [])
  {
    assert (queue + [item])[..|queue|] == queue;
  }

  lemma {:induction false} InFlightHead(queue: Queue, p: nat)
    requires queue != []
    ensures InFlight(queue, p) == (if queue[0].0 == p then [queue[0].1] else []) + InFlight(queue[1..], p)
  {
    var init, last := queue[..|queue| - 1], queue[|queue| - 1];
    if init == [] {
      assert queue[1..] == [] && InFlight(init, p) == [];
    } else {
      InFlightHead(init, p);
      assert init[1..] + [last] == queue[1..];
      InFlightAppend(init[1..], last, p);
    }
  }

  /** A partition's changelog after the broker has reported on the head of the queue, record by
      record, for as long as there are reports. */
  function Landing(log: seq<Stamped>, queue: Queue, reports: seq<Report>, p: nat): seq<Stamped>
    decreases |queue|
  {
    if queue == [] || reports == [] then log
    else Landing(Landed(log, queue[0], reports[0], p), queue[1..], reports[1..], p)
  }

  function Landed(log: seq<Stamped>, item: (nat, Write), r: Report, p: nat): seq<Stamped> {
    if item.0 == p && r.Acknowledged? then log + [Stamped(r.offset, item.1)] else log
  }

  /** A store together with what is still in flight for it. */
  ghost predicate InStep(store: Store, log: seq<Stamped>, queue: Queue, p: nat) {
    store == Replay(Rebuild(map[], log), InFlight(queue, p))
  }

  lemma {:induction false} EnqueueKeepsStep(store: Store, log: seq<Stamped>, queue: Queue, p: nat, w: Write)
    requires InStep(store, log, queue, p)
    ensures InStep(Apply(store, w), log, queue + [(p, w)], p)
  {
    InFlightAppend(queue, (p, w), p);
    ReplayAppend(Rebuild(map[], log), InFlight(queue, p), w);
  }

  lemma {:induction false} AckKeepsStep(store: Store, log: seq<Stamped>, queue: Queue, p: nat, offset: nat)
    requires queue != [] && InStep(store, log, queue, p)
    ensures InStep(store, Landed(log, queue[0], Acknowledged(offset), p), queue[1..], p)
  {
    InFlightHead(queue, p);
    if queue[0].0 == p {
      LandKeepsDisk(log, InFlight(queue, p), offset);
      assert InFlight(queue, p)[1..] == InFlight(queue[1..], p);
    } else {
      assert InFlight(queue, p) == InFlight(queue[1..], p);
    }
  }

  /** A changelog partition; one never written to is empty. */
  function LogIn(logs: map<nat, seq<Stamped>>, p: nat): seq<Stamped> { if p in logs then logs[p] else [] }

  ghost predicate AllInStep(stores: map<nat, Store>, logs: map<nat, seq<Stamped>>, queue: Queue) {
    forall p :: p in stores ==> InStep(stores[p], LogIn(logs, p), queue, p)
  }

  lemma {:induction false} EnqueueKeepsAll(
    stores: map<nat, Store>, logs: map<nat, seq<Stamped>>, queue: Queue, p: nat, w: Write)
    requires AllInStep(stores, logs, queue) && p in stores
    ensures AllInStep(stores[p := Apply(stores[p], w)], logs, queue + [(p, w)])
  {
    var after := stores[p := Apply(stores[p], w)];
    EnqueueKeepsStep(stores[p], LogIn(logs, p), queue, p, w);
    forall q | q in after ensures InStep(after[q], LogIn(logs, q), queue + [(p, w)], q) {
      if q != p { InFlightAppend(queue, (p, w), q); }
    }
  }

  lemma {:induction false} AckKeepsAll(
    stores: map<nat, Store>, logs: map<nat, seq<Stamped>>, queue: Queue, offset: nat)
    requires queue != [] && AllInStep(stores, logs, queue)
    ensures var (p, w) := queue[0];
            AllInStep(stores, logs[p := LogIn(logs, p) + [Stamped(offset, w)]], queue[1..])
  {
    var (p, w) := queue[0];
    var after := logs[p := LogIn(logs, p) + [Stamped(offset, w)]];
    forall q | q in stores ensures InStep(stores[q], LogIn(after, q), queue[1..], q) {
      AckKeepsStep(stores[q], LogIn(logs, q), queue, q, offset);
    }
  }

  lemma {:induction false} FromIsOrdered(log: seq<Stamped>, c: nat)
    requires Ordered(log)
    ensures Ordered(From(log, c)) && forall r :: r in From(log, c) ==> c <= r.offset && r in log
  {
    var m := Below(log, c);
    forall i | m <= i < |log| ensures c <= log[i].offset { }
  }

  /** The reader hands over the partition's records from the start offset on, none past the watermark. */
  ghost predicate Hands(log: seq<Stamped>, polls: seq<Poll>, start: nat, high: nat) {
    Ordered(log) && (forall q :: q in log ==> q.offset < high) && HandedOver(polls) <= From(log, start)
  }

  /** Reads a partition from an offset to a watermark that nothing lies beyond. */
  method DrainFrom(initial: Store, ghost log: seq<Stamped>, polls: seq<Poll>, start: nat, high: nat)
    returns (r: Restored)
    requires Hands(log, polls, start, high)
    ensures r.Restored? <==> Arrives(polls, 0, start, high)
    ensures r.Restored? ==> r.store == Resumed(initial, log, start) && r.records == |From(log, start)|
  {
    ghost var tail := From(log, start);
    FromIsOrdered(log, start);
    r := Drain(initial, tail, polls, start, high);
    if r.Restored? {
      assert tail != [] ==> tail[|tail| - 1] in log && tail[|tail| - 1].offset < high;
      assert r.records == |tail|;
      assert tail[..r.records] == tail;
    }
  }

  /** How many of the first n reports carry an error. */
  function ErrorCount(reports: seq<Report>, n: nat): nat
    requires n <= |reports|
  {
    if n == 0 then 0 else ErrorCount(reports, n - 1) + if reports[n - 1].Errored? then 1 else 0
  }

  lemma {:induction false} NoErrors(reports: seq<Report>, n: nat)
    requires n <= |reports| && forall r :: r in reports ==> r.Acknowledged?
    ensures ErrorCount(reports, n) == 0
  {
    if n > 0 {
      NoErrors(reports, n - 1);
      assert reports[n - 1] in reports;
    }
  }

  /** How many records of a queue the reports are about. */
  function Settled(queue: Queue, reports: seq<Report>): nat {
    if |queue| < |reports| then |queue| else |reports|
  }

  /** A position moved by the records a log has gained: no further than one past some one of them, and past
      all of them. */
  ghost predicate Advanced(before: nat, was: seq<Stamped>, log: seq<Stamped>, after: nat) {
    && was <= log && before <= after
    && (forall i :: |was| <= i < |log| ==> log[i].offset < after)
    && (before < after ==> exists i :: |was| <= i < |log| && after == log[i].offset + 1)
  }

  /** Where the same reports take a partition's position. */
  function Reach(at: nat, queue: Queue, reports: seq<Report>, p: nat): nat
    decreases |queue|
  {
    if queue == [] || reports == [] then at
    else Reach(Reached(at, queue[0], reports[0], p), queue[1..], reports[1..], p)
  }

  function Reached(at: nat, item: (nat, Write), r: Report, p: nat): nat {
    if item.0 == p && r.Acknowledged? && at < r.offset + 1 then r.offset + 1 else at
  }

  lemma {:induction false} ReachAdvances(
    before: nat, was: seq<Stamped>, log: seq<Stamped>, at: nat, queue: Queue, reports: seq<Report>, p: nat)
    requires Advanced(before, was, log, at)
    ensures Advanced(before, was, Landing(log, queue, reports, p), Reach(at, queue, reports, p))
    decreases |queue|
  {
    if queue != [] && reports != [] {
      var item, r := queue[0], reports[0];
      if item.0 == p && r.Acknowledged? { AdvancedOne(before, was, log, at, Stamped(r.offset, item.1)); }
      ReachAdvances(before, was, Landed(log, item, r, p), Reached(at, item, r, p), queue[1..], reports[1..], p);
    }
  }

  lemma {:induction false} AdvancedOne(before: nat, was: seq<Stamped>, log: seq<Stamped>, after: nat, r: Stamped)
    requires Advanced(before, was, log, after)
    ensures Advanced(before, was, log + [r], if after > r.offset + 1 then after else r.offset + 1)
  {
    var longer := log + [r];
    assert longer[|log|] == r;
    if before < after && after > r.offset + 1 {
      var i :| |was| <= i < |log| && after == log[i].offset + 1;
      assert longer[i] == log[i];
    }
  }

  /** Records a broker may yet append to a log: in offset order after it, and none below the given offset. */
  predicate GoesOn(log: seq<Stamped>, more: seq<Stamped>, floor: nat) {
    Ordered(log + more) && forall i :: 0 <= i < |more| ==> floor <= more[i].offset
  }

  /** A store let go with writes still in flight, and its checkpoint: however the log goes on, the store is
      what the log says so far with those writes on top, and the checkpoint passes nothing to come. */
  ghost predicate Resumable(log: seq<Stamped>, disk: Store, left: seq<Write>, c: nat, floor: nat) {
    forall more :: GoesOn(log, more, floor) ==> Abandoned(log + more, disk, |log|, left, c)
  }

  lemma {:induction false} AdvancedIsResumable(
    was: seq<Stamped>, log: seq<Stamped>, disk: Store, queue: Queue, p: nat, floor: nat, c: nat)
    requires Advanced(floor, was, log, c) && InStep(disk, log, queue, p)
    ensures Resumable(log, disk, InFlight(queue, p), c, floor)
  {
    forall more | GoesOn(log, more, floor) ensures Abandoned(log + more, disk, |log|, InFlight(queue, p), c) {
      var full := log + more;
      assert full[..|log|] == log;
      forall i | |log| <= i < |full| ensures c <= full[i].offset {
        assert full[i] == more[i - |log|];
        if floor < c {
          var k :| |was| <= k < |log| && c == log[k].offset + 1;
          assert full[k] == log[k];
        }
      }
    }
  }

  /** So a partition that was let go, written to elsewhere and cleaned, comes back from its checkpoint as the
      whole history says exactly when no key has gone astray. */
  lemma {:induction false} ReleasedResumesIff(
    log: seq<Stamped>, more: seq<Stamped>, actual: seq<Stamped>, disk: Store, left: seq<Write>, c: nat, floor: nat)
    requires Resumable(log, disk, left, c, floor) && GoesOn(log, more, floor)
    requires Ordered(actual) && Faithful(log + more, actual)
    ensures Resumed(disk, actual, c) == Rebuild(map[], log + more) <==>
            forall key :: !Astray(log + more, actual, disk, left, c, key)
  {
    assert Abandoned(log + more, disk, |log|, left, c);
    ResumeAfterLossIff(log + more, actual, disk, |log|, left, c);
  }

  /** When nothing of it was left in flight: exactly when no delete it missed has been cleaned away. */
  lemma {:induction false} FlushedResumesIff(
    log: seq<Stamped>, more: seq<Stamped>, actual: seq<Stamped>, disk: Store, c: nat, floor: nat)
    requires Resumable(log, disk, [], c, floor) && GoesOn(log, more, floor)
    requires Ordered(actual) && Faithful(log + more, actual)
    ensures Kept(log + more, disk, |log|, c)
    ensures Resumed(disk, actual, c) == Rebuild(map[], actual) <==>
            forall key :: !Stale(log + more, actual, disk, key)
  {
    assert Abandoned(log + more, disk, |log|, [], c);
    ResumeIsRebuildIff(log + more, actual, disk, |log|, c);
  }

  class LocalStateStore {
    const mode: RebuildMode
    var stores: map<nat, Store>           // open stores, by held partition
    var disk: map<nat, Store>             // closed directories
    var checkpoints: map<nat, nat>        // the checkpoint files
    var position: map<nat, nat>
    var queue: Queue                      // the producer's buffer
    ghost var changelog: map<nat, seq<Stamped>>  // the broker's partitions
    ghost var errors: nat                 // delivery reports that carried an error: logged only

    ghost function LogOf(p: nat): seq<Stamped> reads this`changelog { LogIn(changelog, p) }

    /** As long as no report carried an error, every open store is its changelog partition followed
        by what is in flight for it. An open store has a position. */
    ghost predicate Valid() reads this {
      && stores.Keys <= position.Keys
      && (errors == 0 ==> AllInStep(stores, changelog, queue))
    }

    constructor (mode: RebuildMode)
      ensures Valid() && stores == map[] && queue == [] && changelog == map[] && errors == 0 && this.mode == mode
    {
      this.mode := mode;
      stores, disk, checkpoints, position, queue := map[], map[], map[], map[], [];
      changelog, errors := map[], 0;
    }

    method Load(p: nat, orderId: string) returns (r: Option<OrderFold>)
      requires p in stores
      ensures r == FoldOf(Get(stores[p], orderId))
    {
      r := if orderId in stores[p] then Some(stores[p][orderId].fold) else None;
    }

    /** Writes one value locally, or erases one, and enqueues the same for the changelog. */
    method Put(p: nat, w: Write)
      requires Valid() && p in stores
      modifies this`stores, this`queue
      ensures Valid()
      ensures stores == old(stores)[p := Apply(old(stores)[p], w)]
      ensures queue == old(queue) + [(p, w)]
    {
      if errors == 0 { EnqueueKeepsAll(stores, changelog, queue, p, w); }
      stores := stores[p := if w.value.Some? then stores[p][w.key := w.value.value] else stores[p] - {w.key}];
      queue := queue + [(p, w)];
    }

    method Save(p: nat, orderId: string, fold: OrderFold, eventId: string) returns (outcome: SaveOutcome)
      requires Valid() && p in stores
      modifies this`stores, this`queue
      ensures Valid()
      ensures outcome == Guarded(Get(old(stores)[p], orderId), fold, eventId)
      ensures stores == old(stores)[p := old(stores)[p][orderId := outcome.record]]
      ensures queue == old(queue) + [(p, Write(orderId, Some(outcome.record)))]
    {
      var previous := if orderId in stores[p] then Some(stores[p][orderId]) else None;
      var previousSequence := if previous.None? then 0 else previous.value.fold.lastSequence;
      var handledCount := if previous.None? then 1 else previous.value.handledCount + 1;
      var applied := fold.lastSequence > previousSequence;
      var record;
      if applied || previous.None? {
        record := Record(fold, eventId, handledCount);
      } else {
        record := Record(previous.value.fold, previous.value.lastEventId, handledCount);
      }
      Put(p, Write(orderId, Some(record)));
      outcome := SaveOutcome(record, applied);
    }

    /** Erases one order; the tombstone is enqueued even when there was nothing to erase. */
    method Delete(p: nat, orderId: string) returns (existed: bool)
      requires Valid() && p in stores
      modifies this`stores, this`queue
      ensures Valid()
      ensures existed <==> orderId in old(stores)[p]
      ensures stores == old(stores)[p := old(stores)[p] - {orderId}]
      ensures queue == old(queue) + [(p, Write(orderId, None))]
    {
      existed := orderId in stores[p];
      Put(p, Write(orderId, None));
    }

    /** The delivery report of the oldest enqueued record. An acknowledgement takes its partition's position
        one past the record, or leaves it where it is further already; nothing else moves a position. */
    method OnDelivery(r: Report)
      requires Valid() && queue != []
      modifies this`queue, this`position, this`changelog, this`errors
      ensures Valid()
      ensures queue == old(queue)[1..]
      ensures forall p :: At(position, p) ==
                if p == old(queue)[0].0 && r.Acknowledged? && r.offset >= At(old(position), p) then r.offset + 1
                else At(old(position), p)
      ensures old(position).Keys <= position.Keys
      ensures forall p :: LogOf(p) == Landed(old(LogOf(p)), old(queue)[0], r, p)
      ensures errors == old(errors) + if r.Errored? then 1 else 0
    {
      var (p, w) := queue[0];
      if r.Acknowledged? {
        if errors == 0 { AckKeepsAll(stores, changelog, queue, r.offset); }
        changelog := changelog[p := LogOf(p) + [Stamped(r.offset, w)]];
        var known := if p in position then position[p] else 0;
        position := position[p := if known > r.offset + 1 then known else r.offset + 1];
      } else {
        errors := errors + 1;
      }
      queue := queue[1..];
    }

    /** Waits for the queue to empty; false when the reports run out first. Reports that carry an
        error do not make it fail. */
    method Flush(reports: seq<Report>) returns (ok: bool)
      requires Valid()
      modifies this`queue, this`position, this`changelog, this`errors
      ensures Valid()
      ensures ok <==> |old(queue)| <= |reports|
      ensures forall p :: At(position, p) == Reach(At(old(position), p), old(queue), reports, p)
      ensures old(position).Keys <= position.Keys
      ensures queue == old(queue)[Settled(old(queue), reports)..] && (ok <==> queue == [])
      ensures forall p :: LogOf(p) == Landing(old(LogOf(p)), old(queue), reports, p)
      ensures ok && errors == 0 ==> forall p :: p in stores ==> stores[p] == Rebuild(map[], LogOf(p))
      ensures errors == old(errors) + ErrorCount(reports, Settled(old(queue), reports))
      ensures (forall r :: r in reports ==> r.Acknowledged?) ==> errors == old(errors)
    {
      var i := 0;
      assert reports[0..] == reports;
      while queue != [] && i < |reports|
        invariant 0 <= i <= |reports| && i <= |old(queue)| && queue == old(queue)[i..]
        invariant Valid() && errors == old(errors) + ErrorCount(reports, i)
        invariant old(position).Keys <= position.Keys
        invariant forall p :: Reach(At(old(position), p), old(queue), reports, p)
                              == Reach(At(position, p), queue, reports[i..], p)
        invariant forall p ::
                  Landing(old(LogOf(p)), old(queue), reports, p) == Landing(LogOf(p), queue, reports[i..], p)
        decreases |queue|
      {
        assert reports[i..][1..] == reports[i + 1..];
        OnDelivery(reports[i]);
        i := i + 1;
      }
      ok := queue == [];
      assert i == Settled(old(queue), reports);
      if forall r :: r in reports ==> r.Acknowledged? { NoErrors(reports, i); }
    }

    /** Whether a restore keeps the partition's store and reads only what came after. */
    predicate Resumes(p: nat) reads this`checkpoints { mode.Checkpoint? && p in checkpoints }

    function StartOffset(p: nat): nat reads this`checkpoints { if Resumes(p) then checkpoints[p] else 0 }

    function StartStore(p: nat): Store
      reads this`checkpoints, this`disk
    {
      if Resumes(p) && p in disk then disk[p] else map[]
    }

    /** The store a restore puts in place. */
    ghost function RestoredStore(p: nat): Store reads this`checkpoints, this`disk, this`changelog {
      Resumed(StartStore(p), LogOf(p), StartOffset(p))
    }

    /** A partition rebuilt in full with nothing of it in flight is in step again. */
    lemma {:induction false} FullRestoreIsInStep(p: nat)
      requires !Resumes(p) && InFlight(queue, p) == []
      ensures InStep(RestoredStore(p), LogOf(p), queue, p)
    {
      assert From(LogOf(p), 0) == LogOf(p);
    }

    /** One resumed from its checkpoint is, exactly when the kept store differs on no key. */
    lemma {:induction false} ResumeIsInStepIff(p: nat)
      requires InFlight(queue, p) == [] && Ordered(LogOf(p))
      ensures InStep(RestoredStore(p), LogOf(p), queue, p) <==>
              forall key :: !Differs(LogOf(p), StartStore(p), StartOffset(p), key)
    {
      ResumeRepairsIff(LogOf(p), StartStore(p), StartOffset(p));
    }

    /** Rebuilds one partition before it is consumed: from nothing, or from its checkpoint. Every other
        partition stays in step, and this one is if what was put in place is. */
    method RestoreOne(p: nat, polls: seq<Poll>, high: nat) returns (ok: bool)
      requires Valid() && Hands(LogOf(p), polls, StartOffset(p), high)
      modifies this`stores, this`position
      ensures ok <==> Arrives(polls, 0, StartOffset(p), high)
      ensures ok ==> stores == old(stores)[p := RestoredStore(p)] && position == old(position)[p := high]
      ensures ok && (mode.Full? || p !in checkpoints) ==> stores[p] == Rebuild(map[], LogOf(p))
      ensures ok && mode.Checkpoint? && p in checkpoints && p in disk ==>
                stores[p] == Resumed(disk[p], LogOf(p), checkpoints[p])
      ensures !ok ==> stores == old(stores) && position == old(position)
      ensures !ok || InStep(RestoredStore(p), LogOf(p), queue, p) ==> Valid()
    {
      assert From(LogOf(p), 0) == LogOf(p);
      var r := ReadBack(p, polls, high);
      ok := r.Restored?;
      if ok { Install(p, r.store, high); }
    }

    method ReadBack(p: nat, polls: seq<Poll>, high: nat) returns (r: Restored)
      requires Hands(LogOf(p), polls, StartOffset(p), high)
      ensures r.Restored? <==> Arrives(polls, 0, StartOffset(p), high)
      ensures r.Restored? ==> r.store == RestoredStore(p)
    {
      r := DrainFrom(StartStore(p), LogOf(p), polls, StartOffset(p), high);
    }

    method Install(p: nat, store: Store, high: nat)
      requires Valid()
      modifies this`stores, this`position
      ensures stores == old(stores)[p := store] && position == old(position)[p := high]
      ensures InStep(store, LogOf(p), queue, p) ==> Valid()
    {
      stores := stores[p := store];
      position := position[p := high];
    }

    /** A full rebuild with nothing in flight leaves every partition ready to be saved to. */
    method RebuildOne(p: nat, polls: seq<Poll>, high: nat) returns (ok: bool)
      requires Valid() && Hands(LogOf(p), polls, StartOffset(p), high) && !Resumes(p) && InFlight(queue, p) == []
      modifies this`stores, this`position
      ensures Valid() && (ok <==> Arrives(polls, 0, 0, high))
      ensures ok ==> stores == old(stores)[p := Rebuild(map[], LogOf(p))]
    {
      FullRestoreIsInStep(p);
      assert From(LogOf(p), 0) == LogOf(p);
      ok := RestoreOne(p, polls, high);
    }

    /** Checkpoints and closes one partition, destroying nothing. */
    method Close(p: nat)
      requires Valid()
      modifies this`stores, this`disk, this`checkpoints
      ensures Valid()
      ensures stores == old(stores) - {p}
      ensures disk == if p in old(stores) then old(disk)[p := old(stores)[p]] else old(disk)
      ensures checkpoints == if p in old(stores) then old(checkpoints)[p := position[p]] else old(checkpoints)
    {
      if p in stores {
        if p in position { checkpoints := checkpoints[p := position[p]]; }
        disk := disk[p := stores[p]];
        stores := stores - {p};
      }
    }

    /** Flushes as far as the reports go, then checkpoints and closes the given partitions. Unless a report
        carried an error, each is left on disk with a checkpoint it can be resumed from. */
    method Forget(ps: seq<nat>, reports: seq<Report>)
      requires Valid()
      modifies this
      ensures Valid()
      ensures stores == old(stores) - (set p | p in ps)
      ensures forall p :: p in ps && p in old(stores) ==> p in disk && disk[p] == old(stores)[p]
      ensures forall p :: p in ps && p in old(stores) ==>
                p in checkpoints && p in position && checkpoints[p] == position[p]
      ensures forall p :: LogOf(p) == if ps == [] then old(LogOf(p)) else Landing(old(LogOf(p)), old(queue), reports, p)
      ensures forall p :: p in ps && p in old(stores) ==>
                Advanced(At(old(position), p), old(LogOf(p)), LogOf(p), checkpoints[p])
      ensures ps != [] && |old(queue)| <= |reports| ==> queue == []
      ensures errors == 0 ==> forall p :: p in ps && p in old(stores) ==>
                Resumable(LogOf(p), disk[p], InFlight(queue, p), checkpoints[p], At(old(position), p))
    {
      if ps == [] { return; }
      var _ := Flush(reports);
      ghost var logs := changelog;
      forall p ensures Advanced(At(old(position), p), old(LogOf(p)), LogOf(p), At(position, p)) {
        ReachAdvances(At(old(position), p), old(LogOf(p)), old(LogOf(p)), At(old(position), p), old(queue), reports, p);
      }
      for i := 0 to |ps|
        invariant Valid() && changelog == logs
        invariant stores == old(stores) - (set p | p in ps[..i])
        invariant forall p :: p in ps[..i] && p in old(stores) ==> p in disk && disk[p] == old(stores)[p]
        invariant forall p :: p in ps[..i] && p in old(stores) ==>
                    p in checkpoints && p in position && checkpoints[p] == position[p]
        invariant errors == 0 ==>
                    forall p :: p in ps[..i] && p in old(stores) ==> InStep(disk[p], LogOf(p), queue, p)
        modifies this`stores, this`disk, this`checkpoints
      {
        assert ps[..i + 1] == ps[..i] + [ps[i]];
        Close(ps[i]);
      }
      assert ps[..|ps|] == ps;
      if errors == 0 {
        forall p | p in ps && p in old(stores)
          ensures Resumable(LogOf(p), disk[p], InFlight(queue, p), checkpoints[p], At(old(position), p))
        {
          AdvancedIsResumable(old(LogOf(p)), LogOf(p), disk[p], queue, p, At(old(position), p), checkpoints[p]);
        }
      }
    }

    /** Throws the given partitions away, checkpoints included, flushing nothing. */
    method Discard(ps: set<nat>)
      requires Valid()
      modifies this`stores, this`position, this`disk, this`checkpoints
      ensures Valid()
      ensures stores == old(stores) - ps && position == old(position) - ps
      ensures disk == old(disk) - ps && checkpoints == old(checkpoints) - ps
    {
      stores, position, disk, checkpoints := stores - ps, position - ps, disk - ps, checkpoints - ps;
    }
  }

  // ---- A delete that nothing waited for ----

  predicate IsAcknowledged(reports: seq<Report>, k: nat) { k < |reports| && reports[k].Acknowledged? }

  lemma {:induction false} LandingAppend(
    log: seq<Stamped>, queue: Queue, item: (nat, Write), reports: seq<Report>, p: nat)
    ensures Landing(log, queue + [item], reports, p)
            == if |queue| < |reports| then Landed(Landing(log, queue, reports, p), item, reports[|queue|], p)
               else Landing(log, queue, reports, p)
    decreases |queue|
  {
    if queue == [] {
      assert [item][1..] == [] && queue + [item] == [item];
    } else if reports != [] {
      assert (queue + [item])[1..] == queue[1..] + [item];
      LandingAppend(Landed(log, queue[0], reports[0], p), queue[1..], item, reports[1..], p);
    }
  }

  /** An order is deleted with the queue as it stands, and the process dies after some reports: a rebuild
      brings the order back exactly when its tombstone was not acknowledged and the last record of the
      order that landed is a value. */
  lemma {:induction false} UnflushedDeleteComesBackIff(
    log: seq<Stamped>, queue: Queue, reports: seq<Report>, p: nat, orderId: string)
    ensures var landed := Landing(log, queue, reports, p);
            orderId in Rebuild(map[], Landing(log, queue + [(p, Write(orderId, None))], reports, p)) <==>
            && !IsAcknowledged(reports, |queue|)
            && Latest(landed, orderId).Some? && !IsTombstone(Latest(landed, orderId))
  {
    var landed := Landing(log, queue, reports, p);
    var after := Landing(log, queue + [(p, Write(orderId, None))], reports, p);
    LandingAppend(log, queue, (p, Write(orderId, None)), reports, p);
    RebuildAtKey(map[], after, orderId);
    assert orderId in Rebuild(map[], after) <==> Get(Rebuild(map[], after), orderId).Some?;
    if IsAcknowledged(reports, |queue|) {
      RebuildAppend(map[], landed, Stamped(reports[|queue|].offset, Write(orderId, None)));
    }
  }
}
