/** The dead-letter replay tool: a run bounded by the watermarks it records before publishing. */
module DlqReplay {
  import opened Events
  import opened Maps

  datatype Record = Record(
    offset: nat, key: string, value: string,
    service: Option<string>, errorClass: Option<string>, originTopic: Option<string>)

  /** The readable records of each partition, from its low watermark on, as far as the run will see
      them written; whatever the run provokes is among them. */
  type Topic = seq<seq<Record>>

  predicate Ascending(log: Topic) {
    forall p, j, k :: 0 <= p < |log| && 0 <= j < k < |log[p]| ==> log[p][j].offset < log[p][k].offset
  }

  // ---- The snapshot ----

  datatype Watermarks = Watermarks(low: nat, high: nat)

  datatype Assignment = Assignment(partition: nat, offset: nat)

  datatype Snapshot = Snapshot(assignments: seq<Assignment>, ends: map<nat, nat>)

  /** The snapshot of the first n partitions: an empty one appears in neither field. */
  function SnapshotOf(marks: seq<Watermarks>, n: nat): Snapshot
    requires n <= |marks|
  {
    if n == 0 then Snapshot([], map[])
    else
      var s, mark := SnapshotOf(marks, n - 1), marks[n - 1];
      if mark.high <= mark.low then s
      else Snapshot(s.assignments + [Assignment(n - 1, mark.low)], s.ends[n - 1 := mark.high])
  }

  method SnapshotTopic(marks: seq<Watermarks>) returns (snapshot: Snapshot)
    ensures snapshot == SnapshotOf(marks, |marks|)
    ensures forall p: nat :: p in snapshot.ends <==> p < |marks| && marks[p].low < marks[p].high
    ensures forall p: nat :: p in snapshot.ends ==> snapshot.ends[p] == marks[p].high
    ensures StartsLow(snapshot.assignments, marks, |marks|) && InPartitionOrder(snapshot.assignments)
    ensures MessageCount(snapshot.assignments, snapshot.ends) == TotalSpan(marks)
  {
    var assignments: seq<Assignment>, ends: map<nat, nat> := [], map[];
    for p := 0 to |marks|
      invariant Snapshot(assignments, ends) == SnapshotOf(marks, p)
    {
      var low, high := marks[p].low, marks[p].high;
      if high <= low { continue; }
      assignments := assignments + [Assignment(p, low)];
      ends := ends[p := high];
    }
    snapshot := Snapshot(assignments, ends);
    forall p: nat
      ensures p in snapshot.ends <==> p < |marks| && marks[p].low < marks[p].high
      ensures p in snapshot.ends ==> snapshot.ends[p] == marks[p].high
    {
      SnapshotEnds(marks, |marks|, p);
    }
    SnapshotStarts(marks, |marks|);
    SnapshotCount(marks, |marks|);
    assert marks[..|marks|] == marks;
  }

  /** The recorded ends are the high watermarks of exactly the non-empty partitions. */
  lemma {:induction false} SnapshotEnds(marks: seq<Watermarks>, n: nat, p: nat)
    requires n <= |marks|
    ensures var ends := SnapshotOf(marks, n).ends;
            && (p in ends <==> p < n && marks[p].low < marks[p].high)
            && (p in ends ==> ends[p] == marks[p].high)
  {
    if n > 0 { SnapshotEnds(marks, n - 1, p); }
  }

  predicate StartsLow(starts: seq<Assignment>, marks: seq<Watermarks>, n: nat) {
    n <= |marks| && forall k :: 0 <= k < |starts| ==>
      && starts[k].partition < n
      && starts[k].offset == marks[starts[k].partition].low < marks[starts[k].partition].high
  }

  predicate InPartitionOrder(starts: seq<Assignment>) {
    forall j, k :: 0 <= j < k < |starts| ==> starts[j].partition < starts[k].partition
  }

  /** The assignments are those partitions, each once and in order, from their low watermarks. */
  lemma {:induction false} SnapshotStarts(marks: seq<Watermarks>, n: nat)
    requires n <= |marks|
    ensures StartsLow(SnapshotOf(marks, n).assignments, marks, n) && InPartitionOrder(SnapshotOf(marks, n).assignments)
  {
    if n > 0 {
      SnapshotStarts(marks, n - 1);
      assert StartsLow(SnapshotOf(marks, n - 1).assignments, marks, n);
    }
  }

  lemma {:induction false} SnapshotAssigns(marks: seq<Watermarks>, n: nat, p: nat) returns (k: nat)
    requires p < n <= |marks| && marks[p].low < marks[p].high
    ensures var starts := SnapshotOf(marks, n).assignments; k < |starts| && starts[k] == Assignment(p, marks[p].low)
  {
    if p == n - 1 {
      k := |SnapshotOf(marks, n - 1).assignments|;
    } else {
      k := SnapshotAssigns(marks, n - 1, p);
    }
  }

  lemma {:induction false} CountAppend(starts: seq<Assignment>, a: Assignment, ends: map<nat, nat>)
    ensures MessageCount(starts + [a], ends)
            == MessageCount(starts, ends) + if a.partition in ends && ends[a.partition] > a.offset
               then ends[a.partition] - a.offset else 0
  {
    assert (starts + [a])[..|starts|] == starts;
  }

  lemma {:induction false} SpanAppend(marks: seq<Watermarks>, n: nat)
    requires 0 < n <= |marks|
    ensures TotalSpan(marks[..n])
            == TotalSpan(marks[..n - 1]) + if marks[n - 1].high > marks[n - 1].low
               then marks[n - 1].high - marks[n - 1].low else 0
  {
    assert marks[..n][..n - 1] == marks[..n - 1];
  }

  /** The announced count is the offsets between the watermarks, over all partitions. */
  lemma {:induction false} SnapshotCount(marks: seq<Watermarks>, n: nat)
    requires n <= |marks|
    ensures MessageCount(SnapshotOf(marks, n).assignments, SnapshotOf(marks, n).ends) == TotalSpan(marks[..n])
  {
    if n > 0 {
      var before, mark := SnapshotOf(marks, n - 1), marks[n - 1];
      SnapshotCount(marks, n - 1);
      SnapshotStarts(marks, n - 1);
      SpanAppend(marks, n);
      if mark.high > mark.low {
        CountIgnores(before.assignments, before.ends, n - 1, mark.high);
        CountAppend(before.assignments, Assignment(n - 1, mark.low), before.ends[n - 1 := mark.high]);
      }
    }
  }

  /** How many messages the run may read, as the snapshot announces it. */
  function MessageCount(assignments: seq<Assignment>, ends: map<nat, nat>): nat {
    if assignments == [] then 0
    else
      var last := assignments[|assignments| - 1];
      MessageCount(assignments[..|assignments| - 1], ends)
      + if last.partition in ends && ends[last.partition] > last.offset then ends[last.partition] - last.offset else 0
  }

  function TotalSpan(marks: seq<Watermarks>): nat {
    if marks == [] then 0
    else
      var last := marks[|marks| - 1];
      TotalSpan(marks[..|marks| - 1]) + if last.high > last.low then last.high - last.low else 0
  }

  lemma {:induction false} CountIgnores(assignments: seq<Assignment>, ends: map<nat, nat>, p: nat, high: nat)
    requires forall k :: 0 <= k < |assignments| ==> assignments[k].partition != p
    ensures MessageCount(assignments, ends[p := high]) == MessageCount(assignments, ends)
  {
    if assignments != [] { CountIgnores(assignments[..|assignments| - 1], ends, p, high); }
  }

  // ---- What a run makes of what it read ----

  datatype Args = Args(publish: bool, service: string, includePoison: bool, limit: int)

  datatype Read = Read(partition: nat, record: Record)

  datatype Publication = Publication(topic: string, key: string, value: string)

  predicate InScope(ends: map<nat, nat>, r: Read) { r.partition in ends && r.record.offset < ends[r.partition] }

  predicate Wanted(args: Args, r: Record) { args.service == "" || r.service == Some(args.service) }

  predicate Barred(args: Args, r: Record) { r.errorClass == Some("NonRetryableError") && !args.includePoison }

  predicate HasOrigin(r: Record) { r.originTopic.Some? && r.originTopic.value != "" }

  datatype Stage = Seen | Matched | Excluded | Skipped | Republished | Listed

  predicate Reaches(args: Args, ends: map<nat, nat>, stage: Stage, r: Read) {
    && InScope(ends, r)
    && match stage
       case Seen => true
       case Matched => Wanted(args, r.record)
       case Excluded => Wanted(args, r.record) && Barred(args, r.record)
       case Skipped => Wanted(args, r.record) && !Barred(args, r.record) && args.publish && !HasOrigin(r.record)
       case Republished => Wanted(args, r.record) && !Barred(args, r.record) && args.publish && HasOrigin(r.record)
       case Listed => Wanted(args, r.record) && !Barred(args, r.record) && !args.publish
  }

  /** The records read that reach a stage, in the order they were read. */
  function Select(args: Args, ends: map<nat, nat>, stage: Stage, taken: seq<Read>): seq<Read> {
    if taken == [] then []
    else
      var last := taken[|taken| - 1];
      Select(args, ends, stage, taken[..|taken| - 1]) + if Reaches(args, ends, stage, last) then [last] else []
  }

  lemma {:induction false} SelectOne(args: Args, ends: map<nat, nat>, stage: Stage, taken: seq<Read>, r: Read)
    ensures Select(args, ends, stage, taken + [r])
            == if Reaches(args, ends, stage, r) then Select(args, ends, stage, taken) + [r]
               else Select(args, ends, stage, taken)
  {
    assert (taken + [r])[..|taken|] == taken;
  }

  /** A copy goes back without any header: key and value, to the topic it came from. */
  function CopyOf(r: Record): Publication {
    Publication(if r.originTopic.Some? then r.originTopic.value else "", r.key, r.value)
  }

  function Produced(taken: seq<Read>): seq<Publication> {
    if taken == [] then []
    else
      Produced(taken[..|taken| - 1]) + [CopyOf(taken[|taken| - 1].record)]
  }

  /** The records read of one partition. */
  function Of(taken: seq<Read>, p: nat): seq<Record> {
    if taken == [] then []
    else
      var last := taken[|taken| - 1];
      Of(taken[..|taken| - 1], p) + if last.partition == p then [last.record] else []
  }

  lemma {:induction false} OfOne(taken: seq<Read>, r: Read, p: nat)
    ensures Of(taken + [r], p) == if r.partition == p then Of(taken, p) + [r.record] else Of(taken, p)
  {
    assert (taken + [r])[..|taken|] == taken;
  }

  // ---- The run ----

  datatype Poll = Nothing | EndOfPartition | Failed | Got(partition: nat)

  datatype Ending = Emptied | Stalled | Broken | AtLimit

  /** The client hands over each partition's records in order, none left out. */
  ghost predicate ReadInOrder(log: Topic, taken: seq<Read>, position: map<nat, nat>) {
    && (forall k :: 0 <= k < |taken| ==> taken[k].partition < |log|)
    && (forall p :: 0 <= p < |log| ==> At(position, p) <= |log[p]| && Of(taken, p) == log[p][..At(position, p)])
  }

  /** A partition reaches its end when a record at or past its last offset is read. */
  predicate Reached(log: Topic, ends: map<nat, nat>, position: map<nat, nat>, p: nat) {
    p in ends && p < |log| && exists k :: 0 <= k < At(position, p) && k < |log[p]| && log[p][k].offset + 1 >= ends[p]
  }

  ghost predicate PendingIs(log: Topic, ends: map<nat, nat>, position: map<nat, nat>, pending: map<nat, nat>) {
    && (forall p :: p in pending <==> p in ends && !Reached(log, ends, position, p))
    && (forall p :: p in pending ==> pending[p] == ends[p])
  }

  /** The counters and the publications, as selections of what was read. */
  ghost predicate Counted(
    args: Args, ends: map<nat, nat>, taken: seq<Read>,
    seen: nat, matched: nat, excluded: nat, produced: seq<Publication>)
  {
    && seen == |Select(args, ends, Seen, taken)|
    && matched == |Select(args, ends, Matched, taken)|
    && excluded == |Select(args, ends, Excluded, taken)|
    && produced == Produced(Select(args, ends, Republished, taken))
  }

  function One(b: bool): nat { if b then 1 else 0 }

  lemma {:induction false} CountOne(args: Args, ends: map<nat, nat>, taken: seq<Read>, r: Read)
    ensures var after := taken + [r];
            && |Select(args, ends, Seen, after)|
               == |Select(args, ends, Seen, taken)| + One(Reaches(args, ends, Seen, r))
            && |Select(args, ends, Matched, after)|
               == |Select(args, ends, Matched, taken)| + One(Reaches(args, ends, Matched, r))
            && |Select(args, ends, Excluded, after)|
               == |Select(args, ends, Excluded, taken)| + One(Reaches(args, ends, Excluded, r))
            && Produced(Select(args, ends, Republished, after))
               == if Reaches(args, ends, Republished, r)
                  then Produced(Select(args, ends, Republished, taken)) + [CopyOf(r.record)]
                  else Produced(Select(args, ends, Republished, taken))
  {
    SelectOne(args, ends, Seen, taken, r);
    SelectOne(args, ends, Matched, taken, r);
    SelectOne(args, ends, Excluded, taken, r);
    SelectOne(args, ends, Republished, taken, r);
    var before := Select(args, ends, Republished, taken);
    assert (before + [r])[..|before|] == before;
  }

  lemma {:induction false} PrefixGrows(records: seq<Record>, k: nat)
    requires k < |records|
    ensures records[..k] + [records[k]] == records[..k + 1]
  {
  }

  lemma {:induction false} ReadLane(log: Topic, taken: seq<Read>, position: map<nat, nat>, p: nat, q: nat)
    requires p < |log| && q < |log| && At(position, p) < |log[p]|
    requires At(position, q) <= |log[q]| && Of(taken, q) == log[q][..At(position, q)]
    ensures var after := position[p := At(position, p) + 1];
            At(after, q) <= |log[q]| && Of(taken + [Read(p, log[p][At(position, p)])], q) == log[q][..At(after, q)]
  {
    OfOne(taken, Read(p, log[p][At(position, p)]), q);
    if q == p { PrefixGrows(log[p], At(position, p)); }
  }

  lemma {:induction false} ReadOne(log: Topic, taken: seq<Read>, position: map<nat, nat>, p: nat)
    requires ReadInOrder(log, taken, position) && p < |log| && At(position, p) < |log[p]|
    ensures ReadInOrder(log, taken + [Read(p, log[p][At(position, p)])], position[p := At(position, p) + 1])
  {
    var k := At(position, p);
    var after := position[p := k + 1];
    forall q | 0 <= q < |log|
      ensures At(after, q) <= |log[q]| && Of(taken + [Read(p, log[p][k])], q) == log[q][..At(after, q)]
    {
      ReadLane(log, taken, position, p, q);
    }
  }

  /** Reading one record moves only its own partition, which reaches its end if that record does. */
  lemma {:induction false} ReachOne(log: Topic, ends: map<nat, nat>, position: map<nat, nat>, p: nat, q: nat)
    requires p < |log| && At(position, p) < |log[p]|
    ensures var after := position[p := At(position, p) + 1];
            Reached(log, ends, after, q) <==>
            Reached(log, ends, position, q) || (q == p && q in ends && log[p][At(position, p)].offset + 1 >= ends[q])
  {
    var n := At(position, p);
    var after := position[p := n + 1];
    assert At(after, p) == n + 1;
    if q == p && q in ends && log[p][n].offset + 1 >= ends[q] { assert Reached(log, ends, after, q); }
  }

  lemma {:induction false} ReachedIsOutOfScope(log: Topic, ends: map<nat, nat>, position: map<nat, nat>, p: nat)
    requires Ascending(log) && Reached(log, ends, position, p) && At(position, p) < |log[p]|
    ensures !InScope(ends, Read(p, log[p][At(position, p)]))
  {
  }

  lemma {:induction false} PendOne(
    log: Topic, ends: map<nat, nat>, position: map<nat, nat>, pending: map<nat, nat>, p: nat)
    requires PendingIs(log, ends, position, pending) && p < |log| && At(position, p) < |log[p]|
    ensures var after := position[p := At(position, p) + 1];
            PendingIs(log, ends, after,
                      if p in ends && log[p][At(position, p)].offset + 1 >= ends[p] then pending - {p} else pending)
  {
    forall q: nat
      ensures Reached(log, ends, position[p := At(position, p) + 1], q) <==>
              Reached(log, ends, position, q) || (q == p && q in ends && log[p][At(position, p)].offset + 1 >= ends[q])
    {
      ReachOne(log, ends, position, p, q);
    }
  }

  /** The most matches a limit lets through, besides those passed over for want of an origin: a
      negative limit stops at the first. */
  function Cap(limit: int): int { if limit > 1 then limit else 1 }

  ghost predicate UnderCap(args: Args, ends: map<nat, nat>, taken: seq<Read>, matched: int, room: int) {
    args.limit != 0 ==> matched - |Select(args, ends, Skipped, taken)| + room <= Cap(args.limit)
  }

  /** The loop's variables: what it waits for, what the client has handed over, and the counters. */
  datatype Run = Run(
    pending: map<nat, nat>, position: map<nat, nat>,
    seen: nat, matched: nat, excluded: nat, produced: seq<Publication>)

  function Started(ends: map<nat, nat>): Run { Run(ends, map[], 0, 0, 0, []) }

  ghost predicate Tracks(args: Args, ends: map<nat, nat>, log: Topic, taken: seq<Read>, run: Run) {
    && ReadInOrder(log, taken, run.position) && PendingIs(log, ends, run.position, run.pending)
    && Counted(args, ends, taken, run.seen, run.matched, run.excluded, run.produced)
  }

  /** The loop's variables after one more record, in the snapshot or not. */
  function Passing(args: Args, ends: map<nat, nat>, run: Run, r: Read): Run {
    var moved := run.(position := run.position[r.partition := At(run.position, r.partition) + 1],
                      pending := if r.partition in ends && r.record.offset + 1 >= ends[r.partition]
                                 then run.pending - {r.partition} else run.pending);
    moved.(seen := run.seen + One(Reaches(args, ends, Seen, r)),
           matched := run.matched + One(Reaches(args, ends, Matched, r)),
           excluded := run.excluded + One(Reaches(args, ends, Excluded, r)),
           produced := if Reaches(args, ends, Republished, r) then run.produced + [CopyOf(r.record)] else run.produced)
  }

  lemma {:induction false} PassingCounts(args: Args, ends: map<nat, nat>, taken: seq<Read>, run: Run, r: Read)
    requires Counted(args, ends, taken, run.seen, run.matched, run.excluded, run.produced)
    ensures var after := Passing(args, ends, run, r);
            Counted(args, ends, taken + [r], after.seen, after.matched, after.excluded, after.produced)
  {
    CountOne(args, ends, taken, r);
  }

  lemma {:induction false} PassingReads(args: Args, ends: map<nat, nat>, log: Topic, taken: seq<Read>, run: Run, p: nat)
    requires ReadInOrder(log, taken, run.position) && PendingIs(log, ends, run.position, run.pending)
    requires p < |log| && At(run.position, p) < |log[p]|
    ensures var r := Read(p, log[p][At(run.position, p)]);
            var after := Passing(args, ends, run, r);
            ReadInOrder(log, taken + [r], after.position) && PendingIs(log, ends, after.position, after.pending)
  {
    ReadOne(log, taken, run.position, p);
    PendOne(log, ends, run.position, run.pending, p);
  }

  lemma {:induction false} PassingTracks(
    args: Args, ends: map<nat, nat>, log: Topic, taken: seq<Read>, run: Run, p: nat)
    requires Tracks(args, ends, log, taken, run) && p < |log| && At(run.position, p) < |log[p]|
    ensures var r := Read(p, log[p][At(run.position, p)]);
            Tracks(args, ends, log, taken + [r], Passing(args, ends, run, r))
  {
    PassingReads(args, ends, log, taken, run, p);
    PassingCounts(args, ends, taken, run, Read(p, log[p][At(run.position, p)]));
  }

  lemma {:induction false} PassingUnderCap(args: Args, ends: map<nat, nat>, taken: seq<Read>, run: Run, r: Read)
    requires UnderCap(args, ends, taken, run.matched, 1)
    ensures UnderCap(args, ends, taken + [r], Passing(args, ends, run, r).matched, 0)
    ensures !InScope(ends, r) || !Wanted(args, r.record) || Reaches(args, ends, Skipped, r)
            || Passing(args, ends, run, r).matched < args.limit ==>
              UnderCap(args, ends, taken + [r], Passing(args, ends, run, r).matched, 1)
  {
    SelectOne(args, ends, Skipped, taken, r);
  }

  /** What the loop waits for settles the question of scope without the ends themselves. */
  lemma {:induction false} PendingDecides(
    args: Args, ends: map<nat, nat>, log: Topic, taken: seq<Read>, run: Run, p: nat)
    requires Ascending(log) && Tracks(args, ends, log, taken, run) && p < |log| && At(run.position, p) < |log[p]|
    ensures p in run.pending ==> p in ends && run.pending[p] == ends[p]
    ensures p !in run.pending ==>
              !InScope(ends, Read(p, log[p][At(run.position, p)])) && run.pending - {p} == run.pending
  {
    if p in ends && p !in run.pending { ReachedIsOutOfScope(log, ends, run.position, p); }
  }

  /** The limit ends the run at this record: enough have matched, and this one was not passed over. */
  predicate Stops(args: Args, ends: map<nat, nat>, matched: int, r: Read) {
    && args.limit != 0 && matched >= args.limit
    && Reaches(args, ends, Matched, r) && !Reaches(args, ends, Skipped, r)
  }

  /** From the limit-th match on, all but the last `spare` were passed over for want of an origin. */
  ghost predicate OnlySkippedPast(args: Args, ends: map<nat, nat>, taken: seq<Read>, spare: nat) {
    args.limit > 0 ==>
      var matches := Select(args, ends, Matched, taken);
      forall k :: args.limit - 1 <= k < |matches| - spare ==> Reaches(args, ends, Skipped, matches[k])
  }

  lemma {:induction false} PassingOnlySkips(args: Args, ends: map<nat, nat>, taken: seq<Read>, run: Run, r: Read)
    requires run.matched == |Select(args, ends, Matched, taken)| && OnlySkippedPast(args, ends, taken, 0)
    ensures OnlySkippedPast(args, ends, taken + [r], 1)
    ensures !Stops(args, ends, Passing(args, ends, run, r).matched, r) ==> OnlySkippedPast(args, ends, taken + [r], 0)
  {
    SelectOne(args, ends, Matched, taken, r);
  }

  /** What holds whenever the loop goes round, and what is left of it when the loop ends. */
  ghost predicate GoingRound(args: Args, ends: map<nat, nat>, log: Topic, taken: seq<Read>, run: Run) {
    && Tracks(args, ends, log, taken, run)
    && UnderCap(args, ends, taken, run.matched, 1) && OnlySkippedPast(args, ends, taken, 0)
  }

  ghost predicate Finished(args: Args, ends: map<nat, nat>, log: Topic, taken: seq<Read>, run: Run) {
    && Tracks(args, ends, log, taken, run)
    && UnderCap(args, ends, taken, run.matched, 0) && OnlySkippedPast(args, ends, taken, 1)
  }

  lemma {:induction false} PassingHolds(args: Args, ends: map<nat, nat>, log: Topic, taken: seq<Read>, run: Run, p: nat)
    requires GoingRound(args, ends, log, taken, run) && p < |log| && At(run.position, p) < |log[p]|
    ensures var r := Read(p, log[p][At(run.position, p)]);
            var after := Passing(args, ends, run, r);
            && Finished(args, ends, log, taken + [r], after)
            && (!Stops(args, ends, after.matched, r) ==> GoingRound(args, ends, log, taken + [r], after))
  {
    PassingTracks(args, ends, log, taken, run, p);
    PassingUnderCap(args, ends, taken, run, Read(p, log[p][At(run.position, p)]));
    PassingOnlySkips(args, ends, taken, run, Read(p, log[p][At(run.position, p)]));
  }

  // ---- The loop ----

  /** Whether the loop, going by what it still waits for, takes the record as one of the snapshot. */
  predicate Takes(run: Run, r: Read) { InScope(run.pending, r) }

  /** The loop's variables after one more record, and whether the limit ends the run there. */
  function Taken(args: Args, run: Run, r: Read): (Run, bool) {
    var p := r.partition;
    var moved := run.(position := run.position[p := At(run.position, p) + 1]);
    if p !in run.pending then (moved, false)
    else
      var left := moved.(pending := if r.record.offset + 1 >= run.pending[p] then run.pending - {p} else run.pending);
      if !Takes(run, r) then (left, false)
      else
        var (matched, excluded, produced, stop) := Examined(args, r.record, run.matched, run.excluded, run.produced);
        (left.(seen := run.seen + 1, matched := matched, excluded := excluded, produced := produced), stop)
  }

  /** What one dead letter in scope counts as. A letter with no origin is passed over before the limit is
      looked at. */
  function Examined(args: Args, record: Record, matched: nat, excluded: nat, produced: seq<Publication>)
    : (nat, nat, seq<Publication>, bool)
  {
    if !Wanted(args, record) then (matched, excluded, produced, false)
    else
      var stop := args.limit != 0 && matched + 1 >= args.limit;
      if Barred(args, record) then (matched + 1, excluded + 1, produced, stop)
      else if !args.publish then (matched + 1, excluded, produced, stop)
      else if !HasOrigin(record) then (matched + 1, excluded, produced, false)
      else (matched + 1, excluded, produced + [CopyOf(record)], stop)
  }

  /** Going by what is still waited for agrees with going by the recorded ends. */
  lemma {:induction false} TakenIsPassing(
    args: Args, ends: map<nat, nat>, log: Topic, taken: seq<Read>, run: Run, p: nat)
    requires Ascending(log) && Tracks(args, ends, log, taken, run) && p < |log| && At(run.position, p) < |log[p]|
    ensures var r := Read(p, log[p][At(run.position, p)]);
            && Taken(args, run, r).0 == Passing(args, ends, run, r)
            && (Taken(args, run, r).1 <==> Stops(args, ends, Passing(args, ends, run, r).matched, r))
  {
    PendingDecides(args, ends, log, taken, run, p);
  }

  /** What the loop ends with, and why, from the i-th poll on. */
  function Looped(args: Args, log: Topic, run: Run, polls: seq<Poll>, i: nat): (Run, Ending)
    requires i <= |polls|
    decreases |polls| - i
  {
    if run.pending == map[] then (run, Emptied)
    else if i == |polls| || polls[i].Nothing? then (run, Stalled)
    else if polls[i].Failed? then (run, Broken)
    else if polls[i].EndOfPartition? || !Available(log, run, polls[i].partition)
    then Looped(args, log, run, polls, i + 1)
    else
      var (after, stop) := Taken(args, run, NextOf(log, run, polls[i].partition));
      if stop then (after, AtLimit) else Looped(args, log, after, polls, i + 1)
  }

  predicate Available(log: Topic, run: Run, p: nat) { p < |log| && At(run.position, p) < |log[p]| }

  function NextOf(log: Topic, run: Run, p: nat): Read
    requires Available(log, run, p)
  {
    Read(p, log[p][At(run.position, p)])
  }

  lemma {:induction false} TakenHolds(args: Args, ends: map<nat, nat>, log: Topic, taken: seq<Read>, run: Run, p: nat)
    requires Ascending(log) && GoingRound(args, ends, log, taken, run) && Available(log, run, p)
    ensures var r := NextOf(log, run, p);
            var (after, stop) := Taken(args, run, r);
            && Finished(args, ends, log, taken + [r], after)
            && (!stop ==> GoingRound(args, ends, log, taken + [r], after))
  {
    PassingHolds(args, ends, log, taken, run, p);
    TakenIsPassing(args, ends, log, taken, run, p);
  }

  lemma {:induction false} RoundIsFinished(args: Args, ends: map<nat, nat>, log: Topic, taken: seq<Read>, run: Run)
    requires GoingRound(args, ends, log, taken, run)
    ensures Finished(args, ends, log, taken, run)
  {
  }

  /** The poll hands over a record. */
  predicate Hands(log: Topic, run: Run, poll: Poll) { poll.Got? && Available(log, run, poll.partition) }

  /** The poll brings nothing, and the loop goes on. */
  predicate Idles(log: Topic, run: Run, polls: seq<Poll>, i: nat) {
    && i < |polls| && run.pending != map[] && !polls[i].Nothing? && !polls[i].Failed?
    && !Hands(log, run, polls[i])
  }

  lemma {:induction false} LoopedIdles(args: Args, log: Topic, run: Run, polls: seq<Poll>, i: nat)
    requires Idles(log, run, polls, i)
    ensures Looped(args, log, run, polls, i) == Looped(args, log, run, polls, i + 1)
  {
  }

  lemma {:induction false} LoopedStops(args: Args, log: Topic, run: Run, polls: seq<Poll>, i: nat)
    requires i <= |polls| && !Idles(log, run, polls, i)
    requires i < |polls| && run.pending != map[] ==> !Hands(log, run, polls[i])
    ensures Looped(args, log, run, polls, i).0 == run
  {
  }

  lemma {:induction false} LoopedTakes(args: Args, log: Topic, run: Run, polls: seq<Poll>, i: nat)
    requires i < |polls| && run.pending != map[] && Hands(log, run, polls[i])
    ensures var (after, stop) := Taken(args, run, NextOf(log, run, polls[i].partition));
            Looped(args, log, run, polls, i)
            == if stop then (after, AtLimit) else Looped(args, log, after, polls, i + 1)
  {
  }

  lemma {:induction false} LoopedHolds(
    args: Args, ends: map<nat, nat>, log: Topic, run: Run, polls: seq<Poll>, i: nat, taken: seq<Read>)
    returns (more: seq<Read>)
    requires i <= |polls| && Ascending(log) && GoingRound(args, ends, log, taken, run)
    ensures Finished(args, ends, log, more, Looped(args, log, run, polls, i).0)
    decreases |polls| - i, 1
  {
    if i < |polls| && run.pending != map[] && Hands(log, run, polls[i]) {
      more := LoopedHoldsOn(args, ends, log, run, polls, i, taken);
    } else if Idles(log, run, polls, i) {
      LoopedIdles(args, log, run, polls, i);
      more := LoopedHolds(args, ends, log, run, polls, i + 1, taken);
    } else {
      LoopedStops(args, log, run, polls, i);
      RoundIsFinished(args, ends, log, taken, run);
      more := taken;
    }
  }

  lemma {:induction false} LoopedHoldsOn(
    args: Args, ends: map<nat, nat>, log: Topic, run: Run, polls: seq<Poll>, i: nat, taken: seq<Read>)
    returns (more: seq<Read>)
    requires i < |polls| && Ascending(log) && GoingRound(args, ends, log, taken, run)
    requires run.pending != map[] && Hands(log, run, polls[i])
    ensures Finished(args, ends, log, more, Looped(args, log, run, polls, i).0)
    decreases |polls| - i, 0
  {
    var r := NextOf(log, run, polls[i].partition);
    var (after, stop) := Taken(args, run, r);
    LoopedTakes(args, log, run, polls, i);
    TakenHolds(args, ends, log, taken, run, polls[i].partition);
    if stop {
      more := taken + [r];
    } else {
      more := LoopedHolds(args, ends, log, after, polls, i + 1, taken + [r]);
    }
  }

  lemma {:induction false} StartedGoesRound(args: Args, ends: map<nat, nat>, log: Topic)
    ensures GoingRound(args, ends, log, [], Started(ends))
  {
  }

  method Examine(args: Args, record: Record, matchedSoFar: nat, excludedSoFar: nat, producedSoFar: seq<Publication>)
    returns (matched: nat, excluded: nat, produced: seq<Publication>, stop: bool)
    ensures (matched, excluded, produced, stop) == Examined(args, record, matchedSoFar, excludedSoFar, producedSoFar)
    ensures stop ==> args.limit != 0 && matched >= args.limit
  {
    matched, excluded, produced, stop := matchedSoFar, excludedSoFar, producedSoFar, false;
    if args.service != "" && record.service != Some(args.service) { return; }
    matched := matched + 1;
    if record.errorClass == Some("NonRetryableError") && !args.includePoison {
      excluded := excluded + 1;
    } else if args.publish {
      if record.originTopic.None? || record.originTopic.value == "" { return; }
      produced := produced + [Publication(record.originTopic.value, record.key, record.value)];
    }
    stop := args.limit != 0 && matched >= args.limit;
  }

  /** One message polled: whether it is in the snapshot, and if so what it counts as. */
  method Take(args: Args, run: Run, r: Read) returns (after: Run, stop: bool)
    ensures (after, stop) == Taken(args, run, r)
  {
    var p, record := r.partition, r.record;
    after, stop := run.(position := run.position[p := At(run.position, p) + 1]), false;
    if p !in run.pending { return; }
    var end := run.pending[p];
    if record.offset + 1 >= end { after := after.(pending := run.pending - {p}); }
    if record.offset >= end { return; }
    var matched, excluded, produced;
    matched, excluded, produced, stop := Examine(args, record, run.matched, run.excluded, run.produced);
    after := after.(seen := run.seen + 1, matched := matched, excluded := excluded, produced := produced);
  }

  /** The replay loop, over whatever the polls bring; polling on past the last of them is a stall. */
  method Loop(args: Args, ends: map<nat, nat>, log: Topic, polls: seq<Poll>) returns (run: Run, ended: Ending)
    ensures (run, ended) == Looped(args, log, Started(ends), polls, 0)
  {
    run, ended := Started(ends), Emptied;
    var i := 0;
    while run.pending != map[]
      invariant i <= |polls| && ended.Emptied?
      invariant Looped(args, log, Started(ends), polls, 0) == Looped(args, log, run, polls, i)
      decreases |polls| - i
    {
      if i == |polls| || polls[i].Nothing? {
        ended := Stalled;
        break;
      }
      if polls[i].Failed? {
        ended := Broken;
        break;
      }
      if polls[i].EndOfPartition? || !Available(log, run, polls[i].partition) {
        i := i + 1;
        continue;
      }
      var stop;
      run, stop := Take(args, run, NextOf(log, run, polls[i].partition));
      if stop {
        ended := AtLimit;
        break;
      }
      i := i + 1;
    }
  }

  /** How the loop ends is told by what it still waits for. */
  lemma {:induction false} LoopedEnds(args: Args, log: Topic, run: Run, polls: seq<Poll>, i: nat)
    requires i <= |polls|
    ensures var (last, ended) := Looped(args, log, run, polls, i);
            && (ended.Emptied? ==> last.pending == map[])
            && (ended.Stalled? || ended.Broken? ==> last.pending != map[])
            && (ended.AtLimit? ==> args.limit != 0 && last.matched >= args.limit)
    decreases |polls| - i
  {
    if run.pending != map[] && i < |polls| && (polls[i].EndOfPartition? || polls[i].Got?) {
      if polls[i].Got? && Available(log, run, polls[i].partition) {
        LoopedEnds(args, log, Taken(args, run, NextOf(log, run, polls[i].partition)).0, polls, i + 1);
      } else {
        LoopedEnds(args, log, run, polls, i + 1);
      }
    }
  }

  lemma {:induction false} LoopedSuffix(args: Args, log: Topic, run: Run, a: seq<Poll>, i: nat, b: seq<Poll>, j: nat)
    requires i <= |a| && j <= |b| && a[i..] == b[j..]
    ensures Looped(args, log, run, a, i) == Looped(args, log, run, b, j)
    decreases |a| - i
  {
    assert |a| - i == |a[i..]| == |b[j..]| == |b| - j;
    if i < |a| {
      assert a[i] == a[i..][0] == b[j];
      assert a[i + 1..] == a[i..][1..] == b[j..][1..] == b[j + 1..];
      LoopedSuffix(args, log, run, a, i + 1, b, j + 1);
      if a[i].Got? && Available(log, run, a[i].partition) {
        LoopedSuffix(args, log, Taken(args, run, NextOf(log, run, a[i].partition)).0, a, i + 1, b, j + 1);
      }
    }
  }

  /** A notice that a partition's end is reached for now is neither a stall nor an error: wherever among the
      polls it comes, the run is the one without it. */
  lemma {:induction false} EndOfPartitionIgnored(args: Args, log: Topic, run: Run, polls: seq<Poll>, i: nat, k: nat)
    requires i <= k <= |polls|
    ensures Looped(args, log, run, polls[..k] + [EndOfPartition] + polls[k..], i) == Looped(args, log, run, polls, i)
    decreases k - i
  {
    var more := polls[..k] + [EndOfPartition] + polls[k..];
    if i == k {
      assert more[k + 1..] == polls[k..];
      LoopedSuffix(args, log, run, more, k + 1, polls, k);
    } else {
      assert more[i] == polls[i];
      EndOfPartitionIgnored(args, log, run, polls, i + 1, k);
      if polls[i].Got? && Available(log, run, polls[i].partition) {
        EndOfPartitionIgnored(args, log, Taken(args, run, NextOf(log, run, polls[i].partition)).0, polls, i + 1, k);
      }
    }
  }

  /** An error on any poll the loop gets to ends it there, as a silence does; nothing else breaks it off. */
  lemma {:induction false} BrokenOffBy(args: Args, log: Topic, run: Run, polls: seq<Poll>, i: nat)
    requires i <= |polls|
    ensures Looped(args, log, run, polls, i).1.Broken? ==> exists k :: i <= k < |polls| && polls[k].Failed?
    ensures Looped(args, log, run, polls, i).1.Stalled? ==>
              || (exists k :: i <= k < |polls| && polls[k].Nothing?)
              || (forall k :: i <= k < |polls| ==> !polls[k].Failed?)
    decreases |polls| - i
  {
    if i < |polls| && run.pending != map[] && (polls[i].EndOfPartition? || polls[i].Got?) {
      BrokenOffBy(args, log, run, polls, i + 1);
      if polls[i].Got? && Available(log, run, polls[i].partition) {
        BrokenOffBy(args, log, Taken(args, run, NextOf(log, run, polls[i].partition)).0, polls, i + 1);
      }
    }
  }

  /** A run. What it reports and publishes is told by what it read; it ends early at the limit, on a
      stall, or on an error. */
  method Replay(args: Args, snapshot: Snapshot, log: Topic, polls: seq<Poll>)
    returns (run: Run, ended: Ending, ghost taken: seq<Read>)
    requires Ascending(log)
    ensures Finished(args, snapshot.ends, log, taken, run)
    ensures (run, ended) == Looped(args, log, Started(snapshot.ends), polls, 0)
    ensures (args.limit > 0 ==> |run.produced| <= args.limit) && (!args.publish ==> run.produced == [])
    ensures ended.Emptied? ==> run.pending == map[]
    ensures ended.Stalled? || ended.Broken? ==> run.pending != map[]
    ensures ended.AtLimit? ==> args.limit != 0 && run.matched >= args.limit
  {
    run, ended := Loop(args, snapshot.ends, log, polls);
    StartedGoesRound(args, snapshot.ends, log);
    taken := LoopedHolds(args, snapshot.ends, log, Started(snapshot.ends), polls, 0, []);
    LoopedEnds(args, log, Started(snapshot.ends), polls, 0);
    if args.limit > 0 { PublishedWithinLimit(args, snapshot.ends, log, taken, run); }
    if !args.publish { InspectingPublishesNothing(args, snapshot.ends, log, taken, run); }
  }

  // ---- Bounded by the snapshot ----

  lemma {:induction false} ProducedLength(xs: seq<Read>)
    ensures |Produced(xs)| == |xs|
  {
    if xs != [] { ProducedLength(xs[..|xs| - 1]); }
  }

  /** Every match is counted once: excluded, passed over, published, or only listed. */
  lemma {:induction false} MatchedSplits(args: Args, ends: map<nat, nat>, taken: seq<Read>)
    ensures |Select(args, ends, Matched, taken)|
            == |Select(args, ends, Excluded, taken)| + |Select(args, ends, Skipped, taken)|
               + |Select(args, ends, Republished, taken)| + |Select(args, ends, Listed, taken)|
  {
    if taken != [] { MatchedSplits(args, ends, taken[..|taken| - 1]); }
  }

  lemma {:induction false} NoneReaches(args: Args, ends: map<nat, nat>, stage: Stage, taken: seq<Read>)
    requires forall r :: !Reaches(args, ends, stage, r)
    ensures Select(args, ends, stage, taken) == []
  {
    if taken != [] { NoneReaches(args, ends, stage, taken[..|taken| - 1]); }
  }

  /** Never more than a positive limit in total, though more may match. */
  lemma {:induction false} PublishedWithinLimit(args: Args, ends: map<nat, nat>, log: Topic, taken: seq<Read>, run: Run)
    requires Finished(args, ends, log, taken, run) && args.limit > 0
    ensures |run.produced| <= args.limit
  {
    MatchedSplits(args, ends, taken);
    ProducedLength(Select(args, ends, Republished, taken));
  }

  /** More match than the limit exactly through letters with no origin: the limit-th match and every later
      one but the last were passed over. With an origin on the limit-th, the run ends there. */
  lemma {:induction false} PastLimitOnlySkips(args: Args, ends: map<nat, nat>, log: Topic, taken: seq<Read>, run: Run)
    requires Finished(args, ends, log, taken, run) && args.limit > 0
    ensures var matches := Select(args, ends, Matched, taken);
            && (run.matched > args.limit ==>
                  forall k :: args.limit - 1 <= k < run.matched - 1 ==> Reaches(args, ends, Skipped, matches[k]))
            && (run.matched >= args.limit && !Reaches(args, ends, Skipped, matches[args.limit - 1]) ==>
                  run.matched == args.limit)
  {
    var matches := Select(args, ends, Matched, taken);
    assert |matches| == run.matched;
  }

  /** A run that does: with a limit of one, a letter without an origin and one with, two match. */
  lemma {:induction false} MoreMatchThanTheLimit(topic: string)
    requires topic != ""
    ensures var args := Args(true, "", false, 1);
            var log := [[Record(0, "a", "x", None, None, None), Record(1, "b", "y", None, None, Some(topic))]];
            var (run, ended) := Looped(args, log, Started(map[0 := 2]), [Got(0), Got(0)], 0);
            ended.AtLimit? && run.matched == 2 && run.produced == [Publication(topic, "b", "y")]
  {
    var args, ends := Args(true, "", false, 1), map[0 := 2];
    var one, two := Record(0, "a", "x", None, None, None), Record(1, "b", "y", None, None, Some(topic));
    var log, polls := [[one, two]], [Got(0), Got(0)];
    var start := Started(ends);
    assert 0 in start.pending;
    var after := Taken(args, start, Read(0, one)).0;
    assert after == Run(ends, map[0 := 1], 1, 1, 0, []);
    var last := Taken(args, after, Read(0, two));
    assert last.1 && last.0.produced == [Publication(topic, "b", "y")] && last.0.matched == 2;
    assert Looped(args, log, after, polls, 1) == (last.0, AtLimit);
    assert Looped(args, log, start, polls, 0) == Looped(args, log, after, polls, 1);
  }

  /** A read-only run publishes nothing, and its matches keep to the limit. */
  lemma {:induction false} InspectingPublishesNothing(
    args: Args, ends: map<nat, nat>, log: Topic, taken: seq<Read>, run: Run)
    requires Finished(args, ends, log, taken, run) && !args.publish
    ensures run.produced == [] && (args.limit > 0 ==> run.matched <= args.limit)
  {
    NoneReaches(args, ends, Republished, taken);
    NoneReaches(args, ends, Skipped, taken);
  }

  ghost predicate Meets(args: Args, ends: map<nat, nat>, stage: Stage, xs: seq<Read>) {
    forall k :: 0 <= k < |xs| ==> Reaches(args, ends, stage, xs[k])
  }

  lemma {:induction false} SelectMeets(args: Args, ends: map<nat, nat>, stage: Stage, taken: seq<Read>)
    ensures Meets(args, ends, stage, Select(args, ends, stage, taken))
    ensures forall r :: r in Select(args, ends, stage, taken) ==> r in taken
    ensures forall r :: r in taken && Reaches(args, ends, stage, r) ==> r in Select(args, ends, stage, taken)
  {
    if taken != [] { SelectMeets(args, ends, stage, taken[..|taken| - 1]); }
    assert taken != [] ==> taken == taken[..|taken| - 1] + [taken[|taken| - 1]];
  }

  /** Among the records read, exactly those below the recorded watermark are looked at; exactly those of the
      service asked for, or all when none is, count as matches; exactly the non-retryable ones among them are
      excluded, unless they are asked for; and of the rest, exactly those that name the topic they came from
      go back to it, when the run is to publish. */
  lemma {:induction false} SelectedIff(args: Args, ends: map<nat, nat>, taken: seq<Read>, r: Read)
    requires r in taken
    ensures var p, offset := r.partition, r.record.offset;
            var ours := args.service == "" || r.record.service == Some(args.service);
            var poison := r.record.errorClass == Some("NonRetryableError");
            && (r in Select(args, ends, Seen, taken) <==> p in ends && offset < ends[p])
            && (r in Select(args, ends, Matched, taken) <==> p in ends && offset < ends[p] && ours)
            && (r in Select(args, ends, Excluded, taken) <==>
                p in ends && offset < ends[p] && ours && poison && !args.includePoison)
            && (r in Select(args, ends, Republished, taken) <==>
                && p in ends && offset < ends[p] && ours && (poison ==> args.includePoison)
                && args.publish && r.record.originTopic.Some? && r.record.originTopic.value != "")
  {
    SelectMeets(args, ends, Seen, taken);
    SelectMeets(args, ends, Matched, taken);
    SelectMeets(args, ends, Excluded, taken);
    SelectMeets(args, ends, Republished, taken);
  }

  lemma {:induction false} ProducedAt(xs: seq<Read>, k: nat)
    requires k < |xs|
    ensures |Produced(xs)| == |xs| && Produced(xs)[k] == CopyOf(xs[k].record)
  {
    ProducedLength(xs);
    ProducedLength(xs[..|xs| - 1]);
    if k < |xs| - 1 { ProducedAt(xs[..|xs| - 1], k); }
  }

  /** No record twice: within a partition the offsets climb. */
  ghost predicate Climbing(xs: seq<Read>) {
    forall j, k :: 0 <= j < k < |xs| && xs[j].partition == xs[k].partition ==> xs[j].record.offset < xs[k].record.offset
  }

  predicate Rising(rs: seq<Record>) { forall j, k :: 0 <= j < k < |rs| ==> rs[j].offset < rs[k].offset }

  lemma {:induction false} OfHolds(taken: seq<Read>, p: nat, k: nat)
    requires k < |taken| && taken[k].partition == p
    ensures taken[k].record in Of(taken, p)
  {
    if k < |taken| - 1 { OfHolds(taken[..|taken| - 1], p, k); }
  }

  lemma {:induction false} OfComes(taken: seq<Read>, p: nat, r: Record)
    requires r in Of(taken, p)
    ensures Read(p, r) in taken
  {
    var less, last := taken[..|taken| - 1], taken[|taken| - 1];
    if r in Of(less, p) { OfComes(less, p, r); } else { assert last == Read(p, r); }
  }

  lemma {:induction false} RisingIsClimbing(taken: seq<Read>)
    requires forall p: nat :: (exists k :: 0 <= k < |taken| && taken[k].partition == p) ==> Rising(Of(taken, p))
    ensures Climbing(taken)
  {
    if taken != [] {
      var less, last := taken[..|taken| - 1], taken[|taken| - 1];
      forall p: nat | exists k :: 0 <= k < |less| && less[k].partition == p ensures Rising(Of(less, p)) {
        var k :| 0 <= k < |less| && less[k].partition == p;
        assert taken[k].partition == p;
        assert Rising(Of(taken, p));
        PrefixRises(Of(less, p), Of(taken, p)[|Of(less, p)|..]);
      }
      RisingIsClimbing(less);
      forall j | 0 <= j < |less| && less[j].partition == last.partition
        ensures less[j].record.offset < last.record.offset
      {
        OfHolds(less, last.partition, j);
        assert Rising(Of(taken, last.partition));
        LastRises(Of(less, last.partition), last.record, less[j].record);
      }
    }
  }

  lemma {:induction false} PrefixRises(a: seq<Record>, b: seq<Record>)
    requires Rising(a + b)
    ensures Rising(a)
  {
    forall j, k | 0 <= j < k < |a| ensures a[j].offset < a[k].offset {
      assert (a + b)[j] == a[j] && (a + b)[k] == a[k];
    }
  }

  lemma {:induction false} LastRises(a: seq<Record>, last: Record, r: Record)
    requires Rising(a + [last]) && r in a
    ensures r.offset < last.offset
  {
    var k :| 0 <= k < |a| && a[k] == r;
    assert (a + [last])[k] == r && (a + [last])[|a|] == last;
  }

  lemma {:induction false} SelectClimbs(args: Args, ends: map<nat, nat>, stage: Stage, taken: seq<Read>)
    requires Climbing(taken)
    ensures Climbing(Select(args, ends, stage, taken))
  {
    if taken != [] {
      var less := taken[..|taken| - 1];
      SelectClimbs(args, ends, stage, less);
      SelectMeets(args, ends, stage, less);
    }
  }

  lemma {:induction false} ReadsClimb(log: Topic, taken: seq<Read>, position: map<nat, nat>)
    requires Ascending(log) && ReadInOrder(log, taken, position)
    ensures Climbing(taken)
  {
    forall p: nat | exists k :: 0 <= k < |taken| && taken[k].partition == p ensures Rising(Of(taken, p)) {
      assert Of(taken, p) == log[p][..At(position, p)];
    }
    RisingIsClimbing(taken);
  }

  /** The k-th publication is the k-th record selected: its key and value, to the topic it came from. */
  lemma {:induction false} PublishedToOrigin(
    args: Args, ends: map<nat, nat>, log: Topic, taken: seq<Read>, run: Run, k: nat)
    requires Tracks(args, ends, log, taken, run) && k < |run.produced|
    ensures var sources := Select(args, ends, Republished, taken);
            && |run.produced| == |sources| && Some(run.produced[k].topic) == sources[k].record.originTopic
            && run.produced[k].key == sources[k].record.key && run.produced[k].value == sources[k].record.value
  {
    var sources := Select(args, ends, Republished, taken);
    ProducedLength(sources);
    ProducedAt(sources, k);
    SelectMeets(args, ends, Republished, taken);
    assert Reaches(args, ends, Republished, sources[k]);
  }

  /** A run publishes only records below the recorded watermarks, each at most once; and everything it saw
      that is to be republished is. */
  lemma {:induction false} PublishedOnceInScope(args: Args, ends: map<nat, nat>, log: Topic, taken: seq<Read>, run: Run)
    requires Ascending(log) && Tracks(args, ends, log, taken, run)
    ensures var sources := Select(args, ends, Republished, taken);
            && run.produced == Produced(sources) && |run.produced| == |sources|
            && Meets(args, ends, Republished, sources) && Climbing(sources)
            && (forall r :: r in taken && Reaches(args, ends, Republished, r) ==> r in sources)
  {
    ReadsClimb(log, taken, run.position);
    SelectClimbs(args, ends, Republished, taken);
    SelectMeets(args, ends, Republished, taken);
    ProducedLength(Select(args, ends, Republished, taken));
  }

  /** A run that empties what it waits for has seen every readable record of the snapshot. */
  lemma {:induction false} EmptiedSawEverything(
    args: Args, ends: map<nat, nat>, log: Topic, taken: seq<Read>, run: Run, p: nat, k: nat)
    requires Ascending(log) && Tracks(args, ends, log, taken, run) && run.pending == map[]
    requires p in ends && p < |log| && k < |log[p]| && log[p][k].offset < ends[p]
    ensures Read(p, log[p][k]) in Select(args, ends, Seen, taken)
  {
    assert Reached(log, ends, run.position, p);
    var j :| 0 <= j < At(run.position, p) && j < |log[p]| && log[p][j].offset + 1 >= ends[p];
    assert k <= j;
    assert Of(taken, p) == log[p][..At(run.position, p)] && log[p][..At(run.position, p)][k] == log[p][k];
    OfComes(taken, p, log[p][k]);
    SelectMeets(args, ends, Seen, taken);
  }

  // ---- No more than was announced ----

  function Column(p: nat, low: nat, high: nat): set<(nat, nat)> { set o | low <= o < high :: (p, o) }

  function Cells(starts: seq<Assignment>, ends: map<nat, nat>): set<(nat, nat)> {
    if starts == [] then {}
    else
      var last := starts[|starts| - 1];
      Cells(starts[..|starts| - 1], ends) +
      if last.partition in ends
      then Column(last.partition, last.offset, ends[last.partition]) else {}
  }

  lemma {:induction false} ColumnSize(p: nat, low: nat, high: nat)
    ensures |Column(p, low, high)| == if low < high then high - low else 0
  {
    if low < high {
      ColumnSize(p, low, high - 1);
      assert Column(p, low, high) == Column(p, low, high - 1) + {(p, high - 1)};
    }
  }

  lemma {:induction false} CellsAreFew(starts: seq<Assignment>, ends: map<nat, nat>)
    ensures |Cells(starts, ends)| <= MessageCount(starts, ends)
  {
    if starts != [] {
      var last := starts[|starts| - 1];
      CellsAreFew(starts[..|starts| - 1], ends);
      if last.partition in ends { ColumnSize(last.partition, last.offset, ends[last.partition]); }
    }
  }

  lemma {:induction false} CellsHold(starts: seq<Assignment>, ends: map<nat, nat>, k: nat, o: nat)
    requires k < |starts| && starts[k].partition in ends && starts[k].offset <= o < ends[starts[k].partition]
    ensures (starts[k].partition, o) in Cells(starts, ends)
  {
    if k < |starts| - 1 { CellsHold(starts[..|starts| - 1], ends, k, o); }
  }

  lemma {:induction false} ClimbingFits(xs: seq<Read>, cells: set<(nat, nat)>)
    requires Climbing(xs) && forall k :: 0 <= k < |xs| ==> (xs[k].partition, xs[k].record.offset) in cells
    ensures |xs| <= |cells|
  {
    if xs != [] {
      var last := xs[|xs| - 1];
      ClimbingFits(xs[..|xs| - 1], cells - {(last.partition, last.record.offset)});
    }
  }

  /** The log holds what the low watermarks left. */
  ghost predicate StartsAbove(log: Topic, marks: seq<Watermarks>) {
    |log| == |marks| && forall p, k :: 0 <= p < |log| && 0 <= k < |log[p]| ==> marks[p].low <= log[p][k].offset
  }

  /** However many messages it provokes, a run sees no more than its snapshot announced. */
  lemma {:induction false} SeenWithinAnnounced(
    args: Args, marks: seq<Watermarks>, log: Topic, taken: seq<Read>, run: Run)
    requires Ascending(log) && StartsAbove(log, marks)
    requires Tracks(args, SnapshotOf(marks, |marks|).ends, log, taken, run)
    ensures run.seen <= TotalSpan(marks)
  {
    var s := SnapshotOf(marks, |marks|);
    var xs := Select(args, s.ends, Seen, taken);
    ReadsClimb(log, taken, run.position);
    SelectClimbs(args, s.ends, Seen, taken);
    SelectMeets(args, s.ends, Seen, taken);
    forall k | 0 <= k < |xs| ensures (xs[k].partition, xs[k].record.offset) in Cells(s.assignments, s.ends) {
      assert xs[k] in taken;
      SeenIsCell(marks, log, taken, run.position, xs[k]);
    }
    ClimbingFits(xs, Cells(s.assignments, s.ends));
    CellsAreFew(s.assignments, s.ends);
    SnapshotCount(marks, |marks|);
    assert marks[..|marks|] == marks;
  }

  lemma {:induction false} SeenIsCell(
    marks: seq<Watermarks>, log: Topic, taken: seq<Read>, position: map<nat, nat>, r: Read)
    requires StartsAbove(log, marks) && ReadInOrder(log, taken, position) && r in taken
    requires InScope(SnapshotOf(marks, |marks|).ends, r)
    ensures var s := SnapshotOf(marks, |marks|); (r.partition, r.record.offset) in Cells(s.assignments, s.ends)
  {
    var s, p := SnapshotOf(marks, |marks|), r.partition;
    var i :| 0 <= i < |taken| && taken[i] == r;
    OfHolds(taken, p, i);
    assert Of(taken, p) == log[p][..At(position, p)];
    SnapshotEnds(marks, |marks|, p);
    var k := SnapshotAssigns(marks, |marks|, p);
    CellsHold(s.assignments, s.ends, k, r.record.offset);
  }
}
