/** The compacted changelog: what cleaning may remove, what a rebuild reads back, and when a
    kept store may be resumed from its checkpoint. */
module Changelog {
  import opened Events
  import opened Folds
  import opened Histories

  /** A record at its offset. Offsets climb and may have holes. */
  datatype Stamped = Stamped(offset: nat, write: Write)

  predicate Ordered(log: seq<Stamped>) {
    forall i, j :: 0 <= i < j < |log| ==> log[i].offset < log[j].offset
  }

  function Writes(log: seq<Stamped>): (ws: seq<Write>)
    ensures |ws| == |log| && forall i :: 0 <= i < |log| ==> ws[i] == log[i].write
  {
    seq(|log|, i requires 0 <= i < |log| => log[i].write)
  }

  /** The store a log replays to, on top of what is already there. */
  function Rebuild(s: Store, log: seq<Stamped>): Store { Replay(s, Writes(log)) }

  lemma {:induction false} RebuildAppend(s: Store, log: seq<Stamped>, r: Stamped)
    ensures Rebuild(s, log + [r]) == Apply(Rebuild(s, log), r.write)
  {
    assert Writes(log + [r]) == Writes(log) + [r.write];
    ReplayAppend(s, Writes(log), r.write);
  }

  /** The last record of a key. */
  function Latest(log: seq<Stamped>, key: string): Option<Stamped> {
    if log == [] then None
    else if log[|log| - 1].write.key == key then Some(log[|log| - 1])
    else Latest(log[..|log| - 1], key)
  }

  function ValueAt(r: Option<Stamped>): Option<Record> {
    if r.Some? then r.value.write.value else None
  }

  predicate IsTombstone(r: Option<Stamped>) { r.Some? && r.value.write.value.None? }

  /** A rebuild depends on each key's last record and nothing else. */
  lemma {:induction false} RebuildAtKey(s: Store, log: seq<Stamped>, key: string)
    ensures Get(Rebuild(s, log), key) ==
            if Latest(log, key).Some? then ValueAt(Latest(log, key)) else Get(s, key)
  {
    if log != [] {
      var init, last := log[..|log| - 1], log[|log| - 1];
      RebuildAtKey(s, init, key);
      assert log == init + [last];
      RebuildAppend(s, init, last);
    }
  }

  lemma {:induction false} SameStore(a: Store, b: Store)
    requires forall key :: Get(a, key) == Get(b, key)
    ensures a == b
  {
    forall key ensures (key in a <==> key in b) && (key in a ==> a[key] == b[key]) {
      assert Get(a, key) == Get(b, key);
    }
  }

  lemma {:induction false} LatestConcat(a: seq<Stamped>, b: seq<Stamped>, key: string)
    ensures Latest(a + b, key) == if Latest(b, key).Some? then Latest(b, key) else Latest(a, key)
  {
    if b == [] {
      assert a + b == a;
    } else {
      assert (a + b)[..|a + b| - 1] == a + b[..|b| - 1];
      LatestConcat(a, b[..|b| - 1], key);
    }
  }

  lemma {:induction false} LatestIsMember(log: seq<Stamped>, key: string)
    ensures Latest(log, key).Some? ==> Latest(log, key).value in log && Latest(log, key).value.write.key == key
  {
    if log != [] { LatestIsMember(log[..|log| - 1], key); }
  }

  // ---- Cleaning ----

  /** What a cleaning pass leaves when it keeps the given offsets. */
  function Clean(log: seq<Stamped>, kept: set<nat>): seq<Stamped> {
    if log == [] then []
    else
      var rest := Clean(log[..|log| - 1], kept);
      if log[|log| - 1].offset in kept then rest + [log[|log| - 1]] else rest
  }

  /** A pass keeps the last record of every key, except that a tombstone may go once nothing
      else of its key remains. */
  ghost predicate Admissible(log: seq<Stamped>, kept: set<nat>) {
    forall key :: Latest(log, key).Some? && Latest(log, key).value.offset !in kept ==>
      IsTombstone(Latest(log, key)) && forall r :: r in log && r.write.key == key ==> r.offset !in kept
  }

  /** The cleaned log says the same as the full one about a key, up to a forgotten tombstone. */
  predicate Agrees(full: seq<Stamped>, actual: seq<Stamped>, key: string) {
    || Latest(actual, key) == Latest(full, key)
    || (Latest(actual, key).None? && IsTombstone(Latest(full, key)))
  }

  ghost predicate Faithful(full: seq<Stamped>, actual: seq<Stamped>) {
    forall key :: Agrees(full, actual, key)
  }

  lemma {:induction false} CleanKeepsLatest(log: seq<Stamped>, kept: set<nat>, key: string)
    requires Latest(log, key).Some? && Latest(log, key).value.offset in kept
    ensures Latest(Clean(log, kept), key) == Latest(log, key)
  {
    var init, last := log[..|log| - 1], log[|log| - 1];
    var rest := Clean(init, kept);
    if last.offset in kept { assert (rest + [last])[..|rest|] == rest; }
    if last.write.key != key { CleanKeepsLatest(init, kept, key); }
  }

  lemma {:induction false} CleanForgets(log: seq<Stamped>, kept: set<nat>, key: string)
    requires forall r :: r in log && r.write.key == key ==> r.offset !in kept
    ensures Latest(Clean(log, kept), key).None?
  {
    if log != [] {
      var init, last := log[..|log| - 1], log[|log| - 1];
      CleanForgets(init, kept, key);
      var rest := Clean(init, kept);
      if last.offset in kept { assert (rest + [last])[..|rest|] == rest; }
    }
  }

  lemma {:induction false} CleanIsOrdered(log: seq<Stamped>, kept: set<nat>)
    requires Ordered(log)
    ensures Ordered(Clean(log, kept)) && forall r :: r in Clean(log, kept) ==> r in log
  {
    if log != [] {
      var init, last := log[..|log| - 1], log[|log| - 1];
      CleanIsOrdered(init, kept);
      assert log == init + [last];
      forall r | r in init ensures r.offset < last.offset { }
    }
  }

  lemma {:induction false} CleanIsFaithful(full: seq<Stamped>, actual: seq<Stamped>, kept: set<nat>)
    requires Faithful(full, actual) && Admissible(actual, kept)
    ensures Faithful(full, Clean(actual, kept))
  {
    forall key ensures Agrees(full, Clean(actual, kept), key) {
      assert Agrees(full, actual, key);
      if Latest(actual, key).Some? && Latest(actual, key).value.offset in kept {
        CleanKeepsLatest(actual, kept, key);
      } else {
        if Latest(actual, key).None? { NoneMeansAbsent(actual, key); }
        CleanForgets(actual, kept, key);
      }
    }
  }

  lemma {:induction false} NoneMeansAbsent(log: seq<Stamped>, key: string)
    requires Latest(log, key).None?
    ensures forall r :: r in log ==> r.write.key != key
  {
    if log != [] {
      NoneMeansAbsent(log[..|log| - 1], key);
      assert log == log[..|log| - 1] + [log[|log| - 1]];
    }
  }

  lemma {:induction false} AppendIsFaithful(full: seq<Stamped>, actual: seq<Stamped>, r: Stamped)
    requires Faithful(full, actual)
    ensures Faithful(full + [r], actual + [r])
  {
    assert (full + [r])[..|full|] == full && (actual + [r])[..|actual|] == actual;
    forall key ensures Agrees(full + [r], actual + [r], key) { assert Agrees(full, actual, key); }
  }

  lemma {:induction false} FaithfulRebuild(full: seq<Stamped>, actual: seq<Stamped>)
    requires Faithful(full, actual)
    ensures Rebuild(map[], actual) == Rebuild(map[], full)
  {
    forall key ensures Get(Rebuild(map[], actual), key) == Get(Rebuild(map[], full), key) {
      assert Agrees(full, actual, key);
      RebuildAtKey(map[], full, key);
      RebuildAtKey(map[], actual, key);
    }
    SameStore(Rebuild(map[], actual), Rebuild(map[], full));
  }

  /** What can happen to a changelog partition. */
  datatype Change = Appended(record: Stamped) | Cleaned(kept: set<nat>)

  ghost predicate Possible(full: seq<Stamped>, actual: seq<Stamped>, c: Change) {
    match c
    case Appended(r) => forall q :: q in full ==> q.offset < r.offset
    case Cleaned(kept) => Admissible(actual, kept)
  }

  /** The uncleaned history and the log as it stands, after a list of changes. */
  ghost function Evolve(changes: seq<Change>): Option<(seq<Stamped>, seq<Stamped>)> {
    if changes == [] then Some(([], []))
    else
      var before := Evolve(changes[..|changes| - 1]);
      var c := changes[|changes| - 1];
      if before.None? || !Possible(before.value.0, before.value.1, c) then None
      else match c
        case Appended(r) => Some((before.value.0 + [r], before.value.1 + [r]))
        case Cleaned(kept) => Some((before.value.0, Clean(before.value.1, kept)))
  }

  /** However appends and cleaning passes interleave, a rebuild reads the same store. */
  lemma {:induction false} CompactionKeepsRebuild(changes: seq<Change>)
    requires Evolve(changes).Some?
    ensures var (full, actual) := Evolve(changes).value;
            && Ordered(full) && Ordered(actual) && Faithful(full, actual)
            && (forall r :: r in actual ==> r in full)
            && Rebuild(map[], actual) == Rebuild(map[], full)
  {
    if changes != [] {
      CompactionKeepsRebuild(changes[..|changes| - 1]);
      var (full, actual) := Evolve(changes[..|changes| - 1]).value;
      match changes[|changes| - 1] {
        case Appended(r) => AppendIsFaithful(full, actual, r);
        case Cleaned(kept) => CleanIsFaithful(full, actual, kept); CleanIsOrdered(actual, kept);
      }
    }
    var (full, actual) := Evolve(changes).value;
    FaithfulRebuild(full, actual);
  }

  // ---- Reading a partition back ----

  datatype Poll = Silence | EndOfPartition | Trouble | Received(record: Stamped)

  datatype Restored = Restored(store: Store, records: nat, keys: nat) | Unavailable

  /** The records a reader has handed over so far. */
  function HandedOver(polls: seq<Poll>): seq<Stamped> {
    if polls == [] then []
    else
      var rest := HandedOver(polls[..|polls| - 1]);
      if polls[|polls| - 1].Received? then rest + [polls[|polls| - 1].record] else rest
  }

  lemma {:induction false} HandedOverPrefix(polls: seq<Poll>, n: nat)
    requires n <= |polls|
    ensures HandedOver(polls[..n]) <= HandedOver(polls)
  {
    if n == |polls| {
      assert polls[..n] == polls;
    } else {
      HandedOverPrefix(polls[..|polls| - 1], n);
      assert polls[..|polls| - 1][..n] == polls[..n];
    }
  }

  /** Applies one record to the store and to the set of keys left live. */
  method ApplyRecord(store: Store, live: set<string>, ghost seen: Store, record: Stamped)
    returns (store': Store, live': set<string>)
    requires live == seen.Keys
    ensures store' == Apply(store, record.write)
    ensures live' == Apply(seen, record.write).Keys
  {
    var key := record.write.key;
    store', live' := store, live;
    if record.write.value.None? {
      if key in store' { store' := store' - {key}; }
      live' := live' - {key};
    } else {
      store' := store'[key := record.write.value.value];
      live' := live' + {key};
    }
  }

  /** Where reading goes on after the records read so far. */
  function NextOffset(start: nat, read: seq<Stamped>): nat {
    if read == [] then start else read[|read| - 1].offset + 1
  }

  lemma {:induction false} NothingLeftBelow(tail: seq<Stamped>, start: nat, n: nat, high: nat)
    requires Ordered(tail) && (forall q :: q in tail ==> start <= q.offset)
    requires n <= |tail| && high <= NextOffset(start, tail[..n])
    ensures forall i :: n <= i < |tail| ==> high <= tail[i].offset
  {
    forall i | n <= i < |tail| ensures high <= tail[i].offset {
      assert tail[i] in tail;
      assert n > 0 ==> tail[..n][n - 1] == tail[n - 1] && tail[n - 1].offset < tail[i].offset;
    }
  }

  /** One more poll hands over the next record of the tail, or nothing. */
  lemma {:induction false} PollHandsOver(polls: seq<Poll>, tail: seq<Stamped>, i: nat, n: nat)
    requires i < |polls| && n <= |tail| && HandedOver(polls) <= tail && tail[..n] == HandedOver(polls[..i])
    ensures !polls[i].Received? ==> HandedOver(polls[..i + 1]) == tail[..n]
    ensures polls[i].Received? ==> n < |tail| && tail[n] == polls[i].record
    ensures polls[i].Received? ==> tail[..n + 1] == tail[..n] + [polls[i].record] == HandedOver(polls[..i + 1])
  {
    HandedOverPrefix(polls, i + 1);
    HandedOverOne(polls, i);
    if polls[i].Received? {
      var more := HandedOver(polls[..i + 1]);
      assert more[n] == polls[i].record && more <= tail;
      assert tail[..n + 1] == tail[..n] + [tail[n]];
    }
  }

  lemma {:induction false} HandedOverOne(polls: seq<Poll>, i: nat)
    requires i < |polls|
    ensures HandedOver(polls[..i + 1])
            == if polls[i].Received? then HandedOver(polls[..i]) + [polls[i].record] else HandedOver(polls[..i])
  {
    assert polls[..i + 1][..i] == polls[..i];
  }

  /** Whether the polls from the i-th on bring the reader to the watermark before anything stops it. */
  predicate Arrives(polls: seq<Poll>, i: nat, next: nat, high: nat)
    requires i <= |polls|
    decreases |polls| - i
  {
    || high <= next
    || (i < |polls| && polls[i].EndOfPartition? && Arrives(polls, i + 1, next, high))
    || (i < |polls| && polls[i].Received? && Arrives(polls, i + 1, polls[i].record.offset + 1, high))
  }

  /** Nothing but records, and notices that the end is reached for now, among the first polls. */
  predicate Undisturbed(polls: seq<Poll>, n: nat) {
    n <= |polls| && forall i :: 0 <= i < n ==> polls[i].EndOfPartition? || polls[i].Received?
  }

  /** It does exactly when some undisturbed beginning of the polls hands over records up to the watermark. */
  lemma {:induction false} ArrivesIff(polls: seq<Poll>, start: nat, high: nat)
    ensures Arrives(polls, 0, start, high) <==>
            exists n: nat :: Undisturbed(polls, n) && high <= NextOffset(start, HandedOver(polls[..n]))
  {
    assert polls[..0] == [];
    if Arrives(polls, 0, start, high) {
      var n := ArrivesBy(polls, 0, start, high);
    } else {
      forall n: nat | Undisturbed(polls, n) ensures NextOffset(start, HandedOver(polls[..n])) < high {
        NotArrivedBy(polls, n, start, high);
      }
    }
  }

  lemma {:induction false} ArrivesBy(polls: seq<Poll>, i: nat, start: nat, high: nat) returns (n: nat)
    requires Undisturbed(polls, i) && Arrives(polls, i, NextOffset(start, HandedOver(polls[..i])), high)
    ensures Undisturbed(polls, n) && high <= NextOffset(start, HandedOver(polls[..n]))
    decreases |polls| - i
  {
    n := i;
    if NextOffset(start, HandedOver(polls[..i])) < high {
      HandedOverOne(polls, i);
      n := ArrivesBy(polls, i + 1, start, high);
    }
  }

  lemma {:induction false} NotArrivedBy(polls: seq<Poll>, n: nat, start: nat, high: nat)
    requires Undisturbed(polls, n) && !Arrives(polls, 0, start, high)
    ensures NextOffset(start, HandedOver(polls[..n])) < high
    ensures !Arrives(polls, n, NextOffset(start, HandedOver(polls[..n])), high)
  {
    if n == 0 {
      assert polls[..0] == [];
    } else {
      NotArrivedBy(polls, n - 1, start, high);
      HandedOverOne(polls, n - 1);
    }
  }

  /** Reads one partition to its watermark. The reader hands over the records at or past the start
      in offset order, possibly interrupted; anything that stops it short is an error. When it
      returns, everything below the watermark has been applied, on top of what was there. */
  method Drain(initial: Store, ghost tail: seq<Stamped>, polls: seq<Poll>, start: nat, high: nat) returns (r: Restored)
    requires Ordered(tail) && (forall q :: q in tail ==> start <= q.offset)
    requires HandedOver(polls) <= tail
    ensures r.Restored? ==>
              && r.records <= |tail|
              && r.store == Rebuild(initial, tail[..r.records])
              && r.keys == |Rebuild(map[], tail[..r.records])|
              && (forall i :: r.records <= i < |tail| ==> high <= tail[i].offset)
    ensures r.Restored? <==> Arrives(polls, 0, start, high)
  {
    var store, live: set<string>, records, next, i := initial, {}, 0, start, 0;
    assert tail[..0] == [];
    while next < high
      invariant 0 <= i <= |polls| && records <= |tail| && tail[..records] == HandedOver(polls[..i])
      invariant store == Rebuild(initial, tail[..records])
      invariant live == Rebuild(map[], tail[..records]).Keys
      invariant next == NextOffset(start, tail[..records])
      invariant Arrives(polls, 0, start, high) <==> Arrives(polls, i, next, high)
      decreases |polls| - i
    {
      if i == |polls| { return Unavailable; }
      var poll := polls[i];
      PollHandsOver(polls, tail, i, records);
      i := i + 1;
      if poll.Silence? || poll.Trouble? { return Unavailable; }
      if poll.EndOfPartition? { continue; }
      RebuildAppend(initial, tail[..records], poll.record);
      RebuildAppend(map[], tail[..records], poll.record);
      store, live := ApplyRecord(store, live, Rebuild(map[], tail[..records]), poll.record);
      next := poll.record.offset + 1;
      records := records + 1;
    }
    NothingLeftBelow(tail, start, records, high);
    return Restored(store, records, |live|);
  }

  /** A full rebuild that returns yields the store of the uncleaned log, and reports its size. */
  method RestoreFull(ghost changes: seq<Change>, polls: seq<Poll>, high: nat) returns (r: Restored)
    requires Evolve(changes).Some? && HandedOver(polls) <= Evolve(changes).value.1
    requires forall q :: q in Evolve(changes).value.1 ==> q.offset < high
    ensures r.Restored? ==> r.store == Rebuild(map[], Evolve(changes).value.0) && r.keys == |r.store|
    ensures r.Restored? <==> Arrives(polls, 0, 0, high)
  {
    CompactionKeepsRebuild(changes);
    ghost var (full, actual) := Evolve(changes).value;
    r := Drain(map[], actual, polls, 0, high);
    assert r.Restored? ==> actual[..r.records] == actual;
  }
}
