/** Resuming a kept store from its checkpoint instead of rebuilding it: what one resume gives, and
    what holds over any sequence of writes, releases, ownership moves, cleaning passes and crashes. */
module Checkpoints {
  import opened Events
  import opened Folds
  import opened Histories
  import opened Changelog

  /** How many leading records lie below an offset. */
  function Below(log: seq<Stamped>, c: nat): (n: nat)
    ensures n <= |log|
    ensures forall i :: 0 <= i < n ==> log[i].offset < c
    ensures n < |log| ==> c <= log[n].offset
  {
    BelowFrom(log, c, 0)
  }

  function BelowFrom(log: seq<Stamped>, c: nat, i: nat): (n: nat)
    requires i <= |log|
    ensures i <= n <= |log|
    ensures forall k :: i <= k < n ==> log[k].offset < c
    ensures n < |log| ==> c <= log[n].offset
    decreases |log| - i
  {
    if i == |log| || c <= log[i].offset then i else BelowFrom(log, c, i + 1)
  }

  /** The records a reader assigned at offset c would be handed. */
  function From(log: seq<Stamped>, c: nat): seq<Stamped> { log[Below(log, c)..] }

  /** A kept store brought up to date from its checkpoint. */
  function Resumed(disk: Store, actual: seq<Stamped>, c: nat): Store { Rebuild(disk, From(actual, c)) }

  /** The kept store holds a key whose delete has since been cleaned out of the changelog. */
  predicate Stale(full: seq<Stamped>, actual: seq<Stamped>, disk: Store, key: string) {
    key in disk && IsTombstone(Latest(full, key)) && Latest(actual, key).None?
  }

  /** The kept store reflects the first n records of the history, and the checkpoint is at or below
      the position that means. */
  ghost predicate Kept(full: seq<Stamped>, disk: Store, n: nat, c: nat) {
    && n <= |full|
    && disk == Rebuild(map[], full[..n])
    && (forall i :: n <= i < |full| ==> c <= full[i].offset)
  }

  lemma {:induction false} LatestFrom(actual: seq<Stamped>, c: nat, key: string)
    requires Ordered(actual)
    ensures Latest(From(actual, c), key).Some? ==> Latest(actual, key) == Latest(From(actual, c), key)
    ensures Latest(From(actual, c), key).None? && Latest(actual, key).Some? ==> Latest(actual, key).value.offset < c
  {
    var m := Below(actual, c);
    assert actual == actual[..m] + actual[m..];
    LatestConcat(actual[..m], actual[m..], key);
    LatestIsMember(actual[..m], key);
    assert forall r :: r in actual[..m] ==> r.offset < c;
  }

  /** What a resume leaves for one key, against what a full rebuild would. */
  lemma {:induction false} ResumeAtKey(
    full: seq<Stamped>, actual: seq<Stamped>, disk: Store, n: nat, c: nat, key: string)
    requires Ordered(actual) && Agrees(full, actual, key) && Kept(full, disk, n, c)
    ensures Get(Resumed(disk, actual, c), key) == Get(Rebuild(map[], full), key) <==> !Stale(full, actual, disk, key)
  {
    RebuildAtKey(disk, From(actual, c), key);
    RebuildAtKey(map[], full, key);
    RebuildAtKey(map[], full[..n], key);
    LatestFrom(actual, c, key);
    assert full == full[..n] + full[n..];
    LatestConcat(full[..n], full[n..], key);
    LatestIsMember(full[n..], key);
    assert forall r :: r in full[n..] ==> c <= r.offset;
    LatestIsMember(full, key);
  }

  /** Resuming from any checkpoint at or below the true position gives exactly the full rebuild,
      unless a delete the kept store missed has been cleaned away meanwhile. */
  lemma {:induction false} ResumeIsRebuildIff(full: seq<Stamped>, actual: seq<Stamped>, disk: Store, n: nat, c: nat)
    requires Ordered(actual) && Faithful(full, actual) && Kept(full, disk, n, c)
    ensures Resumed(disk, actual, c) == Rebuild(map[], actual) <==> forall key :: !Stale(full, actual, disk, key)
  {
    FaithfulRebuild(full, actual);
    forall key ensures Get(Resumed(disk, actual, c), key) == Get(Rebuild(map[], full), key) <==>
                       !Stale(full, actual, disk, key)
    {
      assert Agrees(full, actual, key);
      ResumeAtKey(full, actual, disk, n, c, key);
    }
    if forall key :: !Stale(full, actual, disk, key) {
      SameStore(Resumed(disk, actual, c), Rebuild(map[], full));
    }
  }

  // ---- Any kept store at all ----

  /** The changelog says nothing about the key from the checkpoint on, and the kept store does not say
      what the key's last record says. */
  predicate Differs(actual: seq<Stamped>, disk: Store, c: nat, key: string) {
    Latest(From(actual, c), key).None? && Get(disk, key) != ValueAt(Latest(actual, key))
  }

  /** Whatever the kept store holds and wherever its checkpoint lies, a resume gives the full rebuild
      exactly when no key differs. */
  lemma {:induction false} ResumeRepairsIff(actual: seq<Stamped>, disk: Store, c: nat)
    requires Ordered(actual)
    ensures Resumed(disk, actual, c) == Rebuild(map[], actual) <==> forall key :: !Differs(actual, disk, c, key)
  {
    forall key ensures Get(Resumed(disk, actual, c), key) == Get(Rebuild(map[], actual), key) <==>
                       !Differs(actual, disk, c, key)
    {
      RebuildAtKey(disk, From(actual, c), key);
      RebuildAtKey(map[], actual, key);
      LatestFrom(actual, c, key);
    }
    if forall key :: !Differs(actual, disk, c, key) {
      SameStore(Resumed(disk, actual, c), Rebuild(map[], actual));
    }
  }

  /** A kept store with the first n records of the history, and on top of them the writes that were in
      flight when its process let it go and never landed. */
  ghost predicate Abandoned(full: seq<Stamped>, disk: Store, n: nat, left: seq<Write>, c: nat) {
    && n <= |full|
    && disk == Replay(Rebuild(map[], full[..n]), left)
    && (forall i :: n <= i < |full| ==> c <= full[i].offset)
  }

  /** A key the resume gets wrong: it has no record from the checkpoint on, and either its last lost
      write is not what the history says, or the delete its store missed has been cleaned away. */
  predicate Astray(full: seq<Stamped>, actual: seq<Stamped>, disk: Store, left: seq<Write>, c: nat, key: string) {
    && Latest(From(actual, c), key).None?
    && if LastWrite(left, key).Some? then LastWrite(left, key).value.value != ValueAt(Latest(full, key))
       else Stale(full, actual, disk, key)
  }

  lemma {:induction false} AstrayIffDiffers(
    full: seq<Stamped>, actual: seq<Stamped>, disk: Store, n: nat, left: seq<Write>, c: nat, key: string)
    requires Ordered(actual) && Agrees(full, actual, key) && Abandoned(full, disk, n, left, c)
    ensures Astray(full, actual, disk, left, c, key) <==> Differs(actual, disk, c, key)
  {
    var kept := Rebuild(map[], full[..n]);
    ReplayAtKey(kept, left, key);
    if LastWrite(left, key).None? {
      ResumeAtKey(full, actual, kept, n, c, key);
      RebuildAtKey(kept, From(actual, c), key);
      RebuildAtKey(map[], full, key);
    }
  }

  /** So a crash or a release costs exactly the keys whose lost write nothing later overrides, and the
      keys whose delete was cleaned away. */
  lemma {:induction false} ResumeAfterLossIff(
    full: seq<Stamped>, actual: seq<Stamped>, disk: Store, n: nat, left: seq<Write>, c: nat)
    requires Ordered(actual) && Faithful(full, actual) && Abandoned(full, disk, n, left, c)
    ensures Resumed(disk, actual, c) == Rebuild(map[], full) <==>
            forall key :: !Astray(full, actual, disk, left, c, key)
  {
    FaithfulRebuild(full, actual);
    ResumeRepairsIff(actual, disk, c);
    forall key ensures Astray(full, actual, disk, left, c, key) <==> Differs(actual, disk, c, key) {
      assert Agrees(full, actual, key);
      AstrayIffDiffers(full, actual, disk, n, left, c, key);
    }
  }

  // ---- Whole runs ----

  /** One member's view of a partition under STATE_REBUILD=checkpoint. */
  datatype State = State(
    full: seq<Stamped>,           // every record ever appended
    actual: seq<Stamped>,         // what cleaning has left
    next: nat,                    // no later record gets a lower offset
    held: bool,
    disk: Store,
    checkpoint: Option<nat>,
    inFlight: seq<Write>,
    reflected: nat,               // how much of the history the disk store reflects
    left: seq<Write>,             // the writes in flight when the partition was last let go
    strays: nat)                  // resumes that met a key gone astray

  datatype Action =
    | WriteLocally(w: Write)
    | Land(offset: nat)           // the broker acknowledges the oldest enqueued record
    | Release                     // flush, checkpoint, close
    | Crash
    | AppendElsewhere(r: Stamped) // another owner writes to the partition
    | CleanPass(kept: set<nat>)
    | Acquire                     // restore: resume if there is a checkpoint, else rebuild

  ghost predicate Enabled(s: State, a: Action) {
    match a
    case WriteLocally(_) => s.held
    case Land(offset) => s.held && s.inFlight != [] && s.next <= offset
    case Release => s.held
    case Crash => s.held
    case AppendElsewhere(r) => !s.held && s.next <= r.offset
    case CleanPass(kept) => Admissible(s.actual, kept)
    case Acquire => !s.held
  }

  function Restore(s: State): Store {
    if s.checkpoint.Some? then Resumed(s.disk, s.actual, s.checkpoint.value) else Rebuild(map[], s.actual)
  }

  predicate GoneAstray(s: State, key: string) {
    s.checkpoint.Some? && Astray(s.full, s.actual, s.disk, s.left, s.checkpoint.value, key)
  }

  ghost predicate MeetsStray(s: State) { exists key :: GoneAstray(s, key) }

  function Logged(s: State, r: Stamped): State {
    s.(full := s.full + [r], actual := s.actual + [r], next := r.offset + 1)
  }

  function Left(s: State): State {
    s.(held := false, inFlight := [], left := s.inFlight)
  }

  ghost function Do(s: State, a: Action): State
    requires Enabled(s, a)
  {
    match a
    case WriteLocally(w) => s.(disk := Apply(s.disk, w), inFlight := s.inFlight + [w])
    case Land(offset) =>
      Logged(s, Stamped(offset, s.inFlight[0])).(inFlight := s.inFlight[1..], reflected := s.reflected + 1)
    case Release => Left(s).(checkpoint := Some(s.next))
    case Crash => Left(s)
    case AppendElsewhere(r) => Logged(s, r)
    case CleanPass(kept) => s.(actual := Clean(s.actual, kept))
    case Acquire =>
      s.(held := true, disk := Restore(s), reflected := |s.full|, strays := s.strays + if MeetsStray(s) then 1 else 0)
  }

  ghost function Exec(acts: seq<Action>): Option<State> {
    if acts == [] then Some(State([], [], 0, false, map[], None, [], 0, [], 0))
    else
      var before := Exec(acts[..|acts| - 1]);
      if before.Some? && Enabled(before.value, acts[|acts| - 1])
      then Some(Do(before.value, acts[|acts| - 1])) else None
  }

  ghost predicate LogInv(s: State) {
    && Ordered(s.full) && Ordered(s.actual) && Faithful(s.full, s.actual)
    && (forall r :: r in s.full ==> r.offset < s.next)
    && (forall r :: r in s.actual ==> r.offset < s.next)
  }

  ghost predicate DiskInv(s: State) {
    && s.reflected <= |s.full|
    && (s.held ==> s.reflected == |s.full|)
    && (!s.held ==> s.inFlight == [])
    && s.disk == Replay(Rebuild(map[], s.full[..s.reflected]), if s.held then s.inFlight else s.left)
    && (s.checkpoint.Some? ==>
          && s.checkpoint.value <= s.next
          && forall i :: s.reflected <= i < |s.full| ==> s.checkpoint.value <= s.full[i].offset)
  }

  lemma {:induction false} LogKept(s: State, a: Action)
    requires LogInv(s) && Enabled(s, a)
    ensures LogInv(Do(s, a))
  {
    match a
    case Land(offset) => AppendIsFaithful(s.full, s.actual, Stamped(offset, s.inFlight[0]));
    case AppendElsewhere(r) => AppendIsFaithful(s.full, s.actual, r);
    case CleanPass(kept) => CleanIsFaithful(s.full, s.actual, kept); CleanIsOrdered(s.actual, kept);
    case _ =>
  }

  /** Landing the oldest record moves it from the queue to the history without changing the store. */
  lemma {:induction false} LandKeepsDisk(full: seq<Stamped>, queue: seq<Write>, offset: nat)
    requires queue != []
    ensures Replay(Rebuild(map[], full + [Stamped(offset, queue[0])]), queue[1..])
            == Replay(Rebuild(map[], full), queue)
  {
    RebuildAppend(map[], full, Stamped(offset, queue[0]));
    assert queue == [queue[0]] + queue[1..];
    ReplayConcat(Rebuild(map[], full), [queue[0]], queue[1..]);
    assert [queue[0]][..0] == [];
    assert Replay(Rebuild(map[], full), [queue[0]]) == Apply(Rebuild(map[], full), queue[0]);
  }

  lemma {:induction false} RestoreIff(s: State)
    requires LogInv(s) && DiskInv(s) && !s.held
    ensures Rebuild(map[], s.actual) == Rebuild(map[], s.full)
    ensures Restore(s) == Rebuild(map[], s.full) <==> forall key :: !GoneAstray(s, key)
  {
    FaithfulRebuild(s.full, s.actual);
    if s.checkpoint.Some? {
      assert Abandoned(s.full, s.disk, s.reflected, s.left, s.checkpoint.value);
      ResumeAfterLossIff(s.full, s.actual, s.disk, s.reflected, s.left, s.checkpoint.value);
      assert forall key :: GoneAstray(s, key) <==> Astray(s.full, s.actual, s.disk, s.left, s.checkpoint.value, key);
    }
  }

  lemma {:induction false} DiskKept(s: State, a: Action)
    requires LogInv(s) && DiskInv(s) && Enabled(s, a)
    requires Do(s, a).strays == s.strays
    ensures DiskInv(Do(s, a))
  {
    if a.WriteLocally? {
      ReplayAppend(Rebuild(map[], s.full[..s.reflected]), s.inFlight, a.w);
    } else if a.Land? {
      LandStepKeepsDisk(s, a.offset);
    } else if a.AppendElsewhere? {
      assert (s.full + [a.r])[..s.reflected] == s.full[..s.reflected];
    } else if a.Acquire? {
      RestoreIff(s);
      assert s.full[..|s.full|] == s.full;
    }
  }

  lemma {:induction false} LandStepKeepsDisk(s: State, offset: nat)
    requires LogInv(s) && DiskInv(s) && Enabled(s, Land(offset))
    ensures DiskInv(Do(s, Land(offset)))
  {
    var t := Do(s, Land(offset));
    assert s.full[..s.reflected] == s.full;
    assert t.full[..s.reflected + 1] == t.full;
    LandKeepsDisk(s.full, s.inFlight, offset);
  }

  lemma {:induction false} RunHolds(acts: seq<Action>, t: State)
    requires Exec(acts) == Some(t) && t.strays == 0
    ensures LogInv(t) && DiskInv(t)
  {
    if acts != [] {
      var a, s := acts[|acts| - 1], Exec(acts[..|acts| - 1]).value;
      RunHolds(acts[..|acts| - 1], s);
      LogKept(s, a);
      DiskKept(s, a);
    }
  }

  lemma {:induction false} LogHolds(acts: seq<Action>, t: State)
    requires Exec(acts) == Some(t)
    ensures LogInv(t)
  {
    if acts != [] {
      var a, s := acts[|acts| - 1], Exec(acts[..|acts| - 1]).value;
      LogHolds(acts[..|acts| - 1], s);
      LogKept(s, a);
    }
  }

  /** After any run at all, whatever went wrong earlier: a resume is the full rebuild exactly when no key
      the changelog is silent about from the checkpoint on is kept with another value than its last. */
  lemma {:induction false} RestoreInAnyRun(acts: seq<Action>, s: State)
    requires Exec(acts) == Some(s) && !s.held
    ensures s.checkpoint.None? ==> Restore(s) == Rebuild(map[], s.full)
    ensures s.checkpoint.Some? ==>
              (Restore(s) == Rebuild(map[], s.full) <==>
               forall key :: !Differs(s.actual, s.disk, s.checkpoint.value, key))
  {
    LogHolds(acts, s);
    FaithfulRebuild(s.full, s.actual);
    if s.checkpoint.Some? { ResumeRepairsIff(s.actual, s.disk, s.checkpoint.value); }
  }

  /** Across any sequence of writes, releases, moves, cleaning passes and crashes, with writes lost in
      flight or not: whenever the partition comes back, the restore is the full rebuild exactly when no
      key has gone astray; and up to then every earlier restore was. */
  lemma {:induction false} CheckpointRefinesRebuild(acts: seq<Action>, s: State)
    requires Exec(acts) == Some(s) && s.strays == 0 && !s.held
    ensures Rebuild(map[], s.actual) == Rebuild(map[], s.full)
    ensures Restore(s) == Rebuild(map[], s.full) <==> forall key :: !GoneAstray(s, key)
    ensures s.checkpoint.None? ==> Restore(s) == Rebuild(map[], s.full)
    ensures s.left == [] ==>
              forall key :: GoneAstray(s, key) ==> Stale(s.full, s.actual, s.disk, key)
  {
    RunHolds(acts, s);
    RestoreIff(s);
  }

  /** The lost write itself: after a crash with one write in flight to a key without a later record, the
      resume disagrees about that key exactly when the history does not end in the same value. */
  lemma {:induction false} LostWriteSurvivesIff(s: State, w: Write)
    requires LogInv(s) && DiskInv(s) && s.held && s.checkpoint.Some? && s.inFlight == []
    requires Latest(From(s.actual, s.checkpoint.value), w.key).None?
    ensures var t := Do(Do(s, WriteLocally(w)), Crash);
            && Get(Restore(t), w.key) == w.value
            && (GoneAstray(t, w.key) <==> w.value != ValueAt(Latest(s.full, w.key)))
  {
    var t := Do(Do(s, WriteLocally(w)), Crash);
    assert t.left == [w] && LastWrite([w], w.key) == Some(w);
    RebuildAtKey(t.disk, From(t.actual, t.checkpoint.value), w.key);
  }
}
