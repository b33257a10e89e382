/** How offsets reach the broker under exactly_once: a transaction opened by the first handled
    message, the offsets gathered in it, and the two ways it ends. */
module Commits {
  import opened Events

  datatype Topic = Lifecycle | Snapshot

  /** One handled message: where it was read. */
  datatype Mark = Mark(topic: Topic, partition: nat, offset: nat)

  /** What the committer holds: whether a transaction is open, how many messages it covers, the
      partitions it touched and where each topic-partition would resume. */
  datatype Txn = Txn(open: bool, messages: nat, touched: set<nat>, offsets: map<(Topic, nat), nat>)

  const CLOSED := Txn(false, 0, {}, map[])

  function Noted(t: Txn, n: Mark): Txn {
    Txn(true, (if t.open then t.messages else 0) + 1, t.touched + {n.partition},
        t.offsets[(n.topic, n.partition) := n.offset + 1])
  }

  /** The committer after the messages noted since the transaction opened. */
  function TxnOf(notes: seq<Mark>): Txn {
    if notes == [] then CLOSED else Noted(TxnOf(notes[..|notes| - 1]), notes[|notes| - 1])
  }

  /** The last message noted for a topic-partition. */
  function LastFor(notes: seq<Mark>, tp: (Topic, nat)): Option<nat> {
    if notes == [] then None
    else
      var n := notes[|notes| - 1];
      if (n.topic, n.partition) == tp then Some(n.offset) else LastFor(notes[..|notes| - 1], tp)
  }

  ghost predicate TouchedAreHeld(t: Txn) {
    forall p :: p in t.touched <==> (Lifecycle, p) in t.offsets || (Snapshot, p) in t.offsets
  }

  /** Exactly the noted topic-partitions have an offset, each one past its last noted message; the
      touched partitions are exactly those; nothing is held while no transaction is open. */
  lemma {:induction false} CommitterHolds(notes: seq<Mark>)
    ensures var t := TxnOf(notes);
            && t.messages == |notes|
            && (t.open <==> notes != [])
            && TouchedAreHeld(t)
            && (forall tp :: tp in t.offsets <==> LastFor(notes, tp).Some?)
            && (forall tp :: tp in t.offsets ==> t.offsets[tp] == LastFor(notes, tp).value + 1)
  {
    if notes != [] {
      CommitterHolds(notes[..|notes| - 1]);
      var n := notes[|notes| - 1];
      assert n.topic.Lifecycle? || n.topic.Snapshot?;
      assert (n.topic, n.partition) in TxnOf(notes).offsets;
    }
  }

  lemma {:induction false} MessagesAreNotes(notes: seq<Mark>)
    ensures TxnOf(notes).messages == |notes|
  {
    if notes != [] { MessagesAreNotes(notes[..|notes| - 1]); }
  }

  /** The transactional client's own view: it refuses a begin while an earlier transaction is not
      resolved, and refuses to produce outside one. */
  datatype Client = NoTransaction | InTransaction | Unresolved

  datatype CommitOutcome =
    | Committed         // the broker committed and said so
    | LandedUnknown     // the broker committed, the call failed
    | Failed            // the call failed and the broker did not commit
    | Fenced            // the epoch is behind: the process must exit

  datatype AbortOutcome = Aborted | AbortFailed | AbortFenced

  datatype Verdict = Nothing | Done | KafkaFailure | ProducerFenced

  /** The messages of a transaction with the one just handled, if there was one and it was taken up. */
  function Joined(notes: seq<Mark>, handled: Option<Mark>, refused: bool): seq<Mark> {
    if handled.Some? && !refused then notes + [handled.value] else notes
  }

  /** The offsets the broker has accepted once a transaction's commit has come out one way or another. */
  function Settled(submitted: seq<map<(Topic, nat), nat>>, outcome: CommitOutcome, t: Txn)
    : seq<map<(Topic, nat), nat>>
  {
    if outcome.Committed? || outcome.LandedUnknown? then submitted + [t.offsets] else submitted
  }

  class TransactionalCommitter {
    const intervalMessages: int
    const intervalMs: real
    var open: bool
    var messages: nat
    var openedAt: real
    var touched: set<nat>
    var offsets: map<(Topic, nat), nat>
    var client: Client
    ghost var notes: seq<Mark>                       // handled since the transaction opened
    ghost var submitted: seq<map<(Topic, nat), nat>> // offsets the broker accepted, in order

    function State(): Txn reads this { Txn(open, messages, touched, offsets) }

    ghost predicate Valid() reads this {
      && State() == TxnOf(notes)
      && (open ==> client.InTransaction?)
      && (client.InTransaction? ==> open)
      && (notes == [] <==> !open)
    }

    /** What holds between two iterations of the consume loop. */
    ghost predicate Between() reads this {
      Valid() && (open ==> 1 <= messages < intervalMessages)
    }

    constructor (intervalMessages: int, intervalMs: real)
      ensures Between() && !open && client.NoTransaction? && submitted == []
      ensures this.intervalMessages == intervalMessages && this.intervalMs == intervalMs
    {
      this.intervalMessages := intervalMessages;
      this.intervalMs := intervalMs;
      open, messages, openedAt, touched, offsets := false, 0, 0.0, {}, map[];
      client := NoTransaction;
      notes, submitted := [], [];
    }

    method Reset()
      modifies this`open, this`messages, this`openedAt, this`touched, this`offsets, this`notes
      ensures State() == CLOSED && notes == []
    {
      open, messages, openedAt := false, 0, 0.0;
      touched, offsets := {}, map[];
      notes := [];
    }

    /** Records one handled message; false when the client refuses to begin. */
    method Note(n: Mark, now: real) returns (ok: bool)
      requires Valid()
      modifies this
      ensures Valid() && submitted == old(submitted)
      ensures ok <==> old(open) || old(client).NoTransaction?
      ensures ok ==> State() == Noted(old(State()), n) && notes == old(notes) + [n]
      ensures !ok ==> State() == old(State()) && client == old(client) && notes == old(notes)
      ensures ok ==> openedAt == if old(open) then old(openedAt) else now
    {
      if !open {
        if !client.NoTransaction? { return false; }
        client := InTransaction;
        open, messages, openedAt := true, 0, now;
      }
      offsets := offsets[(n.topic, n.partition) := n.offset + 1];
      touched := touched + {n.partition};
      messages := messages + 1;
      notes := notes + [n];
      assert notes[..|notes| - 1] == old(notes);
      return true;
    }

    /** Submits the offsets and commits. The fields are cleared whatever happened, so a failed
        commit leaves the client with a transaction this object no longer knows about. */
    method Commit(outcome: CommitOutcome) returns (v: Verdict)
      requires Valid()
      modifies this
      ensures Valid() && !open && notes == []
      ensures !old(open) ==> v == Nothing && client == old(client) && submitted == old(submitted)
      ensures old(open) ==> v != Nothing && (v == Done <==> outcome.Committed?)
      ensures v == ProducerFenced <==> old(open) && outcome.Fenced?
      ensures old(open) ==> (client.NoTransaction? <==> outcome.Committed?)
      ensures old(open) ==>
                submitted == if outcome.Committed? || outcome.LandedUnknown?
                             then old(submitted) + [old(offsets)] else old(submitted)
    {
      if !open { return Nothing; }
      if outcome.Committed? || outcome.LandedUnknown? { submitted := submitted + [offsets]; }
      client := if outcome.Committed? then NoTransaction else Unresolved;
      Reset();
      return match outcome
        case Committed => Done
        case Fenced => ProducerFenced
        case _ => KafkaFailure;
    }

    /** Commits a transaction that covers enough messages or is old enough, and touches nothing else. */
    method MaybeCommit(now: real, outcome: CommitOutcome) returns (v: Verdict)
      requires Valid()
      modifies this
      ensures Valid()
      ensures v != Nothing <==>
              && old(open)
              && (old(messages) >= intervalMessages || (now - old(openedAt)) * 1000.0 >= intervalMs)
      ensures v != Nothing ==>
                && !open && (v == Done <==> outcome.Committed?) && (v == ProducerFenced <==> outcome.Fenced?)
                && submitted == Settled(old(submitted), outcome, TxnOf(old(notes)))
      ensures v == Nothing ==>
                && State() == old(State()) && client == old(client) && openedAt == old(openedAt)
                && notes == old(notes) && submitted == old(submitted)
    {
      v := Nothing;
      if !open { return; }
      var byCount := messages >= intervalMessages;
      var elapsedMs := (now - openedAt) * 1000.0;
      if byCount || elapsedMs >= intervalMs { v := Commit(outcome); }
    }

    /** Gives up the open transaction and names the partitions whose local stores are now ahead. An abort that
        fails leaves the transaction to the broker; one that is fenced names nothing and stops the process. */
    method Abort(outcome: AbortOutcome) returns (dirty: set<nat>, fenced: bool)
      requires Valid()
      modifies this
      ensures Valid() && !open && submitted == old(submitted)
      ensures fenced <==> old(open) && outcome.AbortFenced?
      ensures dirty == if old(open) && !fenced then old(touched) else {}
      ensures !old(open) ==> client == old(client)
      ensures old(open) ==> (client.NoTransaction? <==> outcome.Aborted?)
    {
      if !open { return {}, false; }
      dirty, fenced := touched, outcome.AbortFenced?;
      client := if outcome.Aborted? then NoTransaction else Unresolved;
      Reset();
      if fenced { dirty := {}; }
    }

    /** What a message brings before anything is settled; a begin that is refused stops the loop. */
    method NoteHandled(handled: Option<Mark>, now: real) returns (stopped: bool)
      requires Valid()
      modifies this
      ensures Valid() && submitted == old(submitted) && messages == |notes|
      ensures stopped <==> handled.Some? && !old(open) && !old(client).NoTransaction?
      ensures stopped ==> !open
      ensures notes == Joined(old(notes), handled, stopped)
      ensures open ==> openedAt == if old(open) then old(openedAt) else now
    {
      stopped := false;
      if handled.Some? {
        var ok := Note(handled.value, now);
        stopped := !ok;
      }
      MessagesAreNotes(notes);
    }

    /** The transaction's part of one loop iteration, an empty poll included: note what was handled, then
        settle. What is still open afterwards covers fewer messages than one interval and is younger than
        the other. */
    method Iterate(handled: Option<Mark>, now: real, outcome: CommitOutcome) returns (stopped: bool, v: Verdict)
      requires Between()
      modifies this
      ensures Between()
      ensures open ==> messages < intervalMessages && (now - openedAt) * 1000.0 < intervalMs
      ensures open ==> openedAt == if old(open) then old(openedAt) else now
      ensures stopped <==> handled.Some? && !old(open) && !old(client).NoTransaction?
      ensures v == Nothing ==> submitted == old(submitted) && notes == Joined(old(notes), handled, stopped)
      ensures v != Nothing ==>
                && (|Joined(old(notes), handled, stopped)| >= intervalMessages ||
                    (now - if old(open) then old(openedAt) else now) * 1000.0 >= intervalMs)
                && notes == [] && !open
                && (v == Done <==> outcome.Committed?) && (v == ProducerFenced <==> outcome.Fenced?)
      ensures v != Nothing ==>
                submitted == Settled(old(submitted), outcome, TxnOf(Joined(old(notes), handled, stopped)))
    {
      stopped := NoteHandled(handled, now);
      if stopped {
        v := Nothing;
      } else {
        ghost var since := if old(open) then old(openedAt) else now;
        ghost var noted := notes;
        assert noted == Joined(old(notes), handled, stopped) && |noted| == messages && (open ==> openedAt == since);
        v := MaybeCommit(now, outcome);
        assert v == Nothing ==> notes == noted;
        assert v != Nothing ==> submitted == Settled(old(submitted), outcome, TxnOf(noted));
      }
    }
  }
}
