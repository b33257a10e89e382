/** One service's consume loop and the retry worker, passing a message between the source, retry
    and dead-letter topics. Either process may crash between any publication and its commit.

    A topic is one sequence in publication order, each entry tagged with its partition; an entry's
    index is its offset, so offsets climb within a partition and have holes. The root of an entry
    is the source entry it is a copy of, and the writer the process that wrote it: labels for stating
    the results, read by no step. */
module RetryCycle {
  import opened Events
  import opened Maps
  import opened Retry

  datatype Writer = OrderService | Consumer | RetryWorker

  datatype Entry = Entry(partition: nat, message: Message, writer: Writer, root: nat, at: real)

  /** How far a process has read and committed in each partition, and the message in its hands. */
  datatype Cursor = Cursor(read: map<nat, nat>, committed: map<nat, nat>, busy: Option<nat>, settled: bool)

  /** An attempt this service spent: on which source entry, for which original, when. */
  datatype Attempted = Attempted(offset: nat, root: nat, attempt: int, at: real)

  datatype State = State(
    me: string,
    settings: Settings,
    source: seq<Entry>,
    retry: seq<Entry>,
    dead: seq<Entry>,
    consumer: Cursor,
    worker: Cursor,
    skipped: set<nat>,           // retry entries whose release failed: neither committed nor sought back
    now: real,
    handled: set<nat>,           // roots the service handled
    firstRun: map<nat, real>,    // when the service first ran each root
    runs: seq<Attempted>,
    drops: nat)                  // worker commits that passed over a skipped entry

  datatype Action =
    | Publish(partition: nat, key: string, value: string)
    | ForeignFailure(of: nat, partition: nat, service: string, due: real)
    | Poll(i: nat)
    | PassOver                                             // a copy addressed to another service
    | HandleOk
    | FailMoved(kind: FailureKind, partition: nat)         // the copy is acknowledged
    | FailUnmoved(kind: FailureKind, partition: nat, landed: bool)
    | Commit(accepted: bool)
    | Crash
    | WorkerPoll(j: nat)
    | Defer
    | Release(partition: nat)
    | ReleaseFailed(partition: nat, landed: bool)
    | GiveUp(partition: nat)
    | GiveUpFailed(partition: nat, landed: bool)
    | WorkerCommit(accepted: bool)
    | WorkerCrash
    | Tick(elapsed: real)

  // ---- Cursors ----

  predicate CanPoll(c: Cursor, topic: seq<Entry>, i: nat) {
    && c.busy.None? && i < |topic| && At(c.read, topic[i].partition) <= i
    && forall k :: At(c.read, topic[i].partition) <= k < i ==> topic[k].partition != topic[i].partition
  }

  function Polled(c: Cursor, topic: seq<Entry>, i: nat): Cursor
    requires i < |topic|
  {
    Cursor(c.read[topic[i].partition := i + 1], c.committed, Some(i), false)
  }

  predicate InHand(c: Cursor, topic: seq<Entry>) { c.busy.Some? && c.busy.value < |topic| }

  /** Seek back to the message in hand. */
  function Rewound(c: Cursor, topic: seq<Entry>): Cursor
    requires InHand(c, topic)
  {
    Cursor(c.read[topic[c.busy.value].partition := c.busy.value], c.committed, None, false)
  }

  function Settled(c: Cursor): Cursor { c.(settled := true) }

  function Finished(c: Cursor, topic: seq<Entry>, accepted: bool): Cursor
    requires InHand(c, topic)
  {
    Cursor(c.read, if accepted then c.committed[topic[c.busy.value].partition := c.busy.value + 1] else c.committed,
           None, false)
  }

  /** A new process, or a new owner, starts at the committed offsets. */
  function Restarted(c: Cursor): Cursor { Cursor(c.committed, c.committed, None, false) }

  /** Still to be dealt with: not read yet, or in hand and unsettled. */
  predicate Pending(c: Cursor, topic: seq<Entry>, i: nat) {
    i < |topic| && (At(c.read, topic[i].partition) <= i || (c.busy == Some(i) && !c.settled))
  }

  predicate IsCommitted(c: Cursor, topic: seq<Entry>, i: nat) {
    i < |topic| && i < At(c.committed, topic[i].partition)
  }

  ghost predicate CursorInv(c: Cursor, topic: seq<Entry>) {
    && (forall p :: At(c.committed, p) <= At(c.read, p) <= |topic|)
    && (c.busy.Some? ==>
          && c.busy.value < |topic|
          && At(c.committed, topic[c.busy.value].partition) <= c.busy.value
          && At(c.read, topic[c.busy.value].partition) == c.busy.value + 1)
  }

  // ---- Steps ----

  function Held(s: State): Entry
    requires InHand(s.consumer, s.source)
  {
    s.source[s.consumer.busy.value]
  }

  function WorkerHeld(s: State): Entry
    requires InHand(s.worker, s.retry)
  {
    s.retry[s.worker.busy.value]
  }

  predicate Working(s: State) { InHand(s.consumer, s.source) && !s.consumer.settled }

  predicate Mine(s: State) { Working(s) && IsFor(Held(s).message, s.me) }

  predicate Scheduling(s: State) { InHand(s.worker, s.retry) && !s.worker.settled }

  predicate IsDue(s: State, m: Message) { m.headers.retryAt.Some? ==> m.headers.retryAt.value <= s.now }

  predicate Enabled(s: State, a: Action) {
    match a
    case Publish(_, _, _) => true
    case ForeignFailure(of, _, service, _) =>
      && of < |s.source| && service != s.me && IsFor(s.source[of].message, service)
      && RouteOf(s.settings, Transient, AttemptOf(s.source[of].message.headers)).ToRetry?
    case Poll(i) => CanPoll(s.consumer, s.source, i)
    case PassOver => Working(s) && !IsFor(Held(s).message, s.me)
    case HandleOk => Mine(s)
    case FailMoved(_, _) => Mine(s)
    case FailUnmoved(_, _, _) => Mine(s)
    case Commit(_) => InHand(s.consumer, s.source) && s.consumer.settled
    case Crash => true
    case WorkerPoll(j) => CanPoll(s.worker, s.retry, j)
    case Defer => Scheduling(s) && !IsDue(s, WorkerHeld(s).message)
    case Release(_) => Scheduling(s) && IsDue(s, WorkerHeld(s).message) && WorkerHeld(s).message.headers.service.Some?
    case ReleaseFailed(_, _) =>
      Scheduling(s) && IsDue(s, WorkerHeld(s).message) && WorkerHeld(s).message.headers.service.Some?
    case GiveUp(_) => Scheduling(s) && IsDue(s, WorkerHeld(s).message)
    case GiveUpFailed(_, _) => Scheduling(s) && IsDue(s, WorkerHeld(s).message)
    case WorkerCommit(_) => InHand(s.worker, s.retry) && s.worker.settled
    case WorkerCrash => true
    case Tick(elapsed) => 0.0 <= elapsed
  }

  /** The handler ran on the message in hand. */
  function Ran(s: State): State
    requires Working(s)
  {
    var e := Held(s);
    s.(firstRun := if e.root in s.firstRun then s.firstRun else s.firstRun[e.root := s.now],
       runs := s.runs + [Attempted(s.consumer.busy.value, e.root, AttemptOf(e.message.headers), s.now)])
  }

  /** The origin a consumer gives a message: the place on the source topic it just read it from. */
  function ReadFrom(s: State, i: nat): Origin { Origin(s.settings.sourceTopic, i) }

  /** A failed message's copy reaches the topic its route names. */
  function Copied(s: State, kind: FailureKind, partition: nat): State
    requires Working(s)
  {
    var e := Held(s);
    match RouteOf(s.settings, kind, AttemptOf(e.message.headers))
    case ToRetry(attempt) =>
      var due := s.now + BackoffForAttempt(s.settings, attempt);
      var copy := RetryCopy(e.message, s.me, ReadFrom(s, s.consumer.busy.value), attempt, due);
      s.(retry := s.retry + [Entry(partition, copy, Consumer, e.root, s.now)])
    case ToDeadLetter(made) =>
      var letter := DeadLetter(e.message, s.me, ReadFrom(s, s.consumer.busy.value), made);
      s.(dead := s.dead + [Entry(partition, letter, Consumer, e.root, s.now)])
  }

  /** A due message goes back to the topic its origin header names; one back on the source topic is read again. */
  function Republished(s: State, partition: nat): State
    requires Scheduling(s) && WorkerHeld(s).message.headers.service.Some?
  {
    var e := WorkerHeld(s);
    var sent := BackToSource(s.settings, e.message, s.worker.busy.value);
    if sent.topic != s.settings.sourceTopic then s
    else s.(source := s.source + [Entry(partition, sent.message, RetryWorker, e.root, s.now)])
  }

  function GivenUp(s: State, partition: nat): State
    requires Scheduling(s)
  {
    var e := WorkerHeld(s);
    var letter := Letter(s.settings, e.message, s.worker.busy.value);
    s.(dead := s.dead + [Entry(partition, letter, RetryWorker, e.root, s.now)])
  }

  /** Skipped entries that a commit of the message in hand leaves behind for good. */
  function PassedOver(s: State): set<nat>
    requires InHand(s.worker, s.retry)
  {
    set k |
      && k in s.skipped && k < s.worker.busy.value && k < |s.retry|
      && s.retry[k].partition == WorkerHeld(s).partition
  }

  function Do(s: State, a: Action): State
    requires Enabled(s, a)
  {
    match a
    case Publish(p, key, value) =>
      s.(source := s.source + [Entry(p, Message(key, value, PLAIN), OrderService, |s.source|, s.now)])
    case ForeignFailure(of, p, service, due) =>
      var e := s.source[of];
      var copy := RetryCopy(e.message, service, ReadFrom(s, of), AttemptOf(e.message.headers) + 1, due);
      s.(retry := s.retry + [Entry(p, copy, Consumer, e.root, s.now)])
    case Poll(i) => s.(consumer := Polled(s.consumer, s.source, i))
    case PassOver => s.(consumer := Settled(s.consumer))
    case HandleOk => Ran(s).(handled := s.handled + {Held(s).root}, consumer := Settled(s.consumer))
    case FailMoved(kind, p) => Copied(Ran(s), kind, p).(consumer := Settled(s.consumer))
    case FailUnmoved(kind, p, landed) =>
      (if landed then Copied(Ran(s), kind, p) else Ran(s)).(consumer := Rewound(s.consumer, s.source))
    case Commit(accepted) => s.(consumer := Finished(s.consumer, s.source, accepted))
    case Crash => s.(consumer := Restarted(s.consumer))
    case WorkerPoll(j) => s.(worker := Polled(s.worker, s.retry, j))
    case Defer => s.(worker := Rewound(s.worker, s.retry))
    case Release(p) => Republished(s, p).(worker := Settled(s.worker))
    case ReleaseFailed(p, landed) =>
      // The code logs, and goes on with the next message.
      (if landed then Republished(s, p) else s).(worker := Finished(s.worker, s.retry, false),
                                                 skipped := s.skipped + {s.worker.busy.value})
    case GiveUp(p) => GivenUp(s, p).(worker := Settled(s.worker))
    case GiveUpFailed(p, landed) => (if landed then GivenUp(s, p) else s).(worker := Rewound(s.worker, s.retry))
    case WorkerCommit(accepted) =>
      var lost := if accepted then PassedOver(s) else {};
      s.(worker := Finished(s.worker, s.retry, accepted), skipped := s.skipped - lost,
         drops := s.drops + if lost == {} then 0 else 1)
    case WorkerCrash => s.(worker := Restarted(s.worker), skipped := {})
    case Tick(elapsed) => s.(now := s.now + elapsed)
  }

  function Init(me: string, settings: Settings): State {
    var start := Cursor(map[], map[], None, false);
    State(me, settings, [], [], [], start, start, {}, 0.0, {}, map[], [], 0)
  }

  function Exec(me: string, settings: Settings, acts: seq<Action>): Option<State> {
    if acts == [] then Some(Init(me, settings))
    else
      var before := Exec(me, settings, acts[..|acts| - 1]);
      if before.Some? && Enabled(before.value, acts[|acts| - 1])
      then Some(Do(before.value, acts[|acts| - 1])) else None
  }

  /** What a failed attempt leaves behind once its copy is acknowledged. A transient failure with attempts to
      spare leaves one more retry: the same event, for this service, on the next attempt, due after that
      attempt's backoff. Anything else leaves one more dead letter, reporting the attempt just spent. Both
      name the topic and the offset the message was read from. */
  lemma {:induction false} FailureRouted(s: State, kind: FailureKind, p: nat)
    requires Enabled(s, FailMoved(kind, p))
    ensures var m, i, t := Held(s).message, s.consumer.busy.value, Do(s, FailMoved(kind, p));
            var attempt := AttemptOf(m.headers);
            if kind == Transient && attempt < s.settings.maxAttempts
            then
              && t.dead == s.dead && |t.retry| == |s.retry| + 1 && t.retry[..|s.retry|] == s.retry
              && var copy := t.retry[|s.retry|].message;
              && copy.key == m.key && copy.value == m.value && copy.headers.service == Some(s.me)
              && copy.headers.attempt == Some(attempt + 1)
              && copy.headers.retryAt == Some(s.now + BackoffForAttempt(s.settings, attempt + 1))
              && copy.headers.originTopic == Some(s.settings.sourceTopic) && copy.headers.originOffset == Some(i)
            else
              && t.retry == s.retry && |t.dead| == |s.dead| + 1 && t.dead[..|s.dead|] == s.dead
              && var letter := t.dead[|s.dead|].message;
              && letter.key == m.key && letter.value == m.value && letter.headers.service == Some(s.me)
              && letter.headers.attemptsMade == Some(attempt)
              && letter.headers.originTopic == Some(s.settings.sourceTopic) && letter.headers.originOffset == Some(i)
  {
  }

  // ---- Cursor lemmas ----

  lemma {:induction false} PollKeepsPending(c: Cursor, topic: seq<Entry>, i: nat, k: nat)
    requires CanPoll(c, topic, i)
    ensures Pending(Polled(c, topic, i), topic, k) <==> Pending(c, topic, k)
  {
  }

  lemma {:induction false} RewindKeepsPending(c: Cursor, topic: seq<Entry>, k: nat)
    requires CursorInv(c, topic) && InHand(c, topic) && Pending(c, topic, k)
    ensures Pending(Rewound(c, topic), topic, k)
  {
  }

  lemma {:induction false} RestartKeepsPending(c: Cursor, topic: seq<Entry>, k: nat)
    requires CursorInv(c, topic) && Pending(c, topic, k)
    ensures Pending(Restarted(c), topic, k)
  {
    assert At(c.committed, topic[k].partition) <= At(c.read, topic[k].partition);
  }

  lemma {:induction false} PendingIsUncommitted(c: Cursor, topic: seq<Entry>, k: nat)
    requires CursorInv(c, topic) && Pending(c, topic, k)
    ensures !IsCommitted(c, topic, k)
  {
    assert At(c.committed, topic[k].partition) <= At(c.read, topic[k].partition);
  }

  lemma {:induction false} PollKeepsCursor(c: Cursor, topic: seq<Entry>, i: nat)
    requires CursorInv(c, topic) && CanPoll(c, topic, i)
    ensures CursorInv(Polled(c, topic, i), topic)
  {
    assert forall p :: At(c.committed, p) <= At(c.read, p) <= |topic|;
    var moved := Polled(c, topic, i);
    forall p ensures At(moved.committed, p) <= At(moved.read, p) <= |topic| {
      assert At(c.committed, p) <= At(c.read, p);
    }
  }

  lemma {:induction false} RewindKeepsCursor(c: Cursor, topic: seq<Entry>)
    requires CursorInv(c, topic) && InHand(c, topic)
    ensures CursorInv(Rewound(c, topic), topic)
  {
    var moved := Rewound(c, topic);
    forall p ensures At(moved.committed, p) <= At(moved.read, p) <= |topic| {
      assert At(c.committed, p) <= At(c.read, p);
    }
  }

  lemma {:induction false} FinishKeepsCursor(c: Cursor, topic: seq<Entry>, accepted: bool)
    requires CursorInv(c, topic) && InHand(c, topic)
    ensures CursorInv(Finished(c, topic, accepted), topic)
  {
    var moved := Finished(c, topic, accepted);
    forall p ensures At(moved.committed, p) <= At(moved.read, p) <= |topic| {
      assert At(c.committed, p) <= At(c.read, p);
    }
  }

  // ---- What a copy keeps ----

  /** The entry repeats the key and value of the original source event it descends from. */
  predicate Copies(source: seq<Entry>, e: Entry) {
    && e.root < |source| && IsRoot(source, e.root)
    && e.message.key == source[e.root].message.key && e.message.value == source[e.root].message.value
  }

  predicate IsRoot(source: seq<Entry>, r: nat) {
    r < |source| && source[r].root == r && source[r].message.headers == PLAIN
  }

  predicate WithinBudget(s: Settings, attempt: Option<int>) {
    attempt.Some? && 2 <= attempt.value <= s.maxAttempts
  }

  predicate SourceShape(s: Settings, m: Message) {
    || m.headers == PLAIN
    || (m.headers.retryTarget.Some? && WithinBudget(s, m.headers.attempt) &&
       m.headers.originTopic == Some(s.sourceTopic))
  }

  predicate RetryShape(s: Settings, m: Message) {
    && m.headers.service.Some? && m.headers.originTopic == Some(s.sourceTopic) && m.headers.originOffset.Some?
    && WithinBudget(s, m.headers.attempt) && m.headers.retryAt.Some?
  }

  predicate DeadShape(s: Settings, m: Message) {
    && m.headers.service.Some? && m.headers.originTopic == Some(s.sourceTopic)
    && m.headers.attemptsMade.Some? && 1 <= m.headers.attemptsMade.value <= Budget(s)
  }

  ghost predicate Shapes(s: State) {
    && (forall i :: 0 <= i < |s.source| ==>
          Copies(s.source, s.source[i]) && SourceShape(s.settings, s.source[i].message))
    && (forall i :: 0 <= i < |s.source| && s.source[i].message.headers == PLAIN ==> s.source[i].root == i)
    && (forall j :: 0 <= j < |s.retry| ==> Copies(s.source, s.retry[j]) && RetryShape(s.settings, s.retry[j].message))
    && (forall d :: 0 <= d < |s.dead| ==> Copies(s.source, s.dead[d]) && DeadShape(s.settings, s.dead[d].message))
  }

  lemma {:induction false} GrowKeepsCopies(source: seq<Entry>, x: Entry)
    ensures forall e :: Copies(source, e) ==> Copies(source + [x], e)
  {
  }

  lemma {:induction false} RanKeepsShapes(s: State)
    requires Shapes(s) && Working(s)
    ensures Shapes(Ran(s)) && Working(Ran(s)) && Held(Ran(s)) == Held(s)
  {
  }

  lemma {:induction false} CopiedKeepsShapes(s: State, kind: FailureKind, p: nat)
    requires Shapes(s) && Working(s)
    ensures Shapes(Copied(s, kind, p))
  {
    assert Copies(s.source, Held(s)) && SourceShape(s.settings, Held(s).message);
  }

  lemma {:induction false} RepublishedKeepsShapes(s: State, p: nat)
    requires Shapes(s) && Scheduling(s) && WorkerHeld(s).message.headers.service.Some?
    ensures Shapes(Republished(s, p))
  {
    var e := WorkerHeld(s);
    assert Copies(s.source, e) && RetryShape(s.settings, e.message);
    GrowKeepsCopies(s.source, Republished(s, p).source[|s.source|]);
  }

  lemma {:induction false} GivenUpKeepsShapes(s: State, p: nat)
    requires Shapes(s) && Scheduling(s)
    ensures Shapes(GivenUp(s, p))
  {
    assert Copies(s.source, WorkerHeld(s)) && RetryShape(s.settings, WorkerHeld(s).message);
  }

  lemma {:induction false} AttemptKeepsShapes(s: State, a: Action)
    requires Shapes(s) && Enabled(s, a) && (a.FailMoved? || a.FailUnmoved?)
    ensures Shapes(Do(s, a))
  {
    RanKeepsShapes(s);
    CopiedKeepsShapes(Ran(s), a.kind, a.partition);
  }

  lemma {:induction false} ScheduleKeepsShapes(s: State, a: Action)
    requires Shapes(s) && Enabled(s, a) && (a.Release? || a.ReleaseFailed? || a.GiveUp? || a.GiveUpFailed?)
    ensures Shapes(Do(s, a))
  {
    if a.Release? || a.ReleaseFailed? {
      RepublishedKeepsShapes(s, a.partition);
    } else {
      GivenUpKeepsShapes(s, a.partition);
    }
  }

  lemma {:induction false} ForeignKeepsShapes(s: State, a: Action)
    requires Shapes(s) && Enabled(s, a) && (a.Publish? || a.ForeignFailure?)
    ensures Shapes(Do(s, a))
  {
    if a.Publish? {
      GrowKeepsCopies(s.source, Entry(a.partition, Message(a.key, a.value, PLAIN), OrderService, |s.source|, s.now));
    } else {
      assert Copies(s.source, s.source[a.of]);
    }
  }

  lemma {:induction false} StepKeepsShapes(s: State, a: Action)
    requires Shapes(s) && Enabled(s, a)
    ensures Shapes(Do(s, a))
  {
    if a.Publish? || a.ForeignFailure? {
      ForeignKeepsShapes(s, a);
    } else if a.FailMoved? || a.FailUnmoved? {
      AttemptKeepsShapes(s, a);
    } else if a.Release? || a.ReleaseFailed? || a.GiveUp? || a.GiveUpFailed? {
      ScheduleKeepsShapes(s, a);
    } else {
      var t := Do(s, a);
      assert t.source == s.source && t.retry == s.retry && t.dead == s.dead && t.settings == s.settings;
    }
  }

  // ---- What a copy does not keep ----

  /** The entry still names the offset the event was first published at. */
  predicate NamesRoot(e: Entry) { e.message.headers.originOffset == Some(e.root) }

  ghost predicate Origins(s: State) {
    && (forall j :: 0 <= j < |s.retry| ==>
          s.retry[j].writer == Consumer && (NamesRoot(s.retry[j]) <==> s.retry[j].message.headers.attempt == Some(2)))
    && (forall d :: 0 <= d < |s.dead| && s.dead[d].writer == Consumer ==>
          (NamesRoot(s.dead[d]) <==> s.dead[d].message.headers.attemptsMade == Some(1)))
    && (forall d :: 0 <= d < |s.dead| && s.dead[d].writer == RetryWorker ==>
          (NamesRoot(s.dead[d]) <==> s.dead[d].message.headers.attemptsMade == Some(2)))
    && (forall d :: 0 <= d < |s.dead| ==> s.dead[d].writer != OrderService)
  }

  /** A source entry is its own root exactly when it is on its first attempt. */
  lemma {:induction false} FirstAttemptIsRoot(s: State, i: nat)
    requires Shapes(s) && i < |s.source|
    ensures s.source[i].root == i <==> AttemptOf(s.source[i].message.headers) == 1
  {
    assert Copies(s.source, s.source[i]) && SourceShape(s.settings, s.source[i].message);
  }

  lemma {:induction false} CopiedKeepsOrigins(s: State, kind: FailureKind, p: nat)
    requires Shapes(s) && Origins(s) && Working(s)
    ensures Origins(Copied(s, kind, p))
  {
    FirstAttemptIsRoot(s, s.consumer.busy.value);
  }

  lemma {:induction false} GivenUpKeepsOrigins(s: State, p: nat)
    requires Shapes(s) && Origins(s) && Scheduling(s)
    ensures Origins(GivenUp(s, p))
  {
    assert RetryShape(s.settings, WorkerHeld(s).message);
  }

  lemma {:induction false} StepKeepsOrigins(s: State, a: Action)
    requires Shapes(s) && Origins(s) && Enabled(s, a)
    ensures Origins(Do(s, a))
  {
    if a.ForeignFailure? {
      FirstAttemptIsRoot(s, a.of);
    } else if a.FailMoved? || a.FailUnmoved? {
      RanKeepsShapes(s);
      CopiedKeepsOrigins(Ran(s), a.kind, a.partition);
    } else if a.GiveUp? || a.GiveUpFailed? {
      GivenUpKeepsOrigins(s, a.partition);
    } else {
      assert Do(s, a).retry == s.retry && Do(s, a).dead == s.dead;
    }
  }

  // ---- Cursors over a run ----

  /** A skipped entry has been read past and not committed. */
  ghost predicate SkipInv(c: Cursor, topic: seq<Entry>, skipped: set<nat>) {
    forall k :: k in skipped ==>
      && k < |topic| && At(c.committed, topic[k].partition) <= k < At(c.read, topic[k].partition) && c.busy != Some(k)
  }

  ghost predicate Cursors(s: State) {
    CursorInv(s.consumer, s.source) && CursorInv(s.worker, s.retry) && SkipInv(s.worker, s.retry, s.skipped)
  }

  /** The topics only grow. */
  predicate Extends(s: State, t: State) { s.source <= t.source && s.retry <= t.retry && s.dead <= t.dead }

  lemma {:induction false} StepExtends(s: State, a: Action)
    requires Enabled(s, a)
    ensures Extends(s, Do(s, a)) && Do(s, a).me == s.me && Do(s, a).settings == s.settings
  {
  }

  lemma {:induction false} ExtendKeepsCursor(c: Cursor, topic: seq<Entry>, longer: seq<Entry>, skipped: set<nat>)
    requires CursorInv(c, topic) && topic <= longer
    ensures CursorInv(c, longer)
    ensures SkipInv(c, topic, skipped) ==> SkipInv(c, longer, skipped)
    ensures forall k :: Pending(c, topic, k) ==> Pending(c, longer, k)
    ensures forall k :: |topic| <= k < |longer| ==> Pending(c, longer, k)
  {
    forall k | |topic| <= k < |longer| ensures Pending(c, longer, k) {
      assert At(c.read, longer[k].partition) <= |topic|;
    }
  }

  lemma {:induction false} ConsumerMoves(s: State, a: Action)
    requires CursorInv(s.consumer, s.source) && Enabled(s, a)
    ensures CursorInv(Do(s, a).consumer, s.source)
  {
    match a
    case Poll(i) => PollKeepsCursor(s.consumer, s.source, i);
    case FailUnmoved(_, _, _) => RewindKeepsCursor(s.consumer, s.source);
    case Commit(accepted) => FinishKeepsCursor(s.consumer, s.source, accepted);
    case _ =>
  }

  lemma {:induction false} PollKeepsSkips(c: Cursor, topic: seq<Entry>, skipped: set<nat>, j: nat)
    requires SkipInv(c, topic, skipped) && CanPoll(c, topic, j)
    ensures SkipInv(Polled(c, topic, j), topic, skipped)
  {
  }

  lemma {:induction false} RewindKeepsSkips(c: Cursor, topic: seq<Entry>, skipped: set<nat>)
    requires CursorInv(c, topic) && SkipInv(c, topic, skipped) && InHand(c, topic)
    ensures SkipInv(Rewound(c, topic), topic, skipped)
  {
  }

  lemma {:induction false} FinishKeepsSkips(c: Cursor, topic: seq<Entry>, skipped: set<nat>)
    requires CursorInv(c, topic) && SkipInv(c, topic, skipped) && InHand(c, topic)
    ensures SkipInv(Finished(c, topic, false), topic, skipped + {c.busy.value})
  {
  }

  lemma {:induction false} CommitKeepsSkips(s: State)
    requires InHand(s.worker, s.retry) && CursorInv(s.worker, s.retry) && SkipInv(s.worker, s.retry, s.skipped)
    ensures SkipInv(Finished(s.worker, s.retry, true), s.retry, s.skipped - PassedOver(s))
  {
  }

  lemma {:induction false} WorkerMoves(s: State, a: Action)
    requires CursorInv(s.worker, s.retry) && SkipInv(s.worker, s.retry, s.skipped) && Enabled(s, a)
    ensures CursorInv(Do(s, a).worker, s.retry) && SkipInv(Do(s, a).worker, s.retry, Do(s, a).skipped)
  {
    WorkerMovesCursor(s, a);
    WorkerMovesSkips(s, a);
  }

  lemma {:induction false} WorkerMovesCursor(s: State, a: Action)
    requires CursorInv(s.worker, s.retry) && Enabled(s, a)
    ensures CursorInv(Do(s, a).worker, s.retry)
  {
    if a.WorkerPoll? {
      PollKeepsCursor(s.worker, s.retry, a.j);
    } else if a.Defer? || a.GiveUpFailed? {
      RewindKeepsCursor(s.worker, s.retry);
    } else if a.ReleaseFailed? {
      FinishKeepsCursor(s.worker, s.retry, false);
    } else if a.WorkerCommit? {
      FinishKeepsCursor(s.worker, s.retry, a.accepted);
    }
  }

  lemma {:induction false} WorkerMovesSkips(s: State, a: Action)
    requires CursorInv(s.worker, s.retry) && SkipInv(s.worker, s.retry, s.skipped) && Enabled(s, a)
    ensures SkipInv(Do(s, a).worker, s.retry, Do(s, a).skipped)
  {
    if a.WorkerPoll? {
      PollKeepsSkips(s.worker, s.retry, s.skipped, a.j);
    } else if a.Defer? || a.GiveUpFailed? {
      RewindKeepsSkips(s.worker, s.retry, s.skipped);
    } else if a.ReleaseFailed? {
      FinishKeepsSkips(s.worker, s.retry, s.skipped);
    } else if a.WorkerCommit? && a.accepted {
      CommitKeepsSkips(s);
    }
  }

  lemma {:induction false} StepKeepsCursors(s: State, a: Action)
    requires Cursors(s) && Enabled(s, a)
    ensures Cursors(Do(s, a))
  {
    var t := Do(s, a);
    ConsumerMoves(s, a);
    WorkerMoves(s, a);
    StepExtends(s, a);
    ExtendKeepsCursor(t.consumer, s.source, t.source, {});
    ExtendKeepsCursor(t.worker, s.retry, t.retry, t.skipped);
  }

  // ---- Nothing is dropped ----

  /** Where a root is accounted for. */
  datatype Account = InHandled | InSource(i: nat) | InRetry(j: nat) | InDead(d: nat)

  /** The service a letter says gave up; the worker writes "<unset>" for an empty name. */
  predicate SignedBy(m: Message, service: string) {
    m.headers.service == Some(service) || (service == "" && m.headers.service == Some("<unset>"))
  }

  predicate Unreleased(s: State, j: nat) { Pending(s.worker, s.retry, j) || (j in s.skipped && j < |s.retry|) }

  predicate Holds(s: State, w: Account, r: nat) {
    match w
    case InHandled => r in s.handled
    case InSource(i) => Pending(s.consumer, s.source, i) && s.source[i].root == r && IsFor(s.source[i].message, s.me)
    case InRetry(j) => Unreleased(s, j) && s.retry[j].root == r && s.retry[j].message.headers.service == Some(s.me)
    case InDead(d) => d < |s.dead| && s.dead[d].root == r && SignedBy(s.dead[d].message, s.me)
  }

  ghost predicate Accounted(s: State, r: nat) { exists w :: Holds(s, w, r) }

  ghost predicate Conserved(s: State) {
    s.drops == 0 ==> forall r :: IsRoot(s.source, r) ==> Accounted(s, r)
  }

  /** A pending source entry stays pending, unless this very step settles it. */
  lemma {:induction false} SourceStays(s: State, a: Action, i: nat)
    requires CursorInv(s.consumer, s.source) && Enabled(s, a) && Pending(s.consumer, s.source, i)
    ensures Pending(Do(s, a).consumer, s.source, i) ||
            (s.consumer.busy == Some(i) && (a.PassOver? || a.HandleOk? || a.FailMoved?))
  {
    match a
    case Poll(k) => PollKeepsPending(s.consumer, s.source, k, i);
    case FailUnmoved(_, _, _) => RewindKeepsPending(s.consumer, s.source, i);
    case Crash => RestartKeepsPending(s.consumer, s.source, i);
    case _ =>
  }

  lemma {:induction false} RetryStays(s: State, a: Action, j: nat)
    requires CursorInv(s.worker, s.retry) && SkipInv(s.worker, s.retry, s.skipped) && Enabled(s, a) && Unreleased(s, j)
    requires Do(s, a).drops == s.drops
    ensures Pending(Do(s, a).worker, s.retry, j) || j in Do(s, a).skipped
            || (s.worker.busy == Some(j) && (a.Release? || a.GiveUp?))
  {
    if j in s.skipped {
      assert At(s.worker.committed, s.retry[j].partition) <= j;
    } else {
      match a
      case WorkerPoll(k) => PollKeepsPending(s.worker, s.retry, k, j);
      case Defer => RewindKeepsPending(s.worker, s.retry, j);
      case GiveUpFailed(_, _) => RewindKeepsPending(s.worker, s.retry, j);
      case WorkerCrash => RestartKeepsPending(s.worker, s.retry, j);
      case _ =>
    }
  }

  lemma {:induction false} SourceAccount(s: State, a: Action, i: nat, r: nat) returns (w: Account)
    requires Cursors(s) && Enabled(s, a) && Holds(s, InSource(i), r)
    ensures Holds(Do(s, a), w, r)
  {
    var t := Do(s, a);
    SourceStays(s, a, i);
    ConsumerMoves(s, a);
    StepExtends(s, a);
    if Pending(t.consumer, s.source, i) {
      ExtendKeepsCursor(t.consumer, s.source, t.source, {});
      w := InSource(i);
    } else if a.FailMoved? {
      ExtendKeepsCursor(t.worker, s.retry, t.retry, {});
      w := if |t.retry| > |s.retry| then InRetry(|s.retry|) else InDead(|s.dead|);
    } else {
      w := InHandled;
    }
  }

  lemma {:induction false} RetryAccount(s: State, a: Action, j: nat, r: nat) returns (w: Account)
    requires Cursors(s) && Enabled(s, a) && Holds(s, InRetry(j), r) && Do(s, a).drops == s.drops
    requires RetryShape(s.settings, s.retry[j].message)
    ensures Holds(Do(s, a), w, r)
  {
    var t := Do(s, a);
    RetryStays(s, a, j);
    WorkerMoves(s, a);
    StepExtends(s, a);
    if Pending(t.worker, s.retry, j) || j in t.skipped {
      ExtendKeepsCursor(t.worker, s.retry, t.retry, {});
      w := InRetry(j);
    } else if a.Release? {
      ExtendKeepsCursor(t.consumer, s.source, t.source, {});
      w := InSource(|s.source|);
    } else {
      w := InDead(|s.dead|);
    }
  }

  lemma {:induction false} StepKeepsAccount(s: State, a: Action, r: nat)
    requires Cursors(s) && Shapes(s) && Enabled(s, a) && Accounted(s, r) && Do(s, a).drops == s.drops
    ensures Accounted(Do(s, a), r)
  {
    var w :| Holds(s, w, r);
    StepExtends(s, a);
    var t := Do(s, a);
    match w
    case InSource(i) => var v := SourceAccount(s, a, i, r); assert Holds(t, v, r);
    case InRetry(j) => var v := RetryAccount(s, a, j, r); assert Holds(t, v, r);
    case _ => assert Holds(t, w, r);
  }

  lemma {:induction false} StepRoots(s: State, a: Action, r: nat)
    requires Enabled(s, a) && IsRoot(Do(s, a).source, r)
    ensures IsRoot(s.source, r) || (a.Publish? && r == |s.source|)
  {
  }

  lemma {:induction false} StepKeepsConserved(s: State, a: Action)
    requires Cursors(s) && Shapes(s) && Conserved(s) && Enabled(s, a)
    ensures Conserved(Do(s, a))
  {
    var t := Do(s, a);
    if t.drops == 0 {
      assert s.drops == 0;
      forall r | IsRoot(t.source, r) ensures Accounted(t, r) {
        StepRoots(s, a, r);
        if IsRoot(s.source, r) {
          StepKeepsAccount(s, a, r);
        } else {
          ExtendKeepsCursor(t.consumer, s.source, t.source, {});
          assert Holds(t, InSource(r), r);
        }
      }
    }
  }

  // ---- Attempts and waiting ----

  /** The instant lies no sooner after the root's first attempt than the backoffs of attempts 2 to k. */
  predicate Waited(s: Settings, firstRun: map<nat, real>, root: nat, k: int, at: real) {
    root in firstRun && firstRun[root] + BackoffSum(s, k) <= at
  }

  ghost predicate Clocked(s: State) {
    forall r :: r in s.firstRun ==> s.firstRun[r] <= s.now
  }

  ghost predicate SourceWaited(s: State) {
    forall i :: 0 <= i < |s.source| && s.source[i].message.headers.retryTarget == Some(s.me) ==>
      && s.source[i].at <= s.now
      && Waited(s.settings, s.firstRun, s.source[i].root, AttemptOf(s.source[i].message.headers), s.source[i].at)
  }

  ghost predicate RetryWaited(s: State) {
    forall j :: 0 <= j < |s.retry| && s.retry[j].message.headers.service == Some(s.me) ==>
      && s.retry[j].message.headers.retryAt.Some?
      && Waited(s.settings, s.firstRun, s.retry[j].root, AttemptOf(s.retry[j].message.headers),
                s.retry[j].message.headers.retryAt.value)
  }

  /** Every attempt spent an entry addressed to this service, on the number its header carries, in time. */
  predicate Spent(s: State, run: Attempted) {
    && run.offset < |s.source| && run.root == s.source[run.offset].root
    && IsFor(s.source[run.offset].message, s.me)
    && run.attempt == AttemptOf(s.source[run.offset].message.headers)
    && Waited(s.settings, s.firstRun, run.root, run.attempt, run.at)
  }

  ghost predicate RunsSpent(s: State) { forall n :: 0 <= n < |s.runs| ==> Spent(s, s.runs[n]) }

  ghost predicate Timed(s: State) { Clocked(s) && SourceWaited(s) && RetryWaited(s) && RunsSpent(s) }

  /** A first run is recorded once and never moved. */
  predicate Remembers(before: map<nat, real>, after: map<nat, real>) {
    forall r :: r in before ==> r in after && after[r] == before[r]
  }

  lemma {:induction false} HeldHasWaited(s: State)
    requires Clocked(s) && SourceWaited(s) && Shapes(s) && Mine(s)
    ensures Clocked(Ran(s)) && Remembers(s.firstRun, Ran(s).firstRun)
    ensures Waited(s.settings, Ran(s).firstRun, Held(s).root, AttemptOf(Held(s).message.headers), s.now)
  {
    assert SourceShape(s.settings, Held(s).message);
  }

  lemma {:induction false} RanKeepsTimed(s: State)
    requires Timed(s) && Shapes(s) && Mine(s)
    ensures Timed(Ran(s))
  {
    HeldHasWaited(s);
    var t := Ran(s);
    forall n | 0 <= n < |t.runs| ensures Spent(t, t.runs[n]) {
      if n < |s.runs| { assert Spent(s, s.runs[n]); }
    }
  }

  lemma {:induction false} CopiedKeepsTimed(s: State, kind: FailureKind, p: nat)
    requires Timed(s) && Working(s)
    requires Waited(s.settings, s.firstRun, Held(s).root, AttemptOf(Held(s).message.headers), s.now)
    ensures Timed(Copied(s, kind, p))
  {
    var t := Copied(s, kind, p);
    assert RetryWaited(t);
    forall n | 0 <= n < |t.runs| ensures Spent(t, t.runs[n]) {
      assert Spent(s, s.runs[n]);
    }
  }

  lemma {:induction false} GrowKeepsSpent(s: State, t: State)
    requires RunsSpent(s) && s.source <= t.source && t.runs == s.runs && t.firstRun == s.firstRun
    requires t.me == s.me && t.settings == s.settings
    ensures RunsSpent(t)
  {
    forall n | 0 <= n < |t.runs| ensures Spent(t, t.runs[n]) {
      assert Spent(s, s.runs[n]);
    }
  }

  lemma {:induction false} RepublishedKeepsTimed(s: State, p: nat)
    requires Timed(s) && Scheduling(s) && WorkerHeld(s).message.headers.service.Some?
    requires RetryShape(s.settings, WorkerHeld(s).message) && IsDue(s, WorkerHeld(s).message)
    ensures Timed(Republished(s, p))
  {
    var e := WorkerHeld(s);
    var copy := SourceCopy(s.settings, e.message, s.worker.busy.value, e.message.headers.service.value);
    assert AttemptOf(copy.headers) == AttemptOf(e.message.headers);
    GrowKeepsSpent(s, Republished(s, p));
  }

  lemma {:induction false} AttemptKeepsTimed(s: State, a: Action)
    requires Timed(s) && Shapes(s) && Enabled(s, a) && (a.HandleOk? || a.FailMoved? || a.FailUnmoved?)
    ensures Timed(Do(s, a))
  {
    HeldHasWaited(s);
    RanKeepsTimed(s);
    if a.FailMoved? || a.FailUnmoved? {
      CopiedKeepsTimed(Ran(s), a.kind, a.partition);
    }
  }

  lemma {:induction false} OtherKeepsWaited(s: State, a: Action)
    requires SourceWaited(s) && RetryWaited(s) && Enabled(s, a)
    requires !(a.HandleOk? || a.FailMoved? || a.FailUnmoved? || a.Release? || a.ReleaseFailed?)
    ensures SourceWaited(Do(s, a)) && RetryWaited(Do(s, a))
  {
  }

  lemma {:induction false} OtherKeepsTimed(s: State, a: Action)
    requires Timed(s) && Enabled(s, a)
    requires !(a.HandleOk? || a.FailMoved? || a.FailUnmoved? || a.Release? || a.ReleaseFailed?)
    ensures Timed(Do(s, a))
  {
    OtherKeepsWaited(s, a);
    StepExtends(s, a);
    GrowKeepsSpent(s, Do(s, a));
  }

  lemma {:induction false} StepKeepsTimed(s: State, a: Action)
    requires Timed(s) && Shapes(s) && Enabled(s, a)
    ensures Timed(Do(s, a))
  {
    if a.HandleOk? || a.FailMoved? || a.FailUnmoved? {
      AttemptKeepsTimed(s, a);
    } else if a.Release? || a.ReleaseFailed? {
      assert RetryShape(s.settings, WorkerHeld(s).message);
      RepublishedKeepsTimed(s, a.partition);
    } else {
      OtherKeepsTimed(s, a);
    }
  }

  // ---- Every run ----

  ghost predicate Inv(s: State) { Cursors(s) && Shapes(s) && Origins(s) && Conserved(s) && Timed(s) }

  lemma {:induction false} InvHolds(me: string, settings: Settings, acts: seq<Action>)
    requires Exec(me, settings, acts).Some?
    ensures Inv(Exec(me, settings, acts).value)
    ensures Exec(me, settings, acts).value.me == me && Exec(me, settings, acts).value.settings == settings
  {
    if acts != [] {
      var before, last := acts[..|acts| - 1], acts[|acts| - 1];
      InvHolds(me, settings, before);
      var s := Exec(me, settings, before).value;
      StepExtends(s, last);
      StepKeepsCursors(s, last);
      StepKeepsShapes(s, last);
      StepKeepsOrigins(s, last);
      StepKeepsConserved(s, last);
      StepKeepsTimed(s, last);
    }
  }

  /** A copy of the source event at r that the committed offsets have not passed. */
  predicate IsPendingCopy(s: State, c: Cursor, topic: seq<Entry>, k: nat, r: nat) {
    && k < |topic| && !IsCommitted(c, topic, k) && topic[k].root == r && Copies(s.source, topic[k])
  }

  predicate OnSource(s: State, i: nat, r: nat) {
    IsPendingCopy(s, s.consumer, s.source, i, r) && IsFor(s.source[i].message, s.me)
  }

  predicate OnRetry(s: State, j: nat, r: nat) {
    && IsPendingCopy(s, s.worker, s.retry, j, r) && s.retry[j].message.headers.service == Some(s.me)
    && s.retry[j].message.headers.originTopic == Some(s.settings.sourceTopic)
  }

  predicate OnDead(s: State, d: nat, r: nat) {
    && d < |s.dead| && s.dead[d].root == r && Copies(s.source, s.dead[d])
    && SignedBy(s.dead[d].message, s.me)
    && s.dead[d].message.headers.originTopic == Some(s.settings.sourceTopic)
  }

  lemma {:induction false} AccountIsCopy(s: State, r: nat)
    requires Cursors(s) && Shapes(s) && Accounted(s, r)
    ensures r in s.handled || (exists i: nat :: OnSource(s, i, r)) || (exists j: nat :: OnRetry(s, j, r))
            || (exists d: nat :: OnDead(s, d, r))
  {
    var w :| Holds(s, w, r);
    match w
    case InHandled =>
    case InSource(i) =>
      PendingIsUncommitted(s.consumer, s.source, i);
      assert OnSource(s, i, r);
    case InRetry(j) =>
      if j !in s.skipped { PendingIsUncommitted(s.worker, s.retry, j); }
      assert RetryShape(s.settings, s.retry[j].message);
      assert OnRetry(s, j, r);
    case InDead(d) =>
      assert DeadShape(s.settings, s.dead[d].message);
      assert OnDead(s, d, r);
  }

  /** Nothing is dropped across the two loops. After any run, with crashes, refused commits, failed
      publications and lost acknowledgements anywhere, every source event was handled, or a copy with
      its key, value and origin waits beyond the committed offsets, or sits on the dead-letter topic;
      provided no worker commit passed over an entry whose release had failed. For an event below the
      consumer's own committed offset the waiting copy is another entry, since OnSource is uncommitted. */
  lemma {:induction false} NothingIsDropped(me: string, settings: Settings, acts: seq<Action>, r: nat)
    requires Exec(me, settings, acts).Some?
    requires var s := Exec(me, settings, acts).value;
             s.drops == 0 && r < |s.source| && s.source[r].message.headers == PLAIN
    ensures var s := Exec(me, settings, acts).value;
            || r in s.handled
            || (exists i: nat :: OnSource(s, i, r)) || (exists j: nat :: OnRetry(s, j, r))
            || (exists d: nat :: OnDead(s, d, r))
  {
    InvHolds(me, settings, acts);
    var s := Exec(me, settings, acts).value;
    assert IsRoot(s.source, r);
    AccountIsCopy(s, r);
  }

  /** Exactly when a worker commit keeps a root accounted for: some account of it is not an entry
      whose release failed earlier in the partition being committed. */
  lemma {:induction false} CommitKeepsAccountIff(s: State, r: nat)
    requires Cursors(s) && Enabled(s, WorkerCommit(true))
    ensures Accounted(Do(s, WorkerCommit(true)), r) <==>
            exists w :: Holds(s, w, r) && (w.InRetry? ==> w.j !in PassedOver(s))
  {
    var t := Do(s, WorkerCommit(true));
    assert t.worker == Finished(s.worker, s.retry, true) && t.skipped == s.skipped - PassedOver(s);
    if w :| Holds(t, w, r) {
      assert Holds(s, w, r);
    }
    if w :| Holds(s, w, r) && (w.InRetry? ==> w.j !in PassedOver(s)) {
      assert Holds(t, w, r);
    }
  }

  lemma {:induction false} ExecStep(me: string, settings: Settings, acts: seq<Action>, a: Action)
    requires Exec(me, settings, acts).Some? && Enabled(Exec(me, settings, acts).value, a)
    ensures Exec(me, settings, acts + [a]) == Some(Do(Exec(me, settings, acts).value, a))
  {
    assert (acts + [a])[..|acts|] == acts;
  }

  predicate Reaches(settings: Settings, acts: seq<Action>, s: State) {
    && settings == Settings(3, [0.0], "order-lifecycle", "order-retry")
    && Exec("inventory", settings, acts) == Some(s) && s.me == "inventory" && s.settings == settings
    && s.now == 0.0 && s.dead == [] && s.handled == {}
  }

  lemma {:induction false} OneInHand() returns (settings: Settings, acts: seq<Action>, s: State)
    ensures Reaches(settings, acts, s) && s.skipped == {} && s.drops == 0 && s.retry == []
    ensures |s.source| == 1 && s.source[0].message.headers == PLAIN && s.source[0].root == 0
    ensures s.source[0].partition == 0 && s.worker == Cursor(map[], map[], None, false)
    ensures s.consumer == Cursor(map[0 := 1], map[], Some(0), false)
  {
    settings := Settings(3, [0.0], "order-lifecycle", "order-retry");
    acts, s := [], Init("inventory", settings);
    ExecStep("inventory", settings, acts, Publish(0, "a", "x"));
    acts, s := acts + [Publish(0, "a", "x")], Do(s, Publish(0, "a", "x"));
    ExecStep("inventory", settings, acts, Poll(0));
    acts, s := acts + [Poll(0)], Do(s, Poll(0));
  }

  lemma {:induction false} OneMoved() returns (settings: Settings, acts: seq<Action>, s: State)
    ensures Reaches(settings, acts, s) && s.skipped == {} && s.drops == 0
    ensures |s.source| == 1 && s.source[0].message.headers == PLAIN && s.source[0].root == 0
    ensures s.source[0].partition == 0 && s.worker == Cursor(map[], map[], None, false)
    ensures s.consumer == Cursor(map[0 := 1], map[], Some(0), true)
    ensures |s.retry| == 1 && s.retry[0].partition == 0 && s.retry[0].root == 0
    ensures s.retry[0].message == RetryCopy(s.source[0].message, "inventory", Origin("order-lifecycle", 0), 2, 0.0)
  {
    var before: State;
    settings, acts, before := OneInHand();
    assert RouteOf(settings, Transient, AttemptOf(Held(before).message.headers)) == ToRetry(2);
    ExecStep("inventory", settings, acts, FailMoved(Transient, 0));
    acts, s := acts + [FailMoved(Transient, 0)], Do(before, FailMoved(Transient, 0));
    assert BackoffForAttempt(settings, 2) == 0.0;
  }

  lemma {:induction false} CommitFirst(s: State)
    requires |s.source| == 1 && s.source[0].partition == 0 && s.consumer == Cursor(map[0 := 1], map[], Some(0), true)
    ensures Enabled(s, Commit(true))
    ensures Do(s, Commit(true)) == s.(consumer := Cursor(map[0 := 1], map[0 := 1], None, false))
  {
  }

  /** One event failed once, its copy on the retry topic and its offset committed. */
  lemma {:induction false} OneRetry() returns (settings: Settings, acts: seq<Action>, s: State)
    ensures Reaches(settings, acts, s) && s.skipped == {} && s.drops == 0
    ensures |s.source| == 1 && s.source[0].message.headers == PLAIN && s.source[0].root == 0
    ensures IsCommitted(s.consumer, s.source, 0) && s.worker == Cursor(map[], map[], None, false)
    ensures s.consumer == Cursor(map[0 := 1], map[0 := 1], None, false)
    ensures |s.retry| == 1 && s.retry[0].partition == 0 && s.retry[0].root == 0
    ensures s.retry[0].message == RetryCopy(s.source[0].message, "inventory", Origin("order-lifecycle", 0), 2, 0.0)
  {
    var before: State;
    settings, acts, before := OneMoved();
    ExecStep("inventory", settings, acts, Commit(true));
    CommitFirst(before);
    acts, s := acts + [Commit(true)], Do(before, Commit(true));
  }

  /** Another service's retry follows it in its partition, and its own release fails. */
  lemma {:induction false} SkippedHead() returns (settings: Settings, acts: seq<Action>, s: State)
    ensures Reaches(settings, acts, s) && s.skipped == {0} && s.drops == 0
    ensures |s.source| == 1 && s.source[0].message.headers == PLAIN && s.source[0].root == 0
    ensures IsCommitted(s.consumer, s.source, 0) && s.worker == Cursor(map[0 := 1], map[], None, false)
    ensures |s.retry| == 2 && s.retry[0].partition == s.retry[1].partition == 0
    ensures s.retry[1].message == RetryCopy(s.source[0].message, "analytics", Origin("order-lifecycle", 0), 2, 0.0)
  {
    settings, acts, s := OneRetry();
    var foreign := ForeignFailure(0, 0, "analytics", 0.0);
    ExecStep("inventory", settings, acts, foreign);
    acts, s := acts + [foreign], Do(s, foreign);
    ExecStep("inventory", settings, acts, WorkerPoll(0));
    acts, s := acts + [WorkerPoll(0)], Do(s, WorkerPoll(0));
    ExecStep("inventory", settings, acts, ReleaseFailed(0, false));
    acts, s := acts + [ReleaseFailed(0, false)], Do(s, ReleaseFailed(0, false));
  }

  lemma {:induction false} NextReleased() returns (settings: Settings, acts: seq<Action>, s: State)
    ensures Reaches(settings, acts, s) && s.skipped == {0} && s.drops == 0
    ensures |s.source| == 2 && s.source[0].message.headers == PLAIN && !IsFor(s.source[1].message, "inventory")
    ensures IsCommitted(s.consumer, s.source, 0) && s.worker == Cursor(map[0 := 2], map[], Some(1), true)
    ensures |s.retry| == 2 && s.retry[0].partition == s.retry[1].partition == 0
  {
    settings, acts, s := SkippedHead();
    ExecStep("inventory", settings, acts, WorkerPoll(1));
    acts, s := acts + [WorkerPoll(1)], Do(s, WorkerPoll(1));
    ExecStep("inventory", settings, acts, Release(0));
    assert "inventory" != "analytics" by { assert "inventory"[0] == 'i' && "analytics"[0] == 'a'; }
    acts, s := acts + [Release(0)], Do(s, Release(0));
  }

  lemma {:induction false} NoneLeft(s: State, r: nat)
    requires |s.source| == 2 && IsCommitted(s.consumer, s.source, 0) && !IsFor(s.source[1].message, s.me)
    requires |s.retry| == 2 && IsCommitted(s.worker, s.retry, 0) && IsCommitted(s.worker, s.retry, 1)
    ensures forall i: nat :: !OnSource(s, i, r)
    ensures forall j: nat :: !OnRetry(s, j, r)
  {
  }

  /** So the proviso of NothingIsDropped is needed: the next message of the partition is released and
      committed, and the event is in none of those places, below every committed offset. */
  lemma {:induction false} FailedReleaseDropsMessage() returns (settings: Settings, acts: seq<Action>, s: State)
    ensures Exec("inventory", settings, acts) == Some(s)
    ensures |s.source| > 0 && s.source[0].message.headers == PLAIN
    ensures s.drops == 1 && 0 !in s.handled && s.dead == []
    ensures forall i: nat :: !OnSource(s, i, 0)
    ensures forall j: nat :: !OnRetry(s, j, 0)
  {
    var before: State;
    settings, acts, before := NextReleased();
    assert 0 in PassedOver(before);
    ExecStep("inventory", settings, acts, WorkerCommit(true));
    acts, s := acts + [WorkerCommit(true)], Do(before, WorkerCommit(true));
    NoneLeft(s, 0);
  }

  // ---- The original offset ----

  /** Over every run: a retry names the offset its event was published at exactly when it is the second
      attempt; a consumer's dead letter exactly when the first attempt was the only one; a worker's
      exactly when it gave up on the second. Only the topic survives every hop. */
  lemma {:induction false} OriginOffsetIff(me: string, settings: Settings, acts: seq<Action>)
    requires Exec(me, settings, acts).Some?
    ensures var s := Exec(me, settings, acts).value;
            && (forall j :: 0 <= j < |s.retry| ==>
                  (NamesRoot(s.retry[j]) <==> s.retry[j].message.headers.attempt == Some(2)))
            && (forall d :: 0 <= d < |s.dead| ==>
                  (NamesRoot(s.dead[d]) <==>
                   s.dead[d].message.headers.attemptsMade == if s.dead[d].writer == Consumer then Some(1) else Some(2)))
            && (forall d :: 0 <= d < |s.dead| ==> s.dead[d].message.headers.originTopic == Some(settings.sourceTopic))
  {
    InvHolds(me, settings, acts);
    var s := Exec(me, settings, acts).value;
    forall d | 0 <= d < |s.dead| ensures s.dead[d].message.headers.originTopic == Some(settings.sourceTopic) {
      assert DeadShape(settings, s.dead[d].message);
    }
  }

  /** The event's first retry has come back to the source topic. */
  lemma {:induction false} CameBack() returns (settings: Settings, acts: seq<Action>, s: State)
    ensures Reaches(settings, acts, s) && |s.source| == 2 && |s.retry| == 1
    ensures s.source[1].partition == 0 && s.source[1].root == 0
    ensures AttemptOf(s.source[1].message.headers) == 2 && IsFor(s.source[1].message, "inventory")
    ensures s.consumer == Cursor(map[0 := 1], map[0 := 1], None, false)
  {
    settings, acts, s := OneRetry();
    ExecStep("inventory", settings, acts, WorkerPoll(0));
    acts, s := acts + [WorkerPoll(0)], Do(s, WorkerPoll(0));
    ExecStep("inventory", settings, acts, Release(0));
    acts, s := acts + [Release(0)], Do(s, Release(0));
  }

  /** A run with two failures: the second retry of the event published at offset 0 says 1. */
  lemma {:induction false} SecondFailureForgetsOffset() returns (settings: Settings, acts: seq<Action>, s: State)
    ensures Exec("inventory", settings, acts) == Some(s) && |s.retry| == 2
    ensures s.retry[1].root == 0 && s.retry[1].message.headers.originOffset == Some(1)
    ensures s.retry[1].message.headers.attempt == Some(3)
  {
    settings, acts, s := CameBack();
    ExecStep("inventory", settings, acts, Poll(1));
    acts, s := acts + [Poll(1)], Do(s, Poll(1));
    assert RouteOf(settings, Transient, AttemptOf(Held(s).message.headers)) == ToRetry(3);
    ExecStep("inventory", settings, acts, FailMoved(Transient, 0));
    acts, s := acts + [FailMoved(Transient, 0)], Do(s, FailMoved(Transient, 0));
  }

  // ---- Attempts and backoff ----

  /** Every attempt number written to the retry topic lies in 2..max, and the dead letters report
      between one attempt and the whole budget, whatever the run. */
  lemma {:induction false} AttemptsStayInBudget(me: string, settings: Settings, acts: seq<Action>)
    requires Exec(me, settings, acts).Some?
    ensures var s := Exec(me, settings, acts).value;
            && (forall j :: 0 <= j < |s.retry| ==> WithinBudget(settings, s.retry[j].message.headers.attempt))
            && (forall d :: 0 <= d < |s.dead| ==>
                  s.dead[d].message.headers.attemptsMade.Some?
                  && 1 <= s.dead[d].message.headers.attemptsMade.value <= Budget(settings))
            && (forall n :: 0 <= n < |s.runs| ==> 1 <= s.runs[n].attempt <= Budget(settings))
  {
    InvHolds(me, settings, acts);
    var s := Exec(me, settings, acts).value;
    forall j | 0 <= j < |s.retry| ensures WithinBudget(settings, s.retry[j].message.headers.attempt) {
      assert RetryShape(settings, s.retry[j].message);
    }
    forall d | 0 <= d < |s.dead|
      ensures s.dead[d].message.headers.attemptsMade.Some?
              && 1 <= s.dead[d].message.headers.attemptsMade.value <= Budget(settings)
    {
      assert DeadShape(settings, s.dead[d].message);
    }
    forall n | 0 <= n < |s.runs| ensures 1 <= s.runs[n].attempt <= Budget(settings) {
      assert Spent(s, s.runs[n]);
      assert SourceShape(settings, s.source[s.runs[n].offset].message);
    }
  }

  /** Every attempt k ran no sooner after the first than the backoffs of attempts 2 to k, for every
      schedule; and never for a copy addressed to another service. */
  lemma {:induction false} BackoffLowerBound(me: string, settings: Settings, acts: seq<Action>, n: nat)
    requires Exec(me, settings, acts).Some? && n < |Exec(me, settings, acts).value.runs|
    ensures var s := Exec(me, settings, acts).value;
            var run := s.runs[n];
            && run.root in s.firstRun && run.at >= s.firstRun[run.root] + BackoffSum(settings, run.attempt)
            && run.offset < |s.source| && IsFor(s.source[run.offset].message, me)
  {
    InvHolds(me, settings, acts);
    var s := Exec(me, settings, acts).value;
    assert Spent(s, s.runs[n]);
  }
}
