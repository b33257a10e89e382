/** Failure routing: what a message carries between the source, retry and dead-letter topics, the
    attempt budget, and how long each attempt waits. */
module Retry {
  import opened Events

  datatype FailureKind = Transient | Poison

  /** The headers this protocol reads, decoded; a missing or malformed one is None. */
  datatype Headers = Headers(
    service: Option<string>,
    originTopic: Option<string>,
    originOffset: Option<int>,
    attempt: Option<int>,
    retryTarget: Option<string>,
    retryAt: Option<real>,
    attemptsMade: Option<int>)

  const PLAIN := Headers(None, None, None, None, None, None, None)

  datatype Message = Message(key: string, value: string, headers: Headers)

  datatype Settings = Settings(maxAttempts: int, schedule: seq<real>, sourceTopic: string, retryTopic: string)

  /** The attempt a delivery is spending: the header, never below one, one when there is none. */
  function AttemptOf(h: Headers): (a: int)
    ensures 1 <= a
  {
    if h.attempt.Some? && h.attempt.value > 1 then h.attempt.value else 1
  }

  /** The configured schedule, or thirty seconds when nothing parses. */
  function BackoffSchedule(s: Settings): (b: seq<real>)
    ensures b != []
  {
    if s.schedule == [] then [30.0] else s.schedule
  }

  function BackoffForAttempt(s: Settings, attempt: int): real {
    if attempt < 2 then 0.0
    else
      var schedule := BackoffSchedule(s);
      schedule[if attempt - 2 < |schedule| - 1 then attempt - 2 else |schedule| - 1]
  }

  /** How long attempts 2 to k wait in all. */
  function BackoffSum(s: Settings, k: int): real
    decreases k
  {
    if k < 2 then 0.0 else BackoffSum(s, k - 1) + BackoffForAttempt(s, k)
  }

  function Sum(xs: seq<real>): real {
    if xs == [] then 0.0 else Sum(xs[..|xs| - 1]) + xs[|xs| - 1]
  }

  /** Attempts within the schedule wait its first entries, and every later one its last entry again; with
      nothing configured each waits thirty seconds. */
  lemma {:induction false} BackoffTotals(s: Settings, k: int)
    requires 1 <= k
    ensures s.schedule == [] ==> BackoffSum(s, k) == (k - 1) as real * 30.0
    ensures s.schedule != [] && k - 1 <= |s.schedule| ==> BackoffSum(s, k) == Sum(s.schedule[..k - 1])
    ensures s.schedule != [] && k - 1 > |s.schedule| ==>
              BackoffSum(s, k) ==
              Sum(s.schedule) + (k - 1 - |s.schedule|) as real * s.schedule[|s.schedule| - 1]
    decreases k
  {
    var schedule := s.schedule;
    if k > 1 {
      BackoffTotals(s, k - 1);
      if k - 1 <= |schedule| {
        assert schedule[..k - 1][..k - 2] == schedule[..k - 2];
      } else {
        assert schedule[..|schedule|] == schedule;
      }
    }
  }

  datatype Route = ToRetry(attempt: int) | ToDeadLetter(attemptsMade: int)

  /** Where the consumer sends a message that failed on the given attempt. */
  function RouteOf(s: Settings, kind: FailureKind, attempt: int): Route {
    if kind.Transient? && s.maxAttempts > attempt then ToRetry(attempt + 1) else ToDeadLetter(attempt)
  }

  /** Where a message is said to come from: the consumer says where it read it, the worker what the
      headers say, or where it read it when they name no topic. */
  datatype Origin = Origin(topic: string, offset: int)

  function RetryCopy(m: Message, service: string, origin: Origin, attempt: int, due: real): Message {
    m.(headers := Headers(Some(service), Some(origin.topic), Some(origin.offset), Some(attempt), None, Some(due), None))
  }

  function DeadLetter(m: Message, service: string, origin: Origin, attemptsMade: int): Message {
    m.(headers := Headers(Some(service), Some(origin.topic), Some(origin.offset), None, None, None, Some(attemptsMade)))
  }

  /** The attempt and origin the worker reads back off a retry message. */
  function WorkerAttempt(m: Message): int {
    if m.headers.attempt.Some? then m.headers.attempt.value else 2
  }

  function WorkerOrigin(s: Settings, m: Message, readAt: int): Origin {
    if m.headers.originTopic.None? then Origin(s.retryTopic, readAt)
    else Origin(m.headers.originTopic.value, if m.headers.originOffset.Some? then m.headers.originOffset.value else -1)
  }

  /** The copy the worker puts back, addressed to the one service that asked for it. */
  function SourceCopy(s: Settings, m: Message, readAt: int, service: string): Message {
    var origin := WorkerOrigin(s, m, readAt);
    m.(headers := Headers(Some(service), Some(origin.topic), Some(origin.offset), Some(WorkerAttempt(m)), Some(service),
                          None, None))
  }

  function ServiceOf(m: Message): string {
    if m.headers.service.Some? then m.headers.service.value else ""
  }

  /** What the worker publishes: a message back to its topic, or a dead letter. */
  datatype Publication = ToSource(topic: string, message: Message) | ToDeadLetters(message: Message)

  /** The same event, where it says it came from: at the place the headers name, or on the retry topic
      when they name none. */
  predicate SameEvent(copy: Message, s: Settings, m: Message, readAt: int) {
    && copy.key == m.key && copy.value == m.value
    && copy.headers.originTopic == (if m.headers.originTopic.Some? then m.headers.originTopic else Some(s.retryTopic))
    && (m.headers.originTopic.None? ==> copy.headers.originOffset == Some(readAt))
    && (m.headers.originTopic.Some? && m.headers.originOffset.Some? ==>
          copy.headers.originOffset == m.headers.originOffset)
  }

  /** A publication puts a message back: on the topic it came from, for the service that asked and for no
      other, spending the attempt the header says, with no due time left on it. */
  ghost predicate IsReturnOf(sent: Publication, s: Settings, m: Message, readAt: int) {
    && sent.ToSource? && SameEvent(sent.message, s, m, readAt) && Some(sent.topic) == sent.message.headers.originTopic
    && (forall service :: IsFor(sent.message, service) <==> service == ServiceOf(m))
    && (m.headers.attempt.Some? && 1 <= m.headers.attempt.value ==>
          AttemptOf(sent.message.headers) == m.headers.attempt.value)
    && (m.headers.attempt.None? ==> AttemptOf(sent.message.headers) == 2)
    && sent.message.headers.retryAt.None?
  }

  /** A dead letter of a message reports the attempt it was on, and who gave up. */
  predicate IsLetterOf(letter: Message, s: Settings, m: Message, readAt: int) {
    && SameEvent(letter, s, m, readAt)
    && (m.headers.attempt.Some? ==> letter.headers.attemptsMade == m.headers.attempt)
    && (m.headers.attempt.None? ==> letter.headers.attemptsMade == Some(2))
    && (ServiceOf(m) != "" ==> letter.headers.service == m.headers.service)
    && letter.headers.retryTarget.None? && letter.headers.retryAt.None?
  }

  function BackToSource(s: Settings, m: Message, readAt: int): (sent: Publication)
    ensures IsReturnOf(sent, s, m, readAt)
  {
    ToSource(WorkerOrigin(s, m, readAt).topic, SourceCopy(s, m, readAt, ServiceOf(m)))
  }

  function Letter(s: Settings, m: Message, readAt: int): (letter: Message)
    ensures IsLetterOf(letter, s, m, readAt)
  {
    DeadLetter(m, if ServiceOf(m) == "" then "<unset>" else ServiceOf(m), WorkerOrigin(s, m, readAt), WorkerAttempt(m))
  }

  /** Whether a service's handler runs for a message of the source topic. */
  predicate IsFor(m: Message, service: string) {
    m.headers.retryTarget.None? || m.headers.retryTarget.value == service
  }

  // ---- One message through the whole cycle ----

  /** What each attempt at a message comes to: None where the handler succeeds. */
  type Plan = int -> Option<FailureKind>

  datatype Lever = Off | AimedTransient(attempts: int) | AimedPoison

  /** The failure lever: aimed at the named orders, or at every order when none is named. */
  function MaybeFail(lever: Lever, targeted: set<string>, orderId: string, attempt: int): Option<FailureKind> {
    if lever.Off? || (targeted != {} && orderId !in targeted) then None
    else if lever.AimedPoison? then Some(Poison)
    else if attempt <= lever.attempts then Some(Transient)
    else None
  }

  datatype Verdict = HandledOn(attempt: int) | DeadLettered(attemptsMade: int)

  /** The copy that comes back for the next attempt; where it was read and when it is due do not matter. */
  function NextCopy(s: Settings, m: Message, service: string, next: int): (c: Message)
    ensures c.key == m.key && c.value == m.value && IsFor(c, service)
    ensures next >= 1 ==> AttemptOf(c.headers) == next
  {
    SourceCopy(s, RetryCopy(m, service, Origin(s.sourceTopic, 0), next, 0.0), 0, service)
  }

  /** The consume-retry-release cycle of one message, each copy built from the one before and its
      attempt read back off the header. */
  function Cycle(s: Settings, plan: Plan, m: Message, service: string): Verdict
    decreases s.maxAttempts - AttemptOf(m.headers)
  {
    var attempt := AttemptOf(m.headers);
    if plan(attempt).None? then HandledOn(attempt)
    else
      match RouteOf(s, plan(attempt).value, attempt)
      case ToDeadLetter(made) => DeadLettered(made)
      case ToRetry(next) =>
        Cycle(s, plan, NextCopy(s, m, service, next), service)
  }

  /** The attempts a message gets: the configured maximum, but always the first. */
  function Budget(s: Settings): int { if s.maxAttempts > 1 then s.maxAttempts else 1 }

  /** Whatever the attempts come to, the cycle ends on the first that is not a transient failure, or on
      the last the budget allows; a message that arrives past the budget gets the one attempt. */
  lemma {:induction false} CycleEnds(s: Settings, plan: Plan, m: Message, service: string, k: int)
    requires AttemptOf(m.headers) == k || AttemptOf(m.headers) < k <= Budget(s)
    requires forall j :: AttemptOf(m.headers) <= j < k ==> plan(j) == Some(Transient)
    requires plan(k) == Some(Transient) ==> k >= Budget(s)
    ensures Cycle(s, plan, m, service) == if plan(k).None? then HandledOn(k) else DeadLettered(k)
    decreases k - AttemptOf(m.headers)
  {
    var attempt := AttemptOf(m.headers);
    if attempt < k {
      CycleEnds(s, plan, NextCopy(s, m, service, attempt + 1), service, k);
    }
  }

  /** A fresh message failing its first n attempts is handled on attempt n + 1 exactly when the
      budget reaches that far; otherwise it is dead-lettered after the whole budget. */
  lemma {:induction false} AttemptBudget(
    s: Settings, n: nat, targeted: set<string>, orderId: string, m: Message, service: string)
    requires m.headers == PLAIN && (targeted == {} || orderId in targeted)
    ensures Cycle(s, a => MaybeFail(AimedTransient(n), targeted, orderId, a), m, service)
            == if n < Budget(s) then HandledOn(n + 1) else DeadLettered(Budget(s))
  {
    var k := if n < Budget(s) then n + 1 else Budget(s);
    CycleEnds(s, a => MaybeFail(AimedTransient(n), targeted, orderId, a), m, service, k);
  }

  /** An order the lever is not aimed at is handled on the attempt it arrives on, whatever the lever says. */
  lemma {:induction false} UntargetedIsHandled(
    s: Settings, lever: Lever, targeted: set<string>, orderId: string, m: Message, service: string)
    requires lever.Off? || (targeted != {} && orderId !in targeted)
    ensures Cycle(s, a => MaybeFail(lever, targeted, orderId, a), m, service) == HandledOn(AttemptOf(m.headers))
  {
    CycleEnds(s, a => MaybeFail(lever, targeted, orderId, a), m, service, AttemptOf(m.headers));
  }

  /** A poison message spends one attempt, whatever the budget. */
  lemma {:induction false} PoisonSpendsOne(
    s: Settings, targeted: set<string>, orderId: string, m: Message, service: string)
    requires m.headers == PLAIN && (targeted == {} || orderId in targeted)
    ensures Cycle(s, a => MaybeFail(AimedPoison, targeted, orderId, a), m, service) == DeadLettered(1)
  {
    CycleEnds(s, a => MaybeFail(AimedPoison, targeted, orderId, a), m, service, 1);
  }
}
