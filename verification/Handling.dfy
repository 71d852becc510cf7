/** Handling one message: the consumer's steps from its receipt on, and what they do to the topics, the
    dead letters and the source rows. */
module Handling {
  import opened Common
  import opened Wire
  import opened Delivery

  /** What the world answers while one message is handled. */
  datatype Answers = Answers(
    nowMs: nat,
    outcome: JobOutcome,
    marked: bool,                  // the failure could be recorded
    target: TopicPartition,        // where a retry copy goes
    delivered: bool,
    acknowledged: bool)

  lemma {:induction false} RunSnoc(s: State, actions: seq<Action>, a: Action)
    ensures Run(s, actions + [a]) == Step(Run(s, actions), a)
    decreases |actions|
  {
    if actions == [] {
      assert [] + [a] == [a];
      assert [a][1..] == [];
    } else {
      assert (actions + [a])[1..] == actions[1..] + [a];
      RunSnoc(Step(s, actions[0]), actions[1..], a);
    }
  }

  // ---- what handling a message is ----

  /** How much of the handler is left. */
  function Rank(stage: Stage): nat {
    match stage
    case Idle => 0
    case Committing(_) => 1
    case Retrying(_, _) => 2
    case DeadLettering(_, _) => 2
    case Marking(_, _, _, _) => 3
    case Running(_, _, _) => 4
    case Received(_) => 5
  }

  /** The one step of the protocol that a stage leads to. */
  function StepOf(s: State, a: Answers): State {
    match s.stage
    case Idle => s
    case Received(_) => StepInspect(s, a.nowMs)
    case Running(_, _, _) => StepJobReturns(s, a.outcome)
    case Marking(_, _, _, _) => StepMark(s, a.marked, a.nowMs)
    case Retrying(_, _) => StepPublishRetry(s, a.target, a.nowMs, a.delivered, a.acknowledged)
    case DeadLettering(_, _) => StepPublishDeadLetter(s, a.nowMs, a.delivered, a.acknowledged)
    case Committing(_) => StepCommitOffset(s)
  }

  /** Step after step until the handler is done. */
  function Drive(s: State, a: Answers): State
    decreases Rank(s.stage)
  {
    var t := StepOf(s, a);
    if Rank(t.stage) < Rank(s.stage) then Drive(t, a) else s
  }

  function ActionOf(stage: Stage, a: Answers): Action {
    match stage
    case Idle => Resume(0)
    case Received(_) => Inspect(a.nowMs)
    case Running(_, _, _) => JobReturns(a.outcome)
    case Marking(_, _, _, _) => MarkSourceFailed(a.marked, a.nowMs)
    case Retrying(_, _) => PublishRetry(a.target, a.nowMs, a.delivered, a.acknowledged)
    case DeadLettering(_, _) => PublishDeadLetter(a.nowMs, a.delivered, a.acknowledged)
    case Committing(_) => CommitOffset
  }

  lemma StepOfIsStep(s: State, a: Answers)
    requires !s.stage.Idle?
    ensures StepOf(s, a) == Step(s, ActionOf(s.stage, a))
  {
  }

  /** The protocol's actions that handling a message takes. */
  function Trace(s: State, a: Answers): seq<Action>
    decreases Rank(s.stage)
  {
    var t := StepOf(s, a);
    if Rank(t.stage) < Rank(s.stage) then [ActionOf(s.stage, a)] + Trace(t, a) else []
  }

  /** The consumer's own actions on a message. */
  predicate OfHandler(a: Action) {
    a.Inspect? || a.JobReturns? || a.MarkSourceFailed? || a.PublishRetry? || a.PublishDeadLetter? || a.CommitOffset?
  }

  /** Handling a message is a run of the protocol, by the handler's own actions. */
  lemma {:induction false} DriveIsRun(s: State, a: Answers)
    ensures Drive(s, a) == Run(s, Trace(s, a))
    ensures forall i :: 0 <= i < |Trace(s, a)| ==> OfHandler(Trace(s, a)[i])
    decreases Rank(s.stage)
  {
    var t := StepOf(s, a);
    if Rank(t.stage) < Rank(s.stage) {
      DriveIsRun(t, a);
      StepOfIsStep(s, a);
      RunCons(s, ActionOf(s.stage, a), Trace(t, a));
    }
  }

  lemma RunCons(s: State, a: Action, ys: seq<Action>)
    ensures Run(s, [a] + ys) == Run(Step(s, a), ys)
  {
    assert ([a] + ys)[1..] == ys;
  }

  lemma DriveNext(s: State, a: Answers)
    requires Rank(StepOf(s, a).stage) < Rank(s.stage)
    ensures Drive(s, a) == Drive(StepOf(s, a), a)
  {
  }

  lemma DriveDone(s: State, a: Answers)
    requires s.stage.Idle?
    ensures Drive(s, a) == s
  {
  }

  /** The offset is committed past the message. */
  predicate Advanced(s: State, t: State, tp: TopicPartition) {
    && tp in s.parts && tp in t.parts && t.parts[tp].committed == t.parts[tp].position == s.parts[tp].position
    && t.pausedUntil == s.pausedUntil
  }

  /** The partition is back at the message, and paused until the given time. */
  predicate Rewound(s: State, t: State, tp: TopicPartition, until: nat) {
    && tp in s.parts && tp in t.parts && t.parts[tp].position == s.parts[tp].position - 1
    && t.parts[tp].committed == s.parts[tp].committed && t.pausedUntil == s.pausedUntil[tp := until]
  }

  /** One or the other. */
  predicate Settled(s: State, t: State, tp: TopicPartition, committed: bool) {
    if committed then Advanced(s, t, tp) else tp in t.pausedUntil && Rewound(s, t, tp, t.pausedUntil[tp])
  }

  // ---- what handling does, in terms of topics and rows ----

  ghost predicate SameLogs(s: State, t: State) {
    t.parts.Keys == s.parts.Keys && forall x :: x in s.parts ==> t.parts[x].log == s.parts[x].log
  }

  /** One log has one more record, and no other log has changed. */
  ghost predicate LogGrew(s: State, t: State, target: TopicPartition) {
    && t.parts.Keys == s.parts.Keys && target in s.parts
    && |t.parts[target].log| == |s.parts[target].log| + 1
    && t.parts[target].log[..|s.parts[target].log|] == s.parts[target].log
    && forall x :: x in s.parts && x != target ==> t.parts[x].log == s.parts[x].log
  }

  /** The same message again, for the next attempt, after thirty seconds, five minutes or half an hour. */
  predicate IsRetryCopy(codec: Codec, r: BrokerRecord, copy: BrokerRecord, next: nat, nowMs: nat) {
    var delay := if next == 1 then 30 else if next == 2 then 300 else 1800;
    && copy.topic == "serviq.knowledge.sync.v1.retry" && copy.key == r.key && copy.value == r.value
    && codec.readRetry(copy.headers) == Some((next, nowMs + 1000 * delay))
  }

  /** The message is done with when the broker took it over, and waits a second when not. */
  predicate HandedOver(s: State, t: State, tp: TopicPartition, a: Answers) {
    if a.acknowledged then Advanced(s, t, tp) else Rewound(s, t, tp, a.nowMs + 1000)
  }

  /** A retry copy was sent if the broker took it, and nothing else happened. */
  ghost predicate Copied(s: State, t: State, r: BrokerRecord, next: nat, a: Answers) {
    && t.sources == s.sources && t.completed == s.completed && t.deadLetters == s.deadLetters
    && if a.delivered then
        && LogGrew(s, t, a.target)
        && IsRetryCopy(s.codec, r, t.parts[a.target].log[|s.parts[a.target].log|], next, a.nowMs)
       else SameLogs(s, t)
  }

  ghost predicate Retried(s: State, t: State, tp: TopicPartition, r: BrokerRecord, next: nat, a: Answers) {
    Copied(s, t, r, next, a) && HandedOver(s, t, tp, a)
  }

  /** The message is among the dead letters with this error, if the broker took it, and nowhere else. */
  ghost predicate Interred(s: State, t: State, r: BrokerRecord, error: JobError, a: Answers) {
    && SameLogs(s, t) && t.completed == s.completed
    && t.deadLetters == s.deadLetters
       + if a.delivered then [DeadLetter(r.(topic := "serviq.knowledge.sync.v1.dlq"), error)] else []
  }

  ghost predicate Buried(s: State, t: State, tp: TopicPartition, r: BrokerRecord, error: JobError, a: Answers) {
    Interred(s, t, r, error, a) && HandedOver(s, t, tp, a)
  }

  /** Nothing happened to the message, which will be seen again at the given time. */
  ghost predicate Postponed(s: State, t: State, tp: TopicPartition, until: nat) {
    && SameLogs(s, t) && t.sources == s.sources && t.completed == s.completed && t.deadLetters == s.deadLetters
    && Rewound(s, t, tp, until)
  }

  /** The command's source is failed if it is still at the command's version, and nothing else is. */
  ghost predicate FailedSource(s: State, t: State, c: Command) {
    && t.sources.Keys == s.sources.Keys
    && (forall x :: x in s.sources && x != c.source ==> t.sources[x] == s.sources[x])
    && (c.source in s.sources ==>
          var row := s.sources[c.source];
          if row.tenant == c.tenant && row.version == c.version && row.status != Disabled
          then t.sources[c.source] == row.(status := SyncFailed)
          else t.sources[c.source] == row)
  }

  /** What becomes of a command whose job has answered, at the given attempt. */
  ghost predicate Answered(
      s: State, t: State, tp: TopicPartition, r: BrokerRecord, c: Command, attempt: nat, a: Answers)
  {
    match a.outcome
    case JobFailed(error, retryable) =>
      if attempt < 3 && (retryable || !a.marked) then Retried(s, t, tp, r, attempt + 1, a)
      else if a.marked then FailedSource(s, t, c) && Buried(s, t, tp, r, error, a)
      else Postponed(s, t, tp, a.nowMs + 1000)
    case _ =>
      && SameLogs(s, t) && t.sources == s.sources && t.deadLetters == s.deadLetters
      && t.completed == s.completed + {Pair(c.source, c.version)} && Advanced(s, t, tp)
  }

  /** What becomes of a received message. A retry message counts its attempts in its headers and is
      not handled before its time; an unreadable message is buried as an invalid event. */
  ghost predicate HandledRightly(s: State, t: State, tp: TopicPartition, r: BrokerRecord, a: Answers) {
    var metadata, command := s.codec.readRetry(r.headers), s.codec.decode(r.key, r.value);
    if tp.retry && metadata.None? then t.sources == s.sources && Buried(s, t, tp, r, InvalidEvent, a)
    else if tp.retry && metadata.value.1 > a.nowMs then Postponed(s, t, tp, metadata.value.1)
    else if command.None? then t.sources == s.sources && Buried(s, t, tp, r, InvalidEvent, a)
    else Answered(s, t, tp, r, command.value, if tp.retry then metadata.value.0 else 0, a)
  }

  // ---- the steps do that ----

  /** Whether the world's answers make sense: a retry copy goes to a retry partition, and the broker
      acknowledges only what it took. */
  predicate Sensible(s: State, a: Answers) {
    a.target in s.parts && a.target.retry && (a.acknowledged ==> a.delivered)
  }

  lemma CommittingEnds(s: State, a: Answers, tp: TopicPartition)
    requires s.stage == Committing(tp) && tp in s.parts
    ensures var t := Drive(s, a);
      && SameLogs(s, t) && t.sources == s.sources && t.deadLetters == s.deadLetters && t.completed == s.completed
      && Advanced(s, t, tp)
  {
    DriveNext(s, a);
    DriveDone(StepCommitOffset(s), a);
  }

  /** The broker took the message over, or the partition is rewound. */
  predicate PassedOn(s: State, t: State, tp: TopicPartition, a: Answers) {
    if a.acknowledged then
      && t.stage == Committing(tp) && tp in s.parts && tp in t.parts && t.pausedUntil == s.pausedUntil
      && t.parts[tp].position == s.parts[tp].position
    else t.stage == Idle && Rewound(s, t, tp, a.nowMs + 1000)
  }

  lemma RetryStep(s: State, a: Answers, tp: TopicPartition, r: BrokerRecord, next: nat)
    requires s.stage == Retrying(tp, next) && 1 <= next <= 3 && Handled(s, tp) == Some(r) && Sensible(s, a)
    requires Faithful(s.codec)
    ensures Copied(s, StepOf(s, a), r, next, a) && PassedOn(s, StepOf(s, a), tp, a)
  {
    var delay := RetryDelaySeconds(next) * 1000;
    assert s.codec.readRetry(s.codec.writeRetry(next, a.nowMs + delay)) == Some((next, a.nowMs + delay));
  }

  lemma RetryingEnds(s: State, a: Answers, tp: TopicPartition, r: BrokerRecord, next: nat)
    requires s.stage == Retrying(tp, next) && 1 <= next <= 3 && Handled(s, tp) == Some(r) && Sensible(s, a)
    requires Faithful(s.codec)
    ensures Retried(s, Drive(s, a), tp, r, next, a)
  {
    var t := StepOf(s, a);
    RetryStep(s, a, tp, r, next);
    DriveNext(s, a);
    if a.acknowledged { CommittingEnds(t, a, tp); } else { DriveDone(t, a); }
  }

  lemma BuryStep(s: State, a: Answers, tp: TopicPartition, r: BrokerRecord, error: JobError)
    requires s.stage == DeadLettering(tp, error) && Handled(s, tp) == Some(r) && Sensible(s, a)
    ensures Interred(s, StepOf(s, a), r, error, a) && PassedOn(s, StepOf(s, a), tp, a)
    ensures StepOf(s, a).sources == s.sources
  {
  }

  lemma BuryingEnds(s: State, a: Answers, tp: TopicPartition, r: BrokerRecord, error: JobError)
    requires s.stage == DeadLettering(tp, error) && Handled(s, tp) == Some(r) && Sensible(s, a)
    ensures Buried(s, Drive(s, a), tp, r, error, a) && Drive(s, a).sources == s.sources
  {
    var t := StepOf(s, a);
    BuryStep(s, a, tp, r, error);
    DriveNext(s, a);
    if a.acknowledged { CommittingEnds(t, a, tp); } else { DriveDone(t, a); }
  }

  lemma MarkStep(s: State, a: Answers, tp: TopicPartition, c: Command, attempt: nat, error: JobError)
    requires s.stage == Marking(tp, c, attempt, error) && tp in s.parts && s.parts[tp].position > 0
    ensures var t := StepOf(s, a);
      if a.marked then FailedSource(s, t, c) && t == s.(sources := t.sources, stage := DeadLettering(tp, error))
      else if attempt < 3 then t == s.(stage := Retrying(tp, attempt + 1))
      else Postponed(s, t, tp, a.nowMs + 1000) && t.stage == Idle
  {
  }

  lemma MarkedEnds(
      s: State, a: Answers, tp: TopicPartition, r: BrokerRecord, c: Command, attempt: nat, error: JobError)
    requires s.stage == Marking(tp, c, attempt, error) && Handled(s, tp) == Some(r) && Sensible(s, a) && a.marked
    ensures FailedSource(s, Drive(s, a), c) && Buried(s, Drive(s, a), tp, r, error, a)
  {
    MarkStep(s, a, tp, c, attempt, error);
    DriveNext(s, a);
    BuryingEnds(StepOf(s, a), a, tp, r, error);
  }

  lemma UnmarkedEnds(
      s: State, a: Answers, tp: TopicPartition, r: BrokerRecord, c: Command, attempt: nat, error: JobError)
    requires s.stage == Marking(tp, c, attempt, error) && Handled(s, tp) == Some(r) && Sensible(s, a) && !a.marked
    requires Faithful(s.codec)
    ensures if attempt < 3 then Retried(s, Drive(s, a), tp, r, attempt + 1, a)
            else Postponed(s, Drive(s, a), tp, a.nowMs + 1000)
  {
    var t := StepOf(s, a);
    MarkStep(s, a, tp, c, attempt, error);
    DriveNext(s, a);
    if attempt < 3 { RetryingEnds(t, a, tp, r, attempt + 1); } else { DriveDone(t, a); }
  }

  /** After a final failure, or one that may not be retried. */
  lemma MarkingEnds(
      s: State, a: Answers, tp: TopicPartition, r: BrokerRecord, c: Command, attempt: nat, error: JobError)
    requires s.stage == Marking(tp, c, attempt, error) && Handled(s, tp) == Some(r) && Sensible(s, a)
    requires Faithful(s.codec)
    ensures var t := Drive(s, a);
      if a.marked then FailedSource(s, t, c) && Buried(s, t, tp, r, error, a)
      else if attempt < 3 then Retried(s, t, tp, r, attempt + 1, a)
      else Postponed(s, t, tp, a.nowMs + 1000)
  {
    if a.marked { MarkedEnds(s, a, tp, r, c, attempt, error); } else { UnmarkedEnds(s, a, tp, r, c, attempt, error); }
  }

  lemma JobStep(s: State, a: Answers, tp: TopicPartition, c: Command, attempt: nat)
    requires s.stage == Running(tp, c, attempt) && JobAllows(s, c, a.outcome)
    ensures var t := StepOf(s, a);
      match a.outcome
      case JobFailed(error, retryable) =>
        t == s.(stage := if retryable && attempt < 3 then Retrying(tp, attempt + 1) else Marking(tp, c, attempt, error))
      case _ => t == s.(stage := Committing(tp), completed := s.completed + {Pair(c.source, c.version)})
  {
  }

  lemma CompletionEnds(s: State, a: Answers, tp: TopicPartition, r: BrokerRecord, c: Command, attempt: nat)
    requires s.stage == Running(tp, c, attempt) && tp in s.parts && JobAllows(s, c, a.outcome) && !a.outcome.JobFailed?
    ensures Answered(s, Drive(s, a), tp, r, c, attempt, a)
  {
    JobStep(s, a, tp, c, attempt);
    DriveNext(s, a);
    CommittingEnds(StepOf(s, a), a, tp);
  }

  lemma FailureEnds(s: State, a: Answers, tp: TopicPartition, r: BrokerRecord, c: Command, attempt: nat)
    requires s.stage == Running(tp, c, attempt) && Handled(s, tp) == Some(r) && Sensible(s, a)
    requires Faithful(s.codec) && JobAllows(s, c, a.outcome) && a.outcome.JobFailed?
    ensures Answered(s, Drive(s, a), tp, r, c, attempt, a)
  {
    var t := StepOf(s, a);
    JobStep(s, a, tp, c, attempt);
    DriveNext(s, a);
    if a.outcome.retryable && attempt < 3 {
      RetryingEnds(t, a, tp, r, attempt + 1);
    } else {
      MarkingEnds(t, a, tp, r, c, attempt, a.outcome.error);
    }
  }

  lemma InspectStep(s: State, a: Answers, tp: TopicPartition, r: BrokerRecord)
    requires s.stage == Received(tp) && Handled(s, tp) == Some(r)
    ensures var t, metadata, command := StepOf(s, a), s.codec.readRetry(r.headers), s.codec.decode(r.key, r.value);
      if tp.retry && metadata.None? then t == s.(stage := DeadLettering(tp, InvalidEvent))
      else if tp.retry && metadata.value.1 > a.nowMs then Postponed(s, t, tp, metadata.value.1) && t.stage == Idle
      else if command.None? then t == s.(stage := DeadLettering(tp, InvalidEvent))
      else t == s.(stage := Running(tp, command.value, if tp.retry then metadata.value.0 else 0))
  {
  }

  lemma UnreadableEnds(s: State, a: Answers, tp: TopicPartition, r: BrokerRecord)
    requires s.stage == Received(tp) && Handled(s, tp) == Some(r) && Sensible(s, a)
    requires StepOf(s, a) == s.(stage := DeadLettering(tp, InvalidEvent))
    ensures Drive(s, a).sources == s.sources && Buried(s, Drive(s, a), tp, r, InvalidEvent, a)
  {
    DriveNext(s, a);
    BuryingEnds(StepOf(s, a), a, tp, r, InvalidEvent);
  }

  lemma ReadableEnds(s: State, a: Answers, tp: TopicPartition, r: BrokerRecord, c: Command, attempt: nat)
    requires s.stage == Received(tp) && Handled(s, tp) == Some(r) && Sensible(s, a) && Faithful(s.codec)
    requires StepOf(s, a) == s.(stage := Running(tp, c, attempt)) && JobAllows(s, c, a.outcome)
    ensures Answered(s, Drive(s, a), tp, r, c, attempt, a)
  {
    var t := StepOf(s, a);
    DriveNext(s, a);
    if a.outcome.JobFailed? { FailureEnds(t, a, tp, r, c, attempt); } else { CompletionEnds(t, a, tp, r, c, attempt); }
  }

  /** Whatever the world answers, a received message is handled rightly. */
  lemma MessageIsHandledRightly(s: State, a: Answers, tp: TopicPartition, r: BrokerRecord)
    requires s.stage == Received(tp) && Handled(s, tp) == Some(r) && Sensible(s, a) && Faithful(s.codec)
    requires CommandOf(s.codec, r).Some? ==> JobAllows(s, CommandOf(s.codec, r).value, a.outcome)
    ensures HandledRightly(s, Drive(s, a), tp, r, a)
  {
    var metadata, command := s.codec.readRetry(r.headers), s.codec.decode(r.key, r.value);
    InspectStep(s, a, tp, r);
    if StepOf(s, a).stage.DeadLettering? {
      UnreadableEnds(s, a, tp, r);
    } else if StepOf(s, a).stage.Idle? {
      DriveNext(s, a);
      DriveDone(StepOf(s, a), a);
    } else {
      ReadableEnds(s, a, tp, r, command.value, if tp.retry then metadata.value.0 else 0);
    }
  }
}
