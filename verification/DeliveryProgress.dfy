/** What the delivery achieves when the world answers: a request becomes an event, the event a message,
    and the message a job whose completion is committed. */
module DeliveryProgress {
  import opened Common
  import opened Wire
  import opened Delivery
  import opened Handling
  import opened OutboxBatches

  /** A request for an enabled source allocates the next version and one unpublished event for it. */
  lemma StartSyncAllocates(s: State, x: Uuid, id: Uuid, requestId: Option<string>, generated: Uuid)
    requires x in s.sources && s.sources[x].status != Disabled
    ensures var t := Step(s, StartSync(x, id, requestId, generated)); var row := s.sources[x];
      && t.sources == s.sources[x := row.(version := row.version + 1, status := Syncing)]
      && |t.outbox| == |s.outbox| + 1 && t.outbox[..|s.outbox|] == s.outbox
      && (var e := t.outbox[|s.outbox|];
          e.tenant == row.tenant && e.source == x && e.version == row.version + 1 && e.id == id
          && e.status == Unpublished && e.attempts == 0 && 1 <= |e.correlationId| <= 128)
      && t.parts == s.parts && t.stage == s.stage && t.pausedUntil == s.pausedUntil && t.deadLetters == s.deadLetters
      && t.completed == s.completed && t.batch == s.batch
  {
  }

  /** A disabled source gets no version. */
  lemma DisabledSourceGetsNone(s: State, x: Uuid, id: Uuid, requestId: Option<string>, generated: Uuid)
    requires x in s.sources && s.sources[x].status == Disabled
    ensures Step(s, StartSync(x, id, requestId, generated)) == s
  {
  }

  /** An idle consumer receives the next message of a partition that is not paused. */
  lemma PollReceives(s: State, tp: TopicPartition)
    requires s.stage == Idle && tp in s.parts && tp !in s.pausedUntil && s.parts[tp].position < |s.parts[tp].log|
    ensures var t := Step(s, Poll(tp));
      && t.stage == Received(tp) && Handled(t, tp) == Some(s.parts[tp].log[s.parts[tp].position])
      && t == s.(stage := t.stage, parts := s.parts[tp := s.parts[tp].(position := s.parts[tp].position + 1)])
  {
  }

  /** A paused or exhausted partition yields nothing, and neither does any while a message is handled. */
  lemma PausedPartitionWaits(s: State, tp: TopicPartition)
    requires s.stage != Idle || tp in s.pausedUntil || tp !in s.parts || s.parts[tp].position >= |s.parts[tp].log|
    ensures Step(s, Poll(tp)) == s
  {
  }

  /** An event is sent only while it is unpublished, at most once in a batch, and to the sync topic. */
  lemma SettledEventIsNotSent(s: State, i: nat, tp: TopicPartition, delivered: bool, acknowledged: bool)
    requires i < |s.outbox| && (s.outbox[i].status != Unpublished || i in s.batch || tp.retry)
    ensures Step(s, PublishEvent(i, tp, delivered, acknowledged)) == s
  {
  }

  /** A partition whose time has come is polled again; the others stay paused. */
  lemma ResumeIsExact(s: State, nowMs: nat, tp: TopicPartition)
    requires tp in s.pausedUntil
    ensures var t := Step(s, Resume(nowMs));
      && (tp in t.pausedUntil <==> s.pausedUntil[tp] > nowMs)
      && (tp in t.pausedUntil ==> t.pausedUntil[tp] == s.pausedUntil[tp])
  {
  }

  // ---- from request to completion ----

  /** Nothing of the partition is waiting, and it is not paused. */
  predicate Drained(s: State, tp: TopicPartition) {
    && s.stage == Idle && tp in s.parts && !tp.retry && tp !in s.pausedUntil
    && s.parts[tp].position == s.parts[tp].committed == |s.parts[tp].log|
  }

  /** The request, and its event published and acknowledged. */
  function Requested(s: State, x: Uuid, id: Uuid, requestId: Option<string>, generated: Uuid, tp: TopicPartition)
    : State
  {
    var asked := StepStartSync(s, x, id, requestId, generated);
    StepCommitBatch(PublishAll(asked, [Fate(|s.outbox|, tp, true, true)], 1))
  }

  lemma RequestIsPublished(
      s: State, x: Uuid, id: Uuid, requestId: Option<string>, generated: Uuid, tp: TopicPartition)
    requires Faithful(s.codec) && x in s.sources && s.sources[x].status != Disabled
    requires Drained(s, tp) && s.batch == map[]
    ensures var t, row := Requested(s, x, id, requestId, generated, tp), s.sources[x];
      && t.stage == Idle && t.codec == s.codec && tp in t.parts && tp !in t.pausedUntil
      && t.sources == s.sources[x := row.(version := row.version + 1, status := Syncing)]
      && |t.outbox| == |s.outbox| + 1 && t.outbox[|s.outbox|].status == Published
      && t.completed == s.completed && t.deadLetters == s.deadLetters
      && t.parts[tp].position == |s.parts[tp].log| && |t.parts[tp].log| == |s.parts[tp].log| + 1
      && (var c := CommandOf(s.codec, t.parts[tp].log[|s.parts[tp].log|]);
          c.Some? && c.value.source == x && c.value.tenant == row.tenant && c.value.version == row.version + 1)
  {
    var asked := StepStartSync(s, x, id, requestId, generated);
    var fates := [Fate(|s.outbox|, tp, true, true)];
    StartSyncAllocates(s, x, id, requestId, generated);
    BatchIsDone(asked, fates);
    var e := asked.outbox[|s.outbox|];
    var r := s.codec.encode(e);
    assert r.Some? && Sent(asked.codec, asked.outbox, fates, tp, 0) == [];
    assert Sent(asked.codec, asked.outbox, fates, tp, 1) == [r.value];
    assert fates[0].row == |s.outbox|;
  }

  /** The consumer polls the message and its job hands the version off. */
  function Consumed(s: State, tp: TopicPartition, a: Answers): State {
    Drive(StepPoll(s, tp), a)
  }

  lemma MessageIsCompleted(s: State, tp: TopicPartition, a: Answers, c: Command)
    requires Faithful(s.codec) && s.stage == Idle && tp in s.parts && !tp.retry && tp !in s.pausedUntil
    requires s.parts[tp].position < |s.parts[tp].log| && Sensible(s, a)
    requires CommandOf(s.codec, s.parts[tp].log[s.parts[tp].position]) == Some(c)
    requires a.outcome == HandedOff && JobAllows(s, c, HandedOff)
    ensures var t := Consumed(s, tp, a);
      && Pair(c.source, c.version) in t.completed && t.deadLetters == s.deadLetters && t.sources == s.sources
      && tp in t.parts && t.parts[tp].committed == s.parts[tp].position + 1
      && t.outbox == s.outbox
  {
    PollReceives(s, tp);
    var p := StepPoll(s, tp);
    MessageIsHandledRightly(p, a, tp, s.parts[tp].log[s.parts[tp].position]);
    DriveKeepsOutbox(p, a);
  }

  lemma {:induction false} DriveKeepsOutbox(s: State, a: Answers)
    ensures Drive(s, a).outbox == s.outbox
    decreases Rank(s.stage)
  {
    var t := StepOf(s, a);
    StepOfKeepsOutbox(s, a);
    if Rank(t.stage) < Rank(s.stage) { DriveKeepsOutbox(t, a); }
  }

  lemma StepOfKeepsOutbox(s: State, a: Answers)
    ensures StepOf(s, a).outbox == s.outbox
  {
    PublishingKeepsOutbox(s, a);
    MarkingKeepsOutbox(s, a);
  }

  lemma PublishingKeepsOutbox(s: State, a: Answers)
    ensures StepPublishRetry(s, a.target, a.nowMs, a.delivered, a.acknowledged).outbox == s.outbox
    ensures StepPublishDeadLetter(s, a.nowMs, a.delivered, a.acknowledged).outbox == s.outbox
  {
  }

  lemma MarkingKeepsOutbox(s: State, a: Answers)
    ensures StepMark(s, a.marked, a.nowMs).outbox == s.outbox && StepInspect(s, a.nowMs).outbox == s.outbox
  {
  }

  /** The whole good path: a request for an enabled source is published, received and completed. */
  lemma RequestIsCompleted(
      s: State, x: Uuid, id: Uuid, requestId: Option<string>, generated: Uuid, tp: TopicPartition, a: Answers)
    requires Faithful(s.codec) && x in s.sources && s.sources[x].status != Disabled
    requires Drained(s, tp) && s.batch == map[] && Sensible(s, a) && a.outcome == HandedOff
    ensures var t, row := Consumed(Requested(s, x, id, requestId, generated, tp), tp, a), s.sources[x];
      && x in t.sources && t.sources[x].version == row.version + 1
      && Pair(x, row.version + 1) in t.completed && t.deadLetters == s.deadLetters
      && |t.outbox| == |s.outbox| + 1 && t.outbox[|s.outbox|].status == Published
      && tp in t.parts && t.parts[tp].committed == |s.parts[tp].log| + 1
  {
    var m := Requested(s, x, id, requestId, generated, tp);
    RequestIsPublished(s, x, id, requestId, generated, tp);
    BatchKeepsPartitions(s, x, id, requestId, generated, tp);
    var c := CommandOf(s.codec, m.parts[tp].log[|s.parts[tp].log|]).value;
    MessageIsCompleted(m, tp, a, c);
  }

  lemma BatchKeepsPartitions(
      s: State, x: Uuid, id: Uuid, requestId: Option<string>, generated: Uuid, tp: TopicPartition)
    requires x in s.sources && s.sources[x].status != Disabled && Drained(s, tp) && s.batch == map[]
    ensures Requested(s, x, id, requestId, generated, tp).parts.Keys == s.parts.Keys
  {
    StartSyncAllocates(s, x, id, requestId, generated);
    BatchIsDone(StepStartSync(s, x, id, requestId, generated), [Fate(|s.outbox|, tp, true, true)]);
  }
}
