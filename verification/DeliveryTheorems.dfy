/** No sync request is lost, whatever crashes, duplicates and broker failures occur. */
module DeliveryTheorems {
  import opened Common
  import opened Wire
  import opened Delivery

  function PairOf(codec: Codec, r: BrokerRecord): Option<Pair> {
    var c := CommandOf(codec, r);
    if c.Some? then Some(Pair(c.value.source, c.value.version)) else None
  }

  /** An uncommitted copy of the request, in the sync or the retry topic. */
  predicate CopyAt(codec: Codec, parts: map<TopicPartition, Partition>, tp: TopicPartition, o: nat, p: Pair) {
    tp in parts && parts[tp].committed <= o < |parts[tp].log| && PairOf(codec, parts[tp].log[o]) == Some(p)
  }

  ghost predicate DeadLettered(s: State, p: Pair) {
    exists i :: 0 <= i < |s.deadLetters| && PairOf(s.codec, s.deadLetters[i].record) == Some(p)
  }

  ghost predicate Resolved(s: State, p: Pair) {
    p in s.completed || DeadLettered(s, p) || exists tp, o: nat :: CopyAt(s.codec, s.parts, tp, o, p)
  }

  // ---- the invariant ----

  function EventPair(e: Event): Pair { Pair(e.source, e.version) }

  predicate EventOk(sources: map<Uuid, SourceRow>, e: Event) {
    && e.source in sources && e.tenant == sources[e.source].tenant
    && 1 <= e.version <= sources[e.source].version
    && 1 <= |e.correlationId| <= 200 && e.status != Unserializable
  }

  /** Every record names a source of its tenant and a version that was allocated, and a retry
      record carries readable retry headers. */
  predicate RecordOk(codec: Codec, sources: map<Uuid, SourceRow>, retry: bool, r: BrokerRecord) {
    && CommandOf(codec, r).Some?
    && CommandOf(codec, r).value.source in sources
    && CommandOf(codec, r).value.tenant == sources[CommandOf(codec, r).value.source].tenant
    && 1 <= CommandOf(codec, r).value.version <= sources[CommandOf(codec, r).value.source].version
    && (retry ==> codec.readRetry(r.headers).Some?)
  }

  /** Each source has one event for each version from 1 to its current one, and no other. */
  ghost predicate OneEventPerVersion(s: State) {
    && (forall i, j :: 0 <= i < j < |s.outbox| ==> EventPair(s.outbox[i]) != EventPair(s.outbox[j]))
    && (forall x: Uuid, v: nat :: x in s.sources && 1 <= v <= s.sources[x].version ==> HasEvent(s, x, v))
  }

  ghost predicate HasEvent(s: State, x: Uuid, v: nat) {
    exists i :: 0 <= i < |s.outbox| && EventPair(s.outbox[i]) == Pair(x, v)
  }

  ghost predicate OutboxOk(s: State) {
    && (forall i :: 0 <= i < |s.outbox| ==> EventOk(s.sources, s.outbox[i]))
    && (forall i :: i in s.batch ==> i < |s.outbox| && s.batch[i] != MarkUnserializable)
  }

  ghost predicate LogsOk(s: State) {
    forall tp, o :: tp in s.parts && 0 <= o < |s.parts[tp].log| ==>
      RecordOk(s.codec, s.sources, tp.retry, s.parts[tp].log[o])
  }

  predicate Busy(stage: Stage) { !stage.Idle? }

  /** The consumer is at most one record ahead of its commits, and only in the partition it is
      handling. */
  ghost predicate PositionsOk(s: State) {
    && (forall tp :: tp in s.parts ==>
          s.parts[tp].position == s.parts[tp].committed + (if Busy(s.stage) && s.stage.tp == tp then 1 else 0)
          && s.parts[tp].position <= |s.parts[tp].log|)
    && (Busy(s.stage) ==> s.stage.tp in s.parts)
  }

  /** What the stage knows about the record it handles. */
  ghost predicate StageOk(s: State) {
    match s.stage
    case Running(tp, c, attempt) =>
      Handled(s, tp).Some? && CommandOf(s.codec, Handled(s, tp).value) == Some(c)
    case Marking(tp, c, _, _) => Handled(s, tp).Some? && CommandOf(s.codec, Handled(s, tp).value) == Some(c)
    case Retrying(_, next) => 1 <= next <= MAX_RETRIES
    case Committing(tp) =>
      Handled(s, tp).Some? && PairOf(s.codec, Handled(s, tp).value).Some?
      && Resolved(s.(parts := Advance(s.parts, tp)), PairOf(s.codec, Handled(s, tp).value).value)
    case _ => true
  }

  /** The row is published, or will be when its batch commits. */
  predicate LeftOutbox(s: State, i: nat)
    requires i < |s.outbox|
  {
    s.outbox[i].status == Published || (i in s.batch && s.batch[i] == MarkPublished)
  }

  /** Whatever left the outbox, or lies below a committed offset, is resolved. */
  ghost predicate NothingLost(s: State) {
    && (forall i :: 0 <= i < |s.outbox| && LeftOutbox(s, i) ==> Resolved(s, EventPair(s.outbox[i])))
    && (forall tp, o :: tp in s.parts && 0 <= o < s.parts[tp].committed && o < |s.parts[tp].log| ==>
          PairOf(s.codec, s.parts[tp].log[o]).Some? && Resolved(s, PairOf(s.codec, s.parts[tp].log[o]).value))
  }

  ghost predicate DataOk(s: State) {
    OneEventPerVersion(s) && OutboxOk(s) && LogsOk(s)
  }

  ghost predicate FlowOk(s: State) {
    PositionsOk(s) && StageOk(s) && NothingLost(s)
  }

  ghost predicate Inv(s: State) {
    DataOk(s) && FlowOk(s)
  }

  // ---- what only grows ----

  /** Logs, dead letters and completed jobs only grow, and no offset is committed. */
  ghost predicate Grows(s: State, t: State) {
    && t.codec == s.codec && t.parts.Keys == s.parts.Keys
    && (forall tp :: tp in s.parts ==> s.parts[tp].log <= t.parts[tp].log)
    && (forall tp :: tp in s.parts ==> t.parts[tp].committed == s.parts[tp].committed)
    && s.deadLetters <= t.deadLetters && s.completed <= t.completed
  }

  lemma GrowsKeepsResolved(s: State, t: State, p: Pair)
    requires Grows(s, t) && Resolved(s, p)
    ensures Resolved(t, p)
  {
    if DeadLettered(s, p) {
      var i :| 0 <= i < |s.deadLetters| && PairOf(s.codec, s.deadLetters[i].record) == Some(p);
      assert t.deadLetters[i] == s.deadLetters[i];
    } else if p !in s.completed {
      var tp, o: nat :| CopyAt(s.codec, s.parts, tp, o, p);
      assert t.parts[tp].log[o] == s.parts[tp].log[o];
      assert CopyAt(t.codec, t.parts, tp, o, p);
    }
  }

  /** Committing one record can only unresolve the request that record carries. */
  lemma AdvanceKeepsResolved(s: State, tp: TopicPartition, p: Pair)
    requires PositionsOk(s) && Busy(s.stage) && s.stage.tp == tp && Resolved(s, p)
    requires Handled(s, tp).Some? && PairOf(s.codec, Handled(s, tp).value) != Some(p)
    ensures Resolved(s.(parts := Advance(s.parts, tp)), p)
  {
    var t := s.(parts := Advance(s.parts, tp));
    if DeadLettered(s, p) {
      assert DeadLettered(t, p);
    } else if p !in s.completed {
      var x, o: nat :| CopyAt(s.codec, s.parts, x, o, p);
      assert CopyAt(t.codec, t.parts, x, o, p);
    }
  }

  /** What left the outbox stays resolved when only more is known. */
  lemma GrowsKeepsNothingLost(s: State, t: State)
    requires Grows(s, t) && NothingLost(s)
    requires |s.outbox| <= |t.outbox|
    requires forall i :: 0 <= i < |s.outbox| ==> EventPair(t.outbox[i]) == EventPair(s.outbox[i])
    requires forall i :: 0 <= i < |t.outbox| && t.outbox[i].status == Published ==>
      i < |s.outbox| && (s.outbox[i].status == Published || (i in s.batch && s.batch[i] == MarkPublished))
    requires forall i :: i in t.batch && t.batch[i] == MarkPublished && i < |t.outbox| ==>
      Resolved(t, EventPair(t.outbox[i])) || (i in s.batch && s.batch[i] == MarkPublished && i < |s.outbox|)
    requires forall tp :: tp in s.parts ==> s.parts[tp].committed <= |s.parts[tp].log|
    ensures NothingLost(t)
  {
    forall i | 0 <= i < |t.outbox| && (t.outbox[i].status == Published || (i in t.batch && t.batch[i] == MarkPublished))
      ensures Resolved(t, EventPair(t.outbox[i]))
    {
      if i < |s.outbox| && Resolved(s, EventPair(s.outbox[i])) {
        GrowsKeepsResolved(s, t, EventPair(s.outbox[i]));
      }
    }
    forall tp, o | tp in t.parts && 0 <= o < t.parts[tp].committed && o < |t.parts[tp].log|
      ensures PairOf(t.codec, t.parts[tp].log[o]).Some? && Resolved(t, PairOf(t.codec, t.parts[tp].log[o]).value)
    {
      assert t.parts[tp].log[o] == s.parts[tp].log[o];
      GrowsKeepsResolved(s, t, PairOf(s.codec, s.parts[tp].log[o]).value);
    }
  }

  /** A handler that was about to commit still may, when only more is known. */
  lemma GrowsKeepsCommitting(s: State, t: State)
    requires Grows(s, t) && s.stage.Committing? && t.stage == s.stage && StageOk(s) && PositionsOk(s)
    requires t.parts[s.stage.tp].position == s.parts[s.stage.tp].position
    ensures StageOk(t)
  {
    var tp := s.stage.tp;
    var s', t' := s.(parts := Advance(s.parts, tp)), t.(parts := Advance(t.parts, tp));
    assert Grows(s', t');
    assert Handled(t, tp) == Handled(s, tp);
    GrowsKeepsResolved(s', t', PairOf(s.codec, Handled(s, tp).value).value);
  }

  /** The consumer's side of the invariant survives what the API and the publisher do. */
  lemma GrowsKeepsFlow(s: State, t: State)
    requires FlowOk(s) && Grows(s, t) && t.stage == s.stage
    requires forall tp :: tp in s.parts ==> t.parts[tp].position == s.parts[tp].position
    requires |s.outbox| <= |t.outbox|
    requires forall i :: 0 <= i < |s.outbox| ==> EventPair(t.outbox[i]) == EventPair(s.outbox[i])
    requires forall i :: 0 <= i < |t.outbox| && t.outbox[i].status == Published ==>
      i < |s.outbox| && (s.outbox[i].status == Published || (i in s.batch && s.batch[i] == MarkPublished))
    requires forall i :: i in t.batch && t.batch[i] == MarkPublished && i < |t.outbox| ==>
      Resolved(t, EventPair(t.outbox[i])) || (i in s.batch && s.batch[i] == MarkPublished && i < |s.outbox|)
    ensures FlowOk(t)
  {
    GrowsKeepsNothingLost(s, t);
    if s.stage.Committing? { GrowsKeepsCommitting(s, t); }
    if Busy(s.stage) { assert Handled(t, s.stage.tp) == Handled(s, s.stage.tp); }
  }

  // ---- API and publisher steps ----

  lemma EventsStay(s: State, t: State, x: Uuid, v: nat)
    requires HasEvent(s, x, v) && |s.outbox| <= |t.outbox|
    requires forall i :: 0 <= i < |s.outbox| ==> EventPair(t.outbox[i]) == EventPair(s.outbox[i])
    ensures HasEvent(t, x, v)
  {
    var i :| 0 <= i < |s.outbox| && EventPair(s.outbox[i]) == Pair(x, v);
    assert EventPair(t.outbox[i]) == Pair(x, v);
  }

  lemma StartSyncKeepsData(s: State, t: State, source: Uuid, e: Event)
    requires DataOk(s) && source in s.sources && t.codec == s.codec
    requires t.sources == s.sources[source := s.sources[source].(version := e.version, status := Syncing)]
    requires t.outbox == s.outbox + [e] && t.batch == s.batch && t.parts == s.parts
    requires e.source == source && e.tenant == s.sources[source].tenant && e.version == s.sources[source].version + 1
    requires 1 <= |e.correlationId| <= 200 && e.status == Unpublished
    ensures DataOk(t)
  {
    forall x: Uuid, v: nat | x in t.sources && 1 <= v <= t.sources[x].version ensures HasEvent(t, x, v) {
      if x == source && v == e.version {
        assert EventPair(t.outbox[|s.outbox|]) == Pair(x, v);
      } else {
        EventsStay(s, t, x, v);
      }
    }
    assert forall i :: 0 <= i < |s.outbox| ==> EventOk(s.sources, s.outbox[i]);
  }

  lemma StartSyncKeeps(s: State, source: Uuid, id: Uuid, requestId: Option<string>, generated: Uuid)
    requires Inv(s)
    ensures Inv(StepStartSync(s, source, id, requestId, generated))
  {
    var t := StepStartSync(s, source, id, requestId, generated);
    if source in s.sources && s.sources[source].status != Disabled {
      StartSyncKeepsData(s, t, source, t.outbox[|s.outbox|]);
      OneMoreEventKeepsFlow(s, t, t.outbox[|s.outbox|]);
    }
  }

  lemma OneMoreEventKeepsFlow(s: State, t: State, e: Event)
    requires Inv(s) && t == s.(sources := t.sources, outbox := s.outbox + [e]) && e.status == Unpublished
    ensures FlowOk(t)
  {
    GrowsKeepsFlow(s, t);
  }

  /** Only the source rows change, without changing tenants or versions. */
  lemma SourcesKeep(s: State, t: State)
    requires Inv(s) && t == s.(sources := t.sources)
    requires forall x :: x in s.sources ==>
      x in t.sources && t.sources[x].tenant == s.sources[x].tenant && t.sources[x].version == s.sources[x].version
    requires forall x :: x in t.sources && x !in s.sources ==> t.sources[x].version == 0
    ensures Inv(t)
  {
    forall x: Uuid, v: nat | x in t.sources && 1 <= v <= t.sources[x].version ensures HasEvent(t, x, v) {
      EventsStay(s, t, x, v);
    }
    GrowsKeepsFlow(s, t);
  }

  /** The outbox keeps its events, and the logs receive at most readable records. */
  lemma SameEventsKeepData(s: State, t: State)
    requires DataOk(s) && t.codec == s.codec && t.sources == s.sources && |t.outbox| == |s.outbox| && LogsOk(t)
    requires forall i :: 0 <= i < |s.outbox| ==>
      EventPair(t.outbox[i]) == EventPair(s.outbox[i]) && t.outbox[i].tenant == s.outbox[i].tenant
      && t.outbox[i].correlationId == s.outbox[i].correlationId && t.outbox[i].status != Unserializable
    requires forall i :: i in t.batch ==> i < |t.outbox| && t.batch[i] != MarkUnserializable
    ensures DataOk(t)
  {
    forall x: Uuid, v: nat | x in t.sources && 1 <= v <= t.sources[x].version ensures HasEvent(t, x, v) {
      EventsStay(s, t, x, v);
    }
    forall i | 0 <= i < |t.outbox| ensures EventOk(t.sources, t.outbox[i]) {
      assert EventOk(s.sources, s.outbox[i]);
    }
  }

  lemma AppendKeepsLogs(s: State, target: TopicPartition, r: BrokerRecord)
    requires LogsOk(s) && target in s.parts && RecordOk(s.codec, s.sources, target.retry, r)
    ensures LogsOk(s.(parts := Append(s.parts, target, r)))
    ensures Grows(s, s.(parts := Append(s.parts, target, r)))
  {
  }

  /** An outbox row serialises to a record that names it. */
  lemma EventIsReadable(s: State, i: nat, retry: bool)
    requires DataOk(s) && Faithful(s.codec) && i < |s.outbox| && !retry
    ensures var r := s.codec.encode(s.outbox[i]);
      && r.Some? && PairOf(s.codec, r.value) == Some(EventPair(s.outbox[i]))
      && RecordOk(s.codec, s.sources, retry, r.value)
  {
    assert EventOk(s.sources, s.outbox[i]);
  }

  lemma PublishKeepsData(s: State, i: nat, target: TopicPartition, delivered: bool, acknowledged: bool)
    requires DataOk(s) && Faithful(s.codec)
    ensures DataOk(StepPublish(s, i, target, delivered, acknowledged))
  {
    var t := StepPublish(s, i, target, delivered, acknowledged);
    if t != s {
      EventIsReadable(s, i, target.retry);
      AppendKeepsLogs(s, target, s.codec.encode(s.outbox[i]).value);
      forall k | 0 <= k < |s.outbox| ensures t.outbox[k].status != Unserializable {
        assert EventOk(s.sources, s.outbox[k]);
      }
      SameEventsKeepData(s, t);
    }
  }

  lemma PublishKeepsFlow(s: State, i: nat, target: TopicPartition, delivered: bool, acknowledged: bool)
    requires Inv(s) && Faithful(s.codec)
    ensures FlowOk(StepPublish(s, i, target, delivered, acknowledged))
  {
    var t := StepPublish(s, i, target, delivered, acknowledged);
    if t != s {
      EventIsReadable(s, i, target.retry);
      AppendKeepsLogs(s, target, s.codec.encode(s.outbox[i]).value);
      if delivered {
        assert CopyAt(t.codec, t.parts, target, |s.parts[target].log|, EventPair(s.outbox[i]));
      }
      GrowsKeepsFlow(s, t);
    }
  }

  lemma PublishKeeps(s: State, i: nat, target: TopicPartition, delivered: bool, acknowledged: bool)
    requires Inv(s) && Faithful(s.codec)
    ensures Inv(StepPublish(s, i, target, delivered, acknowledged))
  {
    PublishKeepsData(s, i, target, delivered, acknowledged);
    PublishKeepsFlow(s, i, target, delivered, acknowledged);
  }

  lemma CommitBatchKeeps(s: State)
    requires Inv(s)
    ensures Inv(StepCommitBatch(s))
  {
    var t := StepCommitBatch(s);
    forall i | 0 <= i < |s.outbox|
      ensures EventPair(t.outbox[i]) == EventPair(s.outbox[i]) && t.outbox[i].tenant == s.outbox[i].tenant
        && t.outbox[i].correlationId == s.outbox[i].correlationId && t.outbox[i].status != Unserializable
    {
      assert EventOk(s.sources, s.outbox[i]);
    }
    SameEventsKeepData(s, t);
    GrowsKeepsFlow(s, t);
  }

  lemma CrashPublisherKeeps(s: State)
    requires Inv(s)
    ensures Inv(s.(batch := map[]))
  {
    assert forall i :: 0 <= i < |s.outbox| ==> EventOk(s.sources, s.outbox[i]);
    SameEventsKeepData(s, s.(batch := map[]));
    GrowsKeepsFlow(s, s.(batch := map[]));
  }

  // ---- consumer steps ----

  /** A consumer step that commits nothing. */
  lemma ConsumerKeeps(s: State, t: State)
    requires Inv(s) && Grows(s, t) && t.outbox == s.outbox && t.batch == s.batch
    requires DataOk(t) && PositionsOk(t) && StageOk(t)
    ensures Inv(t)
  {
    GrowsKeepsNothingLost(s, t);
  }

  /** Positions, stage, pauses and completed jobs do not matter to the data. */
  lemma SameDataKeeps(s: State, t: State)
    requires DataOk(s) && t.codec == s.codec && t.sources == s.sources && t.outbox == s.outbox && t.batch == s.batch
    requires t.parts.Keys == s.parts.Keys && forall tp :: tp in s.parts ==> t.parts[tp].log == s.parts[tp].log
    ensures DataOk(t)
  {
    forall x: Uuid, v: nat | x in t.sources && 1 <= v <= t.sources[x].version ensures HasEvent(t, x, v) {
      EventsStay(s, t, x, v);
    }
  }

  lemma PollKeeps(s: State, tp: TopicPartition)
    requires Inv(s)
    ensures Inv(StepPoll(s, tp))
  {
    SameDataKeeps(s, StepPoll(s, tp));
    PollKeepsPositions(s, tp);
    ConsumerKeeps(s, StepPoll(s, tp));
  }

  lemma PollKeepsPositions(s: State, tp: TopicPartition)
    requires PositionsOk(s) && StageOk(s)
    ensures PositionsOk(StepPoll(s, tp)) && StageOk(StepPoll(s, tp)) && Grows(s, StepPoll(s, tp))
  {
  }

  lemma RewindKeeps(s: State, tp: TopicPartition, until: nat)
    requires Inv(s) && Busy(s.stage) && s.stage.tp == tp
    ensures Inv(Rewind(s, tp, until))
  {
    SameDataKeeps(s, Rewind(s, tp, until));
    ConsumerKeeps(s, Rewind(s, tp, until));
  }

  /** Only the stage moves on within the same partition. */
  lemma StageKeeps(s: State, stage: Stage)
    requires Inv(s) && Busy(s.stage) && Busy(stage) && stage.tp == s.stage.tp && StageOk(s.(stage := stage))
    ensures Inv(s.(stage := stage))
  {
    SameDataKeeps(s, s.(stage := stage));
    ConsumerKeeps(s, s.(stage := stage));
  }

  lemma InspectKeeps(s: State, nowMs: nat)
    requires Inv(s)
    ensures Inv(StepInspect(s, nowMs))
  {
    if s.stage.Received? && Handled(s, s.stage.tp).Some? {
      var tp := s.stage.tp;
      var t := StepInspect(s, nowMs);
      if t.stage.Idle? {
        var until := s.codec.readRetry(Handled(s, tp).value.headers);
        RewindKeeps(s, tp, until.value.1);
      } else {
        StageKeeps(s, t.stage);
      }
    }
  }

  lemma CompletedKeeps(s: State, p: Pair)
    requires Inv(s) && s.stage.Running? && p == Pair(s.stage.command.source, s.stage.command.version)
    ensures Inv(s.(stage := Committing(s.stage.tp), completed := s.completed + {p}))
  {
    var t := s.(stage := Committing(s.stage.tp), completed := s.completed + {p});
    SameDataKeeps(s, t);
    assert p in t.(parts := Advance(t.parts, s.stage.tp)).completed;
    assert Handled(t, s.stage.tp) == Handled(s, s.stage.tp);
    ConsumerKeeps(s, t);
  }

  lemma JobReturnsKeeps(s: State, o: JobOutcome)
    requires Inv(s)
    ensures Inv(StepJobReturns(s, o))
  {
    if s.stage.Running? && JobAllows(s, s.stage.command, o) {
      var p := Pair(s.stage.command.source, s.stage.command.version);
      if o.JobFailed? {
        StageKeeps(s, StepJobReturns(s, o).stage);
      } else {
        CompletedKeeps(s, p);
      }
    }
  }

  lemma MarkKeeps(s: State, ok: bool, nowMs: nat)
    requires Inv(s)
    ensures Inv(StepMark(s, ok, nowMs))
  {
    if s.stage.Marking? {
      var Marking(tp, c, attempt, error) := s.stage;
      if ok {
        var t := s.(stage := DeadLettering(tp, error));
        StageKeeps(s, t.stage);
        SourcesKeep(t, StepMark(s, ok, nowMs));
      } else if attempt < MAX_RETRIES {
        StageKeeps(s, Retrying(tp, attempt + 1));
      } else {
        RewindKeeps(s, tp, nowMs + INTERNAL_REDELIVERY_DELAY_MS);
      }
    }
  }

  /** The record that a busy consumer handles is readable. */
  lemma HandledIsReadable(s: State)
    requires LogsOk(s) && PositionsOk(s) && Busy(s.stage)
    ensures Handled(s, s.stage.tp).Some?
    ensures RecordOk(s.codec, s.sources, s.stage.tp.retry, Handled(s, s.stage.tp).value)
  {
  }

  lemma AppendKeepsPositions(s: State, target: TopicPartition, r: BrokerRecord)
    requires PositionsOk(s) && target in s.parts
    ensures var t := s.(parts := Append(s.parts, target, r));
      PositionsOk(t) && (Busy(s.stage) ==> Handled(t, s.stage.tp) == Handled(s, s.stage.tp))
  {
  }

  /** A delivered retry copy, whether or not it was acknowledged. */
  lemma RetryCopyKeeps(s: State, target: TopicPartition, r: BrokerRecord)
    requires Inv(s) && s.stage.Retrying? && target in s.parts && target.retry
    requires RecordOk(s.codec, s.sources, true, r)
    ensures Inv(s.(parts := Append(s.parts, target, r)))
  {
    var t := s.(parts := Append(s.parts, target, r));
    AppendKeepsLogs(s, target, r);
    AppendKeepsPositions(s, target, r);
    assert forall i :: 0 <= i < |s.outbox| ==> EventOk(s.sources, s.outbox[i]);
    SameEventsKeepData(s, t);
    ConsumerKeeps(s, t);
  }

  /** After its retry copy or dead letter is delivered the record may be committed. */
  lemma AcknowledgedKeeps(s: State, t: State)
    requires Inv(t) && Busy(t.stage) && Handled(t, t.stage.tp).Some?
    requires PairOf(t.codec, Handled(t, t.stage.tp).value).Some?
    requires Resolved(t.(parts := Advance(t.parts, t.stage.tp)), PairOf(t.codec, Handled(t, t.stage.tp).value).value)
    requires s == t.(stage := Committing(t.stage.tp))
    ensures Inv(s)
  {
    var p := PairOf(t.codec, Handled(t, t.stage.tp).value).value;
    var a, b := t.(parts := Advance(t.parts, t.stage.tp)), s.(parts := Advance(s.parts, t.stage.tp));
    assert Grows(a, b);
    GrowsKeepsResolved(a, b, p);
    StageKeeps(t, Committing(t.stage.tp));
  }

  /** The copy lies above the offset that is about to be committed. */
  lemma RetryCopyResolves(s: State, target: TopicPartition, r: BrokerRecord)
    requires PositionsOk(s) && Busy(s.stage) && target in s.parts && PairOf(s.codec, r).Some?
    ensures var t := s.(parts := Append(s.parts, target, r));
      Resolved(t.(parts := Advance(t.parts, s.stage.tp)), PairOf(s.codec, r).value)
  {
    var t := s.(parts := Append(s.parts, target, r));
    var a := t.(parts := Advance(t.parts, s.stage.tp));
    assert CopyAt(a.codec, a.parts, target, |s.parts[target].log|, PairOf(s.codec, r).value);
  }

  lemma DeliveredRetryKeeps(s: State, target: TopicPartition, r: BrokerRecord, acknowledged: bool, until: nat)
    requires Inv(s) && s.stage.Retrying? && target in s.parts && target.retry
    requires RecordOk(s.codec, s.sources, true, r)
    requires Handled(s, s.stage.tp).Some? && PairOf(s.codec, Handled(s, s.stage.tp).value) == PairOf(s.codec, r)
    ensures var t := s.(parts := Append(s.parts, target, r));
      Inv(if acknowledged then t.(stage := Committing(s.stage.tp)) else Rewind(t, s.stage.tp, until))
  {
    var t := s.(parts := Append(s.parts, target, r));
    RetryCopyKeeps(s, target, r);
    AppendKeepsPositions(s, target, r);
    if acknowledged {
      RetryCopyResolves(s, target, r);
      AcknowledgedKeeps(t.(stage := Committing(s.stage.tp)), t);
    } else {
      RewindKeeps(t, s.stage.tp, until);
    }
  }

  lemma RetryRecordIsReadable(
      codec: Codec, sources: map<Uuid, SourceRow>, retry: bool, r: BrokerRecord, next: nat, nowMs: nat)
    requires Faithful(codec) && RecordOk(codec, sources, retry, r) && 1 <= next <= MAX_RETRIES
    ensures RecordOk(codec, sources, true, RetryRecord(codec, r, next, nowMs))
    ensures PairOf(codec, RetryRecord(codec, r, next, nowMs)) == PairOf(codec, r)
  {
    var notBefore := nowMs + RetryDelaySeconds(next) * 1000;
    assert codec.readRetry(codec.writeRetry(next, notBefore)) == Some((next, notBefore));
  }

  lemma PublishRetryKeeps(s: State, target: TopicPartition, nowMs: nat, delivered: bool, acknowledged: bool)
    requires Inv(s) && Faithful(s.codec)
    ensures Inv(StepPublishRetry(s, target, nowMs, delivered, acknowledged))
  {
    if s.stage.Retrying? && 1 <= s.stage.next <= MAX_RETRIES && Handled(s, s.stage.tp).Some?
       && target in s.parts && target.retry && (acknowledged ==> delivered)
    {
      var until := nowMs + INTERNAL_REDELIVERY_DELAY_MS;
      if delivered {
        HandledIsReadable(s);
        var r := Handled(s, s.stage.tp).value;
        RetryRecordIsReadable(s.codec, s.sources, s.stage.tp.retry, r, s.stage.next, nowMs);
        DeliveredRetryKeeps(s, target, RetryRecord(s.codec, r, s.stage.next, nowMs), acknowledged, until);
      } else {
        RewindKeeps(s, s.stage.tp, until);
      }
    }
  }

  lemma DeadLetterIsThere(s: State, t: State, tp: TopicPartition, r: BrokerRecord)
    requires tp in s.parts && t.parts == s.parts && t.codec == s.codec
    requires s.stage.DeadLettering? && PairOf(s.codec, r).Some?
    requires PairOf(s.codec, r.(topic := DLQ_TOPIC)) == PairOf(s.codec, r)
    requires t.deadLetters == s.deadLetters + [DeadLetter(r.(topic := DLQ_TOPIC), s.stage.error)]
    ensures DeadLettered(t.(parts := Advance(t.parts, tp)), PairOf(s.codec, r).value)
  {
    var a := t.(parts := Advance(t.parts, tp));
    assert PairOf(a.codec, a.deadLetters[|s.deadLetters|].record) == PairOf(s.codec, r);
  }

  /** The state with the dead letter added. */
  function WithDeadLetter(s: State, r: BrokerRecord, error: JobError): State {
    s.(deadLetters := s.deadLetters + [DeadLetter(r.(topic := DLQ_TOPIC), error)])
  }

  lemma DeadLetterCopyKeeps(s: State, r: BrokerRecord, error: JobError)
    requires Inv(s) && s.stage.DeadLettering? && Handled(s, s.stage.tp) == Some(r)
    ensures Inv(WithDeadLetter(s, r, error))
  {
    SameDataKeeps(s, WithDeadLetter(s, r, error));
    ConsumerKeeps(s, WithDeadLetter(s, r, error));
  }

  lemma AcknowledgedDeadLetterKeeps(s: State, r: BrokerRecord, error: JobError)
    requires Inv(s) && s.stage.DeadLettering? && s.stage.error == error && Handled(s, s.stage.tp) == Some(r)
    ensures Inv(WithDeadLetter(s, r, error).(stage := Committing(s.stage.tp)))
  {
    var t := WithDeadLetter(s, r, error);
    HandledIsReadable(s);
    DeadLetterCopyKeeps(s, r, error);
    DeadLetterIsThere(s, t, s.stage.tp, r);
    AcknowledgedKeeps(t.(stage := Committing(s.stage.tp)), t);
  }

  lemma UnacknowledgedDeadLetterKeeps(s: State, r: BrokerRecord, error: JobError, delivered: bool, until: nat)
    requires Inv(s) && s.stage.DeadLettering? && Handled(s, s.stage.tp) == Some(r)
    ensures Inv(Rewind(if delivered then WithDeadLetter(s, r, error) else s, s.stage.tp, until))
  {
    DeadLetterCopyKeeps(s, r, error);
    RewindKeeps(if delivered then WithDeadLetter(s, r, error) else s, s.stage.tp, until);
  }

  lemma PublishDeadLetterKeeps(s: State, nowMs: nat, delivered: bool, acknowledged: bool)
    requires Inv(s)
    ensures Inv(StepPublishDeadLetter(s, nowMs, delivered, acknowledged))
  {
    if s.stage.DeadLettering? && Handled(s, s.stage.tp).Some? && (acknowledged ==> delivered) {
      var r := Handled(s, s.stage.tp).value;
      if acknowledged {
        AcknowledgedDeadLetterKeeps(s, r, s.stage.error);
      } else {
        UnacknowledgedDeadLetterKeeps(s, r, s.stage.error, delivered, nowMs + INTERNAL_REDELIVERY_DELAY_MS);
      }
    }
  }

  lemma CommitOffsetKeepsResolved(s: State, p: Pair)
    requires Inv(s) && s.stage.Committing? && Resolved(s, p)
    ensures Resolved(StepCommitOffset(s), p)
  {
    var tp := s.stage.tp;
    var a := s.(parts := Advance(s.parts, tp));
    if PairOf(s.codec, Handled(s, tp).value) != Some(p) {
      AdvanceKeepsResolved(s, tp, p);
    }
    assert Grows(a, StepCommitOffset(s));
    GrowsKeepsResolved(a, StepCommitOffset(s), p);
  }

  lemma CommitOffsetKeeps(s: State)
    requires Inv(s)
    ensures Inv(StepCommitOffset(s))
  {
    if s.stage.Committing? {
      var t := StepCommitOffset(s);
      var tp := s.stage.tp;
      SameDataKeeps(s, t);
      forall i | 0 <= i < |t.outbox| && LeftOutbox(t, i)
        ensures Resolved(t, EventPair(t.outbox[i]))
      {
        CommitOffsetKeepsResolved(s, EventPair(s.outbox[i]));
      }
      forall x, o | x in t.parts && 0 <= o < t.parts[x].committed && o < |t.parts[x].log|
        ensures PairOf(t.codec, t.parts[x].log[o]).Some? && Resolved(t, PairOf(t.codec, t.parts[x].log[o]).value)
      {
        if o < s.parts[x].committed {
          CommitOffsetKeepsResolved(s, PairOf(s.codec, s.parts[x].log[o]).value);
        } else {
          var a := s.(parts := Advance(s.parts, tp));
          assert Grows(a, t);
          GrowsKeepsResolved(a, t, PairOf(s.codec, s.parts[x].log[o]).value);
        }
      }
    }
  }

  lemma CrashConsumerKeeps(s: State)
    requires Inv(s)
    ensures Inv(StepCrashConsumer(s))
  {
    SameDataKeeps(s, StepCrashConsumer(s));
    ConsumerKeeps(s, StepCrashConsumer(s));
  }

  lemma ResumeKeeps(s: State, nowMs: nat)
    requires Inv(s)
    ensures Inv(StepResume(s, nowMs))
  {
    SameDataKeeps(s, StepResume(s, nowMs));
    GrowsKeepsFlow(s, StepResume(s, nowMs));
  }

  lemma CreateSourceKeeps(s: State, source: Uuid, tenant: Uuid)
    requires Inv(s) && source !in s.sources
    ensures Inv(s.(sources := s.sources[source := SourceRow(tenant, 0, PendingSync)]))
  {
    SourcesKeep(s, s.(sources := s.sources[source := SourceRow(tenant, 0, PendingSync)]));
  }

  lemma SetDisabledKeeps(s: State, source: Uuid, disabled: bool)
    requires Inv(s)
    ensures Inv(StepSetDisabled(s, source, disabled))
  {
    SourcesKeep(s, StepSetDisabled(s, source, disabled));
  }

  predicate ByConsumer(a: Action) {
    a.Poll? || a.Inspect? || a.JobReturns? || a.MarkSourceFailed? || a.CommitOffset? || a.CrashConsumer? || a.Resume?
  }

  lemma ConsumerStepKeepsInv(s: State, a: Action)
    requires Inv(s) && ByConsumer(a)
    ensures Inv(Step(s, a))
  {
    match a
    case Poll(tp) => PollKeeps(s, tp);
    case Inspect(nowMs) => InspectKeeps(s, nowMs);
    case JobReturns(outcome) => JobReturnsKeeps(s, outcome);
    case MarkSourceFailed(ok, nowMs) => MarkKeeps(s, ok, nowMs);
    case CommitOffset => CommitOffsetKeeps(s);
    case CrashConsumer => CrashConsumerKeeps(s);
    case Resume(nowMs) => ResumeKeeps(s, nowMs);
  }

  lemma PublishingStepKeepsInv(s: State, a: Action)
    requires Inv(s) && Faithful(s.codec)
    requires a.PublishEvent? || a.CommitBatch? || a.CrashPublisher? || a.PublishRetry? || a.PublishDeadLetter?
    ensures Inv(Step(s, a))
  {
    match a
    case PublishEvent(i, target, delivered, acknowledged) => PublishKeeps(s, i, target, delivered, acknowledged);
    case CommitBatch => CommitBatchKeeps(s);
    case CrashPublisher => CrashPublisherKeeps(s);
    case PublishRetry(target, nowMs, delivered, acknowledged) =>
      PublishRetryKeeps(s, target, nowMs, delivered, acknowledged);
    case PublishDeadLetter(nowMs, delivered, acknowledged) =>
      PublishDeadLetterKeeps(s, nowMs, delivered, acknowledged);
  }

  lemma StepKeepsInv(s: State, a: Action)
    requires Inv(s) && Faithful(s.codec)
    ensures Inv(Step(s, a))
  {
    if ByConsumer(a) {
      ConsumerStepKeepsInv(s, a);
    } else {
      match a
      case CreateSource(source, tenant) => if source !in s.sources { CreateSourceKeeps(s, source, tenant); }
      case SetDisabled(source, disabled) => SetDisabledKeeps(s, source, disabled);
      case StartSync(source, id, requestId, generated) => StartSyncKeeps(s, source, id, requestId, generated);
      case _ => PublishingStepKeepsInv(s, a);
    }
  }

  // ---- the theorems ----

  /** Codec, source rows and completions are left alone. */
  ghost predicate Framed(s: State, t: State) {
    t.codec == s.codec && t.sources == s.sources && t.completed == s.completed
  }

  lemma PublishIsFramed(s: State, i: nat, target: TopicPartition, delivered: bool, acknowledged: bool)
    ensures Framed(s, StepPublish(s, i, target, delivered, acknowledged))
  {
  }

  lemma PollIsFramed(s: State, tp: TopicPartition)
    ensures Framed(s, StepPoll(s, tp))
  {
  }

  lemma InspectIsFramed(s: State, nowMs: nat)
    ensures Framed(s, StepInspect(s, nowMs))
  {
  }

  lemma PublishRetryIsFramed(s: State, target: TopicPartition, nowMs: nat, delivered: bool, acknowledged: bool)
    ensures Framed(s, StepPublishRetry(s, target, nowMs, delivered, acknowledged))
  {
  }

  lemma PublishDeadLetterIsFramed(s: State, nowMs: nat, delivered: bool, acknowledged: bool)
    ensures Framed(s, StepPublishDeadLetter(s, nowMs, delivered, acknowledged))
  {
  }

  lemma CommitsAreFramed(s: State)
    ensures Framed(s, StepCommitBatch(s)) && Framed(s, StepCommitOffset(s)) && Framed(s, StepCrashConsumer(s))
  {
  }

  lemma ResumeIsFramed(s: State, nowMs: nat)
    ensures Framed(s, StepResume(s, nowMs))
  {
  }

  lemma JobReturnsKeepsCodec(s: State, o: JobOutcome)
    ensures StepJobReturns(s, o).codec == s.codec
  {
  }

  lemma MarkKeepsCodec(s: State, ok: bool, nowMs: nat)
    ensures StepMark(s, ok, nowMs).codec == s.codec && StepMark(s, ok, nowMs).completed == s.completed
  {
  }

  /** An action that neither touches source rows nor answers for the job. */
  predicate OffRows(a: Action) {
    !a.CreateSource? && !a.SetDisabled? && !a.StartSync? && !a.JobReturns? && !a.MarkSourceFailed?
  }

  lemma OffRowsIsFramed(s: State, a: Action)
    requires OffRows(a)
    ensures Framed(s, Step(s, a))
  {
    match a
    case PublishEvent(i, target, delivered, acknowledged) => PublishIsFramed(s, i, target, delivered, acknowledged);
    case CommitBatch => CommitsAreFramed(s);
    case CrashPublisher =>
    case Poll(tp) => PollIsFramed(s, tp);
    case Inspect(nowMs) => InspectIsFramed(s, nowMs);
    case PublishRetry(target, nowMs, delivered, acknowledged) =>
      PublishRetryIsFramed(s, target, nowMs, delivered, acknowledged);
    case PublishDeadLetter(nowMs, delivered, acknowledged) =>
      PublishDeadLetterIsFramed(s, nowMs, delivered, acknowledged);
    case CommitOffset => CommitsAreFramed(s);
    case CrashConsumer => CommitsAreFramed(s);
    case Resume(nowMs) => ResumeIsFramed(s, nowMs);
  }

  lemma StepKeepsCodec(s: State, a: Action)
    ensures Step(s, a).codec == s.codec
  {
    if OffRows(a) {
      OffRowsIsFramed(s, a);
    } else {
      match a
      case JobReturns(o) => JobReturnsKeepsCodec(s, o);
      case MarkSourceFailed(ok, nowMs) => MarkKeepsCodec(s, ok, nowMs);
      case _ =>
    }
  }

  lemma {:induction false} RunKeepsInv(s: State, actions: seq<Action>)
    requires Inv(s) && Faithful(s.codec)
    ensures Inv(Run(s, actions)) && Run(s, actions).codec == s.codec
    decreases |actions|
  {
    if actions != [] {
      StepKeepsInv(s, actions[0]);
      StepKeepsCodec(s, actions[0]);
      RunKeepsInv(Step(s, actions[0]), actions[1..]);
    }
  }

  lemma ReachableIsInOrder(tps: set<TopicPartition>, actions: seq<Action>)
    ensures Inv(Run(Initial(WireCodec(), tps), actions))
    ensures Run(Initial(WireCodec(), tps), actions).codec == WireCodec()
  {
    WireCodecIsFaithful();
    RunKeepsInv(Initial(WireCodec(), tps), actions);
  }

  ghost predicate PendingInOutbox(s: State, p: Pair) {
    exists i :: 0 <= i < |s.outbox| && s.outbox[i].status == Unpublished && EventPair(s.outbox[i]) == p
  }

  lemma VersionIsAccountedFor(s: State, p: Pair)
    requires Inv(s) && p.source in s.sources && 1 <= p.version <= s.sources[p.source].version
    ensures PendingInOutbox(s, p) || Resolved(s, p)
  {
    assert HasEvent(s, p.source, p.version);
    var i :| 0 <= i < |s.outbox| && EventPair(s.outbox[i]) == p;
    assert EventOk(s.sources, s.outbox[i]);
  }

  /** No sync request is lost: in every reachable state, each version ever allocated to a source
      is pending in the outbox, or has an uncommitted copy in the sync or retry topic, or had a
      completed result, or has a dead letter. */
  lemma NoSyncRequestIsLost(tps: set<TopicPartition>, actions: seq<Action>, source: Uuid, version: nat)
    requires source in Run(Initial(WireCodec(), tps), actions).sources
    requires 1 <= version <= Run(Initial(WireCodec(), tps), actions).sources[source].version
    ensures var s := Run(Initial(WireCodec(), tps), actions);
      PendingInOutbox(s, Pair(source, version)) || Resolved(s, Pair(source, version))
  {
    ReachableIsInOrder(tps, actions);
    VersionIsAccountedFor(Run(Initial(WireCodec(), tps), actions), Pair(source, version));
  }

  /** Every offset below a partition's committed offset is resolved by something else than that
      offset, and its record names a request that was really made. */
  lemma CommittedOffsetsAreResolved(tps: set<TopicPartition>, actions: seq<Action>, tp: TopicPartition, o: nat)
    requires tp in Run(Initial(WireCodec(), tps), actions).parts
    requires o < Run(Initial(WireCodec(), tps), actions).parts[tp].committed
    ensures var s := Run(Initial(WireCodec(), tps), actions);
      && o < |s.parts[tp].log|
      && CommandOf(s.codec, s.parts[tp].log[o]).Some?
      && var c := CommandOf(s.codec, s.parts[tp].log[o]).value;
      && c.source in s.sources && 1 <= c.version <= s.sources[c.source].version
      && Resolved(s, Pair(c.source, c.version))
  {
    ReachableIsInOrder(tps, actions);
    var s := Run(Initial(WireCodec(), tps), actions);
    assert RecordOk(s.codec, s.sources, tp.retry, s.parts[tp].log[o]);
  }

  /** A running command has an allocated version of its own tenant's source. */
  lemma RunningIsAllocated(s: State)
    requires Inv(s) && s.stage.Running?
    ensures var c := s.stage.command;
      && c.source in s.sources && s.sources[c.source].tenant == c.tenant
      && 1 <= c.version <= s.sources[c.source].version
  {
    HandledIsReadable(s);
  }

  /** No record that was received is unreadable. */
  lemma ReceivedIsReadable(s: State, nowMs: nat)
    requires Inv(s) && s.stage.Received?
    ensures !StepInspect(s, nowMs).stage.DeadLettering?
  {
    HandledIsReadable(s);
  }

  /** Between the two services nothing is misread: a record that reaches the job has an
      allocated version of its own tenant's source, so VERSION_AHEAD cannot be returned, and no
      record is ever dead-lettered as unreadable. */
  lemma VersionAheadIsUnreachable(tps: set<TopicPartition>, actions: seq<Action>)
    ensures var s := Run(Initial(WireCodec(), tps), actions);
      && (s.stage.Running? ==>
            && s.stage.command.source in s.sources
            && s.sources[s.stage.command.source].tenant == s.stage.command.tenant
            && s.stage.command.version <= s.sources[s.stage.command.source].version
            && !JobAllows(s, s.stage.command, JobFailed(VersionAhead, false))
            && !JobAllows(s, s.stage.command, JobFailed(VersionAhead, true)))
      && (s.stage.Received? ==> forall nowMs :: !StepInspect(s, nowMs).stage.DeadLettering?)
      && (forall i :: 0 <= i < |s.outbox| ==> s.outbox[i].status != Unserializable)
  {
    ReachableIsInOrder(tps, actions);
    NothingIsMisread(Run(Initial(WireCodec(), tps), actions));
  }

  lemma NothingIsMisread(s: State)
    requires Inv(s)
    ensures s.stage.Running? ==>
      && s.stage.command.source in s.sources
      && s.sources[s.stage.command.source].tenant == s.stage.command.tenant
      && s.stage.command.version <= s.sources[s.stage.command.source].version
      && !JobAllows(s, s.stage.command, JobFailed(VersionAhead, false))
      && !JobAllows(s, s.stage.command, JobFailed(VersionAhead, true))
    ensures s.stage.Received? ==> forall nowMs :: !StepInspect(s, nowMs).stage.DeadLettering?
    ensures forall i :: 0 <= i < |s.outbox| ==> s.outbox[i].status != Unserializable
  {
    if s.stage.Running? { RunningIsAllocated(s); }
    if s.stage.Received? {
      forall nowMs ensures !StepInspect(s, nowMs).stage.DeadLettering? { ReceivedIsReadable(s, nowMs); }
    }
    forall i | 0 <= i < |s.outbox| ensures s.outbox[i].status != Unserializable {
      assert EventOk(s.sources, s.outbox[i]);
    }
  }

  /** Each source has exactly one outbox event for each version from 1 to its current one. */
  lemma ExactlyOneEventPerVersion(tps: set<TopicPartition>, actions: seq<Action>, source: Uuid, version: nat)
    requires source in Run(Initial(WireCodec(), tps), actions).sources
    ensures var s := Run(Initial(WireCodec(), tps), actions);
      && (1 <= version <= s.sources[source].version <==>
            exists i :: 0 <= i < |s.outbox| && EventPair(s.outbox[i]) == Pair(source, version))
      && forall i, j :: 0 <= i < j < |s.outbox| ==> EventPair(s.outbox[i]) != EventPair(s.outbox[j])
  {
    ReachableIsInOrder(tps, actions);
    var s := Run(Initial(WireCodec(), tps), actions);
    assert forall i :: 0 <= i < |s.outbox| ==> EventOk(s.sources, s.outbox[i]);
    if 1 <= version <= s.sources[source].version {
      assert HasEvent(s, source, version);
    }
  }
}
