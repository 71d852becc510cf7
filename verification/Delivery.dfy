/** Knowledge-sync delivery: version allocation with an outbox row, the outbox publisher, and
    the consumer of the sync and retry topics with manual commit.

    A partition is a log with a committed offset and the consumer's position. Publishing may
    deliver although it reports an error, and a batch may deliver although its transaction is
    lost; a crash of the consumer resets every position to the committed offset. */
module Delivery {
  import opened Common
  import opened Wire

  const RETRY_TOPIC := "serviq.knowledge.sync.v1.retry"
  const DLQ_TOPIC := "serviq.knowledge.sync.v1.dlq"
  const INTERNAL_REDELIVERY_DELAY_MS: nat := 1000

  datatype TopicPartition = TopicPartition(retry: bool, number: nat)

  datatype Partition = Partition(log: seq<BrokerRecord>, committed: nat, position: nat)

  datatype SourceStatus = PendingSync | Syncing | SyncFailed | Disabled

  datatype SourceRow = SourceRow(tenant: Uuid, version: nat, status: SourceStatus)

  datatype EventStatus = Unpublished | Published | Unserializable

  /** An outbox row; the columns that `start_source_sync` fixes are in `RowOf`. */
  datatype Event = Event(
    id: Uuid, tenant: Uuid, source: Uuid, version: nat, correlationId: string,
    status: EventStatus, attempts: nat)

  /** What the publisher will write for a row when its batch commits. */
  datatype Mark = MarkPublished | MarkRetry | MarkUnserializable

  datatype JobError =
    | SourceNotFound | SourceDisabled | VersionAhead | TypeUnsupported | ObjectUnavailable
    | ReplayMismatch | FetchFailed | DatabaseUnavailable | InvalidEvent

  datatype JobOutcome =
    | HandedOff                                    // document and parse event committed
    | NoopSuperseded                               // a newer version was allocated
    | NoopReplayed                                 // the handoff had committed before
    | JobFailed(error: JobError, retryable: bool)

  datatype Stage =
    | Idle
    | Received(tp: TopicPartition)
    | Running(tp: TopicPartition, command: Command, attempt: nat)
    | Marking(tp: TopicPartition, command: Command, attempt: nat, error: JobError)
    | Retrying(tp: TopicPartition, next: nat)
    | DeadLettering(tp: TopicPartition, error: JobError)
    | Committing(tp: TopicPartition)

  datatype DeadLetter = DeadLetter(record: BrokerRecord, error: JobError)

  /** How events become records and records become commands; fixed for a run. The theorems
      need only that it is faithful, which the wire contract is. */
  datatype Codec = Codec(
    encode: Event -> Option<BrokerRecord>,
    decode: (string, Json) -> Option<Command>,
    writeRetry: (nat, nat) -> map<string, string>,
    readRetry: map<string, string> -> Option<(nat, nat)>)

  datatype State = State(
    codec: Codec,
    sources: map<Uuid, SourceRow>,
    outbox: seq<Event>,
    batch: map<nat, Mark>,
    parts: map<TopicPartition, Partition>,
    stage: Stage,
    pausedUntil: map<TopicPartition, nat>,
    deadLetters: seq<DeadLetter>,
    completed: set<Pair>)      // jobs that returned a completed result

  datatype Action =
    | CreateSource(source: Uuid, tenant: Uuid)
    | SetDisabled(source: Uuid, disabled: bool)
    | StartSync(source: Uuid, id: Uuid, requestId: Option<string>, generated: Uuid)
    | PublishEvent(i: nat, target: TopicPartition, delivered: bool, acknowledged: bool)
    | CommitBatch
    | CrashPublisher
    | Poll(tp: TopicPartition)
    | Inspect(nowMs: nat)
    | JobReturns(outcome: JobOutcome)
    | MarkSourceFailed(ok: bool, nowMs: nat)
    | PublishRetry(target: TopicPartition, nowMs: nat, delivered: bool, acknowledged: bool)
    | PublishDeadLetter(nowMs: nat, delivered: bool, acknowledged: bool)
    | CommitOffset
    | CrashConsumer
    | Resume(nowMs: nat)

  function Initial(codec: Codec, tps: set<TopicPartition>): State {
    State(codec, map[], [], map[], map tp | tp in tps :: Partition([], 0, 0), Idle, map[], [], {})
  }

  function RowOf(e: Event): OutboxRow {
    SyncEvent(e.id, e.tenant, e.source, e.version, e.correlationId)
  }

  /** The codec of the deployed services. */
  function WireCodec(): Codec {
    Codec((e: Event) => Serialize(RowOf(e)), DecodeCommand, RetryHeaders, ParseRetryMetadata)
  }

  ghost predicate Faithful(codec: Codec) {
    && (forall e: Event :: e.version >= 1 && 1 <= |e.correlationId| <= 200 ==>
          var r := codec.encode(e);
          r.Some? && codec.decode(r.value.key, r.value.value)
                     == Some(Command(e.id, e.tenant, e.source, e.version, e.correlationId)))
    && (forall attempt: nat, notBefore: nat :: 1 <= attempt <= MAX_RETRIES && notBefore > 0 ==>
          codec.readRetry(codec.writeRetry(attempt, notBefore)) == Some((attempt, notBefore)))
  }

  lemma WireCodecIsFaithful()
    ensures Faithful(WireCodec())
  {
    var codec := WireCodec();
    forall e: Event | e.version >= 1 && 1 <= |e.correlationId| <= 200
      ensures var r := codec.encode(e);
        r.Some? && codec.decode(r.value.key, r.value.value)
                   == Some(Command(e.id, e.tenant, e.source, e.version, e.correlationId))
    {
      SyncEventDecodes(e.id, e.tenant, e.source, e.version, e.correlationId);
    }
    forall attempt: nat, notBefore: nat | 1 <= attempt <= MAX_RETRIES && notBefore > 0
      ensures codec.readRetry(codec.writeRetry(attempt, notBefore)) == Some((attempt, notBefore))
    {
      RetryHeadersRoundTrip(attempt, notBefore);
    }
  }

  function CommandOf(codec: Codec, r: BrokerRecord): Option<Command> {
    codec.decode(r.key, r.value)
  }

  type Partitions = map<TopicPartition, Partition>

  function Append(parts: Partitions, tp: TopicPartition, r: BrokerRecord): Partitions {
    if tp !in parts then parts else parts[tp := parts[tp].(log := parts[tp].log + [r])]
  }

  /** `retry_delay_seconds`. */
  function RetryDelaySeconds(attempt: nat): nat
    requires 1 <= attempt <= MAX_RETRIES
  {
    [30, 300, 1800][attempt - 1]
  }

  // ---- API and publisher ----

  function StepStartSync(s: State, source: Uuid, id: Uuid, requestId: Option<string>, generated: Uuid): State {
    if source !in s.sources || s.sources[source].status == Disabled then s else
      var row := s.sources[source];
      var version := row.version + 1;
      s.(sources := s.sources[source := row.(version := version, status := Syncing)],
         outbox := s.outbox + [Event(id, row.tenant, source, version,
                                     NormalizeCorrelationId(requestId, generated), Unpublished, 0)])
  }

  /** One row of `publish_due_batch`. Acknowledged implies delivered. */
  function StepPublish(s: State, i: nat, target: TopicPartition, delivered: bool, acknowledged: bool): State {
    if i >= |s.outbox| || s.outbox[i].status != Unpublished || i in s.batch
       || target !in s.parts || target.retry || (acknowledged && !delivered)
    then s else
      match s.codec.encode(s.outbox[i])
      case None => s.(batch := s.batch[i := MarkUnserializable])
      case Some(r) =>
        s.(parts := if delivered then Append(s.parts, target, r) else s.parts,
           batch := s.batch[i := if acknowledged then MarkPublished else MarkRetry])
  }

  function Marked(e: Event, mark: Mark): Event {
    match mark
    case MarkPublished => e.(status := Published)
    case MarkRetry => e.(attempts := e.attempts + 1)
    case MarkUnserializable => e.(status := Unserializable, attempts := e.attempts + 1)
  }

  function StepCommitBatch(s: State): State {
    s.(outbox := seq(|s.outbox|, i requires 0 <= i < |s.outbox| =>
                       if i in s.batch then Marked(s.outbox[i], s.batch[i]) else s.outbox[i]),
       batch := map[])
  }

  // ---- consumer ----

  function Handled(s: State, tp: TopicPartition): Option<BrokerRecord> {
    if tp in s.parts && 1 <= s.parts[tp].position <= |s.parts[tp].log|
    then Some(s.parts[tp].log[s.parts[tp].position - 1]) else None
  }

  function StepPoll(s: State, tp: TopicPartition): State {
    if s.stage != Idle || tp !in s.parts || tp in s.pausedUntil || s.parts[tp].position >= |s.parts[tp].log| then s else
      s.(parts := s.parts[tp := s.parts[tp].(position := s.parts[tp].position + 1)], stage := Received(tp))
  }

  /** `_rewind_and_pause`. */
  function Rewind(s: State, tp: TopicPartition, until: nat): State {
    if tp !in s.parts || s.parts[tp].position == 0 then s else
      s.(parts := s.parts[tp := s.parts[tp].(position := s.parts[tp].position - 1)],
         pausedUntil := s.pausedUntil[tp := until], stage := Idle)
  }

  /** The checks of `_handle_message` before the job runs. */
  function StepInspect(s: State, nowMs: nat): State {
    if !s.stage.Received? || Handled(s, s.stage.tp).None? then s else
      var tp := s.stage.tp;
      var r := Handled(s, tp).value;
      var metadata := if tp.retry then s.codec.readRetry(r.headers) else Some((0, 0));
      if metadata.None? then s.(stage := DeadLettering(tp, InvalidEvent))
      else if metadata.value.1 > nowMs then Rewind(s, tp, metadata.value.1)
      else if CommandOf(s.codec, r).None? then s.(stage := DeadLettering(tp, InvalidEvent))
      else s.(stage := Running(tp, CommandOf(s.codec, r).value, metadata.value.0))
  }

  /** When `run_knowledge_sync` may return each outcome. */
  predicate JobAllows(s: State, c: Command, o: JobOutcome) {
    var known := c.source in s.sources && s.sources[c.source].tenant == c.tenant;
    match o
    case HandedOff => known && s.sources[c.source].status != Disabled && c.version == s.sources[c.source].version
    case NoopSuperseded => known && c.version < s.sources[c.source].version
    case NoopReplayed => known
    case JobFailed(VersionAhead, retryable) => known && c.version > s.sources[c.source].version && !retryable
    case JobFailed(_, _) => true
  }

  function StepJobReturns(s: State, o: JobOutcome): State {
    if !s.stage.Running? || !JobAllows(s, s.stage.command, o) then s else
      var Running(tp, c, attempt) := s.stage;
      var pair := Pair(c.source, c.version);
      match o
      case JobFailed(error, retryable) =>
        s.(stage := if retryable && attempt < MAX_RETRIES then Retrying(tp, attempt + 1)
                    else Marking(tp, c, attempt, error))
      case _ =>
        s.(stage := Committing(tp), completed := s.completed + {pair})
  }

  /** The source rows with the command's own source failed, if it still is at that version. */
  function FailedRows(sources: map<Uuid, SourceRow>, c: Command): map<Uuid, SourceRow> {
    if c.source in sources && sources[c.source].tenant == c.tenant
       && sources[c.source].version == c.version && sources[c.source].status != Disabled
    then sources[c.source := sources[c.source].(status := SyncFailed)]
    else sources
  }

  /** `mark_matching_source_failed` and the branches around it. */
  function StepMark(s: State, ok: bool, nowMs: nat): State {
    if !s.stage.Marking? then s else
      var Marking(tp, c, attempt, error) := s.stage;
      if ok then s.(sources := FailedRows(s.sources, c), stage := DeadLettering(tp, error))
      else if attempt < MAX_RETRIES then s.(stage := Retrying(tp, attempt + 1))
      else Rewind(s, tp, nowMs + INTERNAL_REDELIVERY_DELAY_MS)
  }

  /** The copy that `_publish_retry` sends: same key and value, new headers. */
  function RetryRecord(codec: Codec, r: BrokerRecord, next: nat, nowMs: nat): BrokerRecord
    requires 1 <= next <= MAX_RETRIES
  {
    r.(topic := RETRY_TOPIC, headers := codec.writeRetry(next, nowMs + RetryDelaySeconds(next) * 1000))
  }

  function StepPublishRetry(s: State, target: TopicPartition, nowMs: nat, delivered: bool, acknowledged: bool): State {
    if !s.stage.Retrying? || !(1 <= s.stage.next <= MAX_RETRIES) || Handled(s, s.stage.tp).None?
       || target !in s.parts || !target.retry || (acknowledged && !delivered)
    then s else
      var tp := s.stage.tp;
      var r := RetryRecord(s.codec, Handled(s, tp).value, s.stage.next, nowMs);
      var t := if delivered then s.(parts := Append(s.parts, target, r)) else s;
      if acknowledged then t.(stage := Committing(tp)) else Rewind(t, tp, nowMs + INTERNAL_REDELIVERY_DELAY_MS)
  }

  function StepPublishDeadLetter(s: State, nowMs: nat, delivered: bool, acknowledged: bool): State {
    if !s.stage.DeadLettering? || Handled(s, s.stage.tp).None? || (acknowledged && !delivered) then s else
      var tp := s.stage.tp;
      var letter := DeadLetter(Handled(s, tp).value.(topic := DLQ_TOPIC), s.stage.error);
      var t := if delivered then s.(deadLetters := s.deadLetters + [letter]) else s;
      if acknowledged then t.(stage := Committing(tp)) else Rewind(t, tp, nowMs + INTERNAL_REDELIVERY_DELAY_MS)
  }

  function Advance(parts: Partitions, tp: TopicPartition): Partitions {
    if tp !in parts then parts else parts[tp := parts[tp].(committed := parts[tp].position)]
  }

  function StepCommitOffset(s: State): State {
    if !s.stage.Committing? then s else s.(parts := Advance(s.parts, s.stage.tp), stage := Idle)
  }

  function StepCrashConsumer(s: State): State {
    s.(parts := map tp | tp in s.parts :: s.parts[tp].(position := s.parts[tp].committed),
       stage := Idle, pausedUntil := map[])
  }

  function StepResume(s: State, nowMs: nat): State {
    s.(pausedUntil := map tp | tp in s.pausedUntil && s.pausedUntil[tp] > nowMs :: s.pausedUntil[tp])
  }

  function StepSetDisabled(s: State, source: Uuid, disabled: bool): State {
    if source !in s.sources then s else
      s.(sources := s.sources[source := s.sources[source].(status := if disabled then Disabled else PendingSync)])
  }

  /** One step; an action that is not enabled changes nothing. */
  function Step(s: State, a: Action): State {
    match a
    case CreateSource(source, tenant) =>
      if source in s.sources then s else s.(sources := s.sources[source := SourceRow(tenant, 0, PendingSync)])
    case SetDisabled(source, disabled) => StepSetDisabled(s, source, disabled)
    case StartSync(source, id, requestId, generated) => StepStartSync(s, source, id, requestId, generated)
    case PublishEvent(i, target, delivered, acknowledged) => StepPublish(s, i, target, delivered, acknowledged)
    case CommitBatch => StepCommitBatch(s)
    case CrashPublisher => s.(batch := map[])
    case Poll(tp) => StepPoll(s, tp)
    case Inspect(nowMs) => StepInspect(s, nowMs)
    case JobReturns(outcome) => StepJobReturns(s, outcome)
    case MarkSourceFailed(ok, nowMs) => StepMark(s, ok, nowMs)
    case PublishRetry(target, nowMs, delivered, acknowledged) =>
      StepPublishRetry(s, target, nowMs, delivered, acknowledged)
    case PublishDeadLetter(nowMs, delivered, acknowledged) => StepPublishDeadLetter(s, nowMs, delivered, acknowledged)
    case CommitOffset => StepCommitOffset(s)
    case CrashConsumer => StepCrashConsumer(s)
    case Resume(nowMs) => StepResume(s, nowMs)
  }

  function Run(s: State, actions: seq<Action>): State
    decreases |actions|
  {
    if actions == [] then s else Run(Step(s, actions[0]), actions[1..])
  }
}
