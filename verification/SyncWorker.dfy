/** The worker's code between crashes: the consumer's handler and the publisher's batch loop, as
    methods that update the worker's state in place. Each is shown to be a run of the delivery
    protocol, so all that holds of the protocol's runs holds of this code. */
module SyncWorker {
  import opened Common
  import opened Wire
  import opened Delivery
  import opened Handling
  import opened OutboxBatches

  class Worker {
    const codec: Codec
    var sources: map<Uuid, SourceRow>
    var outbox: seq<Event>
    var parts: map<TopicPartition, Partition>
    var pausedUntil: map<TopicPartition, nat>
    var deadLetters: seq<DeadLetter>
    ghost var batch: map<nat, Mark>
    ghost var stage: Stage
    ghost var completed: set<Pair>

    ghost function Now(): State
      reads this
    {
      State(codec, sources, outbox, batch, parts, stage, pausedUntil, deadLetters, completed)
    }

    constructor (codec: Codec, tps: set<TopicPartition>)
      ensures Now() == Initial(codec, tps)
    {
      this.codec := codec;
      sources, outbox, parts := map[], [], map tp | tp in tps :: Partition([], 0, 0);
      pausedUntil, deadLetters := map[], [];
      batch, stage, completed := map[], Idle, {};
    }

    // ---- offsets ----

    /** `_commit`. */
    method Commit(tp: TopicPartition)
      requires tp in parts && stage == Committing(tp)
      modifies this
      ensures Now() == StepCommitOffset(old(Now()))
    {
      parts := parts[tp := parts[tp].(committed := parts[tp].position)];
      stage := Idle;
    }

    /** `_rewind_and_pause`. */
    method RewindAndPause(tp: TopicPartition, until: nat)
      requires tp in parts && parts[tp].position > 0
      modifies this
      ensures Now() == Rewind(old(Now()), tp, until)
    {
      parts := parts[tp := parts[tp].(position := parts[tp].position - 1)];
      pausedUntil := pausedUntil[tp := until];
      stage := Idle;
    }

    /** `_resume_due_partitions`: the due keys are deleted one by one. */
    method ResumeDuePartitions(nowMs: nat)
      modifies this
      ensures Now() == Step(old(Now()), Resume(nowMs))
    {
      var due := set tp | tp in pausedUntil && pausedUntil[tp] <= nowMs;
      while due != {}
        invariant due <= pausedUntil.Keys
        invariant forall tp :: tp in due ==> pausedUntil[tp] <= nowMs
        invariant forall tp :: tp in pausedUntil ==> tp in old(pausedUntil) && pausedUntil[tp] == old(pausedUntil[tp])
        invariant forall tp :: tp in old(pausedUntil) && tp !in pausedUntil ==> old(pausedUntil[tp]) <= nowMs
        invariant forall tp :: tp in pausedUntil && tp !in due ==> pausedUntil[tp] > nowMs
        invariant Now() == old(Now()).(pausedUntil := pausedUntil)
        decreases |due|
      {
        var key :| key in due;
        pausedUntil := pausedUntil - {key};
        due := due - {key};
      }
    }

    // ---- publishing ----

    /** The broker takes a record, or not, whatever it then reports. */
    method Deliver(target: TopicPartition, r: BrokerRecord, delivered: bool)
      requires target in parts
      modifies this`parts
      ensures parts == if delivered then Append(old(parts), target, r) else old(parts)
    {
      if delivered {
        parts := parts[target := parts[target].(log := parts[target].log + [r])];
      }
    }

    /** `_publish_retry`. */
    method PublishRetryCopy(tp: TopicPartition, r: BrokerRecord, next: nat, a: Answers)
      requires stage == Retrying(tp, next) && 1 <= next <= MAX_RETRIES && Handled(Now(), tp) == Some(r)
      requires a.target in parts && a.target.retry && (a.acknowledged ==> a.delivered)
      modifies this
      ensures Now() == Drive(old(Now()), a) && stage == Idle && Settled(old(Now()), Now(), tp, a.acknowledged)
    {
      ghost var s := Now();
      var notBefore := a.nowMs + RetryDelaySeconds(next) * 1000;
      Deliver(a.target, r.(topic := RETRY_TOPIC, headers := codec.writeRetry(next, notBefore)), a.delivered);
      if !a.acknowledged {
        RewindAndPause(tp, a.nowMs + INTERNAL_REDELIVERY_DELAY_MS);
        assert Now() == StepPublishRetry(s, a.target, a.nowMs, a.delivered, false);
        DriveNext(s, a);
        DriveDone(Now(), a);
        return;
      }
      stage := Committing(tp);
      assert Now() == StepPublishRetry(s, a.target, a.nowMs, a.delivered, true);
      DriveNext(s, a);
      CommitNow(tp, a);
    }

    /** `_publish_dlq`. */
    method PublishToDeadLetters(tp: TopicPartition, r: BrokerRecord, error: JobError, a: Answers)
      requires stage == DeadLettering(tp, error) && Handled(Now(), tp) == Some(r) && (a.acknowledged ==> a.delivered)
      modifies this
      ensures Now() == Drive(old(Now()), a) && stage == Idle && Settled(old(Now()), Now(), tp, a.acknowledged)
    {
      ghost var s := Now();
      if a.delivered {
        deadLetters := deadLetters + [DeadLetter(r.(topic := DLQ_TOPIC), error)];
      }
      if !a.acknowledged {
        RewindAndPause(tp, a.nowMs + INTERNAL_REDELIVERY_DELAY_MS);
        assert Now() == StepPublishDeadLetter(s, a.nowMs, a.delivered, false);
        DriveNext(s, a);
        DriveDone(Now(), a);
        return;
      }
      stage := Committing(tp);
      assert Now() == StepPublishDeadLetter(s, a.nowMs, a.delivered, true);
      DriveNext(s, a);
      CommitNow(tp, a);
    }

    // ---- one message ----

    /** The end of a message that needs no more work. */
    method CommitNow(tp: TopicPartition, ghost a: Answers)
      requires tp in parts && stage == Committing(tp)
      modifies this
      ensures Now() == Drive(old(Now()), a) && stage == Idle && Settled(old(Now()), Now(), tp, true)
    {
      ghost var s := Now();
      Commit(tp);
      DriveNext(s, a);
      DriveDone(Now(), a);
    }

    /** The branches that end in a retry copy. */
    method RetryFrom(tp: TopicPartition, r: BrokerRecord, next: nat, a: Answers)
      requires Rank(stage) > 2 && StepOf(Now(), a) == Now().(stage := Retrying(tp, next))
      requires Handled(Now(), tp) == Some(r)
      requires 1 <= next <= MAX_RETRIES && a.target in parts && a.target.retry && (a.acknowledged ==> a.delivered)
      modifies this
      ensures Now() == Drive(old(Now()), a) && stage == Idle && Settled(old(Now()), Now(), tp, a.acknowledged)
    {
      DriveNext(Now(), a);
      stage := Retrying(tp, next);
      PublishRetryCopy(tp, r, next, a);
    }

    /** `mark_matching_source_failed`. */
    method MarkFailed(c: Command)
      modifies this`sources
      ensures sources == FailedRows(old(sources), c)
    {
      if c.source in sources && sources[c.source].tenant == c.tenant
         && sources[c.source].version == c.version && sources[c.source].status != Disabled {
        sources := sources[c.source := sources[c.source].(status := SyncFailed)];
      }
    }

    /** The failure is recorded, and the message goes to the dead letters. */
    method GiveUpMarked(tp: TopicPartition, r: BrokerRecord, c: Command, attempt: nat, error: JobError, a: Answers)
      requires stage == Marking(tp, c, attempt, error) && Handled(Now(), tp) == Some(r)
      requires a.marked && (a.acknowledged ==> a.delivered)
      modifies this
      ensures Now() == Drive(old(Now()), a) && stage == Idle && Settled(old(Now()), Now(), tp, a.acknowledged)
    {
      DriveNext(Now(), a);
      MarkFailed(c);
      stage := DeadLettering(tp, error);
      PublishToDeadLetters(tp, r, error, a);
    }

    /** The rest of `_handle_message` when the job has failed for good. */
    method GiveUp(tp: TopicPartition, r: BrokerRecord, c: Command, attempt: nat, error: JobError, a: Answers)
      returns (committed: bool)
      requires stage == Marking(tp, c, attempt, error) && Handled(Now(), tp) == Some(r)
      requires a.target in parts && a.target.retry && (a.acknowledged ==> a.delivered)
      modifies this
      ensures Now() == Drive(old(Now()), a) && stage == Idle && Settled(old(Now()), Now(), tp, committed)
    {
      committed := a.acknowledged;
      if a.marked {
        GiveUpMarked(tp, r, c, attempt, error, a);
      } else if attempt < MAX_RETRIES {
        RetryFrom(tp, r, attempt + 1, a);
      } else {
        DriveNext(Now(), a);
        RewindAndPause(tp, a.nowMs + INTERNAL_REDELIVERY_DELAY_MS);
        DriveDone(Now(), a);
        committed := false;
      }
    }

    /** A completed job: the offset is committed. */
    method Complete(tp: TopicPartition, c: Command, attempt: nat, a: Answers)
      requires tp in parts && stage == Running(tp, c, attempt)
      requires JobAllows(Now(), c, a.outcome) && !a.outcome.JobFailed?
      modifies this
      ensures Now() == Drive(old(Now()), a) && stage == Idle && Settled(old(Now()), Now(), tp, true)
    {
      ghost var s := Now();
      completed := completed + {Pair(c.source, c.version)};
      stage := Committing(tp);
      assert Now() == StepJobReturns(s, a.outcome);
      DriveNext(s, a);
      CommitNow(tp, a);
    }

    /** What follows the job's answer. */
    method AfterJob(tp: TopicPartition, r: BrokerRecord, c: Command, attempt: nat, a: Answers)
      returns (committed: bool)
      requires stage == Running(tp, c, attempt) && Handled(Now(), tp) == Some(r) && JobAllows(Now(), c, a.outcome)
      requires a.target in parts && a.target.retry && (a.acknowledged ==> a.delivered)
      modifies this
      ensures Now() == Drive(old(Now()), a) && stage == Idle && Settled(old(Now()), Now(), tp, committed)
    {
      if !a.outcome.JobFailed? {
        Complete(tp, c, attempt, a);
        return true;
      }
      if a.outcome.retryable && attempt < MAX_RETRIES {
        RetryFrom(tp, r, attempt + 1, a);
        return a.acknowledged;
      }
      DriveNext(Now(), a);
      stage := Marking(tp, c, attempt, a.outcome.error);
      committed := GiveUp(tp, r, c, attempt, a.outcome.error, a);
    }

    /** A record that cannot be read goes to the dead letters. */
    method Refuse(tp: TopicPartition, r: BrokerRecord, a: Answers)
      requires stage == Received(tp) && Handled(Now(), tp) == Some(r) && (a.acknowledged ==> a.delivered)
      requires StepInspect(Now(), a.nowMs).stage == DeadLettering(tp, InvalidEvent)
      modifies this
      ensures Now() == Drive(old(Now()), a) && stage == Idle && Settled(old(Now()), Now(), tp, a.acknowledged)
    {
      ghost var s := Now();
      stage := DeadLettering(tp, InvalidEvent);
      assert Now() == StepInspect(s, a.nowMs);
      DriveNext(s, a);
      PublishToDeadLetters(tp, r, InvalidEvent, a);
    }

    /** The branches of `_handle_message`, each of them the protocol's next step. */
    method Inspected(tp: TopicPartition, r: BrokerRecord, a: Answers) returns (committed: bool)
      requires stage == Received(tp) && Handled(Now(), tp) == Some(r)
      requires CommandOf(codec, r).Some? ==> JobAllows(Now(), CommandOf(codec, r).value, a.outcome)
      requires a.target in parts && a.target.retry && (a.acknowledged ==> a.delivered)
      modifies this
      ensures Now() == Drive(old(Now()), a) && stage == Idle && Settled(old(Now()), Now(), tp, committed)
    {
      ghost var s := Now();
      var attempt := 0;
      if tp.retry {
        var metadata := codec.readRetry(r.headers);
        if metadata.None? {
          Refuse(tp, r, a);
          return a.acknowledged;
        }
        attempt := metadata.value.0;
        if metadata.value.1 > a.nowMs {
          RewindAndPause(tp, metadata.value.1);
          DriveNext(s, a);
          DriveDone(Now(), a);
          return false;
        }
      }
      var command := codec.decode(r.key, r.value);
      if command.None? {
        Refuse(tp, r, a);
        return a.acknowledged;
      }
      stage := Running(tp, command.value, attempt);
      assert Now() == StepInspect(s, a.nowMs);
      DriveNext(s, a);
      committed := AfterJob(tp, r, command.value, attempt, a);
    }

    /** `_handle_message`: whatever the world answers, the handler takes exactly the protocol's steps
        from the message's receipt on, which do to topics, dead letters and rows what is right, and
        ends with its offset committed, or with its partition back at the message and paused. */
    method HandleMessage(tp: TopicPartition, r: BrokerRecord, a: Answers) returns (committed: bool)
      requires stage == Received(tp) && Handled(Now(), tp) == Some(r)
      requires CommandOf(codec, r).Some? ==> JobAllows(Now(), CommandOf(codec, r).value, a.outcome)
      requires a.target in parts && a.target.retry && (a.acknowledged ==> a.delivered)
      modifies this
      ensures Now() == Drive(old(Now()), a) && stage == Idle && Settled(old(Now()), Now(), tp, committed)
      ensures Faithful(codec) ==> HandledRightly(old(Now()), Now(), tp, r, a)
    {
      if Faithful(codec) { MessageIsHandledRightly(Now(), a, tp, r); }
      committed := Inspected(tp, r, a);
    }

    // ---- the outbox ----

    /** One row: serialised, published and marked. */
    method PublishRow(i: nat, target: TopicPartition, delivered: bool, acknowledged: bool) returns (mark: Mark)
      requires i < |outbox| && outbox[i].status == Unpublished && i !in batch
      requires target in parts && !target.retry && (acknowledged ==> delivered)
      modifies this`parts, this`batch
      ensures Now() == StepPublish(old(Now()), i, target, delivered, acknowledged)
      ensures batch == old(batch)[i := mark] && parts.Keys == old(parts.Keys)
    {
      var record := codec.encode(outbox[i]);
      if record.None? {
        mark := MarkUnserializable;
      } else {
        Deliver(target, record.value, delivered);
        mark := if acknowledged then MarkPublished else MarkRetry;
      }
      batch := batch[i := mark];
    }

    /** The transaction after `n` rows: `rows` is what it will commit. */
    ghost predicate InBatch(s: State, fates: seq<Fate>, n: nat, rows: seq<Event>)
      requires n <= |fates|
      reads this
    {
      && Now() == PublishAll(s, fates, n) && outbox == s.outbox && parts.Keys == s.parts.Keys
      && (forall k :: n <= k < |fates| ==> fates[k].row !in batch)
      && rows == Committed(outbox, batch)
    }

    method PublishNext(ghost s: State, fates: seq<Fate>, n: nat, rows: seq<Event>) returns (more: seq<Event>)
      requires n < |fates| && Claimable(s, fates) && InBatch(s, fates, n, rows)
      modifies this`parts, this`batch
      ensures InBatch(s, fates, n + 1, more)
    {
      var f := fates[n];
      ghost var before := batch;
      var mark := PublishRow(f.row, f.target, f.delivered, f.acknowledged);
      more := rows[f.row := Marked(outbox[f.row], mark)];
      OneMoreMark(outbox, before, f.row, mark);
    }

    method PublishRows(fates: seq<Fate>) returns (rows: seq<Event>, processed: nat)
      requires batch == map[] && Claimable(Now(), fates)
      modifies this`parts, this`batch
      ensures InBatch(old(Now()), fates, |fates|, rows) && processed == |fates|
    {
      ghost var s := Now();
      rows, processed := outbox, 0;
      while processed < |fates|
        invariant processed <= |fates| && InBatch(s, fates, processed, rows)
      {
        rows := PublishNext(s, fates, processed, rows);
        processed := processed + 1;
      }
    }

    /** `publish_due_batch`: the rows' updates become visible together, when the transaction commits. */
    method PublishDueBatch(fates: seq<Fate>) returns (processed: nat)
      requires batch == map[] && Claimable(Now(), fates)
      modifies this
      ensures Now() == StepCommitBatch(PublishAll(old(Now()), fates, |fates|))
      ensures BatchDone(old(Now()), Now(), fates) && processed == |fates|
    {
      BatchIsDone(Now(), fates);
      var rows;
      rows, processed := PublishRows(fates);
      CommitBatchIs(Now());
      outbox, batch := rows, map[];
    }
  }
}
