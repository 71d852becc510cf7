/** What the consumer does with each way a job can end, and the path of a request to its handoff. */
module HandoffProgress {
  import opened Common
  import opened Wire
  import opened EndToEnd
  import D = Delivery
  import DT = DeliveryTheorems
  import DP = DeliveryProgress
  import J = SyncJob
  import K = SyncKinds
  import OutboxBatches

  /** The consumer waits for job `i`, which is at `stage` of its command. */
  ghost predicate Awaits(sys: System, i: J.JobId, stage: J.Stage) {
    && sys.current == Some(i) && sys.d.stage.Running? && i in sys.j.jobs
    && sys.j.jobs[i] == J.Job(sys.d.stage.command.source, sys.d.stage.command.version, stage)
  }

  /** Both sides see the same rows, and the source is of the command's own tenant. */
  ghost predicate Known(sys: System) {
    && SameRows(sys.d, sys.j) && sys.d.stage.Running?
    && var c := sys.d.stage.command;
    c.source in sys.d.sources ==> sys.d.sources[c.source].tenant == c.tenant
  }

  /** So it is whenever a job runs. */
  lemma RunningIsKnown(sys: System)
    requires Inv(sys) && sys.d.stage.Running?
    ensures Known(sys)
  {
    DT.RunningIsAllocated(sys.d);
  }

  /** The source of the running command is enabled and at the command's version. */
  ghost predicate AtVersion(sys: System) {
    && sys.d.stage.Running? && var c := sys.d.stage.command;
    c.source in sys.j.sources && !sys.j.sources[c.source].disabled && sys.j.sources[c.source].version == c.version
  }

  /** The consumer goes on to mark and bury the message with this error. */
  ghost predicate Refused(sys: System, t: System, error: D.JobError) {
    && sys.d.stage.Running? && t.current == None
    && t.d == sys.d.(stage := D.Marking(sys.d.stage.tp, sys.d.stage.command, sys.d.stage.attempt, error))
  }

  /** The consumer goes on to commit, with the version completed. */
  ghost predicate Accepted(sys: System, t: System) {
    && sys.d.stage.Running? && t.current == None
    && var c := sys.d.stage.command;
    t.d == sys.d.(stage := D.Committing(sys.d.stage.tp), completed := sys.d.completed + {Pair(c.source, c.version)})
  }

  // ---- how a job ends ----

  /** A step that ends the awaited job hands its answer to the consumer. */
  lemma EndIsAnswered(hash: J.Bytes -> J.Hash, sys: System, a: J.Action, error: D.JobError, retryable: bool)
    requires OnJob(a) && sys.current == Some(a.j) && a.j in sys.j.jobs && error != D.VersionAhead
    requires a.j !in J.Step(hash, sys.j, a).jobs
    ensures Step(hash, sys, Work(a, error, retryable))
         == System(D.StepJobReturns(sys.d, Answer(hash, sys.j, a, error, retryable)), J.Step(hash, sys.j, a), None)
  {
  }

  lemma RowAnswers(sys: System, o: D.JobOutcome)
    requires Known(sys) && RowAnswer(sys.j, sys.d.stage.command.source, sys.d.stage.command.version) == Some(o)
    ensures D.JobAllows(sys.d, sys.d.stage.command, o)
    ensures var c := sys.d.stage.command;
      o == if c.source !in sys.j.sources then D.JobFailed(D.SourceNotFound, false)
           else if sys.j.sources[c.source].disabled then D.JobFailed(D.SourceDisabled, false)
           else if c.version < sys.j.sources[c.source].version then D.NoopSuperseded
           else D.JobFailed(D.VersionAhead, false)
  {
  }

  /** A source that is gone, disabled or behind the command is refused by its own name and never
      retried; a newer version completes the message. */
  lemma RowDecides(hash: J.Bytes -> J.Hash, sys: System, i: J.JobId, error: D.JobError, retryable: bool)
    requires Awaits(sys, i, J.Begun) && Known(sys) && error != D.VersionAhead && !AtVersion(sys)
    ensures var t := Step(hash, sys, Work(J.Load(i), error, retryable)); var c := sys.d.stage.command;
      if c.source !in sys.j.sources then Refused(sys, t, D.SourceNotFound)
      else if sys.j.sources[c.source].disabled then Refused(sys, t, D.SourceDisabled)
      else if c.version < sys.j.sources[c.source].version then Accepted(sys, t)
      else Refused(sys, t, D.VersionAhead)
  {
    var c := sys.d.stage.command;
    K.LoadDecides(sys.j, i, c.source, c.version);
    EndIsAnswered(hash, sys, J.Load(i), error, retryable);
    RowAnswers(sys, RowAnswer(sys.j, c.source, c.version).value);
  }

  lemma SitemapIsRefused(hash: J.Bytes -> J.Hash, sys: System, i: J.JobId, error: D.JobError, retryable: bool)
    requires Awaits(sys, i, J.Begun) && error != D.VersionAhead && AtVersion(sys)
    requires sys.j.sources[sys.d.stage.command.source].kind == J.Sitemap
    ensures Refused(sys, Step(hash, sys, Work(J.Load(i), error, retryable)), D.TypeUnsupported)
  {
  }

  /** A version whose content was recorded with another hash is refused before its bytes are stored. */
  lemma ChangedContentIsRefused(
      hash: J.Bytes -> J.Hash, sys: System, i: J.JobId, kind: J.Kind, bytes: J.Bytes, d: nat,
      error: D.JobError, retryable: bool)
    requires Awaits(sys, i, J.Fetched(kind, bytes)) && J.HandoffsOk(sys.j) && error != D.VersionAhead
    requires d < |sys.j.documents| && sys.j.documents[d].source == sys.d.stage.command.source
    requires sys.j.documents[d].version == sys.d.stage.command.version && sys.j.documents[d].hash != hash(bytes)
    ensures var t := Step(hash, sys, Work(J.Preflight(i), error, retryable));
      Refused(sys, t, D.ReplayMismatch) && t.j.store == sys.j.store && t.j.documents == sys.j.documents
  {
    var c := sys.d.stage.command;
    OneDocument(sys.j, c.source, c.version, d);
  }

  lemma OneDocument(j: J.State, x: Uuid, v: nat, d: nat)
    requires J.HandoffsOk(j) && d < |j.documents| && j.documents[d].source == x && j.documents[d].version == v
    ensures J.DocumentIndex(j.documents, x, v) == Some(d)
  {
    J.DocumentIndexFinds(j.documents, x, v);
    var e := J.DocumentIndex(j.documents, x, v).value;
    assert J.SamePair(j.documents[d], j.documents[e]);
  }

  /** A PUT that fails is retried until the attempts are used up. */
  lemma FailedPutIsRetried(
      hash: J.Bytes -> J.Hash, sys: System, i: J.JobId, bytes: J.Bytes, effective: bool,
      error: D.JobError, retryable: bool)
    requires Awaits(sys, i, J.Preflighted(J.Url, bytes)) && error != D.VersionAhead
    ensures var t := Step(hash, sys, Work(J.PutRaw(i, false, effective), error, retryable));
      if sys.d.stage.attempt < 3
      then t.d == sys.d.(stage := D.Retrying(sys.d.stage.tp, sys.d.stage.attempt + 1)) && t.current == None
      else Refused(sys, t, D.ObjectUnavailable)
  {
  }

  /** A failed fetch or database call is retried if it may be, and refused otherwise. */
  lemma FailureIsPassedOn(hash: J.Bytes -> J.Hash, sys: System, i: J.JobId, error: D.JobError, retryable: bool)
    requires sys.current == Some(i) && i in sys.j.jobs && sys.d.stage.Running? && error != D.VersionAhead
    ensures var t := Step(hash, sys, Work(J.End(i), error, retryable));
      if retryable && sys.d.stage.attempt < 3
      then t.d == sys.d.(stage := D.Retrying(sys.d.stage.tp, sys.d.stage.attempt + 1)) && t.current == None
      else Refused(sys, t, error)
  {
  }

  /** A duplicate of a version that has its document completes the message and changes nothing else. */
  lemma DuplicateIsAccepted(hash: J.Bytes -> J.Hash, sys: System, i: J.JobId, error: D.JobError, retryable: bool)
    requires Awaits(sys, i, J.Begun) && Known(sys) && J.HandoffsOk(sys.j) && error != D.VersionAhead && AtVersion(sys)
    requires var c := sys.d.stage.command;
      sys.j.sources[c.source].kind != J.Sitemap && !K.NoDocument(sys.j, c.source, c.version)
    ensures var t := Run(hash, sys, [Work(J.Load(i), error, retryable), Work(J.CheckHandoff(i), error, retryable)]);
      && Accepted(sys, t) && t.j.documents == sys.j.documents && t.j.events == sys.j.events
      && t.j.store == sys.j.store && t.j.sources == sys.j.sources
  {
    var c := sys.d.stage.command;
    var load, check := Work(J.Load(i), error, retryable), Work(J.CheckHandoff(i), error, retryable);
    K.DuplicateCompletes(hash, sys.j, i, c.source, c.version);
    RunTwo(hash, sys, load, check);
    assert Step(hash, sys, load) == sys.(j := J.StepLoad(sys.j, i));
  }

  lemma RunTwo(hash: J.Bytes -> J.Hash, sys: System, a: Action, b: Action)
    ensures Run(hash, sys, [a, b]) == Step(hash, Step(hash, sys, a), b)
  {
    var s1 := Step(hash, sys, a);
    assert Run(hash, sys, [a, b]) == Run(hash, s1, [b]) by { assert [a, b][1..] == [b]; }
    assert Run(hash, s1, [b]) == Step(hash, s1, b) by { assert [b][1..] == []; }
  }

  // ---- a job that is let finish ----

  /** The steps of a job as steps of the system; the errors are not used. */
  function Works(steps: seq<J.Action>): (r: seq<Action>)
    ensures |r| == |steps|
  {
    seq(|steps|, k requires 0 <= k < |steps| => Work(steps[k], D.DatabaseUnavailable, true))
  }

  predicate AllOf(steps: seq<J.Action>, i: J.JobId) {
    forall k :: 0 <= k < |steps| ==> OnJob(steps[k]) && steps[k].j == i
  }

  /** An ended job does not come back. */
  lemma {:induction false} EndedStays(hash: J.Bytes -> J.Hash, j: J.State, i: J.JobId, steps: seq<J.Action>)
    requires AllOf(steps, i) && i !in j.jobs
    ensures i !in J.Run(hash, j, steps).jobs
    decreases |steps|
  {
    if steps != [] {
      WorkTouchesOnlyJob(hash, j, steps[0]);
      EndedStays(hash, J.Step(hash, j, steps[0]), i, steps[1..]);
    }
  }

  /** As long as its job lives, the consumer only waits. */
  lemma {:induction false} WorkRuns(hash: J.Bytes -> J.Hash, sys: System, i: J.JobId, steps: seq<J.Action>)
    requires AllOf(steps, i) && i in J.Run(hash, sys.j, steps).jobs
    ensures Run(hash, sys, Works(steps)) == sys.(j := J.Run(hash, sys.j, steps))
    decreases |steps|
  {
    if steps != [] {
      var j := J.Step(hash, sys.j, steps[0]);
      if i !in sys.j.jobs { EndedStays(hash, sys.j, i, steps); }
      if i !in j.jobs { EndedStays(hash, j, i, steps[1..]); }
      WorkRuns(hash, sys.(j := j), i, steps[1..]);
      assert Works(steps)[0] == Work(steps[0], D.DatabaseUnavailable, true) && Works(steps)[1..] == Works(steps[1..]);
    }
  }

  lemma {:induction false} RunAppend(hash: J.Bytes -> J.Hash, sys: System, xs: seq<Action>, ys: seq<Action>)
    ensures Run(hash, sys, xs + ys) == Run(hash, Run(hash, sys, xs), ys)
    decreases |xs|
  {
    if xs == [] {
      assert xs + ys == ys;
    } else {
      assert (xs + ys)[1..] == xs[1..] + ys;
      RunAppend(hash, Step(hash, sys, xs[0]), xs[1..], ys);
    }
  }

  lemma {:induction false} RunThen(hash: J.Bytes -> J.Hash, sys: System, steps: seq<Action>, a: Action)
    ensures Run(hash, sys, steps + [a]) == Step(hash, Run(hash, sys, steps), a)
  {
    RunAppend(hash, sys, steps, [a]);
    var t := Run(hash, sys, steps);
    assert Run(hash, t, [a]) == Step(hash, t, a) by { assert [a][1..] == []; }
  }

  /** The last transaction of the awaited job completes the message. */
  lemma PersistIsAccepted(hash: J.Bytes -> J.Hash, sys: System, i: J.JobId, kind: J.Kind, bytes: J.Bytes)
    requires Awaits(sys, i, J.RawStored(kind, bytes)) && Known(sys) && AtVersion(sys)
    requires var c := sys.d.stage.command; K.NoDocument(sys.j, c.source, c.version)
    ensures var t := Step(hash, sys, Work(J.Persist(i), D.DatabaseUnavailable, true));
      Accepted(sys, t) && t.j == J.StepPersist(hash, sys.j, i)
  {
    var c := sys.d.stage.command;
    K.NoDocumentIsFound(sys.j, c.source, c.version);
    EndIsAnswered(hash, sys, J.Persist(i), D.DatabaseUnavailable, true);
  }

  /** An awaited job for a version without document, whose fetch and PUT succeed, hands the version
      off, and the consumer goes on to commit. */
  lemma JobIsAccepted(hash: J.Bytes -> J.Hash, sys: System, i: J.JobId, bytes: J.Bytes, effective: bool)
    requires Awaits(sys, i, J.Begun) && Known(sys) && AtVersion(sys) && J.HandoffsOk(sys.j)
    requires var c := sys.d.stage.command;
      sys.j.sources[c.source].kind != J.Sitemap && K.NoDocument(sys.j, c.source, c.version)
    ensures var t := Run(hash, sys, Works(K.FullJob(i, bytes, effective))); var c := sys.d.stage.command;
      var kind := sys.j.sources[c.source].kind;
      var stored := sys.j.(store := K.StoredFor(sys.j, c.source, c.version, kind, bytes));
      && Accepted(sys, t)
      && K.HandsOff(stored, t.j, i, c.source, c.version, kind, hash(bytes))
  {
    var c := sys.d.stage.command;
    var steps := K.ReadAndStore(i, bytes, effective);
    K.BytesAreStored(hash, sys.j, i, c.source, c.version, bytes, effective);
    K.JobHandsOff(hash, sys.j, i, c.source, c.version, bytes, effective);
    StoredIsAccepted(hash, sys, i, bytes, steps);
    assert K.FullJob(i, bytes, effective) == steps + [J.Persist(i)];
  }

  lemma {:induction false} StoredIsAccepted(
      hash: J.Bytes -> J.Hash, sys: System, i: J.JobId, bytes: J.Bytes, steps: seq<J.Action>)
    requires Awaits(sys, i, J.Begun) && Known(sys) && AtVersion(sys) && AllOf(steps, i)
    requires var c := sys.d.stage.command; var kind := sys.j.sources[c.source].kind;
      && K.NoDocument(sys.j, c.source, c.version)
      && K.OnlyStage(sys.j.(store := K.StoredFor(sys.j, c.source, c.version, kind, bytes)),
                     J.Run(hash, sys.j, steps), i, J.RawStored(kind, bytes))
    ensures var t := Run(hash, sys, Works(steps + [J.Persist(i)]));
      Accepted(sys, t) && t.j == J.Run(hash, sys.j, steps + [J.Persist(i)])
  {
    var stored := sys.(j := J.Run(hash, sys.j, steps));
    WorkRuns(hash, sys, i, steps);
    PersistIsAccepted(hash, stored, i, sys.j.sources[sys.d.stage.command.source].kind, bytes);
    WorksThen(hash, sys, steps, J.Persist(i));
    K.RunThen(hash, sys.j, steps, J.Persist(i));
  }

  lemma {:induction false} WorksThen(hash: J.Bytes -> J.Hash, sys: System, steps: seq<J.Action>, a: J.Action)
    ensures Run(hash, sys, Works(steps + [a]))
         == Step(hash, Run(hash, sys, Works(steps)), Work(a, D.DatabaseUnavailable, true))
  {
    assert Works(steps + [a]) == Works(steps) + [Work(a, D.DatabaseUnavailable, true)];
    RunThen(hash, sys, Works(steps), Work(a, D.DatabaseUnavailable, true));
  }

  // ---- from the request to the handoff ----

  /** A request, its publication, and the consumer's reading of the message. */
  function Receiving(
      x: Uuid, id: Uuid, requestId: Option<string>, generated: Uuid, row: nat, tp: D.TopicPartition, nowMs: nat)
    : seq<Action>
  {
    [StartSync(x, id, requestId, generated), Deliver(D.PublishEvent(row, tp, true, true))]
    + [Deliver(D.CommitBatch), Deliver(D.Poll(tp)), Deliver(D.Inspect(nowMs))]
  }

  lemma RunThree(hash: J.Bytes -> J.Hash, sys: System, a: Action, b: Action, c: Action)
    ensures Run(hash, sys, [a, b, c]) == Step(hash, Step(hash, Step(hash, sys, a), b), c)
  {
    RunThen(hash, sys, [a, b], c);
    RunTwo(hash, sys, a, b);
    assert [a, b, c] == [a, b] + [c];
  }

  /** Without an awaited job the delivery's steps are its own. */
  lemma DeliverIsStep(hash: J.Bytes -> J.Hash, sys: System, a: D.Action)
    requires OfDelivery(a) && sys.current == None
    ensures Step(hash, sys, Deliver(a)) == System(D.Step(sys.d, a), sys.j, None)
  {
  }

  /** The delivery after the request was read. */
  function ReadRequest(
      d: D.State, x: Uuid, id: Uuid, requestId: Option<string>, generated: Uuid, tp: D.TopicPartition, nowMs: nat)
    : D.State
  {
    D.StepInspect(D.StepPoll(DP.Requested(d, x, id, requestId, generated, tp), tp), nowMs)
  }

  lemma PublishAllOfOne(d: D.State, row: nat, tp: D.TopicPartition)
    ensures OutboxBatches.PublishAll(d, [OutboxBatches.Fate(row, tp, true, true)], 1)
         == D.StepPublish(d, row, tp, true, true)
  {
    var fates := [OutboxBatches.Fate(row, tp, true, true)];
    assert OutboxBatches.PublishAll(d, fates, 0) == d;
  }

  lemma SendingRuns(
      hash: J.Bytes -> J.Hash, sys: System, x: Uuid, id: Uuid, requestId: Option<string>, generated: Uuid,
      row: nat, tp: D.TopicPartition)
    requires sys.current == None
    ensures Run(hash, sys, [StartSync(x, id, requestId, generated), Deliver(D.PublishEvent(row, tp, true, true))])
         == System(D.StepPublish(D.StepStartSync(sys.d, x, id, requestId, generated), row, tp, true, true),
                   J.Step(hash, sys.j, J.StartSync(x)), None)
  {
    var start, publish := StartSync(x, id, requestId, generated), D.PublishEvent(row, tp, true, true);
    RunTwo(hash, sys, start, Deliver(publish));
    DeliverIsStep(hash, Step(hash, sys, start), publish);
  }

  lemma ReadingRuns(hash: J.Bytes -> J.Hash, sys: System, tp: D.TopicPartition, nowMs: nat)
    requires sys.current == None
    ensures Run(hash, sys, [Deliver(D.CommitBatch), Deliver(D.Poll(tp)), Deliver(D.Inspect(nowMs))])
         == System(D.StepInspect(D.StepPoll(D.StepCommitBatch(sys.d), tp), nowMs), sys.j, None)
  {
    var committed := D.StepCommitBatch(sys.d);
    RunThree(hash, sys, Deliver(D.CommitBatch), Deliver(D.Poll(tp)), Deliver(D.Inspect(nowMs)));
    DeliverIsStep(hash, sys, D.CommitBatch);
    DeliverIsStep(hash, System(committed, sys.j, None), D.Poll(tp));
    DeliverIsStep(hash, System(D.StepPoll(committed, tp), sys.j, None), D.Inspect(nowMs));
  }

  lemma ReceivingRuns(
      hash: J.Bytes -> J.Hash, sys: System, x: Uuid, id: Uuid, requestId: Option<string>, generated: Uuid,
      tp: D.TopicPartition, nowMs: nat)
    requires sys.current == None
    ensures Run(hash, sys, Receiving(x, id, requestId, generated, |sys.d.outbox|, tp, nowMs))
         == System(ReadRequest(sys.d, x, id, requestId, generated, tp, nowMs),
                   J.Step(hash, sys.j, J.StartSync(x)), None)
  {
    var row, asked := |sys.d.outbox|, D.StepStartSync(sys.d, x, id, requestId, generated);
    RunAppend(hash, sys, [StartSync(x, id, requestId, generated), Deliver(D.PublishEvent(row, tp, true, true))],
              [Deliver(D.CommitBatch), Deliver(D.Poll(tp)), Deliver(D.Inspect(nowMs))]);
    SendingRuns(hash, sys, x, id, requestId, generated, row, tp);
    PublishAllOfOne(asked, row, tp);
    ReadingRuns(hash, System(D.StepPublish(asked, row, tp, true, true), J.Step(hash, sys.j, J.StartSync(x)), None),
                tp, nowMs);
  }

  /** The request is running: its command names the new version, and the message is the last of its
      partition. */
  ghost predicate RequestRuns(d: D.State, t: D.State, x: Uuid, tp: D.TopicPartition)
    requires x in d.sources && tp in d.parts
  {
    var row := d.sources[x];
    && t.stage.Running? && t.stage.tp == tp && t.stage.attempt == 0
    && t.stage.command.source == x && t.stage.command.version == row.version + 1
    && t.stage.command.tenant == row.tenant
    && t.sources == d.sources[x := row.(version := row.version + 1, status := D.Syncing)]
    && tp in t.parts && t.parts[tp].position == |d.parts[tp].log| + 1 == |t.parts[tp].log|
    && |t.outbox| == |d.outbox| + 1 && t.outbox[|d.outbox|].status == D.Published
    && t.completed == d.completed && t.deadLetters == d.deadLetters
  }

  lemma PolledRequestRuns(d: D.State, t: D.State, x: Uuid, tp: D.TopicPartition, nowMs: nat)
    requires x in d.sources && tp in d.parts && !tp.retry && D.Handled(t, tp).Some? && t.stage == D.Received(tp)
    requires var c := D.CommandOf(t.codec, D.Handled(t, tp).value);
      c.Some? && RequestRuns(d, t.(stage := D.Running(tp, c.value, 0)), x, tp)
    ensures RequestRuns(d, D.StepInspect(t, nowMs), x, tp)
  {
  }

  lemma RequestIsRunning(
      d: D.State, x: Uuid, id: Uuid, requestId: Option<string>, generated: Uuid, tp: D.TopicPartition, nowMs: nat)
    requires D.Faithful(d.codec) && x in d.sources && d.sources[x].status != D.Disabled
    requires DP.Drained(d, tp) && d.batch == map[]
    ensures RequestRuns(d, ReadRequest(d, x, id, requestId, generated, tp, nowMs), x, tp)
  {
    var sent := DP.Requested(d, x, id, requestId, generated, tp);
    DP.RequestIsPublished(d, x, id, requestId, generated, tp);
    DP.PollReceives(sent, tp);
    PolledRequestRuns(d, D.StepPoll(sent, tp), x, tp, nowMs);
  }

  lemma LaunchAwaits(hash: J.Bytes -> J.Hash, sys: System, i: J.JobId)
    requires sys.d.stage.Running? && sys.d.stage.command.version > 0 && sys.current == None && i !in sys.j.jobs
    ensures var t := Step(hash, sys, Launch(i));
      && Awaits(t, i, J.Begun) && t.d == sys.d && t.j == sys.j.(jobs := t.j.jobs)
  {
  }

  lemma CommitEnds(hash: J.Bytes -> J.Hash, sys: System, tp: D.TopicPartition)
    requires sys.d.stage == D.Committing(tp) && tp in sys.d.parts && sys.current == None
    ensures var t := Step(hash, sys, Deliver(D.CommitOffset)); var part := sys.d.parts[tp];
      && t.j == sys.j && t.current == None
      && t.d == sys.d.(stage := D.Idle, parts := sys.d.parts[tp := part.(committed := part.position)])
  {
  }

  /** A job on the command that was read, and the commit of the message. */
  function Handling(i: J.JobId, bytes: J.Bytes, effective: bool): seq<Action> {
    [Launch(i)] + Works(K.FullJob(i, bytes, effective)) + [Deliver(D.CommitOffset)]
  }

  /** The version is handed off and its message committed. */
  ghost predicate HandedOffBy(
      hash: J.Bytes -> J.Hash, sys: System, t: System, tp: D.TopicPartition, x: Uuid, v: nat, bytes: J.Bytes)
    requires x in sys.j.sources && tp in sys.d.parts
  {
    var kind := sys.j.sources[x].kind;
    var key := if kind == J.Url then J.SyncRaw(x, v) else J.UploadedObject(x);
    && t.j.documents == sys.j.documents + [J.Document(x, v, hash(bytes))]
    && t.j.events == sys.j.events + [J.ParseEvent(|sys.j.documents|, x, v, kind, key, hash(bytes))]
    && (kind == J.Url ==> key in t.j.store && t.j.store[key] == bytes)
    && Pair(x, v) in t.d.completed && t.d.deadLetters == sys.d.deadLetters && t.d.sources == sys.d.sources
    && t.d.outbox == sys.d.outbox && t.d.stage == D.Idle && t.current == None
    && tp in t.d.parts && t.d.parts[tp] == sys.d.parts[tp].(committed := sys.d.parts[tp].position)
  }

  lemma JobThenCommit(hash: J.Bytes -> J.Hash, sys: System, i: J.JobId, bytes: J.Bytes, steps: seq<Action>)
    requires Known(sys) && AtVersion(sys) && sys.d.stage.tp in sys.d.parts
    requires var t := Run(hash, sys, steps); var c := sys.d.stage.command; var kind := sys.j.sources[c.source].kind;
      && Accepted(sys, t)
      && K.HandsOff(sys.j.(store := K.StoredFor(sys.j, c.source, c.version, kind, bytes)), t.j, i, c.source,
                    c.version, kind, hash(bytes))
    ensures var c, t := sys.d.stage.command, Run(hash, sys, steps + [Deliver(D.CommitOffset)]);
      HandedOffBy(hash, sys, t, sys.d.stage.tp, c.source, c.version, bytes)
  {
    RunThen(hash, sys, steps, Deliver(D.CommitOffset));
    CommitEnds(hash, Run(hash, sys, steps), sys.d.stage.tp);
  }

  lemma MessageIsHandedOff(
      hash: J.Bytes -> J.Hash, sys: System, i: J.JobId, bytes: J.Bytes, effective: bool)
    requires Known(sys) && AtVersion(sys) && J.HandoffsOk(sys.j) && sys.current == None && i !in sys.j.jobs
    requires sys.d.stage.tp in sys.d.parts && sys.d.stage.command.version > 0
    requires var c := sys.d.stage.command;
      sys.j.sources[c.source].kind != J.Sitemap && K.NoDocument(sys.j, c.source, c.version)
    ensures var c := sys.d.stage.command;
      HandedOffBy(hash, sys, Run(hash, sys, Handling(i, bytes, effective)), sys.d.stage.tp, c.source, c.version, bytes)
  {
    var launched := Step(hash, sys, Launch(i));
    var steps := Works(K.FullJob(i, bytes, effective));
    LaunchAwaits(hash, sys, i);
    J.HandoffsFollow(sys.j, launched.j);
    JobIsAccepted(hash, launched, i, bytes, effective);
    JobThenCommit(hash, launched, i, bytes, steps);
    HandlingSplits(hash, sys, i, steps);
  }

  lemma {:induction false} HandlingSplits(hash: J.Bytes -> J.Hash, sys: System, i: J.JobId, steps: seq<Action>)
    ensures Run(hash, sys, [Launch(i)] + steps + [Deliver(D.CommitOffset)])
         == Run(hash, Step(hash, sys, Launch(i)), steps + [Deliver(D.CommitOffset)])
  {
    var rest := steps + [Deliver(D.CommitOffset)];
    assert [Launch(i)] + steps + [Deliver(D.CommitOffset)] == [Launch(i)] + rest;
    assert ([Launch(i)] + rest)[0] == Launch(i) && ([Launch(i)] + rest)[1..] == rest;
  }

  /** The consumer has read all of an unpaused partition and waits for no job, and the source may be
      synced. */
  ghost predicate Ready(sys: System, x: Uuid, tp: D.TopicPartition, i: J.JobId) {
    && sys.current == None && DP.Drained(sys.d, tp) && sys.d.batch == map[] && i !in sys.j.jobs
    && x in sys.j.sources && !sys.j.sources[x].disabled && sys.j.sources[x].kind != J.Sitemap
  }

  /** The request is read, and its new version has no document yet. */
  ghost predicate RequestRead(sys: System, read: System, x: Uuid, tp: D.TopicPartition)
    requires x in sys.j.sources && tp in sys.d.parts
  {
    var v := sys.j.sources[x].version + 1;
    && read.current == None && read.j == sys.j.(sources := sys.j.sources[x := sys.j.sources[x].(version := v)])
    && Known(read) && read.d.stage.tp == tp
    && read.d.stage.command.source == x && read.d.stage.command.version == v
    && tp in read.d.parts && |read.d.parts[tp].log| == |sys.d.parts[tp].log| + 1
    && read.d.parts[tp].position == |read.d.parts[tp].log|
    && |read.d.outbox| == |sys.d.outbox| + 1 && read.d.outbox[|sys.d.outbox|].status == D.Published
  }

  lemma RowsAreRead(sys: System, d: D.State, x: Uuid, tp: D.TopicPartition, i: J.JobId)
    requires SameRows(sys.d, sys.j) && Ready(sys, x, tp, i) && RequestRuns(sys.d, d, x, tp)
    ensures var row := sys.j.sources[x];
      RequestRead(sys, System(d, sys.j.(sources := sys.j.sources[x := row.(version := row.version + 1)]), None), x, tp)
  {
  }

  lemma RequestIsRead(
      hash: J.Bytes -> J.Hash, sys: System, x: Uuid, id: Uuid, requestId: Option<string>, generated: Uuid,
      tp: D.TopicPartition, nowMs: nat, i: J.JobId)
    requires SameRows(sys.d, sys.j) && D.Faithful(sys.d.codec) && Ready(sys, x, tp, i)
    ensures RequestRead(sys, System(ReadRequest(sys.d, x, id, requestId, generated, tp, nowMs),
                                    J.Step(hash, sys.j, J.StartSync(x)), None), x, tp)
  {
    RequestIsRunning(sys.d, x, id, requestId, generated, tp, nowMs);
    RowsAreRead(sys, ReadRequest(sys.d, x, id, requestId, generated, tp, nowMs), x, tp, i);
  }

  lemma ReadRequestIsHandedOff(
      hash: J.Bytes -> J.Hash, sys: System, read: System, x: Uuid, tp: D.TopicPartition, i: J.JobId,
      bytes: J.Bytes, effective: bool)
    requires J.HandoffsOk(sys.j) && K.Allocated(sys.j) && Ready(sys, x, tp, i) && RequestRead(sys, read, x, tp)
    ensures HandedOffBy(hash, read, Run(hash, read, Handling(i, bytes, effective)), tp, x,
                        sys.j.sources[x].version + 1, bytes)
  {
    J.HandoffsFollow(sys.j, read.j);
    K.NewVersionHasNoDocument(hash, sys.j, x);
    MessageIsHandedOff(hash, read, i, bytes, effective);
  }

  /** The good path, from any state in order: a request is published, read, worked on and committed,
      and its version has its document and its parse event. */
  lemma RequestIsHandedOff(
      hash: J.Bytes -> J.Hash, sys: System, x: Uuid, id: Uuid, requestId: Option<string>, generated: Uuid,
      tp: D.TopicPartition, nowMs: nat, i: J.JobId, bytes: J.Bytes, effective: bool)
    requires Inv(sys) && K.Allocated(sys.j) && D.Faithful(sys.d.codec) && Ready(sys, x, tp, i)
    ensures var read := Run(hash, sys, Receiving(x, id, requestId, generated, |sys.d.outbox|, tp, nowMs));
      && RequestRead(sys, read, x, tp)
      && HandedOffBy(hash, read, Run(hash, read, Handling(i, bytes, effective)), tp, x,
                     sys.j.sources[x].version + 1, bytes)
  {
    RequestIsRead(hash, sys, x, id, requestId, generated, tp, nowMs, i);
    ReceivingRuns(hash, sys, x, id, requestId, generated, tp, nowMs);
    var read := Run(hash, sys, Receiving(x, id, requestId, generated, |sys.d.outbox|, tp, nowMs));
    ReadRequestIsHandedOff(hash, sys, read, x, tp, i, bytes, effective);
  }

  /** Every reachable state is in order. */
  lemma {:induction false} ReachableIsInOrder(
      hash: J.Bytes -> J.Hash, sys: System, actions: seq<Action>)
    requires Inv(sys) && K.Allocated(sys.j) && D.Faithful(sys.d.codec)
    ensures var t := Run(hash, sys, actions); Inv(t) && K.Allocated(t.j) && D.Faithful(t.d.codec)
    decreases |actions|
  {
    if actions != [] {
      StepKeepsInv(hash, sys, actions[0]);
      StepKeepsAllocated(hash, sys, actions[0]);
      ReachableIsInOrder(hash, Step(hash, sys, actions[0]), actions[1..]);
    }
  }

  /** Every step of the system is at most one step of the jobs' side. */
  lemma StepKeepsAllocated(hash: J.Bytes -> J.Hash, sys: System, a: Action)
    requires K.Allocated(sys.j)
    ensures K.Allocated(Step(hash, sys, a).j)
  {
    match a
    case CreateSource(source, _, kind) => K.StepKeepsAllocated(hash, sys.j, J.CreateSource(source, kind));
    case SetDisabled(source, disabled) => K.StepKeepsAllocated(hash, sys.j, J.SetDisabled(source, disabled));
    case StartSync(source, _, _, _) => K.StepKeepsAllocated(hash, sys.j, J.StartSync(source));
    case Deliver(_) =>
    case Launch(job) => LaunchKeepsAllocated(hash, sys, job);
    case Work(step, _, _) => K.StepKeepsAllocated(hash, sys.j, step);
  }

  lemma LaunchKeepsAllocated(hash: J.Bytes -> J.Hash, sys: System, job: J.JobId)
    requires K.Allocated(sys.j)
    ensures K.Allocated(StepLaunch(hash, sys, job).j)
  {
    if sys.d.stage.Running? {
      K.StepKeepsAllocated(hash, sys.j, J.Begin(job, sys.d.stage.command.source, sys.d.stage.command.version));
    }
  }
}
