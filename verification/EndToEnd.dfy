/** Delivery and job together: the consumer runs the job step by step, its outcome is what the job's
    own steps make it, and a job whose consumer crashed may go on beside later ones. */
module EndToEnd {
  import opened Common
  import opened Wire
  import D = Delivery
  import DT = DeliveryTheorems
  import J = SyncJob

  /** `current` is the job whose answer the consumer waits for. */
  datatype System = System(d: D.State, j: J.State, current: Option<J.JobId>)

  datatype Action =
    | CreateSource(source: Uuid, tenant: Uuid, kind: J.Kind)
    | SetDisabled(source: Uuid, disabled: bool)
    | StartSync(source: Uuid, id: Uuid, requestId: Option<string>, generated: Uuid)
    | Deliver(delivery: D.Action)                              // publisher, broker and consumer
    | Launch(job: J.JobId)                                     // the consumer calls the job
    | Work(step: J.Action, error: D.JobError, retryable: bool) // a job takes a step

  // ---- what the job answers ----

  /** The answer under the checks on the source row, when it ends the job. */
  function RowAnswer(j: J.State, source: Uuid, version: nat): Option<D.JobOutcome> {
    if source !in j.sources then Some(D.JobFailed(D.SourceNotFound, false))
    else if j.sources[source].disabled then Some(D.JobFailed(D.SourceDisabled, false))
    else if version < j.sources[source].version then Some(D.NoopSuperseded)
    else if version > j.sources[source].version then Some(D.JobFailed(D.VersionAhead, false))
    else None
  }

  predicate OnJob(a: J.Action) {
    a.Load? || a.CheckHandoff? || a.Fetch? || a.Preflight? || a.PutRaw? || a.Persist? || a.End?
  }

  /** The version has a document of another content. */
  predicate Mismatch(hash: J.Bytes -> J.Hash, j: J.State, job: J.Job) {
    var existing := J.DocumentIndex(j.documents, job.source, job.version);
    && job.stage.RawStored? && existing.Some? && existing.value < |j.documents|
    && j.documents[existing.value].hash != hash(job.stage.bytes)
  }

  /** The result with which a step ends its job; a failed fetch, a database error and the end of a
      crashed job answer with the given error. */
  function Answer(hash: J.Bytes -> J.Hash, j: J.State, a: J.Action, error: D.JobError, retryable: bool): D.JobOutcome
    requires OnJob(a) && a.j in j.jobs
  {
    var job := j.jobs[a.j];
    var row := RowAnswer(j, job.source, job.version);
    match a
    case Load(_) => if row.Some? then row.value else D.JobFailed(D.TypeUnsupported, false)
    case CheckHandoff(_) => D.NoopReplayed
    case Preflight(_) => D.JobFailed(D.ReplayMismatch, false)
    case PutRaw(_, _, _) => D.JobFailed(D.ObjectUnavailable, true)
    case Persist(_) =>
      if row.Some? then row.value
      else if Mismatch(hash, j, job) then D.JobFailed(D.ReplayMismatch, false)
      else D.HandedOff
    case _ => D.JobFailed(error, retryable)
  }

  // ---- steps ----

  /** The consumer waits no longer once its stage has changed. */
  function StillWaiting(sys: System, d: D.State): Option<J.JobId> {
    if d.stage == sys.d.stage then sys.current else None
  }

  /** Actions of the delivery that neither touch source rows from outside nor answer for the job. */
  predicate OfDelivery(a: D.Action) {
    !a.CreateSource? && !a.SetDisabled? && !a.StartSync? && !a.JobReturns?
  }

  function StepLaunch(hash: J.Bytes -> J.Hash, sys: System, job: J.JobId): System {
    if !sys.d.stage.Running? || sys.current.Some? || job in sys.j.jobs || sys.d.stage.command.version == 0 then sys
    else
      var c := sys.d.stage.command;
      System(sys.d, J.Step(hash, sys.j, J.Begin(job, c.source, c.version)), Some(job))
  }

  /** A step of any job; when it ends the one the consumer waits for, the consumer has its answer. */
  function StepWork(hash: J.Bytes -> J.Hash, sys: System, a: J.Action, error: D.JobError, retryable: bool): System {
    if !OnJob(a) || a.j !in sys.j.jobs || error == D.VersionAhead then sys
    else
      var j := J.Step(hash, sys.j, a);
      if sys.current == Some(a.j) && a.j !in j.jobs then
        System(D.StepJobReturns(sys.d, Answer(hash, sys.j, a, error, retryable)), j, None)
      else System(sys.d, j, sys.current)
  }

  function Step(hash: J.Bytes -> J.Hash, sys: System, a: Action): System {
    match a
    case CreateSource(source, tenant, kind) =>
      sys.(d := D.Step(sys.d, D.CreateSource(source, tenant)), j := J.Step(hash, sys.j, J.CreateSource(source, kind)))
    case SetDisabled(source, disabled) =>
      sys.(d := D.StepSetDisabled(sys.d, source, disabled), j := J.Step(hash, sys.j, J.SetDisabled(source, disabled)))
    case StartSync(source, id, requestId, generated) =>
      sys.(d := D.StepStartSync(sys.d, source, id, requestId, generated), j := J.Step(hash, sys.j, J.StartSync(source)))
    case Deliver(delivery) =>
      if !OfDelivery(delivery) then sys
      else System(D.Step(sys.d, delivery), sys.j, StillWaiting(sys, D.Step(sys.d, delivery)))
    case Launch(job) => StepLaunch(hash, sys, job)
    case Work(step, error, retryable) => StepWork(hash, sys, step, error, retryable)
  }

  function Run(hash: J.Bytes -> J.Hash, sys: System, actions: seq<Action>): System
    decreases |actions|
  {
    if actions == [] then sys else Run(hash, Step(hash, sys, actions[0]), actions[1..])
  }

  function Initial(tps: set<D.TopicPartition>): System {
    System(D.Initial(D.WireCodec(), tps), J.Initial(), None)
  }

  // ---- the invariant ----

  /** Both sides see the same source rows. */
  ghost predicate SameRows(d: D.State, j: J.State) {
    && d.sources.Keys == j.sources.Keys
    && (forall x :: x in d.sources ==> d.sources[x].version == j.sources[x].version)
    && (forall x :: x in d.sources ==> (d.sources[x].status == D.Disabled <==> j.sources[x].disabled))
  }

  /** The awaited job works on the command that the consumer is running. */
  ghost predicate Linked(sys: System) {
    sys.current.Some? ==>
      && sys.d.stage.Running? && sys.current.value in sys.j.jobs
      && sys.j.jobs[sys.current.value].source == sys.d.stage.command.source
      && sys.j.jobs[sys.current.value].version == sys.d.stage.command.version
  }

  ghost predicate Inv(sys: System) {
    && DT.Inv(sys.d) && J.Inv(sys.j) && SameRows(sys.d, sys.j) && Linked(sys)
    && sys.d.completed <= sys.j.completed
  }

  // ---- the job's answers are what the delivery allows ----

  /** What a step that ends a job, and its answer, must do. */
  ghost predicate Answers(d: D.State, j: J.State, t: J.State, c: Command, o: D.JobOutcome) {
    && D.JobAllows(d, c, o)
    && t.completed == j.completed + if o.JobFailed? then {} else {Pair(c.source, c.version)}
  }

  ghost predicate Runs(sys: System, i: J.JobId) {
    Inv(sys) && sys.current == Some(i)
  }

  lemma LoadAnswers(hash: J.Bytes -> J.Hash, sys: System, i: J.JobId, error: D.JobError, retryable: bool)
    requires Runs(sys, i) && i !in J.StepLoad(sys.j, i).jobs
    ensures Answers(sys.d, sys.j, J.StepLoad(sys.j, i), sys.d.stage.command,
                    Answer(hash, sys.j, J.Load(i), error, retryable))
  {
    DT.RunningIsAllocated(sys.d);
  }

  lemma PersistAnswers(hash: J.Bytes -> J.Hash, sys: System, i: J.JobId, error: D.JobError, retryable: bool)
    requires Runs(sys, i) && i !in J.StepPersist(hash, sys.j, i).jobs
    ensures Answers(sys.d, sys.j, J.StepPersist(hash, sys.j, i), sys.d.stage.command,
                    Answer(hash, sys.j, J.Persist(i), error, retryable))
  {
    DT.RunningIsAllocated(sys.d);
  }

  lemma CheckAnswers(hash: J.Bytes -> J.Hash, sys: System, i: J.JobId, error: D.JobError, retryable: bool)
    requires Runs(sys, i) && i !in J.StepCheck(sys.j, i).jobs
    ensures Answers(sys.d, sys.j, J.StepCheck(sys.j, i), sys.d.stage.command,
                    Answer(hash, sys.j, J.CheckHandoff(i), error, retryable))
  {
    DT.RunningIsAllocated(sys.d);
  }

  /** The steps that can only fail. */
  lemma FailureAnswers(hash: J.Bytes -> J.Hash, sys: System, a: J.Action, error: D.JobError, retryable: bool)
    requires a.Fetch? || a.Preflight? || a.PutRaw? || a.End?
    requires sys.d.stage.Running? && a.j in sys.j.jobs && error != D.VersionAhead
    ensures Answers(sys.d, sys.j, J.Step(hash, sys.j, a), sys.d.stage.command, Answer(hash, sys.j, a, error, retryable))
  {
  }

  /** Whenever a step ends the awaited job, the delivery allows the answer it stands for; and the
      version counts as completed exactly when that answer is a completion. */
  lemma AnswerIsAllowed(hash: J.Bytes -> J.Hash, sys: System, a: J.Action, error: D.JobError, retryable: bool)
    requires Inv(sys) && OnJob(a) && sys.current == Some(a.j) && a.j !in J.Step(hash, sys.j, a).jobs
    requires error != D.VersionAhead
    ensures var c, o := sys.d.stage.command, Answer(hash, sys.j, a, error, retryable);
      && D.JobAllows(sys.d, c, o)
      && J.Step(hash, sys.j, a).completed
         == sys.j.completed + if o.JobFailed? then {} else {Pair(c.source, c.version)}
  {
    match a
    case Load(i) => LoadAnswers(hash, sys, i, error, retryable);
    case Persist(i) => PersistAnswers(hash, sys, i, error, retryable);
    case CheckHandoff(i) => CheckAnswers(hash, sys, i, error, retryable);
    case _ => FailureAnswers(hash, sys, a, error, retryable);
  }

  // ---- every step keeps the invariant ----

  lemma CreateKeeps(hash: J.Bytes -> J.Hash, sys: System, source: Uuid, tenant: Uuid, kind: J.Kind)
    requires Inv(sys)
    ensures Inv(Step(hash, sys, CreateSource(source, tenant, kind)))
  {
    J.StepKeepsInv(hash, sys.j, J.CreateSource(source, kind));
    if source !in sys.d.sources { DT.CreateSourceKeeps(sys.d, source, tenant); }
  }

  lemma DisableKeeps(hash: J.Bytes -> J.Hash, sys: System, source: Uuid, disabled: bool)
    requires Inv(sys)
    ensures Inv(Step(hash, sys, SetDisabled(source, disabled)))
  {
    DT.SetDisabledKeeps(sys.d, source, disabled);
    J.StepKeepsInv(hash, sys.j, J.SetDisabled(source, disabled));
  }

  lemma SyncKeeps(
      hash: J.Bytes -> J.Hash, sys: System, source: Uuid, id: Uuid, requestId: Option<string>, generated: Uuid)
    requires Inv(sys)
    ensures Inv(Step(hash, sys, StartSync(source, id, requestId, generated)))
  {
    DT.StartSyncKeeps(sys.d, source, id, requestId, generated);
    J.StepKeepsInv(hash, sys.j, J.StartSync(source));
  }

  /** The delivery's own steps leave versions and disabled flags alone. */
  ghost predicate RowsStay(d: D.State, t: D.State) {
    && t.codec == d.codec && t.completed == d.completed && t.sources.Keys == d.sources.Keys
    && forall x :: x in d.sources ==>
      && t.sources[x].version == d.sources[x].version
      && (t.sources[x].status == D.Disabled <==> d.sources[x].status == D.Disabled)
  }

  lemma MarkLeavesRows(d: D.State, ok: bool, nowMs: nat)
    ensures RowsStay(d, D.StepMark(d, ok, nowMs))
  {
    DT.MarkKeepsCodec(d, ok, nowMs);
  }

  lemma DeliveryLeavesRows(d: D.State, a: D.Action)
    requires OfDelivery(a)
    ensures RowsStay(d, D.Step(d, a))
  {
    if a.MarkSourceFailed? { MarkLeavesRows(d, a.ok, a.nowMs); } else { DT.OffRowsIsFramed(d, a); }
  }

  lemma DeliverKeeps(hash: J.Bytes -> J.Hash, sys: System, a: D.Action)
    requires Inv(sys) && D.Faithful(sys.d.codec)
    ensures Inv(Step(hash, sys, Deliver(a))) && Step(hash, sys, Deliver(a)).d.codec == sys.d.codec
  {
    if OfDelivery(a) {
      DT.StepKeepsInv(sys.d, a);
      DeliveryLeavesRows(sys.d, a);
    }
  }

  /** Job steps leave the source rows and other jobs alone, and only add completions. */
  ghost predicate OnlyJob(j: J.State, t: J.State, i: J.JobId) {
    && t.sources == j.sources && j.completed <= t.completed
    && (forall k :: k in j.jobs && k != i ==> k in t.jobs && t.jobs[k] == j.jobs[k])
    && (i in t.jobs ==> i in j.jobs)
    && (i in t.jobs ==> t.jobs[i].source == j.jobs[i].source && t.jobs[i].version == j.jobs[i].version)
  }

  lemma ReadsTouchOnlyJob(hash: J.Bytes -> J.Hash, j: J.State, i: J.JobId, bytes: J.Bytes)
    ensures OnlyJob(j, J.StepLoad(j, i), i) && OnlyJob(j, J.StepCheck(j, i), i)
    ensures OnlyJob(j, J.StepFetch(j, i, bytes), i) && OnlyJob(j, J.StepPreflight(hash, j, i), i)
  {
  }

  lemma WritesTouchOnlyJob(hash: J.Bytes -> J.Hash, j: J.State, i: J.JobId, ok: bool, effective: bool)
    ensures OnlyJob(j, J.StepPut(j, i, ok, effective), i) && OnlyJob(j, J.StepPersist(hash, j, i), i)
    ensures OnlyJob(j, J.Ended(j, i), i)
  {
  }

  lemma WorkTouchesOnlyJob(hash: J.Bytes -> J.Hash, j: J.State, a: J.Action)
    requires OnJob(a)
    ensures OnlyJob(j, J.Step(hash, j, a), a.j)
  {
    ReadsTouchOnlyJob(hash, j, a.j, if a.Fetch? then a.bytes else []);
    WritesTouchOnlyJob(hash, j, a.j, a.PutRaw? && a.ok, a.PutRaw? && a.effective);
  }

  lemma WorkKeeps(hash: J.Bytes -> J.Hash, sys: System, a: J.Action, error: D.JobError, retryable: bool)
    requires Inv(sys)
    ensures Inv(StepWork(hash, sys, a, error, retryable))
    ensures StepWork(hash, sys, a, error, retryable).d.codec == sys.d.codec
  {
    if OnJob(a) && a.j in sys.j.jobs && error != D.VersionAhead {
      J.StepKeepsInv(hash, sys.j, a);
      WorkTouchesOnlyJob(hash, sys.j, a);
      if sys.current == Some(a.j) && a.j !in J.Step(hash, sys.j, a).jobs {
        AnswerIsAllowed(hash, sys, a, error, retryable);
        DT.JobReturnsKeeps(sys.d, Answer(hash, sys.j, a, error, retryable));
      }
    }
  }

  lemma LaunchKeeps(hash: J.Bytes -> J.Hash, sys: System, job: J.JobId)
    requires Inv(sys)
    ensures Inv(StepLaunch(hash, sys, job)) && StepLaunch(hash, sys, job).d == sys.d
  {
    if StepLaunch(hash, sys, job) != sys {
      var c := sys.d.stage.command;
      J.StepKeepsInv(hash, sys.j, J.Begin(job, c.source, c.version));
    }
  }

  lemma StepKeepsInv(hash: J.Bytes -> J.Hash, sys: System, a: Action)
    requires Inv(sys) && D.Faithful(sys.d.codec)
    ensures Inv(Step(hash, sys, a)) && Step(hash, sys, a).d.codec == sys.d.codec
  {
    match a
    case Deliver(delivery) => DeliverKeeps(hash, sys, delivery);
    case Launch(job) => LaunchKeeps(hash, sys, job);
    case Work(step, error, retryable) => WorkKeeps(hash, sys, step, error, retryable);
    case CreateSource(source, tenant, kind) => CreateKeeps(hash, sys, source, tenant, kind);
    case SetDisabled(source, disabled) => DisableKeeps(hash, sys, source, disabled);
    case StartSync(source, id, requestId, generated) => SyncKeeps(hash, sys, source, id, requestId, generated);
  }

  lemma {:induction false} RunKeepsInv(hash: J.Bytes -> J.Hash, sys: System, actions: seq<Action>)
    requires Inv(sys) && D.Faithful(sys.d.codec)
    ensures Inv(Run(hash, sys, actions)) && Run(hash, sys, actions).d.codec == sys.d.codec
    decreases |actions|
  {
    if actions != [] {
      StepKeepsInv(hash, sys, actions[0]);
      RunKeepsInv(hash, Step(hash, sys, actions[0]), actions[1..]);
    }
  }

  // ---- the theorem ----

  /** An uncommitted copy in the sync or the retry topic. */
  ghost predicate HasCopy(d: D.State, p: Pair) {
    exists tp, o: nat :: DT.CopyAt(d.codec, d.parts, tp, o, p)
  }

  /** The version has its document, and the document its parse event. */
  ghost predicate HandedOff(j: J.State, p: Pair) {
    exists i: nat :: i < |j.documents| && j.documents[i].source == p.source && j.documents[i].version == p.version
      && J.EventExists(j.events, i)
  }

  lemma CompletedIsHandedOff(j: J.State, p: Pair)
    requires J.Inv(j) && p in j.completed
    ensures HandedOff(j, p) || (p.source in j.sources && p.version < j.sources[p.source].version)
  {
    assert J.Settled(j, p);
    if !(p.source in j.sources && p.version < j.sources[p.source].version) {
      var i: nat :| i < |j.documents| && j.documents[i].source == p.source && j.documents[i].version == p.version;
      assert J.EventExists(j.events, i);
    }
  }

  /** From request to handoff: in every reachable state of API, publisher, broker, consumer and jobs,
      each version ever allocated is pending in the outbox, has an uncommitted copy in a topic or a
      dead letter, was superseded by a newer version, or has its document and parse event. */
  lemma EveryVersionIsAccountedFor(
      hash: J.Bytes -> J.Hash, tps: set<D.TopicPartition>, actions: seq<Action>, p: Pair)
    requires p.source in Run(hash, Initial(tps), actions).d.sources
    requires 1 <= p.version <= Run(hash, Initial(tps), actions).d.sources[p.source].version
    ensures var sys := Run(hash, Initial(tps), actions);
      || DT.PendingInOutbox(sys.d, p) || HasCopy(sys.d, p) || DT.DeadLettered(sys.d, p)
      || p.version < sys.d.sources[p.source].version
      || HandedOff(sys.j, p)
  {
    D.WireCodecIsFaithful();
    RunKeepsInv(hash, Initial(tps), actions);
    var sys := Run(hash, Initial(tps), actions);
    DT.VersionIsAccountedFor(sys.d, p);
    if p in sys.d.completed { CompletedIsHandedOff(sys.j, p); }
  }
}
