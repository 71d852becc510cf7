/** The bytes behind the parse events: when they hash to what the event says. */
module RawBytes {
  import opened Common
  import opened Wire
  import opened SyncJob

  /** The bytes at a URL parse event's key hash to its content hash. */
  predicate RawMatches(hash: Bytes -> Hash, s: State, e: ParseEvent) {
    e.kind == Url ==> e.key in s.store && hash(s.store[e.key]) == e.hash
  }

  ghost predicate RawOk(hash: Bytes -> Hash, s: State) {
    forall k :: 0 <= k < |s.events| ==> RawMatches(hash, s, s.events[k])
  }

  // ---- exactly which steps keep it ----

  /** A PUT that takes effect, of the bytes of a URL version. */
  predicate Writes(s: State, j: JobId, ok: bool, effective: bool) {
    j in s.jobs && s.jobs[j].stage.Preflighted? && s.jobs[j].stage.kind == Url && (ok || effective)
  }

  /** No URL event of the version was committed with another hash. */
  predicate AgreesWithEvents(s: State, source: Uuid, version: nat, h: Hash) {
    forall k :: 0 <= k < |s.events| && IsUrlEventOf(s.events[k], source, version) ==> s.events[k].hash == h
  }

  predicate IsUrlEventOf(e: ParseEvent, source: Uuid, version: nat) {
    e.kind == Url && e.source == source && e.version == version
  }

  /** A persist transaction that commits the first document of a URL version. */
  predicate HandsOffUrl(s: State, j: JobId) {
    && j in s.jobs && s.jobs[j].stage.RawStored? && s.jobs[j].stage.kind == Url
    && s.jobs[j].source in s.sources && !s.sources[s.jobs[j].source].disabled
    && s.jobs[j].version == s.sources[s.jobs[j].source].version
    && DocumentIndex(s.documents, s.jobs[j].source, s.jobs[j].version).None?
  }

  /** The key of the job's version still holds bytes of the job's hash. */
  predicate BytesInPlace(hash: Bytes -> Hash, s: State, job: Job)
    requires job.stage.RawStored?
  {
    var key := SyncRaw(job.source, job.version);
    key in s.store && hash(s.store[key]) == hash(job.stage.bytes)
  }

  /** What an action must meet: a PUT must agree with the events that exist, a handoff with the bytes
      that are stored. */
  predicate Harmless(hash: Bytes -> Hash, s: State, a: Action) {
    match a
    case PutRaw(j, ok, effective) =>
      Writes(s, j, ok, effective) ==>
        AgreesWithEvents(s, s.jobs[j].source, s.jobs[j].version, hash(s.jobs[j].stage.bytes))
    case Persist(j) => HandsOffUrl(s, j) ==> BytesInPlace(hash, s, s.jobs[j])
    case _ => true
  }

  lemma PutKeepsIff(hash: Bytes -> Hash, s: State, j: JobId, ok: bool, effective: bool)
    requires RawOk(hash, s) && HandoffsOk(s)
    ensures RawOk(hash, StepPut(s, j, ok, effective)) <==> Harmless(hash, s, PutRaw(j, ok, effective))
  {
    var t := StepPut(s, j, ok, effective);
    forall k | 0 <= k < |s.events|
      ensures RawMatches(hash, t, t.events[k]) <==>
        (Writes(s, j, ok, effective) && IsUrlEventOf(s.events[k], s.jobs[j].source, s.jobs[j].version)
         ==> s.events[k].hash == hash(s.jobs[j].stage.bytes))
    {
      assert RawMatches(hash, s, s.events[k]) && EventOk(s, s.events[k]);
      PutChangesOneKey(s, j, ok, effective, s.events[k].key);
    }
  }

  lemma PutChangesOneKey(s: State, j: JobId, ok: bool, effective: bool, key: RawKey)
    ensures var t := StepPut(s, j, ok, effective);
      && t.events == s.events
      && if Writes(s, j, ok, effective) && key == SyncRaw(s.jobs[j].source, s.jobs[j].version)
         then key in t.store && t.store[key] == s.jobs[j].stage.bytes
         else (key in t.store <==> key in s.store) && (key in s.store ==> t.store[key] == s.store[key])
  {
  }

  /** A handoff appends its own event; any other persist transaction appends no URL event. */
  lemma PersistAppends(hash: Bytes -> Hash, s: State, j: JobId)
    requires HandoffsOk(s)
    ensures var t := StepPersist(hash, s, j);
      if HandsOffUrl(s, j) then
        var job := s.jobs[j];
        var h := hash(job.stage.bytes);
        t.events == s.events
          + [ParseEvent(|s.documents|, job.source, job.version, Url, SyncRaw(job.source, job.version), h)]
      else
        || t.events == s.events
        || (|t.events| == |s.events| + 1 && t.events[..|s.events|] == s.events && t.events[|s.events|].kind != Url)
  {
    if j in s.jobs && s.jobs[j].stage.RawStored? {
      var Job(source, version, stage) := s.jobs[j];
      DocumentIndexFinds(s.documents, source, version);
      if DocumentIndex(s.documents, source, version).None? {
        forall k | 0 <= k < |s.events| ensures s.events[k].document != |s.documents| { assert EventOk(s, s.events[k]); }
      } else {
        assert EventExists(s.events, DocumentIndex(s.documents, source, version).value);
      }
    }
  }

  lemma PersistKeepsIff(hash: Bytes -> Hash, s: State, j: JobId)
    requires RawOk(hash, s) && HandoffsOk(s)
    ensures RawOk(hash, StepPersist(hash, s, j)) <==> Harmless(hash, s, Persist(j))
  {
    var t := StepPersist(hash, s, j);
    PersistAppends(hash, s, j);
    var n := |s.events|;
    assert t.store == s.store;
    assert forall k :: 0 <= k < n ==> t.events[k] == s.events[k] && RawMatches(hash, t, t.events[k]);
    assert HandsOffUrl(s, j) ==> (RawMatches(hash, t, t.events[n]) <==> BytesInPlace(hash, s, s.jobs[j]));
  }

  lemma OthersKeep(hash: Bytes -> Hash, s: State, a: Action)
    requires RawOk(hash, s) && !a.PutRaw? && !a.Persist?
    ensures RawOk(hash, Step(hash, s, a))
  {
    var t := Step(hash, s, a);
    assert t.events == s.events && t.store == s.store;
    forall k | 0 <= k < |t.events| ensures RawMatches(hash, t, t.events[k]) { assert RawMatches(hash, s, s.events[k]); }
  }

  /** Exactly the harmless actions keep the bytes behind every event. */
  lemma StepKeepsRawIff(hash: Bytes -> Hash, s: State, a: Action)
    requires RawOk(hash, s) && HandoffsOk(s)
    ensures RawOk(hash, Step(hash, s, a)) <==> Harmless(hash, s, a)
  {
    match a
    case PutRaw(j, ok, effective) => PutKeepsIff(hash, s, j, ok, effective);
    case Persist(j) => PersistKeepsIff(hash, s, j);
    case _ => OthersKeep(hash, s, a);
  }

  /** The bytes match before and after every step of a run. */
  ghost predicate RawThroughout(hash: Bytes -> Hash, s: State, actions: seq<Action>)
    decreases |actions|
  {
    RawOk(hash, s) && (actions == [] || RawThroughout(hash, Step(hash, s, actions[0]), actions[1..]))
  }

  ghost predicate HarmlessThroughout(hash: Bytes -> Hash, s: State, actions: seq<Action>)
    decreases |actions|
  {
    actions == []
    || (Harmless(hash, s, actions[0]) && HarmlessThroughout(hash, Step(hash, s, actions[0]), actions[1..]))
  }

  lemma {:induction false} RunKeepsRawIff(hash: Bytes -> Hash, s: State, actions: seq<Action>)
    requires RawOk(hash, s) && Inv(s)
    ensures RawThroughout(hash, s, actions) <==> HarmlessThroughout(hash, s, actions)
    decreases |actions|
  {
    if actions != [] {
      var t := Step(hash, s, actions[0]);
      StepKeepsRawIff(hash, s, actions[0]);
      StepKeepsInv(hash, s, actions[0]);
      if RawOk(hash, t) { RunKeepsRawIff(hash, t, actions[1..]); }
    }
  }

  /** Over every run of any number of deliveries, the bytes at each URL parse event's key hash to its
      content hash all along if and only if every PUT agrees with the events committed before it and
      every handoff finds its own bytes in place. */
  lemma RawBytesMatchIff(hash: Bytes -> Hash, actions: seq<Action>)
    ensures RawThroughout(hash, Initial(), actions) <==> HarmlessThroughout(hash, Initial(), actions)
  {
    RunKeepsRawIff(hash, Initial(), actions);
  }

  // ---- one delivery at a time ----

  predicate NoEventFor(s: State, source: Uuid, version: nat) {
    forall k :: 0 <= k < |s.events| ==> s.events[k].source != source || s.events[k].version != version
  }

  /** Past its handoff check, the only delivery at work knows that its version has no event. */
  predicate JobOk(s: State, job: Job) {
    && (!job.stage.Begun? && !job.stage.Loaded? ==> NoEventFor(s, job.source, job.version))
    && (job.stage.RawStored? && job.stage.kind == Url ==>
          SyncRaw(job.source, job.version) in s.store && s.store[SyncRaw(job.source, job.version)] == job.stage.bytes)
  }

  ghost predicate SerialInv(hash: Bytes -> Hash, s: State) {
    RawOk(hash, s) && HandoffsOk(s) && JobsOk(s)
  }

  /** A run in which a delivery begins only when none is at work. */
  ghost predicate Serial(hash: Bytes -> Hash, s: State, actions: seq<Action>)
    decreases |actions|
  {
    actions == [] || ((actions[0].Begin? ==> s.jobs == map[]) && Serial(hash, Step(hash, s, actions[0]), actions[1..]))
  }

  lemma CheckKeepsSerial(hash: Bytes -> Hash, s: State, j: JobId)
    requires SerialInv(hash, s)
    ensures SerialInv(hash, StepCheck(s, j))
  {
    if j in s.jobs && s.jobs[j].stage.Loaded? {
      var Job(source, version, stage) := s.jobs[j];
      DocumentIndexFinds(s.documents, source, version);
      var d := DocumentIndex(s.documents, source, version);
      var t := StepCheck(s, j);
      HandoffsFollow(s, t);
      if !(d.Some? && EventExists(s.events, d.value)) {
        forall k | 0 <= k < |s.events| ensures s.events[k].source != source || s.events[k].version != version {
          assert EventOk(s, s.events[k]);
        }
      }
      assert forall k :: 0 <= k < |s.events| ==> RawMatches(hash, s, s.events[k]);
    }
  }

  lemma PutKeepsSerial(hash: Bytes -> Hash, s: State, j: JobId, ok: bool, effective: bool)
    requires SerialInv(hash, s)
    ensures SerialInv(hash, StepPut(s, j, ok, effective))
  {
    if j in s.jobs && s.jobs[j].stage.Preflighted? {
      var t := StepPut(s, j, ok, effective);
      HandoffsFollow(s, t);
      forall k | 0 <= k < |t.events| ensures RawMatches(hash, t, t.events[k]) {
        assert RawMatches(hash, s, s.events[k]) && EventOk(s, s.events[k]);
      }
    }
  }

  lemma PersistKeepsSerial(hash: Bytes -> Hash, s: State, j: JobId)
    requires SerialInv(hash, s) && Inv(s)
    ensures SerialInv(hash, StepPersist(hash, s, j))
  {
    if j in s.jobs && s.jobs[j].stage.RawStored? {
      var t := StepPersist(hash, s, j);
      assert JobOk(s, s.jobs[j]);
      PersistKeepsHandoffs(hash, s, j);
      assert t.jobs == map[];
      forall k | 0 <= k < |t.events| ensures RawMatches(hash, t, t.events[k]) {
        if k < |s.events| { assert RawMatches(hash, s, s.events[k]); }
      }
    }
  }

  /** The parts of the serial invariant that speak of jobs. */
  ghost predicate JobsOk(s: State) {
    (forall i, j :: i in s.jobs && j in s.jobs ==> i == j) && forall j :: j in s.jobs ==> JobOk(s, s.jobs[j])
  }

  predicate Reads(a: Action) {
    a.Load? || a.Fetch? || a.Preflight? || a.End?
  }

  lemma ReadsKeepJobs(hash: Bytes -> Hash, s: State, a: Action)
    requires JobsOk(s) && Reads(a)
    ensures JobsOk(Step(hash, s, a))
  {
  }

  lemma RowStepsKeepJobs(hash: Bytes -> Hash, s: State, a: Action)
    requires JobsOk(s) && (a.CreateSource? || a.SetDisabled? || a.StartSync? || (a.Begin? && s.jobs == map[]))
    ensures JobsOk(Step(hash, s, a))
  {
  }

  lemma OtherStepsKeepSerial(hash: Bytes -> Hash, s: State, a: Action)
    requires SerialInv(hash, s) && (a.Begin? ==> s.jobs == map[])
    requires !a.CheckHandoff? && !a.PutRaw? && !a.Persist?
    ensures SerialInv(hash, Step(hash, s, a))
  {
    OthersKeep(hash, s, a);
    HandoffsFollow(s, Step(hash, s, a));
    if Reads(a) { ReadsKeepJobs(hash, s, a); } else { RowStepsKeepJobs(hash, s, a); }
  }

  lemma {:induction false} SerialRunKeeps(hash: Bytes -> Hash, s: State, actions: seq<Action>)
    requires SerialInv(hash, s) && Inv(s) && Serial(hash, s, actions)
    ensures SerialInv(hash, Run(hash, s, actions))
    decreases |actions|
  {
    if actions != [] {
      var a := actions[0];
      match a {
        case CheckHandoff(j) => CheckKeepsSerial(hash, s, j);
        case PutRaw(j, ok, effective) => PutKeepsSerial(hash, s, j, ok, effective);
        case Persist(j) => PersistKeepsSerial(hash, s, j);
        case _ => OtherStepsKeepSerial(hash, s, a);
      }
      StepKeepsInv(hash, s, a);
      SerialRunKeeps(hash, Step(hash, s, a), actions[1..]);
    }
  }

  /** In a serial consumer the bytes at every URL parse event's raw key hash to its content hash,
      in every reachable state. */
  lemma RawBytesMatchWhenSerial(hash: Bytes -> Hash, actions: seq<Action>)
    requires Serial(hash, Initial(), actions)
    ensures RawOk(hash, Run(hash, Initial(), actions))
  {
    SerialRunKeeps(hash, Initial(), actions);
  }
}
