/** Events, documents and stored bytes agree with the kind of their source, and a job that is let finish
    hands its version off. */
module SyncKinds {
  import opened Common
  import opened Wire
  import opened SyncJob

  // ---- kinds ----

  predicate HasKind(s: State, source: Uuid, kind: Kind) {
    source in s.sources && s.sources[source].kind == kind
  }

  /** A job that has loaded its source knows the source's kind, which is not a sitemap. */
  predicate JobKnowsKind(s: State, job: Job) {
    !job.stage.Begun? ==> HasKind(s, job.source, job.stage.kind) && job.stage.kind != Sitemap
  }

  ghost predicate KindsOk(s: State) {
    && (forall k :: 0 <= k < |s.events| ==> HasKind(s, s.events[k].source, s.events[k].kind))
    && (forall i :: 0 <= i < |s.documents| ==>
          s.documents[i].source in s.sources && s.sources[s.documents[i].source].kind != Sitemap)
    && (forall key :: key in s.store ==> key.SyncRaw? && HasKind(s, key.source, Url))
    && (forall j :: j in s.jobs ==> JobKnowsKind(s, s.jobs[j]))
  }

  /** Kinds are fixed when a source is created. */
  ghost predicate SameKinds(s: State, t: State) {
    forall x :: x in s.sources ==> x in t.sources && t.sources[x].kind == s.sources[x].kind
  }

  lemma RowStepsKeepKinds(hash: Bytes -> Hash, s: State, a: Action)
    requires KindsOk(s) && (a.CreateSource? || a.SetDisabled? || a.StartSync?)
    ensures KindsOk(Step(hash, s, a))
  {
    var t := Step(hash, s, a);
    assert SameKinds(s, t) && t == s.(sources := t.sources);
    forall j | j in t.jobs ensures JobKnowsKind(t, t.jobs[j]) { assert JobKnowsKind(s, s.jobs[j]); }
  }

  lemma JobsComeAndGo(hash: Bytes -> Hash, s: State, a: Action)
    requires KindsOk(s) && (a.Begin? || a.End?)
    ensures KindsOk(Step(hash, s, a))
  {
    var t := Step(hash, s, a);
    forall j | j in t.jobs ensures JobKnowsKind(t, t.jobs[j]) { assert j in s.jobs ==> JobKnowsKind(s, s.jobs[j]); }
  }

  lemma LoadKeepsKinds(s: State, j: JobId)
    requires KindsOk(s)
    ensures KindsOk(StepLoad(s, j))
  {
    var t := StepLoad(s, j);
    forall i | i in t.jobs ensures JobKnowsKind(t, t.jobs[i]) { assert JobKnowsKind(s, s.jobs[i]); }
  }

  lemma ReadsKeepKinds(hash: Bytes -> Hash, s: State, j: JobId, bytes: Bytes)
    requires KindsOk(s)
    ensures KindsOk(StepCheck(s, j)) && KindsOk(StepFetch(s, j, bytes)) && KindsOk(StepPreflight(hash, s, j))
  {
    assert j in s.jobs ==> JobKnowsKind(s, s.jobs[j]);
  }

  lemma PutKeepsKinds(s: State, j: JobId, ok: bool, effective: bool)
    requires KindsOk(s)
    ensures KindsOk(StepPut(s, j, ok, effective))
  {
    assert j in s.jobs ==> JobKnowsKind(s, s.jobs[j]);
  }

  /** What persisting may add: a document of the job's source, and an event of the job's kind. */
  lemma PersistAdds(hash: Bytes -> Hash, s: State, j: JobId)
    ensures var t := StepPersist(hash, s, j);
      && t.sources == s.sources && t.store == s.store && t.jobs.Keys <= s.jobs.Keys
      && (forall i :: i in t.jobs ==> t.jobs[i] == s.jobs[i])
      && (t.documents == s.documents
          || (j in s.jobs && t.documents == s.documents + [t.documents[|s.documents|]]
              && t.documents[|s.documents|].source == s.jobs[j].source))
      && (t.events == s.events
          || (j in s.jobs && s.jobs[j].stage.RawStored? && t.events == s.events + [t.events[|s.events|]]
              && t.events[|s.events|].source == s.jobs[j].source && t.events[|s.events|].kind == s.jobs[j].stage.kind))
      && (t != s ==> j in s.jobs && s.jobs[j].stage.RawStored?)
  {
  }

  lemma PersistKeepsKinds(hash: Bytes -> Hash, s: State, j: JobId)
    requires KindsOk(s)
    ensures KindsOk(StepPersist(hash, s, j))
  {
    var t := StepPersist(hash, s, j);
    PersistAdds(hash, s, j);
    assert j in s.jobs ==> JobKnowsKind(s, s.jobs[j]);
    forall k | 0 <= k < |t.events| ensures HasKind(t, t.events[k].source, t.events[k].kind) {
      assert k < |s.events| ==> HasKind(s, s.events[k].source, s.events[k].kind);
    }
    forall i | i in t.jobs ensures JobKnowsKind(t, t.jobs[i]) { assert JobKnowsKind(s, s.jobs[i]); }
  }

  lemma StepKeepsKinds(hash: Bytes -> Hash, s: State, a: Action)
    requires KindsOk(s)
    ensures KindsOk(Step(hash, s, a))
  {
    match a
    case Load(j) => LoadKeepsKinds(s, j);
    case CheckHandoff(j) => ReadsKeepKinds(hash, s, j, []);
    case Fetch(j, bytes) => ReadsKeepKinds(hash, s, j, bytes);
    case Preflight(j) => ReadsKeepKinds(hash, s, j, []);
    case PutRaw(j, ok, effective) => PutKeepsKinds(s, j, ok, effective);
    case Persist(j) => PersistKeepsKinds(hash, s, j);
    case Begin(_, _, _) => JobsComeAndGo(hash, s, a);
    case End(_) => JobsComeAndGo(hash, s, a);
    case _ => RowStepsKeepKinds(hash, s, a);
  }

  lemma {:induction false} RunKeepsKinds(hash: Bytes -> Hash, s: State, actions: seq<Action>)
    requires KindsOk(s)
    ensures KindsOk(Run(hash, s, actions))
    decreases |actions|
  {
    if actions != [] {
      StepKeepsKinds(hash, s, actions[0]);
      RunKeepsKinds(hash, Step(hash, s, actions[0]), actions[1..]);
    }
  }

  /** In every run: a parse event has its source's kind, and names the uploaded object of a file and the
      raw key of a URL's version; raw keys hold bytes of URL sources only; a sitemap never has a
      document. */
  lemma EventsFollowTheirSources(hash: Bytes -> Hash, actions: seq<Action>)
    ensures var s := Run(hash, Initial(), actions);
      && (forall k :: 0 <= k < |s.events| ==>
            var e := s.events[k];
            && e.source in s.sources && e.kind == s.sources[e.source].kind && e.kind != Sitemap
            && e.key == if e.kind == Url then SyncRaw(e.source, e.version) else UploadedObject(e.source))
      && (forall key :: key in s.store ==>
            key.SyncRaw? && key.source in s.sources && s.sources[key.source].kind == Url)
      && (forall i :: 0 <= i < |s.documents| ==>
            s.documents[i].source in s.sources && s.sources[s.documents[i].source].kind != Sitemap)
  {
    RunKeepsKinds(hash, Initial(), actions);
    RunKeepsInv(hash, Initial(), actions);
    var s := Run(hash, Initial(), actions);
    forall k | 0 <= k < |s.events|
      ensures s.events[k].kind != Sitemap
      ensures s.events[k].key == RawKeyOf(s.events[k].kind, s.events[k].source, s.events[k].version)
    {
      assert EventOk(s, s.events[k]) && HasKind(s, s.events[k].source, s.events[k].kind);
    }
  }

  // ---- a job that is let finish ----

  /** A job for the current version of an enabled source that is no sitemap. */
  predicate Current(s: State, j: JobId, x: Uuid, v: nat, stage: Stage) {
    && j in s.jobs && s.jobs[j] == Job(x, v, stage)
    && x in s.sources && !s.sources[x].disabled && s.sources[x].version == v && s.sources[x].kind != Sitemap
  }

  predicate NoDocument(s: State, x: Uuid, v: nat) {
    forall i :: 0 <= i < |s.documents| ==> s.documents[i].source != x || s.documents[i].version != v
  }

  lemma NoDocumentIsFound(s: State, x: Uuid, v: nat)
    requires NoDocument(s, x, v)
    ensures DocumentIndex(s.documents, x, v) == None
  {
    DocumentIndexFinds(s.documents, x, v);
  }

  /** Two states that differ in the stage of one job only. */
  predicate OnlyStage(s: State, t: State, j: JobId, stage: Stage) {
    j in s.jobs && t == s.(jobs := s.jobs[j := s.jobs[j].(stage := stage)])
  }

  lemma LoadGoesOn(s: State, j: JobId, x: Uuid, v: nat)
    requires Current(s, j, x, v, Begun)
    ensures OnlyStage(s, StepLoad(s, j), j, Loaded(s.sources[x].kind))
  {
  }

  lemma CheckGoesOn(s: State, j: JobId, x: Uuid, v: nat, kind: Kind)
    requires Current(s, j, x, v, Loaded(kind)) && NoDocument(s, x, v)
    ensures OnlyStage(s, StepCheck(s, j), j, Unfinished(kind))
  {
    NoDocumentIsFound(s, x, v);
  }

  lemma FetchGoesOn(hash: Bytes -> Hash, s: State, j: JobId, x: Uuid, v: nat, kind: Kind, bytes: Bytes)
    requires Current(s, j, x, v, Unfinished(kind)) && NoDocument(s, x, v)
    ensures OnlyStage(s, StepPreflight(hash, StepFetch(s, j, bytes), j), j, Preflighted(kind, bytes))
  {
    NoDocumentIsFound(s, x, v);
  }

  /** The bytes of a URL are stored under the version's own key, those of a file are left where they are. */
  lemma PutGoesOn(s: State, j: JobId, x: Uuid, v: nat, kind: Kind, bytes: Bytes, effective: bool)
    requires Current(s, j, x, v, Preflighted(kind, bytes))
    ensures var t := StepPut(s, j, true, effective);
      && t.store == (if kind == Url then s.store[SyncRaw(x, v) := bytes] else s.store)
      && OnlyStage(s.(store := t.store), t, j, RawStored(kind, bytes))
  {
  }

  /** The version is handed off: its document, and a parse event of its source's kind that names where
      the bytes are. */
  predicate HandsOff(s: State, t: State, j: JobId, x: Uuid, v: nat, kind: Kind, h: Hash) {
    var key := if kind == Url then SyncRaw(x, v) else UploadedObject(x);
    && t.documents == s.documents + [Document(x, v, h)]
    && t.events == s.events + [ParseEvent(|s.documents|, x, v, kind, key, h)]
    && Pair(x, v) in t.completed && j !in t.jobs && t.sources == s.sources && t.store == s.store
  }

  lemma PersistHandsOff(hash: Bytes -> Hash, s: State, j: JobId, x: Uuid, v: nat, kind: Kind, bytes: Bytes)
    requires HandoffsOk(s) && Current(s, j, x, v, RawStored(kind, bytes)) && NoDocument(s, x, v)
    ensures HandsOff(s, StepPersist(hash, s, j), j, x, v, kind, hash(bytes))
  {
    NoDocumentIsFound(s, x, v);
    NextDocumentHasNoEvent(s);
  }

  /** The steps of a job whose fetch and PUT succeed, up to its last transaction. */
  function ReadAndStore(j: JobId, bytes: Bytes, effective: bool): seq<Action> {
    [Load(j), CheckHandoff(j), Fetch(j, bytes)] + [Preflight(j), PutRaw(j, true, effective)]
  }

  function FullJob(j: JobId, bytes: Bytes, effective: bool): seq<Action> {
    ReadAndStore(j, bytes, effective) + [Persist(j)]
  }

  lemma RunThree(hash: Bytes -> Hash, s: State, a: Action, b: Action, c: Action)
    ensures Run(hash, s, [a, b, c]) == Step(hash, Step(hash, Step(hash, s, a), b), c)
  {
    var s1 := Step(hash, s, a);
    var s2 := Step(hash, s1, b);
    assert Run(hash, s, [a, b, c]) == Run(hash, s1, [b, c]) by { assert [a, b, c][1..] == [b, c]; }
    assert Run(hash, s1, [b, c]) == Run(hash, s2, [c]) by { assert [b, c][1..] == [c]; }
    assert Run(hash, s2, [c]) == Step(hash, s2, c) by { assert [c][1..] == []; }
  }

  lemma RunTwo(hash: Bytes -> Hash, s: State, a: Action, b: Action)
    ensures Run(hash, s, [a, b]) == Step(hash, Step(hash, s, a), b)
  {
    var s1 := Step(hash, s, a);
    assert Run(hash, s, [a, b]) == Run(hash, s1, [b]) by { assert [a, b][1..] == [b]; }
    assert Run(hash, s1, [b]) == Step(hash, s1, b) by { assert [b][1..] == []; }
  }

  lemma ReadAndStoreRuns(hash: Bytes -> Hash, s: State, j: JobId, bytes: Bytes, effective: bool)
    ensures var read := StepPreflight(hash, StepFetch(StepCheck(StepLoad(s, j), j), j, bytes), j);
      Run(hash, s, ReadAndStore(j, bytes, effective)) == StepPut(read, j, true, effective)
  {
    var fetched := StepFetch(StepCheck(StepLoad(s, j), j), j, bytes);
    RunAppend(hash, s, [Load(j), CheckHandoff(j), Fetch(j, bytes)], [Preflight(j), PutRaw(j, true, effective)]);
    RunThree(hash, s, Load(j), CheckHandoff(j), Fetch(j, bytes));
    RunTwo(hash, fetched, Preflight(j), PutRaw(j, true, effective));
  }

  /** The store after the PUT, which only a URL has. */
  function StoredFor(s: State, x: Uuid, v: nat, kind: Kind, bytes: Bytes): map<RawKey, Bytes> {
    if kind == Url then s.store[SyncRaw(x, v) := bytes] else s.store
  }

  lemma BytesAreStored(hash: Bytes -> Hash, s: State, j: JobId, x: Uuid, v: nat, bytes: Bytes, effective: bool)
    requires Current(s, j, x, v, Begun) && NoDocument(s, x, v)
    ensures var t, kind := Run(hash, s, ReadAndStore(j, bytes, effective)), s.sources[x].kind;
      OnlyStage(s.(store := StoredFor(s, x, v, kind, bytes)), t, j, RawStored(kind, bytes))
  {
    var kind := s.sources[x].kind;
    ReadAndStoreRuns(hash, s, j, bytes, effective);
    var s1 := StepLoad(s, j);
    LoadGoesOn(s, j, x, v);
    var s2 := StepCheck(s1, j);
    CheckGoesOn(s1, j, x, v, kind);
    var s4 := StepPreflight(hash, StepFetch(s2, j, bytes), j);
    FetchGoesOn(hash, s2, j, x, v, kind, bytes);
    PutGoesOn(s4, j, x, v, kind, bytes, effective);
  }

  lemma {:induction false} RunThen(hash: Bytes -> Hash, s: State, steps: seq<Action>, a: Action)
    ensures Run(hash, s, steps + [a]) == Step(hash, Run(hash, s, steps), a)
  {
    RunAppend(hash, s, steps, [a]);
    var t := Run(hash, s, steps);
    assert Run(hash, t, [a]) == Step(hash, t, a) by { assert [a][1..] == []; }
  }

  lemma {:induction false} StoredHandsOff(
      hash: Bytes -> Hash, s: State, steps: seq<Action>, j: JobId, x: Uuid, v: nat, kind: Kind, bytes: Bytes)
    requires HandoffsOk(s) && Current(s, j, x, v, Begun) && NoDocument(s, x, v) && kind == s.sources[x].kind
    requires OnlyStage(s.(store := StoredFor(s, x, v, kind, bytes)), Run(hash, s, steps), j, RawStored(kind, bytes))
    ensures var t := Run(hash, s, steps + [Persist(j)]);
      HandsOff(s.(store := StoredFor(s, x, v, kind, bytes)), t, j, x, v, kind, hash(bytes))
  {
    RunThen(hash, s, steps, Persist(j));
    HandoffsFollow(s, Run(hash, s, steps));
    PersistHandsOff(hash, Run(hash, s, steps), j, x, v, kind, bytes);
  }

  /** A job for a current version without document, whose fetch and PUT succeed, hands it off with the
      fetched bytes' hash. */
  lemma JobHandsOff(hash: Bytes -> Hash, s: State, j: JobId, x: Uuid, v: nat, bytes: Bytes, effective: bool)
    requires HandoffsOk(s) && Current(s, j, x, v, Begun) && NoDocument(s, x, v)
    ensures var t, kind := Run(hash, s, FullJob(j, bytes, effective)), s.sources[x].kind;
      HandsOff(s.(store := StoredFor(s, x, v, kind, bytes)), t, j, x, v, kind, hash(bytes))
  {
    BytesAreStored(hash, s, j, x, v, bytes, effective);
    StoredHandsOff(hash, s, ReadAndStore(j, bytes, effective), j, x, v, s.sources[x].kind, bytes);
  }

  /** A duplicate of a version that is handed off completes after its checks, and changes nothing. */
  lemma DuplicateCompletes(hash: Bytes -> Hash, s: State, j: JobId, x: Uuid, v: nat)
    requires HandoffsOk(s) && Current(s, j, x, v, Begun) && !NoDocument(s, x, v)
    ensures StepCheck(StepLoad(s, j), j) == s.(jobs := s.jobs - {j}, completed := s.completed + {Pair(x, v)})
  {
    DocumentIndexFinds(s.documents, x, v);
    LoadGoesOn(s, j, x, v);
    var d := DocumentIndex(s.documents, x, v);
    assert d.Some? && EventExists(s.events, d.value);
  }

  /** A job for an old version completes at once; one for a version that does not exist, a disabled
      source or a sitemap ends without completing. */
  lemma LoadDecides(s: State, j: JobId, x: Uuid, v: nat)
    requires j in s.jobs && s.jobs[j] == Job(x, v, Begun)
    ensures var t := StepLoad(s, j);
      if x in s.sources && !s.sources[x].disabled && v < s.sources[x].version
      then t == s.(jobs := s.jobs - {j}, completed := s.completed + {Pair(x, v)})
      else if x !in s.sources || s.sources[x].disabled || v > s.sources[x].version || s.sources[x].kind == Sitemap
      then t == s.(jobs := s.jobs - {j})
      else OnlyStage(s, t, j, Loaded(s.sources[x].kind))
  {
  }

  // ---- a new version has no document ----

  ghost predicate Allocated(s: State) {
    forall i :: 0 <= i < |s.documents| ==>
      s.documents[i].source in s.sources && s.documents[i].version <= s.sources[s.documents[i].source].version
  }

  lemma PersistKeepsAllocated(hash: Bytes -> Hash, s: State, j: JobId)
    requires Allocated(s)
    ensures Allocated(StepPersist(hash, s, j))
  {
  }

  lemma StepKeepsAllocated(hash: Bytes -> Hash, s: State, a: Action)
    requires Allocated(s)
    ensures Allocated(Step(hash, s, a))
  {
    if a.Persist? { PersistKeepsAllocated(hash, s, a.j); } else { StepOnlyAppends(hash, s, a); }
  }

  lemma NewVersionHasNoDocument(hash: Bytes -> Hash, s: State, x: Uuid)
    requires Allocated(s) && x in s.sources && !s.sources[x].disabled
    ensures NoDocument(Step(hash, s, StartSync(x)), x, s.sources[x].version + 1)
  {
  }
}
