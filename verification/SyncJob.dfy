/** The idempotent sync job: any number of deliveries of any versions run `run_knowledge_sync`
    concurrently, each reading, fetching and writing in separate steps.

    The content hash is a parameter. A PUT takes effect before it returns, or never. */
module SyncJob {
  import opened Common
  import opened Wire

  type JobId = nat
  type Bytes = seq<int>
  type Hash = int

  datatype Kind = Url | Sitemap | File

  datatype SourceRow = SourceRow(kind: Kind, version: nat, disabled: bool)

  /** Where the raw bytes of a version are: the uploaded object, or a key per URL version. */
  datatype RawKey = UploadedObject(source: Uuid) | SyncRaw(source: Uuid, version: nat)

  datatype Document = Document(source: Uuid, version: nat, hash: Hash)

  /** The parse event of a document, which is its index. */
  datatype ParseEvent = ParseEvent(document: nat, source: Uuid, version: nat, kind: Kind, key: RawKey, hash: Hash)

  datatype Stage =
    | Begun
    | Loaded(kind: Kind)
    | Unfinished(kind: Kind)                  // no completed handoff was found
    | Fetched(kind: Kind, bytes: Bytes)
    | Preflighted(kind: Kind, bytes: Bytes)
    | RawStored(kind: Kind, bytes: Bytes)

  datatype Job = Job(source: Uuid, version: nat, stage: Stage)

  datatype State = State(
    sources: map<Uuid, SourceRow>,
    documents: seq<Document>,
    events: seq<ParseEvent>,
    store: map<RawKey, Bytes>,
    jobs: map<JobId, Job>,
    completed: set<Pair>)

  datatype Action =
    | CreateSource(source: Uuid, kind: Kind)
    | SetDisabled(source: Uuid, disabled: bool)
    | StartSync(source: Uuid)
    | Begin(j: JobId, source: Uuid, version: nat)
    | Load(j: JobId)
    | CheckHandoff(j: JobId)
    | Fetch(j: JobId, bytes: Bytes)
    | Preflight(j: JobId)
    | PutRaw(j: JobId, ok: bool, effective: bool)
    | Persist(j: JobId)
    | End(j: JobId)                              // a failed fetch, a database error or a crash

  function Initial(): State {
    State(map[], [], [], map[], map[], {})
  }

  /** `_DOCUMENT_BY_VERSION`: the oldest document of the version. */
  function DocumentIndex(ds: seq<Document>, source: Uuid, version: nat): Option<nat> {
    if ds == [] then None else
      var earlier := DocumentIndex(ds[..|ds| - 1], source, version);
      if earlier.Some? then earlier
      else if ds[|ds| - 1].source == source && ds[|ds| - 1].version == version then Some(|ds| - 1)
      else None
  }

  /** `_PARSE_EVENT_EXISTS`. */
  predicate EventExists(es: seq<ParseEvent>, document: nat) {
    exists i :: 0 <= i < |es| && es[i].document == document
  }

  function RawKeyOf(kind: Kind, source: Uuid, version: nat): RawKey {
    if kind == Url then SyncRaw(source, version) else UploadedObject(source)
  }

  function At(s: State, j: JobId, stage: Stage): State
    requires j in s.jobs
  {
    s.(jobs := s.jobs[j := s.jobs[j].(stage := stage)])
  }

  function Ended(s: State, j: JobId): State {
    s.(jobs := s.jobs - {j})
  }

  function Completed(s: State, j: JobId, source: Uuid, version: nat): State {
    Ended(s, j).(completed := s.completed + {Pair(source, version)})
  }

  function StepLoad(s: State, j: JobId): State {
    if j !in s.jobs || !s.jobs[j].stage.Begun? then s else
      var Job(source, version, _) := s.jobs[j];
      if source !in s.sources || s.sources[source].disabled then Ended(s, j)
      else if version < s.sources[source].version then Completed(s, j, source, version)
      else if version > s.sources[source].version || s.sources[source].kind == Sitemap then Ended(s, j)
      else At(s, j, Loaded(s.sources[source].kind))
  }

  function StepCheck(s: State, j: JobId): State {
    if j !in s.jobs || !s.jobs[j].stage.Loaded? then s else
      var Job(source, version, stage) := s.jobs[j];
      var d := DocumentIndex(s.documents, source, version);
      if d.Some? && EventExists(s.events, d.value) then Completed(s, j, source, version)
      else At(s, j, Unfinished(stage.kind))
  }

  function StepFetch(s: State, j: JobId, bytes: Bytes): State {
    if j !in s.jobs || !s.jobs[j].stage.Unfinished? then s else At(s, j, Fetched(s.jobs[j].stage.kind, bytes))
  }

  function StepPreflight(hash: Bytes -> Hash, s: State, j: JobId): State {
    if j !in s.jobs || !s.jobs[j].stage.Fetched? then s else
      var Job(source, version, stage) := s.jobs[j];
      var d := DocumentIndex(s.documents, source, version);
      if d.Some? && d.value < |s.documents| && s.documents[d.value].hash != hash(stage.bytes) then Ended(s, j)
      else At(s, j, Preflighted(stage.kind, stage.bytes))
  }

  function StepPut(s: State, j: JobId, ok: bool, effective: bool): State {
    if j !in s.jobs || !s.jobs[j].stage.Preflighted? then s else
      var Job(source, version, stage) := s.jobs[j];
      if stage.kind != Url then At(s, j, RawStored(stage.kind, stage.bytes)) else
        var t := if ok || effective then s.(store := s.store[SyncRaw(source, version) := stage.bytes]) else s;
        if ok then At(t, j, RawStored(stage.kind, stage.bytes)) else Ended(t, j)
  }

  /** `_persist_document_and_parse_event`, under the lock of the source row. */
  function StepPersist(hash: Bytes -> Hash, s: State, j: JobId): State {
    if j !in s.jobs || !s.jobs[j].stage.RawStored? then s else
      var Job(source, version, stage) := s.jobs[j];
      var h := hash(stage.bytes);
      if source !in s.sources || s.sources[source].disabled then Ended(s, j)
      else if version < s.sources[source].version then Completed(s, j, source, version)
      else if version > s.sources[source].version then Ended(s, j)
      else
        var existing := DocumentIndex(s.documents, source, version);
        if existing.Some? && existing.value < |s.documents| && s.documents[existing.value].hash != h then Ended(s, j)
        else
          var document := if existing.Some? then existing.value else |s.documents|;
          var documents := if existing.Some? then s.documents else s.documents + [Document(source, version, h)];
          var event := ParseEvent(document, source, version, stage.kind, RawKeyOf(stage.kind, source, version), h);
          Completed(s, j, source, version).(
            documents := documents,
            events := if EventExists(s.events, document) then s.events else s.events + [event])
  }

  function Step(hash: Bytes -> Hash, s: State, a: Action): State {
    match a
    case CreateSource(source, kind) =>
      if source in s.sources then s else s.(sources := s.sources[source := SourceRow(kind, 0, false)])
    case SetDisabled(source, disabled) =>
      if source !in s.sources then s else s.(sources := s.sources[source := s.sources[source].(disabled := disabled)])
    case StartSync(source) =>
      if source !in s.sources || s.sources[source].disabled then s
      else s.(sources := s.sources[source := s.sources[source].(version := s.sources[source].version + 1)])
    case Begin(j, source, version) =>
      if j in s.jobs || version == 0 then s else s.(jobs := s.jobs[j := Job(source, version, Begun)])
    case Load(j) => StepLoad(s, j)
    case CheckHandoff(j) => StepCheck(s, j)
    case Fetch(j, bytes) => StepFetch(s, j, bytes)
    case Preflight(j) => StepPreflight(hash, s, j)
    case PutRaw(j, ok, effective) => StepPut(s, j, ok, effective)
    case Persist(j) => StepPersist(hash, s, j)
    case End(j) => Ended(s, j)
  }

  function Run(hash: Bytes -> Hash, s: State, actions: seq<Action>): State
    decreases |actions|
  {
    if actions == [] then s else Run(hash, Step(hash, s, actions[0]), actions[1..])
  }

  lemma {:induction false} RunAppend(hash: Bytes -> Hash, s: State, xs: seq<Action>, ys: seq<Action>)
    ensures Run(hash, s, xs + ys) == Run(hash, Run(hash, s, xs), ys)
    decreases |xs|
  {
    if xs == [] {
      assert xs + ys == ys;
    } else {
      assert (xs + ys)[1..] == xs[1..] + ys;
      RunAppend(hash, Step(hash, s, xs[0]), xs[1..], ys);
    }
  }

  // ---- documents and events, for all interleavings ----

  lemma {:induction false} DocumentIndexFinds(ds: seq<Document>, source: Uuid, version: nat)
    ensures var d := DocumentIndex(ds, source, version);
      && (d.Some? ==> d.value < |ds| && ds[d.value].source == source && ds[d.value].version == version)
      && (d.None? ==> forall i :: 0 <= i < |ds| ==> ds[i].source != source || ds[i].version != version)
  {
    if ds != [] { DocumentIndexFinds(ds[..|ds| - 1], source, version); }
  }

  predicate SamePair(a: Document, b: Document) { a.source == b.source && a.version == b.version }

  /** At most one document per version, exactly one parse event per document, equal hashes. */
  ghost predicate HandoffsOk(s: State) {
    && (forall i, j :: 0 <= i < j < |s.documents| ==> !SamePair(s.documents[i], s.documents[j]))
    && (forall i :: 0 <= i < |s.documents| ==> EventExists(s.events, i))
    && (forall k :: 0 <= k < |s.events| ==> EventOk(s, s.events[k]))
    && (forall k, l :: 0 <= k < l < |s.events| ==> s.events[k].document != s.events[l].document)
  }

  predicate EventOk(s: State, e: ParseEvent) {
    e.document < |s.documents| && s.documents[e.document] == Document(e.source, e.version, e.hash)
    && e.key == RawKeyOf(e.kind, e.source, e.version)
  }

  /** A completed delivery is handed off, or was superseded by a newer version. */
  ghost predicate Settled(s: State, p: Pair) {
    || (p.source in s.sources && p.version < s.sources[p.source].version)
    || exists i :: 0 <= i < |s.documents| && s.documents[i].source == p.source && s.documents[i].version == p.version
  }

  ghost predicate Inv(s: State) {
    HandoffsOk(s) && forall p :: p in s.completed ==> Settled(s, p)
  }

  lemma SettledStays(s: State, t: State, p: Pair)
    requires Settled(s, p) && s.documents <= t.documents
    requires forall x :: x in s.sources ==> x in t.sources && s.sources[x].version <= t.sources[x].version
    ensures Settled(t, p)
  {
    if !(p.source in s.sources && p.version < s.sources[p.source].version) {
      var i :| 0 <= i < |s.documents| && s.documents[i].source == p.source && s.documents[i].version == p.version;
      assert t.documents[i] == s.documents[i];
    }
  }

  /** Documents and parse events are only ever appended, so no recorded hash changes. */
  lemma StepOnlyAppends(hash: Bytes -> Hash, s: State, a: Action)
    ensures s.documents <= Step(hash, s, a).documents && s.events <= Step(hash, s, a).events
    ensures forall x :: x in s.sources ==>
      x in Step(hash, s, a).sources && s.sources[x].version <= Step(hash, s, a).sources[x].version
  {
  }

  lemma AppendHandoffKeeps(s: State, t: State, d: Document, e: ParseEvent)
    requires HandoffsOk(s)
    requires t.documents == s.documents + [d] && t.events == s.events + [e]
    requires e.document == |s.documents| && d == Document(e.source, e.version, e.hash)
    requires e.key == RawKeyOf(e.kind, e.source, e.version)
    requires forall i :: 0 <= i < |s.documents| ==> !SamePair(s.documents[i], d)
    ensures HandoffsOk(t)
  {
    forall i | 0 <= i < |t.documents| ensures EventExists(t.events, i) {
      if i < |s.documents| {
        assert EventExists(s.events, i);
        var k :| 0 <= k < |s.events| && s.events[k].document == i;
        assert t.events[k].document == i;
      } else {
        assert t.events[|s.events|].document == i;
      }
    }
    forall k | 0 <= k < |t.events| ensures EventOk(t, t.events[k]) {
      if k < |s.events| { assert EventOk(s, s.events[k]); }
    }
  }

  /** Without a document of the version, no event names the next document. */
  lemma NextDocumentHasNoEvent(s: State)
    requires HandoffsOk(s)
    ensures !EventExists(s.events, |s.documents|)
  {
    forall k | 0 <= k < |s.events| ensures s.events[k].document != |s.documents| {
      assert EventOk(s, s.events[k]);
    }
  }

  lemma PersistKeepsHandoffs(hash: Bytes -> Hash, s: State, j: JobId)
    requires HandoffsOk(s)
    ensures HandoffsOk(StepPersist(hash, s, j))
  {
    var t := StepPersist(hash, s, j);
    if j in s.jobs && s.jobs[j].stage.RawStored? {
      var Job(source, version, stage) := s.jobs[j];
      DocumentIndexFinds(s.documents, source, version);
      NextDocumentHasNoEvent(s);
      if t.documents != s.documents {
        AppendHandoffKeeps(s, t, t.documents[|s.documents|], t.events[|s.events|]);
      } else {
        HandoffsFollow(s, t);
      }
    }
  }

  lemma PersistSettles(hash: Bytes -> Hash, s: State, j: JobId, p: Pair)
    requires p in StepPersist(hash, s, j).completed && p !in s.completed
    ensures Settled(StepPersist(hash, s, j), p)
  {
    var t := StepPersist(hash, s, j);
    DocumentIndexFinds(s.documents, p.source, p.version);
    if t.documents != s.documents { assert t.documents[|s.documents|].source == p.source; }
  }

  /** A job only completes for a version that is handed off or superseded. */
  lemma NewlyCompletedIsSettled(hash: Bytes -> Hash, s: State, a: Action, p: Pair)
    requires Inv(s) && !a.Persist? && p in Step(hash, s, a).completed && p !in s.completed
    ensures Settled(Step(hash, s, a), p)
  {
    if a.CheckHandoff? && a.j in s.jobs {
      DocumentIndexFinds(s.documents, s.jobs[a.j].source, s.jobs[a.j].version);
    }
  }

  lemma StepKeepsInv(hash: Bytes -> Hash, s: State, a: Action)
    requires Inv(s)
    ensures Inv(Step(hash, s, a))
  {
    var t := Step(hash, s, a);
    StepOnlyAppends(hash, s, a);
    if a.Persist? {
      PersistKeepsHandoffs(hash, s, a.j);
    } else {
      HandoffsFollow(s, t);
    }
    forall p | p in t.completed ensures Settled(t, p) {
      if p in s.completed {
        SettledStays(s, t, p);
      } else if a.Persist? {
        PersistSettles(hash, s, a.j, p);
      } else {
        NewlyCompletedIsSettled(hash, s, a, p);
      }
    }
  }

  lemma HandoffsFollow(s: State, t: State)
    requires HandoffsOk(s) && t.documents == s.documents && t.events == s.events
    ensures HandoffsOk(t)
  {
    forall k | 0 <= k < |t.events| ensures EventOk(t, t.events[k]) { assert EventOk(s, s.events[k]); }
  }

  lemma {:induction false} RunKeepsInv(hash: Bytes -> Hash, s: State, actions: seq<Action>)
    requires Inv(s)
    ensures Inv(Run(hash, s, actions))
    ensures s.documents <= Run(hash, s, actions).documents && s.events <= Run(hash, s, actions).events
    decreases |actions|
  {
    if actions != [] {
      StepKeepsInv(hash, s, actions[0]);
      StepOnlyAppends(hash, s, actions[0]);
      RunKeepsInv(hash, Step(hash, s, actions[0]), actions[1..]);
    }
  }

  /** Over all duplicate and concurrent deliveries there is at most one document per version,
      exactly one parse event per document with the same hash, and what was recorded stays as it
      was in every later state. */
  lemma HandoffsAreIdempotent(hash: Bytes -> Hash, before: seq<Action>, after: seq<Action>)
    ensures var s := Run(hash, Initial(), before);
      var t := Run(hash, s, after);
      && HandoffsOk(s) && HandoffsOk(t)
      && s.documents <= t.documents && s.events <= t.events
      && (forall p :: p in t.completed ==> Settled(t, p))
  {
    RunKeepsInv(hash, Initial(), before);
    RunKeepsInv(hash, Run(hash, Initial(), before), after);
  }
}
