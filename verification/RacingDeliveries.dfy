/** Two concurrent deliveries of one URL version that leave a parse event without its bytes. */
module RacingDeliveries {
  import opened Common
  import opened Wire
  import opened SyncJob
  import opened RawBytes

  lemma {:induction false} RunFour(hash: Bytes -> Hash, s: State, a: Action, b: Action, c: Action, d: Action)
    ensures Run(hash, s, [a, b, c, d]) == Step(hash, Step(hash, Step(hash, Step(hash, s, a), b), c), d)
  {
    var s1 := Step(hash, s, a);
    var s2 := Step(hash, s1, b);
    var s3 := Step(hash, s2, c);
    assert Run(hash, s, [a, b, c, d]) == Run(hash, s1, [b, c, d]) by { assert [a, b, c, d][1..] == [b, c, d]; }
    assert Run(hash, s1, [b, c, d]) == Run(hash, s2, [c, d]) by { assert [b, c, d][1..] == [c, d]; }
    assert Run(hash, s2, [c, d]) == Run(hash, s3, [d]) by { assert [c, d][1..] == [d]; }
    assert Run(hash, s3, [d]) == Step(hash, s3, d) by { assert [d][1..] == []; }
  }

  lemma {:induction false} RunTwo(hash: Bytes -> Hash, s: State, a: Action, b: Action)
    ensures Run(hash, s, [a, b]) == Step(hash, Step(hash, s, a), b)
  {
    assert [a, b][1..] == [b] && [b][1..] == [];
    assert Run(hash, s, [a, b]) == Run(hash, Step(hash, s, a), [b]);
  }

  // ---- the deliveries read ----

  /** Two deliveries of one URL version, up to where both have passed every check. */
  function RacingReads(x: Uuid, first: Bytes, second: Bytes): seq<Action> {
    [CreateSource(x, Url), StartSync(x), Begin(1, x, 1), Begin(2, x, 1)]
    + [Load(1), Load(2), CheckHandoff(1), CheckHandoff(2)]
    + [Fetch(1, first), Fetch(2, second)]
    + [Preflight(1), Preflight(2)]
  }

  /** The URL source of both, at its first version. */
  function Raced(x: Uuid): map<Uuid, SourceRow> {
    map[x := SourceRow(Url, 1, false)]
  }

  function BothAt(x: Uuid, a: Stage, b: Stage): State {
    State(Raced(x), [], [], map[], map[1 := Job(x, 1, a), 2 := Job(x, 1, b)], {})
  }

  lemma {:induction false} BothBegin(hash: Bytes -> Hash, x: Uuid)
    ensures Run(hash, Initial(), [CreateSource(x, Url), StartSync(x), Begin(1, x, 1), Begin(2, x, 1)])
         == BothAt(x, Begun, Begun)
  {
    RunFour(hash, Initial(), CreateSource(x, Url), StartSync(x), Begin(1, x, 1), Begin(2, x, 1));
  }

  lemma {:induction false} BothLoad(hash: Bytes -> Hash, x: Uuid)
    ensures Step(hash, Step(hash, BothAt(x, Begun, Begun), Load(1)), Load(2)) == BothAt(x, Loaded(Url), Loaded(Url))
  {
  }

  lemma {:induction false} BothFind(hash: Bytes -> Hash, x: Uuid)
    ensures Step(hash, Step(hash, BothAt(x, Loaded(Url), Loaded(Url)), CheckHandoff(1)), CheckHandoff(2))
         == BothAt(x, Unfinished(Url), Unfinished(Url))
  {
  }

  lemma {:induction false} BothCheck(hash: Bytes -> Hash, x: Uuid)
    ensures Run(hash, BothAt(x, Begun, Begun), [Load(1), Load(2), CheckHandoff(1), CheckHandoff(2)])
         == BothAt(x, Unfinished(Url), Unfinished(Url))
  {
    RunFour(hash, BothAt(x, Begun, Begun), Load(1), Load(2), CheckHandoff(1), CheckHandoff(2));
    BothLoad(hash, x);
    BothFind(hash, x);
  }

  lemma {:induction false} BothFetch(hash: Bytes -> Hash, x: Uuid, first: Bytes, second: Bytes)
    ensures Run(hash, BothAt(x, Unfinished(Url), Unfinished(Url)), [Fetch(1, first), Fetch(2, second)])
         == BothAt(x, Fetched(Url, first), Fetched(Url, second))
  {
    RunTwo(hash, BothAt(x, Unfinished(Url), Unfinished(Url)), Fetch(1, first), Fetch(2, second));
    FirstFetches(x, first);
  }

  lemma {:induction false} FirstFetches(x: Uuid, first: Bytes)
    ensures StepFetch(BothAt(x, Unfinished(Url), Unfinished(Url)), 1, first)
         == BothAt(x, Fetched(Url, first), Unfinished(Url))
  {
  }

  lemma {:induction false} BothPreflight(hash: Bytes -> Hash, x: Uuid, first: Bytes, second: Bytes)
    ensures Run(hash, BothAt(x, Fetched(Url, first), Fetched(Url, second)), [Preflight(1), Preflight(2)])
         == BothAt(x, Preflighted(Url, first), Preflighted(Url, second))
  {
    RunTwo(hash, BothAt(x, Fetched(Url, first), Fetched(Url, second)), Preflight(1), Preflight(2));
  }

  lemma {:induction false} BothRead(hash: Bytes -> Hash, x: Uuid, first: Bytes, second: Bytes)
    ensures Run(hash, Initial(), RacingReads(x, first, second))
         == BothAt(x, Preflighted(Url, first), Preflighted(Url, second))
  {
    var a := [CreateSource(x, Url), StartSync(x), Begin(1, x, 1), Begin(2, x, 1)];
    var b := [Load(1), Load(2), CheckHandoff(1), CheckHandoff(2)];
    var c, d := [Fetch(1, first), Fetch(2, second)], [Preflight(1), Preflight(2)];
    RunAppend(hash, Initial(), a + b + c, d);
    RunAppend(hash, Initial(), a + b, c);
    RunAppend(hash, Initial(), a, b);
    BothBegin(hash, x);
    BothCheck(hash, x);
    BothFetch(hash, x, first, second);
    BothPreflight(hash, x, first, second);
  }

  // ---- the second PUT comes after the first handoff ----

  /** The first delivery is handed off, and the second still holds its own bytes. */
  function FirstDone(hash: Bytes -> Hash, x: Uuid, first: Bytes, second: Bytes): State {
    var key, h := SyncRaw(x, 1), hash(first);
    State(Raced(x), [Document(x, 1, h)], [ParseEvent(0, x, 1, Url, key, h)], map[key := first],
          map[2 := Job(x, 1, Preflighted(Url, second))], {Pair(x, 1)})
  }

  function FirstStored(x: Uuid, first: Bytes, second: Bytes): State {
    BothAt(x, RawStored(Url, first), Preflighted(Url, second)).(store := map[SyncRaw(x, 1) := first])
  }

  lemma {:induction false} FirstPuts(hash: Bytes -> Hash, x: Uuid, first: Bytes, second: Bytes)
    ensures Step(hash, BothAt(x, Preflighted(Url, first), Preflighted(Url, second)), PutRaw(1, true, true))
         == FirstStored(x, first, second)
  {
  }

  lemma {:induction false} FirstPersists(hash: Bytes -> Hash, x: Uuid, first: Bytes, second: Bytes)
    ensures Step(hash, FirstStored(x, first, second), Persist(1)) == FirstDone(hash, x, first, second)
  {
  }

  lemma {:induction false} SecondPuts(hash: Bytes -> Hash, x: Uuid, first: Bytes, second: Bytes)
    requires hash(first) != hash(second)
    ensures !RawOk(hash, Step(hash, FirstDone(hash, x, first, second), PutRaw(2, true, true)))
  {
    var t := Step(hash, FirstDone(hash, x, first, second), PutRaw(2, true, true));
    assert t.events[0].key == SyncRaw(x, 1) && t.store[SyncRaw(x, 1)] == second;
    assert !RawMatches(hash, t, t.events[0]);
  }

  /** The second delivery, whose checks were over before, overwrites the bytes of the first one's
      committed event. */
  lemma {:induction false} PutOverwritesEvent(hash: Bytes -> Hash, x: Uuid, first: Bytes, second: Bytes)
    requires hash(first) != hash(second)
    ensures var s := Run(hash, Initial(), RacingReads(x, first, second) + [PutRaw(1, true, true), Persist(1)]);
      RawOk(hash, s) && !RawOk(hash, Step(hash, s, PutRaw(2, true, true)))
  {
    RunAppend(hash, Initial(), RacingReads(x, first, second), [PutRaw(1, true, true), Persist(1)]);
    BothRead(hash, x, first, second);
    RunTwo(hash, BothAt(x, Preflighted(Url, first), Preflighted(Url, second)), PutRaw(1, true, true), Persist(1));
    FirstPuts(hash, x, first, second);
    FirstPersists(hash, x, first, second);
    SecondPuts(hash, x, first, second);
  }

  // ---- the second PUT comes before the first handoff ----

  function BothStored(x: Uuid, first: Bytes, second: Bytes): State {
    BothAt(x, RawStored(Url, first), RawStored(Url, second)).(store := map[SyncRaw(x, 1) := second])
  }

  lemma {:induction false} SecondPutsEarly(hash: Bytes -> Hash, x: Uuid, first: Bytes, second: Bytes)
    ensures Step(hash, FirstStored(x, first, second), PutRaw(2, true, true)) == BothStored(x, first, second)
  {
  }

  lemma {:induction false} FirstPersistsLate(hash: Bytes -> Hash, x: Uuid, first: Bytes, second: Bytes)
    requires hash(first) != hash(second)
    ensures !RawOk(hash, Step(hash, BothStored(x, first, second), Persist(1)))
  {
    var t := Step(hash, BothStored(x, first, second), Persist(1));
    assert t.events[0] == ParseEvent(0, x, 1, Url, SyncRaw(x, 1), hash(first));
    assert t.store[SyncRaw(x, 1)] == second;
    assert !RawMatches(hash, t, t.events[0]);
  }

  /** No event exists when either PUT is made, and the first handoff then commits an event for bytes
      that are gone. */
  lemma {:induction false} HandoffFindsOtherBytes(hash: Bytes -> Hash, x: Uuid, first: Bytes, second: Bytes)
    requires hash(first) != hash(second)
    ensures var puts := [PutRaw(1, true, true), PutRaw(2, true, true)];
      var s := Run(hash, Initial(), RacingReads(x, first, second) + puts);
      RawOk(hash, s) && !RawOk(hash, Step(hash, s, Persist(1)))
  {
    RunAppend(hash, Initial(), RacingReads(x, first, second), [PutRaw(1, true, true), PutRaw(2, true, true)]);
    BothRead(hash, x, first, second);
    var read := BothAt(x, Preflighted(Url, first), Preflighted(Url, second));
    RunTwo(hash, read, PutRaw(1, true, true), PutRaw(2, true, true));
    FirstPuts(hash, x, first, second);
    SecondPutsEarly(hash, x, first, second);
    FirstPersistsLate(hash, x, first, second);
  }
}
