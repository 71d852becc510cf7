/** What an upload request achieves: the path to a committed source, and what a failing request does
    about its object. */
module UploadRequestPaths {
  import opened Common
  import opened CleanupRows
  import opened Quota
  import opened QuotaDecisions
  import opened UploadLedger
  import opened UploadLedgerInvariant
  import opened UploadLedgerProgress

  // ---- to a committed source ----

  /** Admitted with a hold of ten minutes. */
  predicate HoldsAdmission(t: Ledger, u: Id) {
    u in t.requests && t.requests[u] == Admitted(0) && u !in t.cleanups && u !in t.tables.sources
  }

  predicate HoldsBytes(t: Ledger, u: Id, bytes: nat) {
    && u in t.requests && t.requests[u] == Finalized(bytes) && u !in t.cleanups && u !in t.tables.sources
    && u in t.tables.reservations && t.tables.reservations[u].bytes == bytes && t.tables.reservations[u].cleanup.None?
  }

  /** The upload is committed: a source row of its size that refers to the stored object, nothing
      reserved any more, and its cleanup called off. */
  predicate Committed(t: Ledger, u: Id, k: Key, bytes: nat) {
    && u in t.tables.sources && t.tables.sources[u] == Source(Some(k), Some(bytes))
    && k in t.objects && t.objects[k] == bytes && u !in t.tables.reservations
    && u in t.cleanups && t.cleanups[u].status == Referenced && u !in t.requests
  }

  lemma AdmitReserves(s: Ledger, u: Id, now: Time)
    requires Fresh(s, u) && HasRoom(s.tables, 0, now)
    ensures var t := StepAdmit(s, u, 0, now);
      && HoldsAdmission(t, u) && Reserve(s.tables, u, 0, now).Ok? && t.tables == Reserve(s.tables, u, 0, now).value
      && t.tenant == s.tenant && t.cleanups == s.cleanups
  {
    AdmissionNeedsRoom(s.tables, u, 0, now);
  }

  lemma FinalizeFixesBytes(s: Ledger, u: Id, bytes: nat, now: Time)
    requires HoldsAdmission(s, u) && Finalize(s.tables, u, 0, bytes, now).Ok?
    ensures var t := StepFinalize(s, u, bytes, now);
      HoldsBytes(t, u, bytes) && t.tenant == s.tenant && t.cleanups == s.cleanups
  {
    FinalisationNeedsLiveHold(s.tables, u, 0, bytes, now);
  }

  /** A request is admitted and finalised if there is room, within ten minutes. */
  lemma RoomLeadsToHold(s: Ledger, u: Id, bytes: nat, now: Time, later: Time)
    requires Fresh(s, u) && HasRoom(s.tables, 0, now) && now <= later < now + 10 * 60
    requires bytes <= 25 * 1024 * 1024 && BytesAt(s.tables, now) + bytes <= 1024 * 1024 * 1024
    ensures var t := Run(s, [Admit(u, 0, now), FinalizeBytes(u, bytes, later)]);
      HoldsBytes(t, u, bytes) && t.tenant == s.tenant
  {
    RunTwo(s, Admit(u, 0, now), FinalizeBytes(u, bytes, later));
    AdmitReserves(s, u, now);
    AdmissionLastsTenMinutes(s.tables, u, bytes, now, later);
    FinalizeFixesBytes(StepAdmit(s, u, 0, now), u, bytes, later);
  }

  /** Binding prepares a cleanup that no sweep touches for fifteen minutes. */
  lemma BindPreparesCleanup(s: Ledger, u: Id, objectId: Id, now: Time)
    requires u in s.requests && s.requests[u].Finalized? && HoldsBytes(s, u, s.requests[u].bytes)
    ensures var t, k := StepBind(s, u, objectId, now), RawKey(s.tenant, u, objectId);
      && u in t.cleanups
      && t.cleanups[u] == Row(s.tenant, u, objectId, k, Prepared, 0, Some(now + 15 * 60), None)
      && u in t.requests && t.requests[u] == Bound(s.requests[u].bytes, k)
      && u in t.tables.reservations && t.tables.reservations[u] == s.tables.reservations[u].(cleanup := Some(u))
      && t.tables.sources == s.tables.sources
  {
  }

  lemma PutStores(s: Ledger, u: Id, k: Key, bytes: nat)
    requires u in s.requests && s.requests[u] == Bound(bytes, k)
    ensures var put := StepIssuePut(s, u);
      var t := StepPutReturns(StepLand(put, k), u);
      && u in t.requests && t.requests[u] == Stored(bytes, k) && k in t.objects && t.objects[k] == bytes
      && t.tables == s.tables && t.cleanups == s.cleanups
  {
  }

  lemma CommitRefers(s: Ledger, u: Id, k: Key, bytes: nat)
    requires u in s.requests && s.requests[u] == Stored(bytes, k) && k in s.objects && s.objects[k] == bytes
    requires u in s.cleanups && s.cleanups[u].status == Prepared && u !in s.tables.sources
    ensures Committed(StepCommit(s, u), u, k, bytes)
  {
  }

  function StoreAndCommit(u: Id, k: Key): seq<Action> {
    [IssuePut(u), PutLands(k)] + [PutReturns(u), CommitSource(u)]
  }

  lemma {:induction false} RunAppend(s: Ledger, xs: seq<Action>, ys: seq<Action>)
    ensures Run(s, xs + ys) == Run(Run(s, xs), ys)
    decreases |xs|
  {
    if xs == [] {
      assert xs + ys == ys;
    } else {
      assert (xs + ys)[1..] == xs[1..] + ys;
      RunAppend(Step(s, xs[0]), xs[1..], ys);
    }
  }

  lemma StoreAndCommitRuns(s: Ledger, u: Id, k: Key)
    ensures Run(s, StoreAndCommit(u, k)) == StepCommit(StepPutReturns(StepLand(StepIssuePut(s, u), k), u), u)
  {
    RunAppend(s, [IssuePut(u), PutLands(k)], [PutReturns(u), CommitSource(u)]);
    RunTwo(s, IssuePut(u), PutLands(k));
    RunTwo(StepLand(StepIssuePut(s, u), k), PutReturns(u), CommitSource(u));
  }

  /** A held upload that is bound, stored and referenced is committed. */
  lemma HeldUploadIsCommitted(s: Ledger, u: Id, objectId: Id, bytes: nat, now: Time)
    requires HoldsBytes(s, u, bytes)
    ensures var k := RawKey(s.tenant, u, objectId);
      Committed(Run(s, [Bind(u, objectId, now)] + StoreAndCommit(u, k)), u, k, bytes)
  {
    var k, bound := RawKey(s.tenant, u, objectId), StepBind(s, u, objectId, now);
    RunCons(s, Bind(u, objectId, now), StoreAndCommit(u, k));
    StoreAndCommitRuns(bound, u, k);
    BindPreparesCleanup(s, u, objectId, now);
    PutStores(bound, u, k, bytes);
    CommitRefers(StepPutReturns(StepLand(StepIssuePut(bound, u), k), u), u, k, bytes);
  }

  /** The whole good path: with room at admission, a request that is finalised within ten minutes,
      bound, stored and referenced ends as a source row of that size. */
  lemma UploadSucceeds(s: Ledger, u: Id, objectId: Id, bytes: nat, now: Time, later: Time, bindAt: Time)
    requires Fresh(s, u) && HasRoom(s.tables, 0, now) && now <= later < now + 10 * 60
    requires bytes <= 25 * 1024 * 1024 && BytesAt(s.tables, now) + bytes <= 1024 * 1024 * 1024
    ensures var k := RawKey(s.tenant, u, objectId);
      var actions := [Admit(u, 0, now), FinalizeBytes(u, bytes, later)]
                     + ([Bind(u, objectId, bindAt)] + StoreAndCommit(u, k));
      Committed(Run(s, actions), u, k, bytes)
  {
    var k, first := RawKey(s.tenant, u, objectId), [Admit(u, 0, now), FinalizeBytes(u, bytes, later)];
    RunAppend(s, first, [Bind(u, objectId, bindAt)] + StoreAndCommit(u, k));
    RoomLeadsToHold(s, u, bytes, now, later);
    HeldUploadIsCommitted(Run(s, first), u, objectId, bytes, bindAt);
  }

  /** A URL source is created while fewer than a hundred rows count, and takes no bytes. */
  lemma UrlSourceIsCreated(s: Ledger, u: Id, now: Time)
    requires Fresh(s, u) && |s.tables.sources| + |Counting(s.tables.reservations, now)| < 100
    ensures var t := Step(s, CreateUrlSource(u, now));
      t.tables == Tables(s.tables.sources[u := Source(None, None)], Counting(s.tables.reservations, now))
  {
    UrlSourceNeedsRow(s.tables, u, now);
  }

  /** Giving an admission back frees its hold. */
  lemma ReleaseFreesHold(s: Ledger, u: Id)
    requires u in s.requests && (s.requests[u].Admitted? || s.requests[u].Finalized?)
    ensures var t := Step(s, ReleaseAdmission(u));
      && t.tables.reservations == s.tables.reservations - {u} && t.tables.sources == s.tables.sources
      && u !in t.requests
  {
  }

  // ---- a failing request ----

  /** A request that has given up after its object was stored, up to the deletion. */
  function GiveUp(u: Id, now: Time): seq<Action> {
    [CommitRaises(u), ExpireRequestLease(u, now, true)] + [ArmRequest(u, now, true)]
  }

  predicate StoredUpload(s: Ledger, u: Id, k: Key) {
    && u in s.requests && s.requests[u].Stored? && s.requests[u].key == k
    && u in s.cleanups && s.cleanups[u].status == Prepared && s.cleanups[u].key == k
    && u in s.tables.reservations && s.tables.reservations[u].cleanup == Some(u)
  }

  /** Armed: pending for thirty seconds, with the PUT known to have landed, and no longer counted as
      a running upload. */
  predicate ArmedAt(t: Ledger, u: Id, k: Key, now: Time) {
    && AtStage(t, u, DeleteObject) && t.requests[u].confirmed && t.requests[u].key == k
    && u in t.cleanups && t.cleanups[u].status == Pending && t.cleanups[u].due == Some(now + 30)
    && t.cleanups[u].error == Some(PersistenceFailed)
    && u in t.tables.reservations && t.tables.reservations[u].cleanup == Some(u)
    && t.tables.reservations[u].lease <= now
  }

  lemma ExpireAfterRaise(s: Ledger, u: Id, k: Key, now: Time)
    requires StoredUpload(s, u, k)
    ensures var t := StepExpire(StepCommitRaises(s, u), u, now, true);
      && AtStage(t, u, ArmCleanup) && t.requests[u].confirmed && t.requests[u].key == k && t.cleanups == s.cleanups
      && u in t.tables.reservations && t.tables.reservations[u].cleanup == Some(u)
      && t.tables.reservations[u].lease <= now
  {
  }

  lemma FailedCommitArmsCleanup(s: Ledger, u: Id, k: Key, now: Time)
    requires StoredUpload(s, u, k)
    ensures ArmedAt(Run(s, GiveUp(u, now)), u, k, now)
  {
    RunAppend(s, [CommitRaises(u), ExpireRequestLease(u, now, true)], [ArmRequest(u, now, true)]);
    RunTwo(s, CommitRaises(u), ExpireRequestLease(u, now, true));
    RunOne(StepExpire(StepCommitRaises(s, u), u, now, true), ArmRequest(u, now, true));
    ExpireAfterRaise(s, u, k, now);
  }

  /** Its own DELETE and record then clean up, if the store answers. */
  lemma InlineDeleteCleansUp(s: Ledger, u: Id, k: Key, now: Time, effective: bool)
    requires ArmedAt(s, u, k, now)
    ensures var t := Run(s, [DeleteInline(u, true, effective), MarkInline(u)]); CleanedUp(t, u, k) && u !in t.requests
  {
    RunTwo(s, DeleteInline(u, true, effective), MarkInline(u));
  }

  /** A DELETE that fails leaves the armed cleanup to the sweeps, and the bytes charged. */
  lemma FailedInlineDeleteLeavesSweep(s: Ledger, u: Id, k: Key, now: Time, effective: bool)
    requires ArmedAt(s, u, k, now)
    ensures var t := Step(s, DeleteInline(u, false, effective));
      t.cleanups == s.cleanups && t.tables == s.tables && u !in t.requests
  {
  }

  /** A PUT that raised leaves the cleanup prepared, so that sweeps will look for the object. */
  lemma FailedPutStaysPrepared(s: Ledger, u: Id, now: Time, ok: bool, effective: bool)
    requires u in s.requests && s.requests[u].Putting?
    ensures var t := StepDeleteInline(StepExpire(StepPutRaises(s, u), u, now, true), u, ok, effective);
      t.cleanups == s.cleanups && t.tables.reservations.Keys == s.tables.reservations.Keys && u !in t.requests
  {
  }
}
