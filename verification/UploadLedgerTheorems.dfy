/** What the upload protocol guarantees in every reachable state. */
module UploadLedgerTheorems {
  import opened Common
  import opened CleanupRows
  import opened Quota
  import opened UploadLedger
  import opened UploadLedgerInvariant

  // ---- the quota part of the invariant ----

  /** At most three leases are live at any instant not before the clock of the admission that
      committed last. */
  ghost predicate LeasesOk(rs: map<Id, Reservation>, last: Option<Time>) {
    && (last.None? ==> rs == map[])
    && (forall t :: last.Some? && last.value <= t ==> |Live(rs, t)| <= CONCURRENT_LIMIT)
  }

  ghost predicate QuotaOk(s: Ledger) {
    WithinQuota(s.tables) && LeasesOk(s.tables.reservations, s.lastAdmission)
  }

  ghost predicate Inv(s: Ledger) {
    Protocol(s) && QuotaOk(s)
  }

  lemma ShrinkKeepsLeases(a: map<Id, Reservation>, b: map<Id, Reservation>, last: Option<Time>)
    requires LeasesOk(a, last)
    requires b.Keys <= a.Keys && forall u :: u in b ==> b[u].lease <= a[u].lease
    ensures LeasesOk(b, last)
  {
    forall t | last.Some? && last.value <= t ensures |Live(b, t)| <= CONCURRENT_LIMIT {
      assert Live(b, t) <= Live(a, t);
      CardinalityOfSubset(Live(b, t), Live(a, t));
      assert |Live(a, t)| <= CONCURRENT_LIMIT;
    }
  }

  lemma RemoveKeepsQuota(t: Tables, u: Id, last: Option<Time>)
    requires WithinQuota(t) && LeasesOk(t.reservations, last)
    ensures var r := t.(reservations := t.reservations - {u}); WithinQuota(r) && LeasesOk(r.reservations, last)
  {
    var rs := t.reservations - {u};
    SumBySubset(rs, t.reservations, ReservedBytes);
    CardinalityOfSubset(rs.Keys, t.reservations.Keys);
    ShrinkKeepsLeases(t.reservations, rs, last);
  }

  /** Replacing a reservation by one of the same size with no longer lease. */
  lemma ReplaceKeepsQuota(t: Tables, u: Id, r: Reservation, last: Option<Time>)
    requires WithinQuota(t) && LeasesOk(t.reservations, last) && u in t.reservations
    requires r.bytes == t.reservations[u].bytes && r.lease <= t.reservations[u].lease
    ensures var t' := t.(reservations := t.reservations[u := r]); WithinQuota(t') && LeasesOk(t'.reservations, last)
  {
    SumByUpdate(t.reservations, ReservedBytes, u, r);
    UpdateKeepsRows(t, u, r);
    ShrinkKeepsLeases(t.reservations, t.reservations[u := r], last);
  }

  /** Committing a source exchanges its reservation for a row of the same size. */
  lemma ExchangeCharges(t: Tables, u: Id, s: Source)
    requires u in t.reservations && u !in t.sources && SourceBytes(s) == t.reservations[u].bytes
    ensures var t' := Tables(t.sources[u := s], t.reservations - {u});
      ChargedBytes(t') == ChargedBytes(t) && ChargedRows(t') == ChargedRows(t)
  {
    SumByInsert(t.sources, SourceBytes, u, s);
    SumByRemove(t.reservations, ReservedBytes, u);
    assert t.sources[u := s].Keys == t.sources.Keys + {u};
    assert (t.reservations - {u}).Keys == t.reservations.Keys - {u};
  }

  lemma AdmitKeepsQuota(s: Ledger, u: Id, requested: int, now: Time)
    requires QuotaOk(s)
    ensures QuotaOk(StepAdmit(s, u, requested, now))
  {
    if Fresh(s, u) && Reserve(s.tables, u, requested, now).Ok? {
      ReserveKeepsQuota(s.tables, u, requested, now);
      forall t | now <= t
        ensures |Live(Reserve(s.tables, u, requested, now).value.reservations, t)| <= CONCURRENT_LIMIT
      {
        ReserveBoundsLeases(s.tables, u, requested, now, t);
      }
    }
  }

  lemma UrlSourceKeepsQuota(s: Ledger, u: Id, now: Time)
    requires QuotaOk(s)
    ensures QuotaOk(StepUrlSource(s, u, now))
  {
    ShrinkKeepsLeases(s.tables.reservations, Reclaim(s.tables.reservations, now), s.lastAdmission);
    if Fresh(s, u) {
      AddUrlSourceKeepsQuota(s.tables, u, now);
    }
  }

  lemma FinalizeBytesKeepsQuota(s: Ledger, u: Id, requested: int, now: Time)
    requires QuotaOk(s)
    ensures QuotaOk(StepFinalize(s, u, requested, now))
  {
    if u in s.requests && s.requests[u].Admitted? {
      FinalizeKeepsQuota(s.tables, u, s.requests[u].admitted, requested, now);
      if Finalize(s.tables, u, s.requests[u].admitted, requested, now).Ok? {
        var after := Finalize(s.tables, u, s.requests[u].admitted, requested, now).value;
        ShrinkKeepsLeases(s.tables.reservations, after.reservations, s.lastAdmission);
      }
    }
  }

  lemma CommitKeepsQuota(s: Ledger, u: Id)
    requires Protocol(s) && QuotaOk(s)
    ensures QuotaOk(StepCommit(s, u))
  {
    if StepCommit(s, u) != s {
      assert UploadOk(s, u);
      var q := s.requests[u];
      ExchangeCharges(s.tables, u, Source(Some(q.key), Some(q.bytes)));
      ShrinkKeepsLeases(s.tables.reservations, s.tables.reservations - {u}, s.lastAdmission);
    }
  }

  lemma ReleaseKeepsQuota(s: Ledger, u: Id)
    requires QuotaOk(s)
    ensures QuotaOk(StepRelease(s, u))
  {
    RemoveKeepsQuota(s.tables, u, s.lastAdmission);
  }

  lemma BindKeepsQuota(s: Ledger, u: Id, objectId: Id, now: Time)
    requires QuotaOk(s)
    ensures QuotaOk(StepBind(s, u, objectId, now))
  {
    if u in s.tables.reservations {
      ReplaceKeepsQuota(s.tables, u, s.tables.reservations[u].(cleanup := Some(u)), s.lastAdmission);
    }
  }

  lemma ExpireKeepsQuota(s: Ledger, u: Id, now: Time, ok: bool)
    requires QuotaOk(s)
    ensures QuotaOk(StepExpire(s, u, now, ok))
  {
    if u in s.tables.reservations && s.tables.reservations[u].lease > now {
      ReplaceKeepsQuota(s.tables, u, s.tables.reservations[u].(lease := now), s.lastAdmission);
    }
  }

  // ---- steps that release a reservation, or leave the tables alone ----

  /** The tables stay, or lose the linked reservation of one upload. */
  predicate AtMostReleases(s: Ledger, t: Ledger, u: Id) {
    t.lastAdmission == s.lastAdmission && (t.tables == s.tables || t.tables == Released(s.tables, u))
  }

  lemma ReleasingKeepsQuota(s: Ledger, t: Ledger, u: Id)
    requires QuotaOk(s) && AtMostReleases(s, t, u)
    ensures QuotaOk(t)
  {
    RemoveKeepsQuota(s.tables, u, s.lastAdmission);
  }

  lemma MarkInlineReleases(s: Ledger, u: Id)
    ensures AtMostReleases(s, StepMarkInline(s, u), u)
  {
  }

  lemma SweepReleases(s: Ledger, worker: bool, c: Id, u: Id, now: Time)
    ensures AtMostReleases(s, StepSweep(s, worker, c, u, now), u)
  {
  }

  lemma RecordReleases(s: Ledger, c: Id)
    ensures c in s.cleaners ==> AtMostReleases(s, StepRecord(s, c), s.cleaners[c].upload)
    ensures c !in s.cleaners ==> StepRecord(s, c) == s
  {
  }

  lemma IssuePutLeavesTables(s: Ledger, u: Id)
    ensures AtMostReleases(s, StepIssuePut(s, u), u)
  {
  }

  lemma LandLeavesTables(s: Ledger, k: Key)
    ensures AtMostReleases(s, StepLand(s, k), k.source)
  {
  }

  lemma PutAnswersLeaveTables(s: Ledger, u: Id)
    ensures AtMostReleases(s, StepPutReturns(s, u), u) && AtMostReleases(s, StepPutRaises(s, u), u)
    ensures AtMostReleases(s, StepCommitRaises(s, u), u)
  {
  }

  lemma ArmLeavesTables(s: Ledger, u: Id, now: Time, ok: bool)
    ensures AtMostReleases(s, StepArm(s, u, now, ok), u)
  {
  }

  lemma DeleteInlineLeavesTables(s: Ledger, u: Id, ok: bool, effective: bool)
    ensures AtMostReleases(s, StepDeleteInline(s, u, ok, effective), u)
  {
  }

  lemma ConfirmLeavesTables(s: Ledger, c: Id, answer: Answer)
    ensures AtMostReleases(s, StepConfirm(s, c, answer), c)
  {
  }

  lemma DeleteClaimedLeavesTables(s: Ledger, c: Id, ok: bool, effective: bool)
    ensures AtMostReleases(s, StepDeleteClaimed(s, c, ok, effective), c)
  {
  }

  /** Every other step leaves the tables alone or releases one reservation. */
  lemma OtherStepReleases(s: Ledger, a: Action) returns (u: Id)
    requires !a.Admit? && !a.CreateUrlSource? && !a.FinalizeBytes? && !a.CommitSource?
    requires !a.ReleaseAdmission? && !a.Bind? && !a.ExpireRequestLease?
    ensures AtMostReleases(s, Step(s, a), u)
  {
    match a {
      case MarkInline(x) => u := x; MarkInlineReleases(s, x);
      case SweepRow(worker, c, x, now) => u := x; SweepReleases(s, worker, c, x, now);
      case RecordOutcome(c) => u := if c in s.cleaners then s.cleaners[c].upload else c; RecordReleases(s, c);
      case IssuePut(x) => u := x; IssuePutLeavesTables(s, x);
      case PutLands(k) => u := k.source; LandLeavesTables(s, k);
      case PutReturns(x) => u := x; PutAnswersLeaveTables(s, x);
      case PutRaises(x) => u := x; PutAnswersLeaveTables(s, x);
      case CommitRaises(x) => u := x; PutAnswersLeaveTables(s, x);
      case ArmRequest(x, now, ok) => u := x; ArmLeavesTables(s, x, now, ok);
      case DeleteInline(x, ok, effective) => u := x; DeleteInlineLeavesTables(s, x, ok, effective);
      case Confirm(c, answer) => u := c; ConfirmLeavesTables(s, c, answer);
      case DeleteClaimed(c, ok, effective) => u := c; DeleteClaimedLeavesTables(s, c, ok, effective);
      case PutVanishes(k) => u := k.source;
      case CrashRequest(x) => u := x;
      case CrashCleaner(c) => u := c;
      case LateDelete(k) => u := k.source;
    }
  }

  lemma StepKeepsQuota(s: Ledger, a: Action)
    requires Protocol(s) && QuotaOk(s)
    ensures QuotaOk(Step(s, a))
  {
    match a
    case Admit(u, requested, now) => AdmitKeepsQuota(s, u, requested, now);
    case CreateUrlSource(u, now) => UrlSourceKeepsQuota(s, u, now);
    case FinalizeBytes(u, requested, now) => FinalizeBytesKeepsQuota(s, u, requested, now);
    case CommitSource(u) => CommitKeepsQuota(s, u);
    case ReleaseAdmission(u) => ReleaseKeepsQuota(s, u);
    case Bind(u, objectId, now) => BindKeepsQuota(s, u, objectId, now);
    case ExpireRequestLease(u, now, ok) => ExpireKeepsQuota(s, u, now, ok);
    case _ =>
      var u := OtherStepReleases(s, a);
      ReleasingKeepsQuota(s, Step(s, a), u);
  }

  /** Every run from an empty ledger, and from any ledger in order, stays in order. */
  lemma {:induction false} RunKeepsInv(s: Ledger, actions: seq<Action>)
    requires Inv(s)
    ensures Inv(Run(s, actions))
    decreases |actions|
  {
    if actions != [] {
      StepKeepsProtocol(s, actions[0]);
      StepKeepsQuota(s, actions[0]);
      RunKeepsInv(Step(s, actions[0]), actions[1..]);
    }
  }

  lemma EmptyIsInOrder(tenant: Id)
    ensures Inv(Empty(tenant))
  {
    var s := Empty(tenant);
    assert SumBy(s.tables.sources, SourceBytes) == 0;
    assert SumBy(s.tables.reservations, ReservedBytes) == 0;
    assert forall u :: UploadOk(s, u);
  }

  lemma ReachableIsInOrder(tenant: Id, actions: seq<Action>)
    ensures Inv(Run(Empty(tenant), actions))
  {
    EmptyIsInOrder(tenant);
    RunKeepsInv(Empty(tenant), actions);
  }

  // ---- the theorems ----

  /** Every stored or still storable object is charged to one row of the same size. */
  ghost predicate ChargedTo(k: Key, bytes: nat, t: Tables) {
    || (k.source in t.reservations && t.reservations[k.source].bytes == bytes)
    || (k.source in t.sources && t.sources[k.source].size == Some(bytes))
  }

  function Itself(n: nat): nat { n }

  /** Distinct sources are charged to distinct rows, so the sizes add up. */
  lemma {:induction false} ChargesAddUp(m: map<Key, nat>, t: Tables)
    requires forall k :: k in m ==> ChargedTo(k, m[k], t)
    requires forall j, k :: j in m && k in m && j.source == k.source ==> j == k
    ensures SumBy(m, Itself) <= ChargedBytes(t)
    decreases |m|
  {
    if m != map[] {
      var k :| k in m;
      var rest := m - {k};
      assert rest.Keys == m.Keys - {k};
      assert |rest.Keys| < |m.Keys|;
      SumByRemove(m, Itself, k);
      if k.source in t.reservations && t.reservations[k.source].bytes == m[k] {
        var u := t.(reservations := t.reservations - {k.source});
        forall j | j in rest ensures ChargedTo(j, rest[j], u) { assert ChargedTo(j, m[j], t); }
        ChargesAddUp(rest, u);
        SumByRemove(t.reservations, ReservedBytes, k.source);
      } else {
        assert ChargedTo(k, m[k], t);
        var u := t.(sources := t.sources - {k.source});
        forall j | j in rest ensures ChargedTo(j, rest[j], u) { assert ChargedTo(j, m[j], t); }
        ChargesAddUp(rest, u);
        SumByRemove(t.sources, SourceBytes, k.source);
      }
    }
  }

  /** Objects stored and PUTs that may still take effect. */
  function Occupied(s: Ledger): map<Key, nat> {
    s.objects + s.inFlight
  }

  lemma OccupiedIsCharged(s: Ledger)
    requires Protocol(s)
    ensures forall k :: k in Occupied(s) ==> ChargedTo(k, Occupied(s)[k], s.tables)
    ensures forall j, k :: j in Occupied(s) && k in Occupied(s) && j.source == k.source ==> j == k
    ensures s.objects.Keys !! s.inFlight.Keys
  {
    forall k | k in Occupied(s) ensures ChargedTo(k, Occupied(s)[k], s.tables) {
      assert UploadOk(s, k.source);
    }
    forall k | k in s.inFlight ensures k !in s.objects {
      assert UploadOk(s, k.source);
    }
  }

  /** Quota: whatever the interleaving, the bytes a tenant has stored or may yet store are
      covered by its source and reservation rows, which together stay within 1 GiB and 100
      rows, and no admission after which it could exceed three live leases commits. */
  lemma StoredBytesStayWithinQuota(tenant: Id, actions: seq<Action>)
    ensures var s := Run(Empty(tenant), actions);
      && SumBy(Occupied(s), Itself) <= ChargedBytes(s.tables) <= BYTE_LIMIT
      && ChargedRows(s.tables) <= SOURCE_LIMIT
      && (forall t :: s.lastAdmission.Some? && s.lastAdmission.value <= t ==>
            |Live(s.tables.reservations, t)| <= CONCURRENT_LIMIT)
  {
    ReachableIsInOrder(tenant, actions);
    var s := Run(Empty(tenant), actions);
    OccupiedIsCharged(s);
    ChargesAddUp(Occupied(s), s.tables);
  }

  /** Safety of committed sources: a committed file source's object is stored with the charged
      size, no DELETE was ever sent for it, and no cleaner ever claimed its row. */
  lemma CommittedSourcesAreSafe(tenant: Id, actions: seq<Action>, u: Id)
    requires u in Run(Empty(tenant), actions).tables.sources
    requires Run(Empty(tenant), actions).tables.sources[u].key.Some?
    ensures var s := Run(Empty(tenant), actions);
      var k := s.tables.sources[u].key.value;
      && k in s.objects && s.tables.sources[u].size == Some(s.objects[k])
      && k !in s.deleteIssued
      && u in s.cleanups && s.cleanups[u].status == Referenced && s.cleanups[u].attempts == 0
      && forall c :: c in s.cleaners ==> s.cleaners[c].upload != u && s.cleaners[c].key != k
  {
    ReachableIsInOrder(tenant, actions);
    var s := Run(Empty(tenant), actions);
    assert UploadOk(s, u);
    forall c | c in s.cleaners ensures s.cleaners[c].upload != u && s.cleaners[c].key != s.tables.sources[u].key.value {
      assert ClaimOk(s, c) && UploadOk(s, s.cleaners[c].upload);
    }
  }

  /** Ledger exactness, for every cleanup row ever created. */
  lemma LedgerIsExact(tenant: Id, actions: seq<Action>, u: Id)
    requires u in Run(Empty(tenant), actions).cleanups
    ensures var s := Run(Empty(tenant), actions);
      var status := s.cleanups[u].status;
      && (u in s.tables.reservations <==> status == Prepared || status == Pending || status == Exhausted)
      && (u in s.tables.reservations ==> s.tables.reservations[u].cleanup == Some(u))
      && (u in s.tables.sources <==> status == Referenced)
      && (status == Pending && s.cleanups[u].error != Some(PutAmbiguous) ==> s.cleanups[u].key in s.landed)
  {
    ReachableIsInOrder(tenant, actions);
    assert UploadOk(Run(Empty(tenant), actions), u);
  }

  /** No step changes a resolved row. */
  lemma StepKeepsResolved(s: Ledger, a: Action, u: Id)
    requires Protocol(s) && u in s.cleanups && !Unresolved(s.cleanups[u].status)
    ensures u in Step(s, a).cleanups && Step(s, a).cleanups[u] == s.cleanups[u]
  {
    assert UploadOk(s, u);
    StepIsRowEvent(s, a, u);
    if EventOf(s, a, u).Some? {
      ApplyKeepsValid(s.cleanups[u], EventOf(s, a, u).value);
    }
  }

  /** A cleanup that succeeded stays succeeded, its PUT had taken effect, and its object is
      absent then and in every later state. */
  lemma {:induction false} SucceededIsForever(s: Ledger, actions: seq<Action>, u: Id)
    requires Inv(s) && u in s.cleanups && s.cleanups[u].status == Succeeded
    ensures var t := Run(s, actions); var k := s.cleanups[u].key;
      && u in t.cleanups && t.cleanups[u] == s.cleanups[u]
      && k in t.landed && k !in t.inFlight && k !in t.objects
      && u !in t.tables.reservations && u !in t.tables.sources
    decreases |actions|
  {
    assert UploadOk(s, u);
    if actions != [] {
      StepKeepsResolved(s, actions[0], u);
      StepKeepsProtocol(s, actions[0]);
      StepKeepsQuota(s, actions[0]);
      SucceededIsForever(Step(s, actions[0]), actions[1..], u);
    }
  }

  /** A transaction whose commit reaches the database although the request sees an error. */
  function CommitThenRaise(s: Ledger, u: Id): Ledger {
    var t := StepCommit(s, u);
    if t == s then s else
      t.(requests := t.requests[u := Failing(s.requests[u].key, true, ExpireLease)])
  }

  /** Why "a block that raises has not committed" is assumed: otherwise the request goes on to
      delete the object of the source it has just committed, since arming a referenced row
      returns quietly and the delete does not look at the status again. */
  lemma CommitThenRaiseLosesTheObject(s: Ledger, u: Id, now: Time)
    requires Protocol(s) && StepCommit(s, u) != s
    ensures
      var failing := StepArm(StepExpire(CommitThenRaise(s, u), u, now, true), u, now, true);
      var t := StepDeleteInline(failing, u, true, true);
      && u in t.tables.sources && t.tables.sources[u].key.Some?
      && t.tables.sources[u].key.value in t.deleteIssued
      && t.tables.sources[u].key.value !in t.objects
  {
    assert UploadOk(s, u);
  }

  // ---- every ledger run is a run of each row ----

  /** The row transaction that an action performs on one upload, if any. */
  function EventOf(s: Ledger, a: Action, u: Id): Option<Event> {
    match a
    case SweepRow(worker, c, x, now) => if x == u && c !in s.cleaners then Some(Sweep(worker, now)) else None
    case ArmRequest(x, now, ok) =>
      if x == u && ok && AtStage(s, u, ArmCleanup) then Some(ArmedAt(now, PersistenceFailed)) else None
    case MarkInline(x) => if x == u && AtStage(s, u, MarkDeleted) then Some(DeletedInline) else None
    case CommitSource(x) => if x == u && StepCommit(s, u) != s then Some(ReferencedBySource) else None
    case RecordOutcome(c) =>
      if c in s.cleaners && s.cleaners[c].upload == u && s.cleaners[c].phase.FailedWith?
      then Some(Failed(s.cleaners[c].worker, s.cleaners[c].phase.code))
      else if c in s.cleaners && s.cleaners[c].upload == u && s.cleaners[c].phase.ObjectDeleted?
      then Some(Deleted(s.cleaners[c].worker))
      else None
    case _ => None
  }

  /** The row afterwards, if the action performs a transaction on it or not. */
  function RowAfter(s: Ledger, a: Action, u: Id): Row
    requires u in s.cleanups
  {
    if EventOf(s, a, u).Some? then Apply(s.cleanups[u], EventOf(s, a, u).value) else s.cleanups[u]
  }

  lemma SweepIsRowEvent(s: Ledger, worker: bool, c: Id, x: Id, now: Time, u: Id)
    requires u in s.cleanups
    ensures u in StepSweep(s, worker, c, x, now).cleanups
    ensures StepSweep(s, worker, c, x, now).cleanups[u] == RowAfter(s, SweepRow(worker, c, x, now), u)
  {
  }

  lemma RecordIsRowEvent(s: Ledger, c: Id, u: Id)
    requires u in s.cleanups
    ensures u in StepRecord(s, c).cleanups && StepRecord(s, c).cleanups[u] == RowAfter(s, RecordOutcome(c), u)
  {
  }

  lemma ArmIsRowEvent(s: Ledger, x: Id, now: Time, ok: bool, u: Id)
    requires u in s.cleanups
    ensures u in StepArm(s, x, now, ok).cleanups
    ensures StepArm(s, x, now, ok).cleanups[u] == RowAfter(s, ArmRequest(x, now, ok), u)
  {
  }

  lemma MarkInlineIsRowEvent(s: Ledger, x: Id, u: Id)
    requires u in s.cleanups
    ensures u in StepMarkInline(s, x).cleanups && StepMarkInline(s, x).cleanups[u] == RowAfter(s, MarkInline(x), u)
  {
  }

  lemma CommitIsRowEvent(s: Ledger, x: Id, u: Id)
    requires u in s.cleanups
    ensures u in StepCommit(s, x).cleanups && StepCommit(s, x).cleanups[u] == RowAfter(s, CommitSource(x), u)
  {
  }

  /** An action that performs no row transaction leaves every existing row alone. */
  lemma OthersLeaveRow(s: Ledger, a: Action, u: Id)
    requires u in s.cleanups
    requires !a.SweepRow? && !a.RecordOutcome? && !a.ArmRequest? && !a.MarkInline? && !a.CommitSource?
    ensures u in Step(s, a).cleanups && Step(s, a).cleanups[u] == s.cleanups[u]
  {
  }

  lemma CleanerIsRowEvent(s: Ledger, a: Action, u: Id)
    requires u in s.cleanups && (a.SweepRow? || a.RecordOutcome?)
    ensures u in Step(s, a).cleanups && Step(s, a).cleanups[u] == RowAfter(s, a, u)
  {
    if a.SweepRow? { SweepIsRowEvent(s, a.worker, a.c, a.u, a.now, u); } else { RecordIsRowEvent(s, a.c, u); }
  }

  lemma RequestIsRowEvent(s: Ledger, a: Action, u: Id)
    requires u in s.cleanups && (a.ArmRequest? || a.MarkInline? || a.CommitSource?)
    ensures u in Step(s, a).cleanups && Step(s, a).cleanups[u] == RowAfter(s, a, u)
  {
    if a.ArmRequest? {
      ArmIsRowEvent(s, a.u, a.now, a.ok, u);
    } else if a.MarkInline? {
      MarkInlineIsRowEvent(s, a.u, u);
    } else {
      CommitIsRowEvent(s, a.u, u);
    }
  }

  lemma StepIsRowEvent(s: Ledger, a: Action, u: Id)
    requires u in s.cleanups
    ensures u in Step(s, a).cleanups && Step(s, a).cleanups[u] == RowAfter(s, a, u)
  {
    if a.SweepRow? || a.RecordOutcome? {
      CleanerIsRowEvent(s, a, u);
    } else if a.ArmRequest? || a.MarkInline? || a.CommitSource? {
      RequestIsRowEvent(s, a, u);
    } else {
      OthersLeaveRow(s, a, u);
    }
  }

  ghost function History(s: Ledger, actions: seq<Action>, u: Id): seq<Event>
    decreases |actions|
  {
    if actions == [] then [] else
      var e := EventOf(s, actions[0], u);
      (if e.Some? then [e.value] else []) + History(Step(s, actions[0]), actions[1..], u)
  }

  lemma {:induction false} RunIsRowRun(s: Ledger, actions: seq<Action>, u: Id)
    requires u in s.cleanups
    ensures u in Run(s, actions).cleanups
    ensures Run(s, actions).cleanups[u] == RunRow(s.cleanups[u], History(s, actions, u))
    decreases |actions|
  {
    if actions != [] {
      StepIsRowEvent(s, actions[0], u);
      RunIsRowRun(Step(s, actions[0]), actions[1..], u);
      var e := EventOf(s, actions[0], u);
      var rest := History(Step(s, actions[0]), actions[1..], u);
      if e.Some? {
        assert ([e.value] + rest)[1..] == rest;
      } else {
        assert [] + rest == rest;
      }
    }
  }

  /** Bounded reconciliation: over any run, requests and both kinds of cleaner interleaved, a
      freshly prepared row is claimed at most three times, is found due at most four times,
      and is exhausted if it was found due four times. */
  lemma ReconciliationIsBounded(s: Ledger, actions: seq<Action>, u: Id)
    requires Protocol(s) && u in s.cleanups && s.cleanups[u].status == Prepared
    ensures var history := History(s, actions, u);
      && Claims(s.cleanups[u], history) <= 3
      && DueSweeps(s.cleanups[u], history) <= 4
      && u in Run(s, actions).cleanups
      && (DueSweeps(s.cleanups[u], history) == 4 ==> Run(s, actions).cleanups[u].status == Exhausted)
  {
    assert UploadOk(s, u);
    RunIsRowRun(s, actions, u);
    SweepsAreBounded(s.cleanups[u], History(s, actions, u));
  }
}
