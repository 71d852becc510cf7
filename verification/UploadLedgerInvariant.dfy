/** The invariant of the upload protocol, and that every step keeps it.

    The invariant is a condition on everything the ledger holds about one upload. A step
    touches one upload, so it is enough to look at that upload's view before and after. */
module UploadLedgerInvariant {
  import opened Common
  import opened CleanupRows
  import opened Quota
  import opened UploadLedger

  /** Everything the tables, the requests and the object store hold about one upload. */
  datatype View = View(
    source: Option<Source>, reservation: Option<Reservation>, row: Option<Row>, request: Option<Request>,
    inFlight: Option<nat>, landed: bool, stored: Option<nat>, deleteIssued: bool)

  function Lookup<K, V>(m: map<K, V>, k: K): Option<V> {
    if k in m then Some(m[k]) else None
  }

  function ViewOf(s: Ledger, u: Id): View {
    var source := Lookup(s.tables.sources, u);
    var reservation := Lookup(s.tables.reservations, u);
    var request := Lookup(s.requests, u);
    if u !in s.cleanups then View(source, reservation, None, request, None, false, None, false) else
      var k := s.cleanups[u].key;
      View(source, reservation, Some(s.cleanups[u]), request,
           Lookup(s.inFlight, k), k in s.landed, Lookup(s.objects, k), k in s.deleteIssued)
  }

  predicate HoldsReservation(status: Status) {
    status == Prepared || status == Pending || status == Exhausted
  }

  predicate RowOk(tenant: Id, u: Id, row: Row) {
    && Valid(row) && row.tenant == tenant && row.source == u && KeyMatches(row)
    && (row.status == Prepared ==> row.error == None)
    && (row.status == Prepared || row.status == Referenced ==> row.attempts == 0)
  }

  /** A linked reservation exists exactly for an unresolved or exhausted cleanup, and a file
      source exactly for a referenced one. */
  predicate Exact(u: Id, v: View) {
    && (v.reservation.Some? ==> (v.reservation.value.cleanup.Some? <==> v.row.Some?))
    && (v.reservation.Some? && v.row.Some? ==> v.reservation.value.cleanup == Some(u))
    && (v.row.Some? ==> (v.reservation.Some? <==> HoldsReservation(v.row.value.status)))
    && (v.row.Some? ==> (v.source.Some? <==> v.row.value.status == Referenced))
    && (v.source.Some? ==> v.reservation.None? && (v.source.value.key.Some? <==> v.row.Some?))
    && (v.source.Some? && v.row.Some? ==> v.source.value.key == Some(v.row.value.key) && v.source.value.size.Some?)
  }

  /** The PUT takes effect at most once, and only a DELETE removes the object. */
  predicate StoreOk(v: View) {
    && (v.inFlight.Some? ==> !v.landed)
    && (v.stored.Some? ==> v.landed)
    && (v.landed ==> v.stored.Some? || v.deleteIssued)
  }

  /** A stored or storable object has the size it is charged for. */
  predicate SizesOk(v: View) {
    && (v.inFlight.Some? && v.reservation.Some? ==> v.reservation.value.bytes == v.inFlight.value)
    && (v.stored.Some? && v.reservation.Some? ==> v.reservation.value.bytes == v.stored.value)
    && (v.stored.Some? && v.source.Some? ==> v.source.value.size == v.stored)
  }

  /** What the status proves about the PUT: in particular a pending row whose error is not
      "ambiguous" implies that the PUT took effect. */
  predicate StatusProves(v: View) {
    v.row.Some? ==>
      var row := v.row.value;
      && (row.status == Pending && row.error != Some(PutAmbiguous) ==> v.landed)
      && (row.status == Succeeded ==> v.landed && v.stored.None?)
      && (row.status == Referenced ==> v.stored.Some? && !v.deleteIssued)
  }

  /** A request that may still commit its source. */
  predicate Working(v: View, bytes: nat, k: Key) {
    && v.row.Some? && v.row.value.key == k && v.row.value.status != Referenced
    && (v.reservation.Some? ==> v.reservation.value.bytes == bytes)
    && (v.row.value.status == Prepared ==> !v.deleteIssued)
  }

  predicate RequestOk(v: View, q: Request) {
    match q
    case Admitted(_) => v.row.None? && v.source.None?
    case Finalized(bytes) =>
      v.row.None? && v.source.None? && (v.reservation.Some? ==> v.reservation.value.bytes == bytes)
    case Bound(bytes, k) => Working(v, bytes, k) && v.inFlight.None? && !v.landed
    case Putting(bytes, k) => Working(v, bytes, k)
    case Stored(bytes, k) => Working(v, bytes, k) && v.landed
    case Failing(k, confirmed, stage) =>
      && v.row.Some? && v.row.value.key == k && v.row.value.status != Referenced
      && (confirmed ==> v.landed)
      && (stage == ArmCleanup || stage == MarkDeleted ==> confirmed)
      && (stage == MarkDeleted ==> v.stored.None?)
  }

  predicate ViewOk(tenant: Id, u: Id, v: View) {
    && (v.row.Some? ==> RowOk(tenant, u, v.row.value))
    && Exact(u, v) && StoreOk(v) && SizesOk(v) && StatusProves(v)
    && (v.request.Some? ==> RequestOk(v, v.request.value))
  }

  predicate CleanerOk(c: Cleaner, v: View) {
    && v.row.Some? && v.row.value.key == c.key
    && v.row.value.status != Prepared && v.row.value.status != Referenced
    && (c.phase != Confirming && c.phase != FailedWith(PutAmbiguous) ==> v.landed)
    && (c.phase == ObjectDeleted ==> v.stored.None?)
  }

  ghost predicate KeysOk(s: Ledger) {
    forall k :: k in s.inFlight || k in s.landed || k in s.deleteIssued || k in s.objects ==>
      k.source in s.cleanups && s.cleanups[k.source].key == k
  }

  ghost predicate UploadOk(s: Ledger, u: Id) {
    ViewOk(s.tenant, u, ViewOf(s, u))
  }

  ghost predicate ClaimOk(s: Ledger, c: Id) {
    c in s.cleaners ==> CleanerOk(s.cleaners[c], ViewOf(s, s.cleaners[c].upload))
  }

  ghost predicate Protocol(s: Ledger) {
    && KeysOk(s)
    && (forall u :: u in s.cleanups ==> s.cleanups[u].key.source == u)
    && (forall u :: UploadOk(s, u))
    && (forall c :: ClaimOk(s, c))
  }

  /** How a view may change: keys stay, no row becomes prepared or referenced again, a PUT that
      landed has landed, and an object that is gone stays gone. */
  predicate Evolves(v: View, w: View) {
    && (v.row.Some? ==> w.row.Some? && w.row.value.key == v.row.value.key)
    && (v.row.Some? && v.row.value.status != Prepared ==>
          (w.row.value.status == Referenced <==> v.row.value.status == Referenced)
          && w.row.value.status != Prepared)
    && (v.landed ==> w.landed)
    && (v.landed && v.stored.None? ==> w.stored.None?)
  }

  /** A step that touches one upload, and that leaves the cleaners it touches in order. */
  lemma OneUploadKeeps(s: Ledger, t: Ledger, u: Id)
    requires Protocol(s) && t.tenant == s.tenant && KeysOk(t)
    requires forall x :: x != u ==> ViewOf(t, x) == ViewOf(s, x)
    requires ViewOk(t.tenant, u, ViewOf(t, u)) && Evolves(ViewOf(s, u), ViewOf(t, u))
    requires forall c :: c in t.cleaners ==> (c in s.cleaners && t.cleaners[c] == s.cleaners[c]) || ClaimOk(t, c)
    ensures Protocol(t)
  {
    forall x ensures UploadOk(t, x) {
      assert UploadOk(s, x);
    }
    forall x | x in t.cleanups ensures t.cleanups[x].key.source == x {
      assert UploadOk(t, x);
    }
    forall c ensures ClaimOk(t, c) {
      assert ClaimOk(s, c);
    }
  }

  /** The same, with the new view named. */
  lemma NewViewKeeps(s: Ledger, t: Ledger, u: Id, w: View)
    requires Protocol(s) && t.tenant == s.tenant && t.cleaners == s.cleaners && KeysOk(t)
    requires forall x :: x != u ==> ViewOf(t, x) == ViewOf(s, x)
    requires ViewOf(t, u) == w && ViewOk(s.tenant, u, w) && Evolves(ViewOf(s, u), w)
    ensures Protocol(t)
  {
    OneUploadKeeps(s, t, u);
  }

  // ---- each step keeps the protocol invariant ----

  lemma ReclaimKeeps(s: Ledger, now: Time)
    requires Protocol(s)
    ensures Protocol(s.(tables := s.tables.(reservations := Reclaim(s.tables.reservations, now))))
  {
    var t := s.(tables := s.tables.(reservations := Reclaim(s.tables.reservations, now)));
    forall x ensures UploadOk(t, x) {
      var v, w := ViewOf(s, x), ViewOf(t, x);
      assert UploadOk(s, x);
      assert w == v || (w == v.(reservation := None) && v.reservation.value.cleanup.None?);
    }
    forall c ensures ClaimOk(t, c) {
      assert ClaimOk(s, c);
    }
  }

  lemma NewReservationKeeps(s: Ledger, u: Id, admitted: nat, lease: Time, last: Option<Time>)
    requires Protocol(s) && Fresh(s, u)
    ensures Protocol(s.(
      tables := s.tables.(reservations := s.tables.reservations[u := Reservation(admitted, None, lease)]),
      requests := s.requests[u := Admitted(admitted)], lastAdmission := last))
  {
    assert UploadOk(s, u);
    OneUploadKeeps(s, s.(
      tables := s.tables.(reservations := s.tables.reservations[u := Reservation(admitted, None, lease)]),
      requests := s.requests[u := Admitted(admitted)], lastAdmission := last), u);
  }

  lemma AdmitKeeps(s: Ledger, u: Id, requested: int, now: Time)
    requires Protocol(s)
    ensures Protocol(StepAdmit(s, u, requested, now))
  {
    if Fresh(s, u) && Reserve(s.tables, u, requested, now).Ok? {
      ReclaimKeeps(s, now);
      var m := s.(tables := s.tables.(reservations := Reclaim(s.tables.reservations, now)));
      NewReservationKeeps(m, u, requested, now + UPLOAD_LEASE, Some(now));
    }
  }

  lemma UrlSourceKeeps(s: Ledger, u: Id, now: Time)
    requires Protocol(s)
    ensures Protocol(StepUrlSource(s, u, now))
  {
    var t := StepUrlSource(s, u, now);
    if t != s {
      ReclaimKeeps(s, now);
      var m := s.(tables := s.tables.(reservations := Reclaim(s.tables.reservations, now)));
      assert UploadOk(m, u);
      OneUploadKeeps(m, t, u);
    }
  }

  lemma FinalizeKeeps(s: Ledger, u: Id, requested: int, now: Time)
    requires Protocol(s)
    ensures Protocol(StepFinalize(s, u, requested, now))
  {
    var t := StepFinalize(s, u, requested, now);
    if t != s {
      ReclaimKeeps(s, now);
      var m := s.(tables := s.tables.(reservations := Reclaim(s.tables.reservations, now)));
      assert UploadOk(m, u);
      OneUploadKeeps(m, t, u);
    }
  }

  lemma ReleaseKeeps(s: Ledger, u: Id)
    requires Protocol(s)
    ensures Protocol(StepRelease(s, u))
  {
    assert UploadOk(s, u);
    OneUploadKeeps(s, StepRelease(s, u), u);
  }

  lemma BindKeeps(s: Ledger, u: Id, objectId: Id, now: Time)
    requires Protocol(s)
    ensures Protocol(StepBind(s, u, objectId, now))
  {
    assert UploadOk(s, u);
    OneUploadKeeps(s, StepBind(s, u, objectId, now), u);
  }

  lemma IssuePutKeeps(s: Ledger, u: Id)
    requires Protocol(s)
    ensures Protocol(StepIssuePut(s, u))
  {
    assert UploadOk(s, u);
    OneUploadKeeps(s, StepIssuePut(s, u), u);
  }

  lemma LandKeeps(s: Ledger, k: Key)
    requires Protocol(s)
    ensures Protocol(StepLand(s, k))
  {
    assert UploadOk(s, k.source);
    OneUploadKeeps(s, StepLand(s, k), k.source);
  }

  lemma VanishKeeps(s: Ledger, k: Key)
    requires Protocol(s)
    ensures Protocol(s.(inFlight := s.inFlight - {k}))
  {
    assert UploadOk(s, k.source);
    OneUploadKeeps(s, s.(inFlight := s.inFlight - {k}), k.source);
  }

  lemma LateDeleteKeeps(s: Ledger, k: Key)
    requires Protocol(s) && k in s.deleteIssued
    ensures Protocol(s.(objects := s.objects - {k}))
  {
    assert UploadOk(s, k.source);
    OneUploadKeeps(s, s.(objects := s.objects - {k}), k.source);
  }

  lemma PutReturnsKeeps(s: Ledger, u: Id)
    requires Protocol(s)
    ensures Protocol(StepPutReturns(s, u))
  {
    assert UploadOk(s, u);
    OneUploadKeeps(s, StepPutReturns(s, u), u);
  }

  lemma PutRaisesKeeps(s: Ledger, u: Id)
    requires Protocol(s)
    ensures Protocol(StepPutRaises(s, u))
  {
    assert UploadOk(s, u);
    OneUploadKeeps(s, StepPutRaises(s, u), u);
  }

  lemma CommitKeeps(s: Ledger, u: Id)
    requires Protocol(s)
    ensures Protocol(StepCommit(s, u))
  {
    assert UploadOk(s, u);
    OneUploadKeeps(s, StepCommit(s, u), u);
  }

  lemma CommitRaisesKeeps(s: Ledger, u: Id)
    requires Protocol(s)
    ensures Protocol(StepCommitRaises(s, u))
  {
    assert UploadOk(s, u);
    OneUploadKeeps(s, StepCommitRaises(s, u), u);
  }

  /** A failed request's view. */
  predicate FailingAt(v: View, stage: FailStage) {
    v.request.Some? && v.request.value.Failing? && v.request.value.stage == stage
  }

  function Expired(v: View, u: Id, now: Time, ok: bool): View
    requires FailingAt(v, ExpireLease)
  {
    var q := v.request.value;
    var linked := ok && v.reservation.Some? && v.reservation.value.cleanup == Some(u)
                  && v.reservation.value.lease > now;
    v.(reservation := if linked then Some(v.reservation.value.(lease := now)) else v.reservation,
       request := Some(q.(stage := if q.confirmed then ArmCleanup else DeleteObject)))
  }

  lemma ExpireView(tenant: Id, u: Id, v: View, now: Time, ok: bool)
    requires ViewOk(tenant, u, v) && FailingAt(v, ExpireLease)
    ensures ViewOk(tenant, u, Expired(v, u, now, ok)) && Evolves(v, Expired(v, u, now, ok))
  {
  }

  lemma ExpireChangesView(s: Ledger, u: Id, now: Time, ok: bool)
    requires KeysOk(s) && AtStage(s, u, ExpireLease)
    ensures ViewOf(StepExpire(s, u, now, ok), u) == Expired(ViewOf(s, u), u, now, ok)
    ensures forall x :: x != u ==> ViewOf(StepExpire(s, u, now, ok), x) == ViewOf(s, x)
    ensures KeysOk(StepExpire(s, u, now, ok))
  {
  }

  lemma ExpireKeeps(s: Ledger, u: Id, now: Time, ok: bool)
    requires Protocol(s)
    ensures Protocol(StepExpire(s, u, now, ok))
  {
    if AtStage(s, u, ExpireLease) {
      assert UploadOk(s, u);
      ExpireView(s.tenant, u, ViewOf(s, u), now, ok);
      ExpireChangesView(s, u, now, ok);
      NewViewKeeps(s, StepExpire(s, u, now, ok), u, Expired(ViewOf(s, u), u, now, ok));
    }
  }

  function Armed(v: View, now: Time, ok: bool): View
    requires FailingAt(v, ArmCleanup)
  {
    v.(row := if ok && v.row.Some? then Some(Arm(v.row.value, now, PersistenceFailed)) else v.row,
       request := Some(v.request.value.(stage := DeleteObject)))
  }

  lemma ArmView(tenant: Id, u: Id, v: View, now: Time, ok: bool)
    requires ViewOk(tenant, u, v) && FailingAt(v, ArmCleanup)
    ensures ViewOk(tenant, u, Armed(v, now, ok)) && Evolves(v, Armed(v, now, ok))
  {
  }

  lemma ArmChangesView(s: Ledger, u: Id, now: Time, ok: bool)
    requires KeysOk(s) && AtStage(s, u, ArmCleanup)
    ensures ViewOf(StepArm(s, u, now, ok), u) == Armed(ViewOf(s, u), now, ok)
    ensures forall x :: x != u ==> ViewOf(StepArm(s, u, now, ok), x) == ViewOf(s, x)
    ensures KeysOk(StepArm(s, u, now, ok))
  {
  }

  lemma ArmKeeps(s: Ledger, u: Id, now: Time, ok: bool)
    requires Protocol(s)
    ensures Protocol(StepArm(s, u, now, ok))
  {
    if AtStage(s, u, ArmCleanup) {
      assert UploadOk(s, u);
      ArmView(s.tenant, u, ViewOf(s, u), now, ok);
      ArmChangesView(s, u, now, ok);
      NewViewKeeps(s, StepArm(s, u, now, ok), u, Armed(ViewOf(s, u), now, ok));
    }
  }

  function DeletedBy(v: View, ok: bool, effective: bool): View
    requires FailingAt(v, DeleteObject)
  {
    var q := v.request.value;
    v.(stored := if ok || effective then None else v.stored, deleteIssued := true,
       request := if ok && q.confirmed then Some(q.(stage := MarkDeleted)) else None)
  }

  lemma DeleteInlineView(tenant: Id, u: Id, v: View, ok: bool, effective: bool)
    requires ViewOk(tenant, u, v) && FailingAt(v, DeleteObject)
    ensures ViewOk(tenant, u, DeletedBy(v, ok, effective)) && Evolves(v, DeletedBy(v, ok, effective))
  {
  }

  lemma DeleteInlineChangesView(s: Ledger, u: Id, ok: bool, effective: bool)
    requires Protocol(s) && AtStage(s, u, DeleteObject)
    ensures ViewOf(StepDeleteInline(s, u, ok, effective), u) == DeletedBy(ViewOf(s, u), ok, effective)
    ensures forall x :: x != u ==> ViewOf(StepDeleteInline(s, u, ok, effective), x) == ViewOf(s, x)
    ensures KeysOk(StepDeleteInline(s, u, ok, effective))
  {
    assert UploadOk(s, u);
  }

  lemma DeleteInlineKeeps(s: Ledger, u: Id, ok: bool, effective: bool)
    requires Protocol(s)
    ensures Protocol(StepDeleteInline(s, u, ok, effective))
  {
    if AtStage(s, u, DeleteObject) {
      assert UploadOk(s, u);
      DeleteInlineView(s.tenant, u, ViewOf(s, u), ok, effective);
      DeleteInlineChangesView(s, u, ok, effective);
      NewViewKeeps(s, StepDeleteInline(s, u, ok, effective), u, DeletedBy(ViewOf(s, u), ok, effective));
    }
  }

  function Marked(v: View, u: Id): View
    requires v.row.Some?
  {
    var status := v.row.value.status;
    var linked := v.reservation.Some? && v.reservation.value.cleanup == Some(u);
    v.(row := Some(InlineDeleted(v.row.value)), request := None,
       reservation := if linked && status != Referenced && status != Exhausted then None else v.reservation)
  }

  lemma MarkInlineView(tenant: Id, u: Id, v: View)
    requires ViewOk(tenant, u, v) && FailingAt(v, MarkDeleted)
    ensures v.row.Some? && ViewOk(tenant, u, Marked(v, u)) && Evolves(v, Marked(v, u))
  {
  }

  lemma MarkInlineChangesView(s: Ledger, u: Id)
    requires KeysOk(s) && AtStage(s, u, MarkDeleted) && u in s.cleanups
    ensures ViewOf(StepMarkInline(s, u), u) == Marked(ViewOf(s, u), u)
    ensures forall x :: x != u ==> ViewOf(StepMarkInline(s, u), x) == ViewOf(s, x)
    ensures KeysOk(StepMarkInline(s, u))
  {
  }

  lemma MarkInlineKeeps(s: Ledger, u: Id)
    requires Protocol(s)
    ensures Protocol(StepMarkInline(s, u))
  {
    if AtStage(s, u, MarkDeleted) && u in s.cleanups {
      assert UploadOk(s, u);
      MarkInlineView(s.tenant, u, ViewOf(s, u));
      MarkInlineChangesView(s, u);
      NewViewKeeps(s, StepMarkInline(s, u), u, Marked(ViewOf(s, u), u));
    }
  }

  lemma CrashRequestKeeps(s: Ledger, u: Id)
    requires Protocol(s)
    ensures Protocol(s.(requests := s.requests - {u}))
  {
    assert UploadOk(s, u);
    OneUploadKeeps(s, s.(requests := s.requests - {u}), u);
  }

  /** What a claim leaves of an upload, and what it hands to the cleaner. */
  lemma SweepView(tenant: Id, u: Id, v: View, worker: bool, now: Time)
    requires ViewOk(tenant, u, v) && v.row.Some?
    ensures var (next, claim) := ClaimStep(worker, v.row.value, now);
      var w := v.(row := Some(next));
      && ViewOk(tenant, u, w) && Evolves(v, w)
      && (claim.Some? ==>
            var phase := if claim.value.needsPresence then Confirming else Deleting;
            CleanerOk(Cleaner(worker, u, claim.value.key, phase), w))
  {
  }

  lemma SweepKeeps(s: Ledger, worker: bool, c: Id, u: Id, now: Time)
    requires Protocol(s)
    ensures Protocol(StepSweep(s, worker, c, u, now))
  {
    var t := StepSweep(s, worker, c, u, now);
    if c !in s.cleaners && u in s.cleanups {
      assert UploadOk(s, u);
      SweepView(s.tenant, u, ViewOf(s, u), worker, now);
      assert ViewOf(t, u) == ViewOf(s, u).(row := Some(t.cleanups[u]));
      OneUploadKeeps(s, t, u);
    }
  }

  lemma ConfirmKeeps(s: Ledger, c: Id, answer: Answer)
    requires Protocol(s)
    ensures Protocol(StepConfirm(s, c, answer))
  {
    if c in s.cleaners {
      var u := s.cleaners[c].upload;
      assert UploadOk(s, u) && ClaimOk(s, c);
      OneUploadKeeps(s, StepConfirm(s, c, answer), u);
    }
  }

  function Swept(v: View, takesEffect: bool): View {
    v.(stored := if takesEffect then None else v.stored, deleteIssued := true)
  }

  /** A cleaner's DELETE, and the cleaner after it. */
  lemma DeleteClaimedView(tenant: Id, u: Id, v: View, c: Cleaner, ok: bool, effective: bool)
    requires ViewOk(tenant, u, v) && CleanerOk(c, v) && c.phase == Deleting
    ensures var w := Swept(v, ok || effective);
      && ViewOk(tenant, u, w) && Evolves(v, w)
      && CleanerOk(c.(phase := if ok then ObjectDeleted else FailedWith(StorageUnavailable)), w)
  {
  }

  lemma DeleteClaimedChangesView(s: Ledger, c: Id, ok: bool, effective: bool)
    requires KeysOk(s) && c in s.cleaners && s.cleaners[c].phase == Deleting
    requires var u := s.cleaners[c].upload;
      u in s.cleanups && s.cleanups[u].key == s.cleaners[c].key && s.cleanups[u].key.source == u
    ensures var u, t := s.cleaners[c].upload, StepDeleteClaimed(s, c, ok, effective);
      && ViewOf(t, u) == Swept(ViewOf(s, u), ok || effective) && KeysOk(t)
      && forall x :: x != u && (x in s.cleanups ==> s.cleanups[x].key.source == x) ==> ViewOf(t, x) == ViewOf(s, x)
  {
  }

  lemma DeleteClaimedKeeps(s: Ledger, c: Id, ok: bool, effective: bool)
    requires Protocol(s)
    ensures Protocol(StepDeleteClaimed(s, c, ok, effective))
  {
    if c in s.cleaners && s.cleaners[c].phase == Deleting {
      var u := s.cleaners[c].upload;
      assert UploadOk(s, u) && ClaimOk(s, c);
      DeleteClaimedView(s.tenant, u, ViewOf(s, u), s.cleaners[c], ok, effective);
      DeleteClaimedChangesView(s, c, ok, effective);
      OneUploadKeeps(s, StepDeleteClaimed(s, c, ok, effective), u);
    }
  }

  /** The row a cleaner's record leaves, and whether it releases the reservation. */
  function Recorded(c: Cleaner, row: Row): Row {
    if c.phase.FailedWith? then RecordFailed(c.worker, row, c.phase.code) else RecordDeleted(c.worker, row)
  }

  lemma RecordView(tenant: Id, u: Id, v: View, c: Cleaner)
    requires ViewOk(tenant, u, v) && CleanerOk(c, v) && (c.phase.ObjectDeleted? || c.phase.FailedWith?)
    ensures var next := Recorded(c, v.row.value);
      var w := v.(row := Some(next), reservation := if next.status == Succeeded then None else v.reservation);
      ViewOk(tenant, u, w) && Evolves(v, w)
  {
  }

  function AfterRecord(v: View, c: Cleaner): View
    requires v.row.Some?
  {
    var next := Recorded(c, v.row.value);
    v.(row := Some(next), reservation := if next.status == Succeeded then None else v.reservation)
  }

  lemma RecordLeavesOthers(s: Ledger, c: Id, x: Id)
    requires c in s.cleaners && x != s.cleaners[c].upload
    ensures ViewOf(StepRecord(s, c), x) == ViewOf(s, x)
  {
  }

  lemma RecordKeepsKeys(s: Ledger, c: Id)
    requires KeysOk(s)
    ensures KeysOk(StepRecord(s, c))
  {
  }

  lemma RecordChangesView(s: Ledger, c: Id)
    requires c in s.cleaners && StepRecord(s, c) != s
    requires ViewOk(s.tenant, s.cleaners[c].upload, ViewOf(s, s.cleaners[c].upload))
    requires CleanerOk(s.cleaners[c], ViewOf(s, s.cleaners[c].upload))
    ensures var u := s.cleaners[c].upload; ViewOf(StepRecord(s, c), u) == AfterRecord(ViewOf(s, u), s.cleaners[c])
  {
  }

  lemma RecordKeeps(s: Ledger, c: Id)
    requires Protocol(s)
    ensures Protocol(StepRecord(s, c))
  {
    var t := StepRecord(s, c);
    if t != s {
      var u := s.cleaners[c].upload;
      assert UploadOk(s, u) && ClaimOk(s, c);
      RecordView(s.tenant, u, ViewOf(s, u), s.cleaners[c]);
      RecordChangesView(s, c);
      RecordKeepsKeys(s, c);
      forall x | x != u ensures ViewOf(t, x) == ViewOf(s, x) { RecordLeavesOthers(s, c, x); }
      OneUploadKeeps(s, t, u);
    }
  }

  lemma CrashCleanerKeeps(s: Ledger, c: Id)
    requires Protocol(s)
    ensures Protocol(s.(cleaners := s.cleaners - {c}))
  {
    assert UploadOk(s, 0);
    OneUploadKeeps(s, s.(cleaners := s.cleaners - {c}), 0);
  }

  predicate ByRequest(a: Action) {
    a.IssuePut? || a.PutLands? || a.PutVanishes? || a.PutReturns? || a.PutRaises? || a.CommitSource? || a.CommitRaises?
  }

  predicate ByFailedRequest(a: Action) {
    a.ExpireRequestLease? || a.ArmRequest? || a.DeleteInline? || a.MarkInline? || a.CrashRequest?
  }

  predicate ByCleaner(a: Action) {
    a.SweepRow? || a.Confirm? || a.DeleteClaimed? || a.RecordOutcome?
  }

  lemma RequestKeeps(s: Ledger, a: Action)
    requires Protocol(s) && ByRequest(a)
    ensures Protocol(Step(s, a))
  {
    match a
    case IssuePut(u) => IssuePutKeeps(s, u);
    case PutLands(k) => LandKeeps(s, k);
    case PutVanishes(k) => VanishKeeps(s, k);
    case PutReturns(u) => PutReturnsKeeps(s, u);
    case PutRaises(u) => PutRaisesKeeps(s, u);
    case CommitSource(u) => CommitKeeps(s, u);
    case CommitRaises(u) => CommitRaisesKeeps(s, u);
  }

  lemma FailedRequestKeeps(s: Ledger, a: Action)
    requires Protocol(s) && ByFailedRequest(a)
    ensures Protocol(Step(s, a))
  {
    match a
    case ExpireRequestLease(u, now, ok) => ExpireKeeps(s, u, now, ok);
    case ArmRequest(u, now, ok) => ArmKeeps(s, u, now, ok);
    case DeleteInline(u, ok, effective) => DeleteInlineKeeps(s, u, ok, effective);
    case MarkInline(u) => MarkInlineKeeps(s, u);
    case CrashRequest(u) => CrashRequestKeeps(s, u);
  }

  lemma CleanerKeeps(s: Ledger, a: Action)
    requires Protocol(s) && ByCleaner(a)
    ensures Protocol(Step(s, a))
  {
    match a
    case SweepRow(worker, c, u, now) => SweepKeeps(s, worker, c, u, now);
    case Confirm(c, answer) => ConfirmKeeps(s, c, answer);
    case DeleteClaimed(c, ok, effective) => DeleteClaimedKeeps(s, c, ok, effective);
    case RecordOutcome(c) => RecordKeeps(s, c);
  }

  lemma StepKeepsProtocol(s: Ledger, a: Action)
    requires Protocol(s)
    ensures Protocol(Step(s, a))
  {
    if ByRequest(a) {
      RequestKeeps(s, a);
    } else if ByFailedRequest(a) {
      FailedRequestKeeps(s, a);
    } else if ByCleaner(a) {
      CleanerKeeps(s, a);
    } else {
      match a
      case Admit(u, requested, now) => AdmitKeeps(s, u, requested, now);
      case CreateUrlSource(u, now) => UrlSourceKeeps(s, u, now);
      case FinalizeBytes(u, requested, now) => FinalizeKeeps(s, u, requested, now);
      case ReleaseAdmission(u) => ReleaseKeeps(s, u);
      case Bind(u, objectId, now) => BindKeeps(s, u, objectId, now);
      case CrashCleaner(c) => CrashCleanerKeeps(s, c);
      case LateDelete(k) => if k in s.deleteIssued { LateDeleteKeeps(s, k); }
    }
  }
}
