/** The upload protocol: any number of requests, API sweeps and worker sweeps interleaving over
    one tenant's tables and the object store, with a crash possible between any two steps.

    An upload's generated identifiers (reservation, source, object and cleanup) are drawn
    together and never reused, so its rows share one identifier here. Each `session.begin()`
    block is one atomic step with its own clock reading, and a block that raises has not
    committed. Each key is PUT at most once; a PUT may take effect at any time after it was
    issued, or never, whatever was reported. A DELETE may take effect late. */
module UploadLedger {
  import opened Common
  import opened CleanupRows
  import opened Quota

  /** What remains of a failing request: `_best_effort_failed_upload_cleanup`. */
  datatype FailStage = ExpireLease | ArmCleanup | DeleteObject | MarkDeleted

  /** The program counter of `prepare_file_upload_admission` and `create_file_source`. */
  datatype Request =
    | Admitted(admitted: nat)
    | Finalized(bytes: nat)
    | Bound(bytes: nat, key: Key)
    | Putting(bytes: nat, key: Key)
    | Stored(bytes: nat, key: Key)
    | Failing(key: Key, confirmed: bool, stage: FailStage)

  datatype Phase = Confirming | Deleting | ObjectDeleted | FailedWith(code: Code)

  /** A cleaner that holds a claim. */
  datatype Cleaner = Cleaner(worker: bool, upload: Id, key: Key, phase: Phase)

  datatype Ledger = Ledger(
    tenant: Id,
    tables: Tables,
    cleanups: map<Id, Row>,
    requests: map<Id, Request>,
    cleaners: map<Id, Cleaner>,
    inFlight: map<Key, nat>,       // PUTs that may still take effect
    landed: set<Key>,              // PUTs that took effect
    objects: map<Key, nat>,        // stored objects and their sizes
    deleteIssued: set<Key>,        // keys for which a DELETE was ever sent
    lastAdmission: Option<Time>)   // clock of the admission that committed last

  datatype Answer = Visible | NotVisible | Unreachable

  datatype Action =
    | Admit(u: Id, requested: int, now: Time)
    | CreateUrlSource(u: Id, now: Time)
    | FinalizeBytes(u: Id, requested: int, now: Time)
    | ReleaseAdmission(u: Id)
    | Bind(u: Id, objectId: Id, now: Time)
    | IssuePut(u: Id)
    | PutLands(k: Key)
    | PutVanishes(k: Key)
    | PutReturns(u: Id)
    | PutRaises(u: Id)
    | CommitSource(u: Id)
    | CommitRaises(u: Id)
    | ExpireRequestLease(u: Id, now: Time, ok: bool)
    | ArmRequest(u: Id, now: Time, ok: bool)
    | DeleteInline(u: Id, ok: bool, effective: bool)
    | MarkInline(u: Id)
    | CrashRequest(u: Id)
    | SweepRow(worker: bool, c: Id, u: Id, now: Time)
    | Confirm(c: Id, answer: Answer)
    | DeleteClaimed(c: Id, ok: bool, effective: bool)
    | RecordOutcome(c: Id)
    | CrashCleaner(c: Id)
    | LateDelete(k: Key)

  function Empty(tenant: Id): Ledger {
    Ledger(tenant, Tables(map[], map[]), map[], map[], map[], map[], {}, map[], {}, None)
  }

  predicate Fresh(s: Ledger, u: Id) {
    u !in s.tables.sources && u !in s.tables.reservations && u !in s.cleanups && u !in s.requests
  }

  /** `release_upload_reservation_for_cleanup`. */
  function Released(t: Tables, u: Id): Tables {
    if u in t.reservations && t.reservations[u].cleanup == Some(u)
    then t.(reservations := t.reservations - {u}) else t
  }

  // ---- request steps ----

  ghost function StepAdmit(s: Ledger, u: Id, requested: int, now: Time): Ledger {
    if !Fresh(s, u) then s else
      match Reserve(s.tables, u, requested, now)
      case Err(_) => s
      case Ok(t) => s.(tables := t, requests := s.requests[u := Admitted(requested)], lastAdmission := Some(now))
  }

  function StepUrlSource(s: Ledger, u: Id, now: Time): Ledger {
    if !Fresh(s, u) then s else
      match AddUrlSource(s.tables, u, now)
      case Err(_) => s
      case Ok(t) => s.(tables := t)
  }

  ghost function StepFinalize(s: Ledger, u: Id, requested: int, now: Time): Ledger {
    if u !in s.requests || !s.requests[u].Admitted? then s else
      match Finalize(s.tables, u, s.requests[u].admitted, requested, now)
      case Err(_) => s
      case Ok(t) => s.(tables := t, requests := s.requests[u := Finalized(requested)])
  }

  function StepRelease(s: Ledger, u: Id): Ledger {
    if u !in s.requests || !(s.requests[u].Admitted? || s.requests[u].Finalized?) then s else
      s.(tables := s.tables.(reservations := s.tables.reservations - {u}), requests := s.requests - {u})
  }

  function StepBind(s: Ledger, u: Id, objectId: Id, now: Time): Ledger {
    if u !in s.requests || !s.requests[u].Finalized? || u in s.cleanups
       || u !in s.tables.reservations || s.tables.reservations[u].cleanup.Some?
    then s else
      var row := NewRow(s.tenant, u, objectId, now);
      var r := s.tables.reservations[u].(cleanup := Some(u));
      s.(tables := s.tables.(reservations := s.tables.reservations[u := r]),
         cleanups := s.cleanups[u := row],
         requests := s.requests[u := Bound(s.requests[u].bytes, row.key)])
  }

  function StepIssuePut(s: Ledger, u: Id): Ledger {
    if u !in s.requests || !s.requests[u].Bound? then s else
      var q := s.requests[u];
      s.(inFlight := s.inFlight[q.key := q.bytes], requests := s.requests[u := Putting(q.bytes, q.key)])
  }

  function StepLand(s: Ledger, k: Key): Ledger {
    if k !in s.inFlight then s else
      s.(inFlight := s.inFlight - {k}, landed := s.landed + {k}, objects := s.objects[k := s.inFlight[k]])
  }

  /** A successful response proves that the PUT took effect; an error proves nothing. */
  function StepPutReturns(s: Ledger, u: Id): Ledger {
    if u !in s.requests || !s.requests[u].Putting? || s.requests[u].key !in s.landed then s else
      s.(requests := s.requests[u := Stored(s.requests[u].bytes, s.requests[u].key)])
  }

  function StepPutRaises(s: Ledger, u: Id): Ledger {
    if u !in s.requests || !s.requests[u].Putting? then s else
      s.(requests := s.requests[u := Failing(s.requests[u].key, false, ExpireLease)])
  }

  function StepCommit(s: Ledger, u: Id): Ledger {
    if u !in s.requests || !s.requests[u].Stored? || u !in s.cleanups
       || s.cleanups[u].status != Prepared || u in s.tables.sources
    then s else
      var q := s.requests[u];
      s.(tables := Tables(s.tables.sources[u := Source(Some(q.key), Some(q.bytes))],
                          s.tables.reservations - {u}),
         cleanups := s.cleanups[u := MarkReferenced(s.cleanups[u])],
         requests := s.requests - {u})
  }

  function StepCommitRaises(s: Ledger, u: Id): Ledger {
    if u !in s.requests || !s.requests[u].Stored? then s else
      s.(requests := s.requests[u := Failing(s.requests[u].key, true, ExpireLease)])
  }

  predicate AtStage(s: Ledger, u: Id, stage: FailStage) {
    u in s.requests && s.requests[u].Failing? && s.requests[u].stage == stage
  }

  function StepExpire(s: Ledger, u: Id, now: Time, ok: bool): Ledger {
    if !AtStage(s, u, ExpireLease) then s else
      var q := s.requests[u];
      var rs := s.tables.reservations;
      var expired :=
        if ok && u in rs && rs[u].cleanup == Some(u) && rs[u].lease > now
        then rs[u := rs[u].(lease := now)] else rs;
      s.(tables := s.tables.(reservations := expired),
         requests := s.requests[u := q.(stage := if q.confirmed then ArmCleanup else DeleteObject)])
  }

  function StepArm(s: Ledger, u: Id, now: Time, ok: bool): Ledger {
    if !AtStage(s, u, ArmCleanup) then s else
      s.(cleanups := if ok && u in s.cleanups
                     then s.cleanups[u := Arm(s.cleanups[u], now, PersistenceFailed)] else s.cleanups,
         requests := s.requests[u := s.requests[u].(stage := DeleteObject)])
  }

  /** A DELETE that reports an error may have taken effect all the same. */
  function Delete(s: Ledger, k: Key, takesEffect: bool): Ledger {
    s.(deleteIssued := s.deleteIssued + {k}, objects := if takesEffect then s.objects - {k} else s.objects)
  }

  function StepDeleteInline(s: Ledger, u: Id, ok: bool, effective: bool): Ledger {
    if !AtStage(s, u, DeleteObject) then s else
      var q := s.requests[u];
      Delete(s, q.key, ok || effective).(requests :=
        if ok && q.confirmed then s.requests[u := q.(stage := MarkDeleted)] else s.requests - {u})
  }

  function StepMarkInline(s: Ledger, u: Id): Ledger {
    if !AtStage(s, u, MarkDeleted) || u !in s.cleanups then s else
      var row := s.cleanups[u];
      s.(cleanups := s.cleanups[u := InlineDeleted(row)],
         tables := if row.status == Referenced || row.status == Exhausted then s.tables else Released(s.tables, u),
         requests := s.requests - {u})
  }

  // ---- cleaner steps ----

  function StepSweep(s: Ledger, worker: bool, c: Id, u: Id, now: Time): Ledger {
    if c in s.cleaners || u !in s.cleanups then s else
      var row := s.cleanups[u];
      var (next, claim) := ClaimStep(worker, row, now);
      s.(cleanups := s.cleanups[u := next],
         tables := if !worker && (row.status == Referenced || row.status == Succeeded)
                   then Released(s.tables, u) else s.tables,
         cleaners := if claim.None? then s.cleaners else
           s.cleaners[c := Cleaner(worker, u, claim.value.key,
                                   if claim.value.needsPresence then Confirming else Deleting)])
  }

  function InPhase(s: Ledger, c: Id, phase: Phase): Ledger
    requires c in s.cleaners
  {
    s.(cleaners := s.cleaners[c := s.cleaners[c].(phase := phase)])
  }

  /** Only a PUT that took effect can be seen; its absence proves nothing. */
  function StepConfirm(s: Ledger, c: Id, answer: Answer): Ledger {
    if c !in s.cleaners || s.cleaners[c].phase != Confirming then s
    else if answer != Visible then InPhase(s, c, FailedWith(PutAmbiguous))
    else if s.cleaners[c].key in s.landed then InPhase(s, c, Deleting)
    else s
  }

  function StepDeleteClaimed(s: Ledger, c: Id, ok: bool, effective: bool): Ledger {
    if c !in s.cleaners || s.cleaners[c].phase != Deleting then s else
      InPhase(Delete(s, s.cleaners[c].key, ok || effective), c,
              if ok then ObjectDeleted else FailedWith(StorageUnavailable))
  }

  function StepRecord(s: Ledger, c: Id): Ledger {
    if c !in s.cleaners || s.cleaners[c].upload !in s.cleanups
       || !(s.cleaners[c].phase.ObjectDeleted? || s.cleaners[c].phase.FailedWith?)
    then s else
      var Cleaner(worker, u, _, phase) := s.cleaners[c];
      var row := s.cleanups[u];
      var next := if phase.FailedWith? then RecordFailed(worker, row, phase.code) else RecordDeleted(worker, row);
      var releases :=
        if phase.FailedWith? then row.status == Referenced || row.status == Succeeded
        else if worker then next.status == Succeeded
        else row.status != Exhausted;
      s.(cleanups := s.cleanups[u := next],
         tables := if releases then Released(s.tables, u) else s.tables,
         cleaners := s.cleaners - {c})
  }

  /** One step; an action whose guard fails, or whose transaction raises, changes nothing. */
  ghost function Step(s: Ledger, a: Action): Ledger {
    match a
    case Admit(u, requested, now) => StepAdmit(s, u, requested, now)
    case CreateUrlSource(u, now) => StepUrlSource(s, u, now)
    case FinalizeBytes(u, requested, now) => StepFinalize(s, u, requested, now)
    case ReleaseAdmission(u) => StepRelease(s, u)
    case Bind(u, objectId, now) => StepBind(s, u, objectId, now)
    case IssuePut(u) => StepIssuePut(s, u)
    case PutLands(k) => StepLand(s, k)
    case PutVanishes(k) => s.(inFlight := s.inFlight - {k})
    case PutReturns(u) => StepPutReturns(s, u)
    case PutRaises(u) => StepPutRaises(s, u)
    case CommitSource(u) => StepCommit(s, u)
    case CommitRaises(u) => StepCommitRaises(s, u)
    case ExpireRequestLease(u, now, ok) => StepExpire(s, u, now, ok)
    case ArmRequest(u, now, ok) => StepArm(s, u, now, ok)
    case DeleteInline(u, ok, effective) => StepDeleteInline(s, u, ok, effective)
    case MarkInline(u) => StepMarkInline(s, u)
    case CrashRequest(u) => s.(requests := s.requests - {u})
    case SweepRow(worker, c, u, now) => StepSweep(s, worker, c, u, now)
    case Confirm(c, answer) => StepConfirm(s, c, answer)
    case DeleteClaimed(c, ok, effective) => StepDeleteClaimed(s, c, ok, effective)
    case RecordOutcome(c) => StepRecord(s, c)
    case CrashCleaner(c) => s.(cleaners := s.cleaners - {c})
    case LateDelete(k) => if k in s.deleteIssued then s.(objects := s.objects - {k}) else s
  }

  ghost function Run(s: Ledger, actions: seq<Action>): Ledger
    decreases |actions|
  {
    if actions == [] then s else Run(Step(s, actions[0]), actions[1..])
  }
}
