/** One durable cleanup obligation: the row both cleaners and the upload request update.

    The API service (cleanup.py, repository.py) and the worker (knowledge_upload_cleanup.py)
    hold separate implementations of the claim and of the two ways to record its outcome.
    Every transaction is a function from the locked row to the row it leaves; a transaction
    that raises leaves the row as it was. */
module CleanupRows {
  import opened Common

  type Id = nat
  type Time = int // seconds

  const PREPARED_STALE_AFTER: Time := 15 * 60
  const FIRST_RETRY_DELAY: Time := 30
  const SECOND_RETRY_DELAY: Time := 5 * 60
  const THIRD_RETRY_DELAY: Time := 30 * 60
  const MAX_ATTEMPTS: nat := 3

  datatype Code = StorageUnavailable | PutAmbiguous | PersistenceFailed | KeyMismatch

  datatype Status = Prepared | Pending | Referenced | Succeeded | Exhausted

  /** The generated key `tenants/{t}/knowledge/{s}/raw/{o}`. */
  datatype Key = RawKey(tenant: Id, source: Id, objectId: Id)

  datatype Row = Row(
    tenant: Id, source: Id, objectId: Id, key: Key,
    status: Status, attempts: nat, due: Option<Time>, error: Option<Code>)

  datatype Claim = Claim(key: Key, attempt: nat, needsPresence: bool)

  predicate Unresolved(status: Status) {
    status == Prepared || status == Pending
  }

  /** The table's check constraints. */
  predicate Valid(row: Row) {
    row.attempts <= MAX_ATTEMPTS && (row.due.Some? <==> Unresolved(row.status))
  }

  predicate KeyMatches(row: Row) {
    row.key == RawKey(row.tenant, row.source, row.objectId)
  }

  predicate Due(row: Row, now: Time) {
    Unresolved(row.status) && row.due.Some? && row.due.value <= now
  }

  function LeaseUntil(now: Time, attempt: nat): Time {
    if attempt == 1 then now + SECOND_RETRY_DELAY else now + THIRD_RETRY_DELAY
  }

  function NewRow(tenant: Id, source: Id, objectId: Id, now: Time): Row {
    Row(tenant, source, objectId, RawKey(tenant, source, objectId),
        Prepared, 0, Some(now + PREPARED_STALE_AFTER), None)
  }

  // ---- the transitions of repository.py ----

  function MarkPending(row: Row, due: Time, code: Code): Row {
    row.(status := Pending, due := Some(due), error := Some(code))
  }

  function MarkReferenced(row: Row): Row {
    row.(status := Referenced, due := None, error := None)
  }

  function MarkSucceeded(row: Row): Row {
    row.(status := Succeeded, due := None, error := None)
  }

  function MarkExhausted(row: Row, code: Code): Row {
    row.(status := Exhausted, due := None, error := Some(code))
  }

  // ---- claims ----

  datatype ApiOutcome =
    NoopReferenced | NoopSucceeded | AlreadyExhausted | NotDue | NowExhausted | Claimed(claim: Claim)

  /** Both services take the same action once a due row may be attempted again. */
  function Attempt(row: Row, now: Time): (Row, Claim) {
    var needsPresence := row.status == Prepared || row.error == Some(PutAmbiguous);
    var code := if row.status == Prepared && row.error == None then Some(PutAmbiguous) else row.error;
    var attempt := row.attempts + 1;
    (row.(status := Pending, attempts := attempt, due := Some(LeaseUntil(now, attempt)), error := code),
     Claim(row.key, attempt, needsPresence))
  }

  function CodeOrStorage(code: Option<Code>): Code {
    if code.Some? then code.value else StorageUnavailable
  }

  /** `_claim_due_cleanup`: the attempt limit is tested before the key. */
  function ApiClaim(row: Row, now: Time): (Row, ApiOutcome) {
    match row.status
    case Referenced => (row, NoopReferenced)
    case Succeeded => (row, NoopSucceeded)
    case Exhausted => (row, AlreadyExhausted)
    case _ =>
      if row.due.None? || row.due.value > now then (row, NotDue)
      else if row.attempts >= MAX_ATTEMPTS then
        (MarkExhausted(row, CodeOrStorage(row.error)), NowExhausted)
      else if !KeyMatches(row) then
        (MarkExhausted(row.(attempts := MAX_ATTEMPTS), KeyMismatch), NowExhausted)
      else
        var (next, claim) := Attempt(row, now);
        (next, Claimed(claim))
  }

  /** One iteration of `_claim_due_batch`: the key is tested before the attempt limit. */
  function WorkerClaim(row: Row, now: Time): (Row, Option<Claim>) {
    if !Due(row, now) then (row, None)
    else if !KeyMatches(row) then
      (MarkExhausted(row.(attempts := MAX_ATTEMPTS), KeyMismatch), None)
    else if row.attempts >= MAX_ATTEMPTS then
      (MarkExhausted(row, CodeOrStorage(row.error)), None)
    else
      var (next, claim) := Attempt(row, now);
      (next, Some(claim))
  }

  function ApiClaimOf(outcome: ApiOutcome): Option<Claim> {
    if outcome.Claimed? then Some(outcome.claim) else None
  }

  function ClaimStep(worker: bool, row: Row, now: Time): (Row, Option<Claim>) {
    if worker then WorkerClaim(row, now)
    else var (next, outcome) := ApiClaim(row, now); (next, ApiClaimOf(outcome))
  }

  // ---- outcomes ----

  /** `_record_failed_attempt` of the API. */
  function ApiRecordFailed(row: Row, code: Code): Row {
    if !Unresolved(row.status) then row
    else if row.attempts >= MAX_ATTEMPTS then MarkExhausted(row, code)
    else row.(status := Pending, error := Some(code))
  }

  /** `_record_failed_attempt` of the worker, which raises on a prepared row. */
  function WorkerRecordFailed(row: Row, code: Code): Row {
    if row.status != Pending then row
    else if row.attempts >= MAX_ATTEMPTS then MarkExhausted(row, code)
    else row.(error := Some(code))
  }

  function RecordFailed(worker: bool, row: Row, code: Code): Row {
    if worker then WorkerRecordFailed(row, code) else ApiRecordFailed(row, code)
  }

  /** The success transaction of `reconcile_upload_cleanup`; an exhausted row raises. */
  function ApiRecordDeleted(row: Row): Row {
    if Unresolved(row.status) then MarkSucceeded(row) else row
  }

  /** `_record_success` of the worker; only a pending row changes. */
  function WorkerRecordDeleted(row: Row): Row {
    if row.status == Pending then MarkSucceeded(row) else row
  }

  function RecordDeleted(worker: bool, row: Row): Row {
    if worker then WorkerRecordDeleted(row) else ApiRecordDeleted(row)
  }

  // ---- the request's own transactions ----

  /** `arm_upload_cleanup`. */
  function Arm(row: Row, now: Time, code: Code): Row {
    if Unresolved(row.status) then MarkPending(row, now + FIRST_RETRY_DELAY, code) else row
  }

  /** `mark_inline_cleanup_succeeded`. */
  function InlineDeleted(row: Row): Row {
    if Unresolved(row.status) then MarkSucceeded(row) else row
  }

  /** The reference transaction of `create_file_source`. */
  function Reference(row: Row): Row {
    if row.status == Prepared then MarkReferenced(row) else row
  }

  // ---- the two claims agree ----

  /** For every row the worker would select, the API's claim leaves the same status, attempt
      count and lease, and yields the same claim. The two rows differ at all, and then only in
      the stored error code, exactly when an exhausted attempt budget meets a foreign key. */
  lemma ClaimsAgree(row: Row, now: Time)
    requires Valid(row) && Due(row, now)
    ensures ClaimStep(true, row, now).1 == ClaimStep(false, row, now).1
    ensures ClaimStep(true, row, now).0.(error := None) == ClaimStep(false, row, now).0.(error := None)
    ensures ClaimStep(true, row, now).0 == ClaimStep(false, row, now).0
      <==> !(row.attempts == MAX_ATTEMPTS && !KeyMatches(row) && row.error != Some(KeyMismatch))
  {
  }

  // ---- whole histories of one row ----

  datatype Event =
    | Sweep(worker: bool, now: Time)
    | Failed(worker: bool, code: Code)
    | Deleted(worker: bool)
    | ArmedAt(now: Time, armCode: Code)
    | DeletedInline
    | ReferencedBySource

  function Apply(row: Row, e: Event): Row {
    match e
    case Sweep(worker, now) => ClaimStep(worker, row, now).0
    case Failed(worker, code) => RecordFailed(worker, row, code)
    case Deleted(worker) => RecordDeleted(worker, row)
    case ArmedAt(now, code) => Arm(row, now, code)
    case DeletedInline => InlineDeleted(row)
    case ReferencedBySource => Reference(row)
  }

  function RunRow(row: Row, es: seq<Event>): Row
    decreases |es|
  {
    if es == [] then row else RunRow(Apply(row, es[0]), es[1..])
  }

  /** How many of the sweeps found the row due. */
  function DueSweeps(row: Row, es: seq<Event>): nat
    decreases |es|
  {
    if es == [] then 0
    else (if es[0].Sweep? && Due(row, es[0].now) then 1 else 0) + DueSweeps(Apply(row, es[0]), es[1..])
  }

  /** How many of the sweeps handed out a claim, and so storage work. */
  function Claims(row: Row, es: seq<Event>): nat
    decreases |es|
  {
    if es == [] then 0
    else (if es[0].Sweep? && ClaimStep(es[0].worker, row, es[0].now).1.Some? then 1 else 0)
         + Claims(Apply(row, es[0]), es[1..])
  }

  lemma ApplyKeepsValid(row: Row, e: Event)
    requires Valid(row)
    ensures Valid(Apply(row, e))
    ensures row.attempts <= Apply(row, e).attempts
    ensures !Unresolved(row.status) ==> Apply(row, e) == row
  {
  }

  /** The three resolved states are absorbing: no later transaction changes the row at all. */
  lemma {:induction false} ResolvedIsFinal(row: Row, es: seq<Event>)
    requires Valid(row) && !Unresolved(row.status)
    ensures RunRow(row, es) == row && DueSweeps(row, es) == 0 && Claims(row, es) == 0
  {
    if es != [] {
      ResolvedIsFinal(row, es[1..]);
    }
  }

  /** Whatever is interleaved with them, at most three sweeps claim a row and a fourth sweep
      that finds it due resolves it: from any row the attempts already spent count too. */
  lemma {:induction false} SweepsAreBounded(row: Row, es: seq<Event>)
    requires Valid(row)
    ensures Valid(RunRow(row, es))
    ensures row.attempts + Claims(row, es) <= MAX_ATTEMPTS
    ensures row.attempts + DueSweeps(row, es) <= MAX_ATTEMPTS + 1
    ensures row.attempts + DueSweeps(row, es) == MAX_ATTEMPTS + 1 ==> RunRow(row, es).status == Exhausted
    decreases |es|
  {
    if es != [] {
      var next := Apply(row, es[0]);
      ApplyKeepsValid(row, es[0]);
      if Unresolved(next.status) {
        SweepsAreBounded(next, es[1..]);
      } else {
        ResolvedIsFinal(next, es[1..]);
      }
    }
  }
}
