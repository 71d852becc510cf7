/** The updates in place: the API's mapped row object, and the worker's claim loop. */
module CleanupRecords {
  import opened Common
  import opened CleanupRows

  /** The mapped `KnowledgeUploadCleanup` row while its lock is held. */
  class CleanupRecord {
    const tenant: Id
    const source: Id
    const objectId: Id
    const key: Key
    var status: Status
    var attempts: nat
    var due: Option<Time>
    var error: Option<Code>

    /** The columns as a value. */
    ghost function Contents(): Row
      reads this
    {
      Row(tenant, source, objectId, key, status, attempts, due, error)
    }

    constructor (row: Row)
      ensures Contents() == row
    {
      tenant, source, objectId, key := row.tenant, row.source, row.objectId, row.key;
      status, attempts, due, error := row.status, row.attempts, row.due, row.error;
    }

    /** False stands for the ValueError of the guarded transitions. */
    method MarkPendingAt(nextAttempt: Time, code: Code) returns (ok: bool)
      modifies this
      ensures ok <==> Unresolved(old(status))
      ensures Contents() == if ok then MarkPending(old(Contents()), nextAttempt, code) else old(Contents())
    {
      if status != Prepared && status != Pending {
        return false;
      }
      status := Pending;
      due := Some(nextAttempt);
      error := Some(code);
      ok := true;
    }

    method MarkSucceededNow() returns (ok: bool)
      modifies this
      ensures ok <==> old(status) != Referenced && old(status) != Exhausted
      ensures Contents() == if ok then MarkSucceeded(old(Contents())) else old(Contents())
    {
      if status == Referenced || status == Exhausted {
        return false;
      }
      status, due, error := Succeeded, None, None;
      ok := true;
    }

    method MarkExhaustedNow(code: Code) returns (ok: bool)
      modifies this
      ensures ok <==> Unresolved(old(status))
      ensures Contents() == if ok then MarkExhausted(old(Contents()), code) else old(Contents())
    {
      if status != Prepared && status != Pending {
        return false;
      }
      status, due, error := Exhausted, None, Some(code);
      ok := true;
    }

    /** `arm_upload_cleanup`, inside its transaction: a resolved row is left alone. */
    method ArmForRetry(now: Time, code: Code)
      modifies this
      ensures Contents() == Arm(old(Contents()), now, code)
    {
      if status == Referenced || status == Succeeded || status == Exhausted {
        return;
      }
      var _ := MarkPendingAt(now + FIRST_RETRY_DELAY, code);
    }

    /** `mark_inline_cleanup_succeeded`, inside its transaction; true when the quota hold is released. */
    method RecordInlineDeletion() returns (released: bool)
      modifies this
      ensures Contents() == InlineDeleted(old(Contents()))
      ensures released <==> Contents().status == Succeeded
    {
      if status == Referenced || status == Exhausted {
        return false;
      }
      if status != Succeeded {
        var _ := MarkSucceededNow();
      }
      released := true;
    }

    /** `_claim_due_cleanup`, inside its transaction. */
    method ClaimDue(now: Time) returns (outcome: ApiOutcome)
      modifies this
      ensures (Contents(), outcome) == ApiClaim(old(Contents()), now)
    {
      if status == Referenced { return NoopReferenced; }
      if status == Succeeded { return NoopSucceeded; }
      if status == Exhausted { return AlreadyExhausted; }
      if due.None? || due.value > now { return NotDue; }
      if attempts >= MAX_ATTEMPTS {
        var _ := MarkExhaustedNow(CodeOrStorage(error));
        return NowExhausted;
      }
      if key != RawKey(tenant, source, objectId) {
        attempts := MAX_ATTEMPTS;
        var _ := MarkExhaustedNow(KeyMismatch);
        return NowExhausted;
      }
      var needsPresence := status == Prepared || error == Some(PutAmbiguous);
      if status == Prepared && error == None {
        error := Some(PutAmbiguous);
      }
      attempts := attempts + 1;
      status := Pending;
      due := Some(LeaseUntil(now, attempts));
      outcome := Claimed(Claim(key, attempts, needsPresence));
    }

    /** `_record_failed_attempt` of the API. */
    method RecordFailedAttempt(code: Code)
      modifies this
      ensures Contents() == ApiRecordFailed(old(Contents()), code)
    {
      if status == Referenced || status == Succeeded || status == Exhausted {
        return;
      }
      if attempts >= MAX_ATTEMPTS {
        var _ := MarkExhaustedNow(code);
      } else {
        status := Pending;
        error := Some(code);
      }
    }

    /** The success transaction of `reconcile_upload_cleanup`; false stands for the raise. */
    method RecordDeletion() returns (ok: bool)
      modifies this
      ensures ok <==> old(status) != Exhausted
      ensures Contents() == ApiRecordDeleted(old(Contents()))
    {
      if status == Referenced {
        return true;
      }
      ok := true;
      if status != Succeeded {
        ok := MarkSucceededNow();
      }
    }
  }

  /** The rows `_CLAIM_DUE` may return: unresolved and due, each once. */
  ghost predicate Selectable(table: map<Id, Row>, ids: seq<Id>, now: Time) {
    && (forall i :: 0 <= i < |ids| ==> ids[i] in table && Due(table[ids[i]], now))
    && (forall i, j :: 0 <= i < j < |ids| ==> ids[i] != ids[j])
  }

  /** One row of the batch: exhausted, or claimed. */
  method ClaimRow(row: Row, now: Time) returns (updated: Row, claim: Option<Claim>)
    requires Due(row, now)
    ensures (updated, claim) == WorkerClaim(row, now)
  {
    if row.key != RawKey(row.tenant, row.source, row.objectId) {
      return MarkExhausted(row.(attempts := MAX_ATTEMPTS), KeyMismatch), None;
    }
    if row.attempts >= MAX_ATTEMPTS {
      return MarkExhausted(row, CodeOrStorage(row.error)), None;
    }
    var attempt := row.attempts + 1;
    var code := row.error;
    if row.status == Prepared && code == None {
      code := Some(PutAmbiguous);
    }
    updated := row.(status := Pending, attempts := attempt, due := Some(LeaseUntil(now, attempt)), error := code);
    claim := Some(Claim(row.key, attempt, row.status == Prepared || row.error == Some(PutAmbiguous)));
  }

  /** The table after a batch: every selected row has taken exactly the single-row step. */
  ghost function Swept(table: map<Id, Row>, step: Row -> (Row, Option<Claim>), ids: seq<Id>): map<Id, Row> {
    map u | u in table :: if u in ids then step(table[u]).0 else table[u]
  }

  /** The claims of the first `n` rows, in order. */
  function BatchOf(table: map<Id, Row>, step: Row -> (Row, Option<Claim>), ids: seq<Id>, n: nat): (claims: seq<Claim>)
    requires n <= |ids| && forall i :: 0 <= i < |ids| ==> ids[i] in table
    ensures |claims| <= n
  {
    if n == 0 then [] else
      var rest, claim := BatchOf(table, step, ids, n - 1), step(table[ids[n - 1]]).1;
      if claim.Some? then rest + [claim.value] else rest
  }

  /** One row of the batch. */
  method SweepOne(
      table: map<Id, Row>, updated: map<Id, Row>, ids: seq<Id>, i: nat, now: Time,
      ghost step: Row -> (Row, Option<Claim>))
    returns (after: map<Id, Row>, claim: Option<Claim>)
    requires Selectable(table, ids, now) && i < |ids| && forall row :: step(row) == WorkerClaim(row, now)
    requires updated == Swept(table, step, ids[..i])
    ensures after == Swept(table, step, ids[..i + 1]) && claim == step(table[ids[i]]).1
  {
    var id := ids[i];
    assert ids[..i + 1] == ids[..i] + [id];
    var row;
    row, claim := ClaimRow(updated[id], now);
    assert (row, claim) == step(table[id]);
    after := updated[id := row];
  }

  /** `_claim_due_batch`: every selected row takes exactly the single-row step, no other row
      changes, and each row is either claimed or counted as exhausted. */
  method ClaimDueBatch(table: map<Id, Row>, ids: seq<Id>, now: Time)
    returns (updated: map<Id, Row>, claims: seq<Claim>, exhausted: nat)
    requires Selectable(table, ids, now)
    ensures updated == Swept(table, row => WorkerClaim(row, now), ids)
    ensures claims == BatchOf(table, row => WorkerClaim(row, now), ids, |ids|)
    ensures |claims| + exhausted == |ids|
  {
    ghost var step := row => WorkerClaim(row, now);
    updated, claims, exhausted := table, [], 0;
    for i := 0 to |ids|
      invariant updated == Swept(table, step, ids[..i]) && claims == BatchOf(table, step, ids, i)
      invariant |claims| + exhausted == i
    {
      var claim;
      updated, claim := SweepOne(table, updated, ids, i, now, step);
      if claim.Some? {
        claims := claims + [claim.value];
      } else {
        exhausted := exhausted + 1;
      }
    }
    assert ids[..|ids|] == ids;
  }
}
