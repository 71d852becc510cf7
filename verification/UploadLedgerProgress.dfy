/** What the upload protocol achieves when the world answers: uploads are committed, and objects that
    no source refers to are deleted and their quota is given back. */
module UploadLedgerProgress {
  import opened Common
  import opened CleanupRows
  import opened Quota
  import opened QuotaDecisions
  import opened UploadLedger
  import opened UploadLedgerInvariant

  // ---- runs of a few steps ----

  lemma RunOne(s: Ledger, a: Action)
    ensures Run(s, [a]) == Step(s, a)
  {
    assert [a][1..] == [];
  }

  lemma RunCons(s: Ledger, a: Action, rest: seq<Action>)
    ensures Run(s, [a] + rest) == Run(Step(s, a), rest)
  {
    assert ([a] + rest)[1..] == rest;
  }

  lemma RunTwo(s: Ledger, a: Action, b: Action)
    ensures Run(s, [a, b]) == Step(Step(s, a), b)
  {
    RunCons(s, a, [b]);
    RunOne(Step(s, a), b);
    assert [a] + [b] == [a, b];
  }

  // ---- a cleaner's outcomes ----

  /** The upload's cleanup is done: succeeded, its object gone, its quota given back. */
  predicate CleanedUp(t: Ledger, u: Id, k: Key) {
    u in t.cleanups && t.cleanups[u].status == Succeeded && k !in t.objects && u !in t.tables.reservations
  }

  /** The upload is still to be cleaned up, and still charged. */
  predicate StillCharged(s: Ledger, t: Ledger, u: Id) {
    u in t.tables.reservations && u in s.tables.reservations && t.tables.reservations[u] == s.tables.reservations[u]
  }

  /** A cleaner of either kind that is about to delete the object of a pending upload. */
  ghost predicate AboutToDelete(s: Ledger, c: Id, u: Id) {
    && Protocol(s) && c in s.cleaners && s.cleaners[c].upload == u && s.cleaners[c].phase == Deleting
    && u in s.cleanups && s.cleanups[u].status == Pending
  }

  lemma HoldsItsReservation(s: Ledger, u: Id)
    requires Protocol(s) && u in s.cleanups && (s.cleanups[u].status == Pending || s.cleanups[u].status == Prepared)
    ensures u in s.tables.reservations && s.tables.reservations[u].cleanup == Some(u)
  {
    assert UploadOk(s, u);
  }

  lemma RecordSucceeds(s: Ledger, c: Id, u: Id)
    requires c in s.cleaners && s.cleaners[c].upload == u && s.cleaners[c].phase == ObjectDeleted
    requires u in s.cleanups && s.cleanups[u].status == Pending
    requires u in s.tables.reservations && s.tables.reservations[u].cleanup == Some(u)
    ensures var t := StepRecord(s, c);
      && u in t.cleanups && t.cleanups[u].status == Succeeded && u !in t.tables.reservations && t.objects == s.objects
  {
  }

  lemma RecordFails(s: Ledger, c: Id, u: Id, code: Code)
    requires c in s.cleaners && s.cleaners[c].upload == u && s.cleaners[c].phase == FailedWith(code)
    requires u in s.cleanups && s.cleanups[u].status == Pending
    ensures var t, row := StepRecord(s, c), s.cleanups[u];
      && u in t.cleanups && t.cleanups[u].error == Some(code) && t.cleanups[u].attempts == row.attempts
      && (row.attempts < 3 ==> t.cleanups[u].status == Pending && t.cleanups[u].due == row.due)
      && (row.attempts >= 3 ==> t.cleanups[u].status == Exhausted)
      && t.tables == s.tables && t.objects == s.objects && t.deleteIssued == s.deleteIssued
  {
  }

  /** What a DELETE does, whatever it reports. */
  lemma DeleteReports(s: Ledger, c: Id, u: Id, ok: bool, effective: bool)
    requires c in s.cleaners && s.cleaners[c].phase == Deleting
    ensures var t := StepDeleteClaimed(s, c, ok, effective);
      && t.cleaners.Keys == s.cleaners.Keys && t.cleaners[c].upload == s.cleaners[c].upload
      && t.cleaners[c].phase == (if ok then ObjectDeleted else FailedWith(StorageUnavailable))
      && t.cleanups == s.cleanups && t.tables == s.tables && (ok ==> s.cleaners[c].key !in t.objects)
  {
  }

  lemma ClaimHasKey(s: Ledger, c: Id)
    requires Protocol(s) && c in s.cleaners
    ensures s.cleaners[c].upload in s.cleanups && s.cleaners[c].key == s.cleanups[s.cleaners[c].upload].key
  {
    assert ClaimOk(s, c);
  }

  lemma DeleteThenRecord(s: Ledger, c: Id, ok: bool, effective: bool)
    ensures Run(s, [DeleteClaimed(c, ok, effective), RecordOutcome(c)])
         == StepRecord(StepDeleteClaimed(s, c, ok, effective), c)
  {
    RunTwo(s, DeleteClaimed(c, ok, effective), RecordOutcome(c));
  }

  lemma ConfirmThenRecord(s: Ledger, c: Id, answer: Answer)
    ensures Run(s, [Confirm(c, answer), RecordOutcome(c)]) == StepRecord(StepConfirm(s, c, answer), c)
  {
    RunTwo(s, Confirm(c, answer), RecordOutcome(c));
  }

  /** Everything about one claim that the outcomes depend on. */
  predicate LinkedClaim(s: Ledger, c: Id, u: Id) {
    && c in s.cleaners && s.cleaners[c].upload == u
    && u in s.cleanups && s.cleanups[u].status == Pending && s.cleaners[c].key == s.cleanups[u].key
    && u in s.tables.reservations && s.tables.reservations[u].cleanup == Some(u)
  }

  lemma ClaimIsLinked(s: Ledger, c: Id, u: Id)
    requires Protocol(s) && c in s.cleaners && s.cleaners[c].upload == u
    requires u in s.cleanups && s.cleanups[u].status == Pending
    ensures LinkedClaim(s, c, u)
  {
    ClaimHasKey(s, c);
    HoldsItsReservation(s, u);
  }

  lemma LinkedDeleteSucceeds(s: Ledger, c: Id, u: Id, effective: bool)
    requires LinkedClaim(s, c, u) && s.cleaners[c].phase == Deleting
    ensures CleanedUp(StepRecord(StepDeleteClaimed(s, c, true, effective), c), u, s.cleanups[u].key)
  {
    DeleteReports(s, c, u, true, effective);
    RecordSucceeds(StepDeleteClaimed(s, c, true, effective), c, u);
  }

  /** A DELETE that returned settles the cleanup, whichever service sent it. */
  lemma ReturnedDeleteSucceeds(s: Ledger, c: Id, u: Id, effective: bool)
    requires AboutToDelete(s, c, u)
    ensures CleanedUp(Run(s, [DeleteClaimed(c, true, effective), RecordOutcome(c)]), u, s.cleanups[u].key)
  {
    DeleteThenRecord(s, c, true, effective);
    ClaimIsLinked(s, c, u);
    LinkedDeleteSucceeds(s, c, u, effective);
  }

  /** A DELETE that failed leaves the upload pending, for the delay that its claim set, until the third
      attempt exhausts it; the bytes stay charged either way. */
  lemma FailedDeleteIsRecorded(s: Ledger, c: Id, u: Id, effective: bool)
    requires AboutToDelete(s, c, u)
    ensures var t := Run(s, [DeleteClaimed(c, false, effective), RecordOutcome(c)]);
      && u in t.cleanups && t.cleanups[u].error == Some(StorageUnavailable) && StillCharged(s, t, u)
      && t.cleanups[u].attempts == s.cleanups[u].attempts
      && if s.cleanups[u].attempts < 3 then t.cleanups[u].status == Pending && t.cleanups[u].due == s.cleanups[u].due
         else t.cleanups[u].status == Exhausted
  {
    DeleteThenRecord(s, c, false, effective);
    ClaimIsLinked(s, c, u);
    DeleteReports(s, c, u, false, effective);
    RecordFails(StepDeleteClaimed(s, c, false, effective), c, u, StorageUnavailable);
  }

  // ---- a claim ----

  /** An upload that a sweep may claim. */
  ghost predicate Claimable(s: Ledger, c: Id, u: Id, now: Time) {
    && Protocol(s) && c !in s.cleaners && u in s.cleanups
    && (s.cleanups[u].status == Prepared || s.cleanups[u].status == Pending)
    && s.cleanups[u].due.Some? && s.cleanups[u].due.value <= now && s.cleanups[u].attempts < 3
  }

  /** Whether the PUT is in doubt, so that the object must be seen before it is deleted. */
  predicate InDoubt(row: Row) {
    row.status == Prepared || row.error == Some(PutAmbiguous)
  }

  /** A due upload is claimed, by either service: one attempt more, and no other sweep before five
      minutes have passed, half an hour after later attempts. */
  lemma DueUploadIsClaimed(s: Ledger, worker: bool, c: Id, u: Id, now: Time)
    requires Claimable(s, c, u, now)
    ensures var t := Step(s, SweepRow(worker, c, u, now)); var row := s.cleanups[u];
      && c in t.cleaners && t.cleaners[c].upload == u && t.cleaners[c].key == row.key
      && t.cleaners[c].phase == (if InDoubt(row) then Confirming else Deleting)
      && t.cleanups.Keys == s.cleanups.Keys && t.cleanups[u].status == Pending && t.cleanups[u].key == row.key
      && t.cleanups[u].attempts == row.attempts + 1
      && t.cleanups[u].due == Some(now + if row.attempts == 0 then 300 else 1800)
      && t.cleanups[u].error == (if row.status == Prepared then Some(PutAmbiguous) else row.error)
      && t.tables == s.tables && t.objects == s.objects && t.landed == s.landed && t.deleteIssued == s.deleteIssued
  {
    assert UploadOk(s, u);
  }

  /** An upload that is not due is left alone. */
  lemma EarlySweepChangesNothing(s: Ledger, worker: bool, c: Id, u: Id, now: Time)
    requires Protocol(s) && u in s.cleanups && s.cleanups[u].due.Some? && s.cleanups[u].due.value > now
    ensures Step(s, SweepRow(worker, c, u, now)) == s
  {
    assert UploadOk(s, u);
    assert Step(s, SweepRow(worker, c, u, now)).cleanups == s.cleanups;
  }

  // ---- whole sweeps ----

  /** A sweep of an upload whose DELETE returns. */
  function GoodSweep(worker: bool, c: Id, u: Id, now: Time, confirm: bool, effective: bool): seq<Action> {
    [SweepRow(worker, c, u, now)] + (if confirm then [Confirm(c, Visible)] else [])
    + [DeleteClaimed(c, true, effective), RecordOutcome(c)]
  }

  lemma ConfirmedIsAboutToDelete(s: Ledger, c: Id, u: Id)
    requires Protocol(s) && c in s.cleaners && s.cleaners[c].upload == u && s.cleaners[c].phase == Confirming
    requires u in s.cleanups && s.cleanups[u].status == Pending && s.cleanups[u].key in s.landed
    ensures AboutToDelete(Step(s, Confirm(c, Visible)), c, u)
    ensures Step(s, Confirm(c, Visible)).cleanups == s.cleanups
  {
    assert ClaimOk(s, c);
    ConfirmKeeps(s, c, Visible);
  }

  /** Any due upload whose PUT took effect is cleaned up by one sweep, when the store answers. */
  lemma SweepCleansUp(s: Ledger, worker: bool, c: Id, u: Id, now: Time, effective: bool)
    requires Claimable(s, c, u, now) && s.cleanups[u].key in s.landed
    ensures CleanedUp(Run(s, GoodSweep(worker, c, u, now, InDoubt(s.cleanups[u]), effective)), u, s.cleanups[u].key)
  {
    GoodSweepRuns(s, worker, c, u, now, InDoubt(s.cleanups[u]), effective);
    SweptIsAboutToDelete(s, worker, c, u, now);
    ReturnedDeleteSucceeds(Swept(s, worker, c, u, now), c, u, effective);
  }

  /** The upload is claimed and, where its PUT is in doubt, its object has been seen. */
  ghost function Swept(s: Ledger, worker: bool, c: Id, u: Id, now: Time): Ledger
    requires u in s.cleanups
  {
    var claimed := Step(s, SweepRow(worker, c, u, now));
    if InDoubt(s.cleanups[u]) then Step(claimed, Confirm(c, Visible)) else claimed
  }

  lemma SweptIsAboutToDelete(s: Ledger, worker: bool, c: Id, u: Id, now: Time)
    requires Claimable(s, c, u, now) && s.cleanups[u].key in s.landed
    ensures var t := Swept(s, worker, c, u, now); AboutToDelete(t, c, u) && t.cleanups[u].key == s.cleanups[u].key
  {
    var claimed := Step(s, SweepRow(worker, c, u, now));
    DueUploadIsClaimed(s, worker, c, u, now);
    SweepKeeps(s, worker, c, u, now);
    if InDoubt(s.cleanups[u]) { ConfirmedIsAboutToDelete(claimed, c, u); }
  }

  lemma GoodSweepRuns(s: Ledger, worker: bool, c: Id, u: Id, now: Time, confirm: bool, effective: bool)
    ensures var claimed := Step(s, SweepRow(worker, c, u, now));
      Run(s, GoodSweep(worker, c, u, now, confirm, effective))
      == Run(if confirm then Step(claimed, Confirm(c, Visible)) else claimed,
             [DeleteClaimed(c, true, effective), RecordOutcome(c)])
  {
    var claimed := Step(s, SweepRow(worker, c, u, now));
    var finish := [DeleteClaimed(c, true, effective), RecordOutcome(c)];
    var seen := if confirm then [Confirm(c, Visible)] else [];
    RunCons(s, SweepRow(worker, c, u, now), seen + finish);
    RunCons(claimed, Confirm(c, Visible), finish);
    assert [] + finish == finish;
    assert GoodSweep(worker, c, u, now, confirm, effective) == [SweepRow(worker, c, u, now)] + (seen + finish);
  }

  /** An object that cannot be seen is not deleted, and the upload stays in doubt and charged. */
  lemma UnseenObjectIsLeft(s: Ledger, c: Id, u: Id, answer: Answer)
    requires Protocol(s) && c in s.cleaners && s.cleaners[c].upload == u && s.cleaners[c].phase == Confirming
    requires u in s.cleanups && s.cleanups[u].status == Pending && answer != Visible
    ensures var t := Run(s, [Confirm(c, answer), RecordOutcome(c)]);
      && t.objects == s.objects && t.deleteIssued == s.deleteIssued && StillCharged(s, t, u)
      && u in t.cleanups && t.cleanups[u].error == Some(PutAmbiguous)
      && t.cleanups[u].status == (if s.cleanups[u].attempts < 3 then Pending else Exhausted)
  {
    ConfirmThenRecord(s, c, answer);
    ClaimIsLinked(s, c, u);
    DoubtStays(s, c, answer);
    RecordFails(StepConfirm(s, c, answer), c, u, PutAmbiguous);
  }

  lemma DoubtStays(s: Ledger, c: Id, answer: Answer)
    requires c in s.cleaners && s.cleaners[c].phase == Confirming && answer != Visible
    ensures StepConfirm(s, c, answer)
         == s.(cleaners := s.cleaners[c := s.cleaners[c].(phase := FailedWith(PutAmbiguous))])
  {
  }
}
