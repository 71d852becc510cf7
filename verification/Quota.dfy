/** Tenant quota decisions of quota.py over the source and reservation tables of one tenant.

    Every decision runs under the tenant lock and reads one clock value, which both deletes the
    expired rows and delimits the rows that are counted. A decision that raises rolls back. */
module Quota {
  import opened Common
  import opened CleanupRows

  const SOURCE_LIMIT: nat := 100
  const BYTE_LIMIT: nat := 1024 * 1024 * 1024
  const CONCURRENT_LIMIT: nat := 3
  const UPLOAD_LEASE: Time := 10 * 60
  const MAX_FILE_BYTES: nat := 25 * 1024 * 1024

  /** A URL source has neither key nor size; a file source without a size is a legacy row. */
  datatype Source = Source(key: Option<Key>, size: Option<nat>)

  datatype Reservation = Reservation(bytes: nat, cleanup: Option<Id>, lease: Time)

  datatype Tables = Tables(sources: map<Id, Source>, reservations: map<Id, Reservation>)

  datatype Rejection =
    InvalidSize | QuotaUnavailable | SourceLimitReached | ByteLimitReached | ConcurrencyLimited

  function SourceBytes(s: Source): nat { if s.size.Some? then s.size.value else 0 }
  function ReservedBytes(r: Reservation): nat { r.bytes }

  predicate Expired(r: Reservation, now: Time) { r.cleanup.None? && r.lease <= now }

  /** `delete_expired_unlinked_upload_reservations`. */
  function Reclaim(rs: map<Id, Reservation>, now: Time): map<Id, Reservation> {
    map u | u in rs && !Expired(rs[u], now) :: rs[u]
  }

  /** The rows the usage query counts as held. */
  function Held(rs: map<Id, Reservation>, now: Time): map<Id, Reservation> {
    map u | u in rs && (rs[u].cleanup.Some? || rs[u].lease > now) :: rs[u]
  }

  function Live(rs: map<Id, Reservation>, t: Time): set<Id> {
    set u | u in rs && rs[u].lease > t
  }

  predicate UnknownSizes(ss: map<Id, Source>) {
    exists u :: u in ss && ss[u].key.Some? && ss[u].size.None?
  }

  /** Everything a tenant is charged for, expired reservations included. */
  ghost function ChargedBytes(t: Tables): nat {
    SumBy(t.sources, SourceBytes) + SumBy(t.reservations, ReservedBytes)
  }

  function ChargedRows(t: Tables): nat {
    |t.sources| + |t.reservations|
  }

  ghost predicate WithinQuota(t: Tables) {
    ChargedBytes(t) <= BYTE_LIMIT && ChargedRows(t) <= SOURCE_LIMIT
  }

  // ---- the decisions ----

  ghost function HeldBytes(t: Tables, now: Time): nat {
    SumBy(t.sources, SourceBytes) + SumBy(Held(t.reservations, now), ReservedBytes)
  }

  function HeldRows(t: Tables, now: Time): nat {
    |t.sources| + |Held(t.reservations, now)|
  }

  ghost function Reserve(t: Tables, u: Id, bytes: int, now: Time): Result<Tables, Rejection> {
    if !(0 <= bytes <= MAX_FILE_BYTES) then Err(InvalidSize) else
      var kept := t.(reservations := Reclaim(t.reservations, now));
      if UnknownSizes(kept.sources) then Err(QuotaUnavailable)
      else if HeldRows(kept, now) >= SOURCE_LIMIT then Err(SourceLimitReached)
      else if HeldBytes(kept, now) + bytes > BYTE_LIMIT then Err(ByteLimitReached)
      else if |Live(kept.reservations, now)| >= CONCURRENT_LIMIT then Err(ConcurrencyLimited)
      else Ok(kept.(reservations := kept.reservations[u := Reservation(bytes, None, now + UPLOAD_LEASE)]))
  }

  ghost function Finalize(t: Tables, u: Id, admitted: nat, bytes: int, now: Time): Result<Tables, Rejection> {
    if !(0 <= bytes <= MAX_FILE_BYTES) || admitted != 0 then Err(InvalidSize) else
      var kept := t.(reservations := Reclaim(t.reservations, now));
      if UnknownSizes(kept.sources) then Err(QuotaUnavailable)
      else if u !in kept.reservations then Err(QuotaUnavailable)
      else
        var r := kept.reservations[u];
        if r.cleanup.Some? || r.bytes != 0 || r.lease <= now then Err(QuotaUnavailable)
        else if HeldBytes(kept, now) + bytes > BYTE_LIMIT then Err(ByteLimitReached)
        else Ok(kept.(reservations := kept.reservations[u := r.(bytes := bytes)]))
  }

  /** `assert_source_capacity` followed by the insertion in `create_source`. */
  function AddUrlSource(t: Tables, u: Id, now: Time): Result<Tables, Rejection> {
    var kept := t.(reservations := Reclaim(t.reservations, now));
    if HeldRows(kept, now) >= SOURCE_LIMIT then Err(SourceLimitReached)
    else Ok(kept.(sources := kept.sources[u := Source(None, None)]))
  }

  // ---- what the decisions guarantee ----

  /** Because one clock value both deletes and counts, nothing that stays escapes the count. */
  lemma ReclaimedRowsAreAllHeld(rs: map<Id, Reservation>, now: Time)
    ensures Held(Reclaim(rs, now), now) == Reclaim(rs, now)
  {
  }

  lemma ReclaimKeepsQuota(t: Tables, now: Time)
    ensures var kept := t.(reservations := Reclaim(t.reservations, now));
      ChargedBytes(kept) <= ChargedBytes(t) && ChargedRows(kept) <= ChargedRows(t)
      && ChargedBytes(kept) == HeldBytes(kept, now) && ChargedRows(kept) == HeldRows(kept, now)
  {
    var rs := Reclaim(t.reservations, now);
    SumBySubset(rs, t.reservations, ReservedBytes);
    CardinalityOfSubset(rs.Keys, t.reservations.Keys);
    assert |rs| == |rs.Keys| && |t.reservations| == |t.reservations.Keys|;
    ReclaimedRowsAreAllHeld(t.reservations, now);
  }

  lemma {:induction false} CardinalityOfSubset<T>(a: set<T>, b: set<T>)
    requires a <= b
    ensures |a| <= |b|
  {
    if a != {} {
      var x :| x in a;
      CardinalityOfSubset(a - {x}, b - {x});
    }
  }

  /** Admission, with any requested size, keeps both limits for a fresh upload. */
  lemma ReserveKeepsQuota(t: Tables, u: Id, bytes: int, now: Time)
    requires WithinQuota(t) && u !in t.reservations
    ensures Reserve(t, u, bytes, now).Ok? ==> WithinQuota(Reserve(t, u, bytes, now).value)
  {
    if Reserve(t, u, bytes, now).Ok? {
      ReclaimKeepsQuota(t, now);
      var rs := Reclaim(t.reservations, now);
      var r := Reservation(bytes, None, now + UPLOAD_LEASE);
      SumByInsert(rs, ReservedBytes, u, r);
      assert rs[u := r].Keys == rs.Keys + {u};
    }
  }

  lemma ResizeCharges(t: Tables, u: Id, bytes: nat)
    requires u in t.reservations
    ensures var r := t.reservations[u];
      ChargedBytes(t.(reservations := t.reservations[u := r.(bytes := bytes)])) + r.bytes == ChargedBytes(t) + bytes
  {
    SumByUpdate(t.reservations, ReservedBytes, u, t.reservations[u].(bytes := bytes));
  }

  lemma UpdateKeepsRows(t: Tables, u: Id, r: Reservation)
    requires u in t.reservations
    ensures ChargedRows(t.(reservations := t.reservations[u := r])) == ChargedRows(t)
  {
    assert t.reservations[u := r].Keys == t.reservations.Keys;
  }

  lemma SourceChargesBytes(t: Tables, u: Id, s: Source)
    requires u !in t.sources
    ensures ChargedBytes(t.(sources := t.sources[u := s])) == ChargedBytes(t) + SourceBytes(s)
  {
    SumByInsert(t.sources, SourceBytes, u, s);
  }

  lemma SourceChargesRow(t: Tables, u: Id, s: Source)
    requires u !in t.sources
    ensures ChargedRows(t.(sources := t.sources[u := s])) == ChargedRows(t) + 1
  {
    assert t.sources[u := s].Keys == t.sources.Keys + {u};
  }

  lemma FinalizeKeepsQuota(t: Tables, u: Id, admitted: nat, bytes: int, now: Time)
    requires WithinQuota(t)
    ensures Finalize(t, u, admitted, bytes, now).Ok? ==> WithinQuota(Finalize(t, u, admitted, bytes, now).value)
  {
    var rs := Reclaim(t.reservations, now);
    if Finalize(t, u, admitted, bytes, now).Ok? {
      ReclaimKeepsQuota(t, now);
      ResizeCharges(t.(reservations := rs), u, bytes);
      UpdateKeepsRows(t.(reservations := rs), u, rs[u].(bytes := bytes));
    }
  }

  lemma AddUrlSourceKeepsQuota(t: Tables, u: Id, now: Time)
    requires WithinQuota(t) && u !in t.sources
    ensures AddUrlSource(t, u, now).Ok? ==> WithinQuota(AddUrlSource(t, u, now).value)
  {
    if AddUrlSource(t, u, now).Ok? {
      ReclaimKeepsQuota(t, now);
      var kept := t.(reservations := Reclaim(t.reservations, now));
      SourceChargesBytes(kept, u, Source(None, None));
      SourceChargesRow(kept, u, Source(None, None));
    }
  }

  /** A committed admission leaves at most three live leases at its own clock reading and at
      every later instant, whatever clocks the earlier admissions read. */
  lemma ReserveBoundsLeases(t: Tables, u: Id, bytes: int, now: Time, at: Time)
    requires u !in t.reservations && now <= at
    requires Reserve(t, u, bytes, now).Ok?
    ensures |Live(Reserve(t, u, bytes, now).value.reservations, at)| <= CONCURRENT_LIMIT
  {
    var rs := Reclaim(t.reservations, now);
    var after := Reserve(t, u, bytes, now).value.reservations;
    assert Live(after, now) == Live(rs, now) + {u};
    CardinalityOfSubset(Live(after, at), Live(after, now));
  }

  // ---- the same decisions as the code takes them, table by table ----

  method SumSizes(ss: map<Id, Source>) returns (total: nat)
    ensures total == SumBy(ss, SourceBytes)
  {
    var rest := ss;
    total := 0;
    while rest != map[]
      invariant total + SumBy(rest, SourceBytes) == SumBy(ss, SourceBytes)
      decreases |rest.Keys|
    {
      var u :| u in rest.Keys;
      SumByRemove(rest, SourceBytes, u);
      total := total + SourceBytes(rest[u]);
      assert (rest - {u}).Keys == rest.Keys - {u};
      rest := rest - {u};
    }
  }

  method SumReserved(rs: map<Id, Reservation>) returns (total: nat)
    ensures total == SumBy(rs, ReservedBytes)
  {
    var rest := rs;
    total := 0;
    while rest != map[]
      invariant total + SumBy(rest, ReservedBytes) == SumBy(rs, ReservedBytes)
      decreases |rest.Keys|
    {
      var u :| u in rest.Keys;
      SumByRemove(rest, ReservedBytes, u);
      total := total + ReservedBytes(rest[u]);
      assert (rest - {u}).Keys == rest.Keys - {u};
      rest := rest - {u};
    }
  }

  /** One tenant's rows, updated inside a transaction that holds the tenant lock. */
  class TenantTables {
    var sources: map<Id, Source>
    var reservations: map<Id, Reservation>

    ghost function Contents(): Tables
      reads this
    {
      Tables(sources, reservations)
    }

    constructor (t: Tables)
      ensures Contents() == t
    {
      sources, reservations := t.sources, t.reservations;
    }

    /** `get_knowledge_quota_usage`: rows charged, bytes charged, live leases. */
    method Usage(now: Time) returns (rows: nat, bytes: nat, active: nat)
      ensures rows == HeldRows(Contents(), now)
      ensures bytes == HeldBytes(Contents(), now)
      ensures active == |Live(reservations, now)|
    {
      var held := Held(reservations, now);
      rows := |sources| + |held|;
      var committed := SumSizes(sources);
      var reserved := SumReserved(held);
      bytes := committed + reserved;
      active := |Live(reservations, now)|;
    }

    /** `reserve_file_upload`. */
    method ReserveFileUpload(u: Id, bytes: int, now: Time) returns (rejected: Option<Rejection>)
      requires u !in reservations
      modifies this
      ensures Reserve(old(Contents()), u, bytes, now)
           == if rejected.None? then Ok(Contents()) else Err(rejected.value)
      ensures rejected.Some? ==> Contents() == old(Contents())
      ensures old(WithinQuota(Contents())) ==> WithinQuota(Contents())
    {
      if !(0 <= bytes <= MAX_FILE_BYTES) {
        return Some(InvalidSize);
      }
      ghost var before := Contents();
      var saved := reservations;
      reservations := map v | v in reservations && !Expired(reservations[v], now) :: reservations[v];
      var rows, held, active := Usage(now);
      rejected :=
        if UnknownSizes(sources) then Some(QuotaUnavailable)
        else if rows >= SOURCE_LIMIT then Some(SourceLimitReached)
        else if held + bytes > BYTE_LIMIT then Some(ByteLimitReached)
        else if active >= CONCURRENT_LIMIT then Some(ConcurrencyLimited)
        else None;
      if rejected.Some? {
        reservations := saved;
      } else {
        reservations := reservations[u := Reservation(bytes, None, now + UPLOAD_LEASE)];
      }
      if WithinQuota(before) {
        ReserveKeepsQuota(before, u, bytes, now);
      }
    }

    /** `finalize_file_upload_reservation`. */
    method FinalizeReservation(u: Id, admitted: nat, bytes: int, now: Time) returns (rejected: Option<Rejection>)
      modifies this
      ensures Finalize(old(Contents()), u, admitted, bytes, now)
           == if rejected.None? then Ok(Contents()) else Err(rejected.value)
      ensures rejected.Some? ==> Contents() == old(Contents())
      ensures old(WithinQuota(Contents())) ==> WithinQuota(Contents())
    {
      if !(0 <= bytes <= MAX_FILE_BYTES) || admitted != 0 {
        return Some(InvalidSize);
      }
      ghost var before := Contents();
      var saved := reservations;
      reservations := map v | v in reservations && !Expired(reservations[v], now) :: reservations[v];
      rejected := None;
      if UnknownSizes(sources) || u !in reservations {
        rejected := Some(QuotaUnavailable);
      } else {
        var r := reservations[u];
        if r.cleanup.Some? || r.bytes != 0 || r.lease <= now {
          rejected := Some(QuotaUnavailable);
        } else {
          var _, held, _ := Usage(now);
          if held + bytes > BYTE_LIMIT {
            rejected := Some(ByteLimitReached);
          } else {
            reservations := reservations[u := r.(bytes := bytes)];
          }
        }
      }
      if rejected.Some? {
        reservations := saved;
      }
      if WithinQuota(before) {
        FinalizeKeepsQuota(before, u, admitted, bytes, now);
      }
    }
  }
}
