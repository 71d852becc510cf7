/** Which uploads the quota admits, and what an admission is good for: the decisions of quota.py as
    conditions on the tables, without naming how they are computed. */
module QuotaDecisions {
  import opened Common
  import opened CleanupRows
  import opened Quota

  /** The reservations that count at a clock reading: linked ones, and unlinked ones whose lease has
      not run out. */
  function Counting(rs: map<Id, Reservation>, now: Time): map<Id, Reservation> {
    map u | u in rs && (rs[u].cleanup.Some? || rs[u].lease > now) :: rs[u]
  }

  ghost function BytesAt(t: Tables, now: Time): nat {
    SumBy(t.sources, SourceBytes) + SumBy(Counting(t.reservations, now), ReservedBytes)
  }

  ghost predicate SizesKnown(t: Tables) {
    forall u :: u in t.sources && t.sources[u].key.Some? ==> t.sources[u].size.Some?
  }

  /** Room for one more upload of this size. */
  ghost predicate HasRoom(t: Tables, bytes: int, now: Time) {
    && 0 <= bytes <= 25 * 1024 * 1024 && SizesKnown(t)
    && |t.sources| + |Counting(t.reservations, now)| < 100
    && BytesAt(t, now) + bytes <= 1024 * 1024 * 1024
    && |set u | u in t.reservations && t.reservations[u].lease > now| < 3
  }

  lemma CountingIsKept(rs: map<Id, Reservation>, now: Time)
    ensures Reclaim(rs, now) == Counting(rs, now) && Held(Reclaim(rs, now), now) == Counting(rs, now)
    ensures Live(Reclaim(rs, now), now) == set u | u in rs && rs[u].lease > now
  {
  }

  /** An admission succeeds if and only if there is room, and then adds one reservation that is good
      for ten minutes and drops the ones that have run out. */
  lemma AdmissionNeedsRoom(t: Tables, u: Id, bytes: int, now: Time)
    ensures Reserve(t, u, bytes, now).Ok? <==> HasRoom(t, bytes, now)
    ensures Reserve(t, u, bytes, now).Ok? ==>
      var after := Reserve(t, u, bytes, now).value;
      && after.sources == t.sources
      && after.reservations == Counting(t.reservations, now)[u := Reservation(bytes, None, now + 600)]
  {
    CountingIsKept(t.reservations, now);
  }

  /** The first obstacle is the one reported: size, unknown sizes, rows, bytes, concurrent uploads. */
  lemma RejectionNamesObstacle(t: Tables, u: Id, bytes: int, now: Time)
    requires Reserve(t, u, bytes, now).Err?
    ensures Reserve(t, u, bytes, now).error ==
      if !(0 <= bytes <= 25 * 1024 * 1024) then InvalidSize
      else if !SizesKnown(t) then QuotaUnavailable
      else if |t.sources| + |Counting(t.reservations, now)| >= 100 then SourceLimitReached
      else if BytesAt(t, now) + bytes > 1024 * 1024 * 1024 then ByteLimitReached
      else ConcurrencyLimited
  {
    CountingIsKept(t.reservations, now);
  }

  /** A finalisation succeeds if and only if its zero-byte hold is still unlinked and live and the
      bytes fit, and then gives that hold the bytes and changes no other that counts. */
  lemma FinalisationNeedsLiveHold(t: Tables, u: Id, admitted: nat, bytes: int, now: Time)
    ensures Finalize(t, u, admitted, bytes, now).Ok? <==>
      && 0 <= bytes <= 25 * 1024 * 1024 && admitted == 0 && SizesKnown(t)
      && u in t.reservations && t.reservations[u].cleanup.None? && t.reservations[u].bytes == 0
      && t.reservations[u].lease > now && BytesAt(t, now) + bytes <= 1024 * 1024 * 1024
    ensures Finalize(t, u, admitted, bytes, now).Ok? ==>
      var after := Finalize(t, u, admitted, bytes, now).value;
      && after.sources == t.sources
      && after.reservations == Counting(t.reservations, now)[u := Reservation(bytes, None, t.reservations[u].lease)]
  {
    CountingIsKept(t.reservations, now);
  }

  lemma FewerCountLater(rs: map<Id, Reservation>, now: Time, later: Time)
    requires now <= later
    ensures SumBy(Counting(Counting(rs, now), later), ReservedBytes) <= SumBy(Counting(rs, now), ReservedBytes)
  {
    SumBySubset(Counting(Counting(rs, now), later), Counting(rs, now), ReservedBytes);
  }

  /** An admission is good for ten minutes: until then, and with nothing else admitted, any size that
      fitted at admission can be finalised. */
  lemma AdmissionLastsTenMinutes(t: Tables, u: Id, bytes: int, now: Time, later: Time)
    requires HasRoom(t, 0, now) && u !in t.reservations && now <= later < now + 10 * 60
    requires 0 <= bytes <= 25 * 1024 * 1024 && BytesAt(t, now) + bytes <= 1024 * 1024 * 1024
    ensures Reserve(t, u, 0, now).Ok? && Finalize(Reserve(t, u, 0, now).value, u, 0, bytes, later).Ok?
  {
    AdmissionNeedsRoom(t, u, 0, now);
    var kept := Counting(t.reservations, now);
    var held := Reservation(0, None, now + 600);
    var after := Reserve(t, u, 0, now).value;
    FinalisationNeedsLiveHold(after, u, 0, bytes, later);
    assert Counting(after.reservations, later) == Counting(kept, later)[u := held];
    SumByInsert(Counting(kept, later), ReservedBytes, u, held);
    FewerCountLater(t.reservations, now, later);
  }

  /** A URL source is added if and only if fewer than a hundred rows count. */
  lemma UrlSourceNeedsRow(t: Tables, u: Id, now: Time)
    ensures AddUrlSource(t, u, now).Ok? <==> |t.sources| + |Counting(t.reservations, now)| < 100
    ensures AddUrlSource(t, u, now).Ok? ==>
      AddUrlSource(t, u, now).value == Tables(t.sources[u := Source(None, None)], Counting(t.reservations, now))
  {
    CountingIsKept(t.reservations, now);
  }
}
