/** A batch of the outbox publisher: its steps, and what it does to the rows and the topics. */
module OutboxBatches {
  import opened Common
  import opened Wire
  import opened Delivery
  import opened Handling

  /** How one row of a batch fares. */
  datatype Fate = Fate(row: nat, target: TopicPartition, delivered: bool, acknowledged: bool)

  function Publishing(f: Fate): Action {
    PublishEvent(f.row, f.target, f.delivered, f.acknowledged)
  }

  function Publishings(fates: seq<Fate>, n: nat): seq<Action>
    requires n <= |fates|
  {
    seq(n, i requires 0 <= i < n => Publishing(fates[i]))
  }

  lemma CommitBatchIs(s: State)
    ensures StepCommitBatch(s) == s.(outbox := Committed(s.outbox, s.batch), batch := map[])
  {
    assert StepCommitBatch(s).outbox == Committed(s.outbox, s.batch);
  }

  function PublishAll(s: State, fates: seq<Fate>, n: nat): State
    requires n <= |fates|
  {
    if n == 0 then s
    else
      var f := fates[n - 1];
      StepPublish(PublishAll(s, fates, n - 1), f.row, f.target, f.delivered, f.acknowledged)
  }

  lemma {:induction false} PublishRowsAreRun(s: State, fates: seq<Fate>, n: nat)
    requires n <= |fates|
    ensures PublishAll(s, fates, n) == Run(s, Publishings(fates, n))
    decreases n
  {
    if n > 0 {
      PublishRowsAreRun(s, fates, n - 1);
      RunSnoc(s, Publishings(fates, n - 1), Publishing(fates[n - 1]));
      OneMorePublishing(fates, n);
      PublishingIsStep(PublishAll(s, fates, n - 1), fates[n - 1]);
    }
  }

  lemma {:induction false} OneMorePublishing(fates: seq<Fate>, n: nat)
    requires 0 < n <= |fates|
    ensures Publishings(fates, n) == Publishings(fates, n - 1) + [Publishing(fates[n - 1])]
  {
  }

  lemma PublishingIsStep(s: State, f: Fate)
    ensures Step(s, Publishing(f)) == StepPublish(s, f.row, f.target, f.delivered, f.acknowledged)
  {
  }

  /** A batch is a run of the protocol. */
  lemma {:induction false} PublishAllIsRun(s: State, fates: seq<Fate>)
    ensures StepCommitBatch(PublishAll(s, fates, |fates|)) == Run(s, Publishings(fates, |fates|) + [CommitBatch])
  {
    PublishRowsAreRun(s, fates, |fates|);
    RunSnoc(s, Publishings(fates, |fates|), CommitBatch);
  }

  function Committed(outbox: seq<Event>, batch: map<nat, Mark>): (r: seq<Event>)
    ensures |r| == |outbox|
  {
    seq(|outbox|, i requires 0 <= i < |outbox| => if i in batch then Marked(outbox[i], batch[i]) else outbox[i])
  }

  lemma OneMoreMark(outbox: seq<Event>, batch: map<nat, Mark>, i: nat, mark: Mark)
    requires i < |outbox| && i !in batch
    ensures Committed(outbox, batch[i := mark]) == Committed(outbox, batch)[i := Marked(outbox[i], mark)]
  {
  }

  /** Rows that the batch may claim: unpublished, each once, with somewhere to go. */
  ghost predicate Claimable(s: State, fates: seq<Fate>) {
    && (forall k :: 0 <= k < |fates| ==>
      && fates[k].row < |s.outbox| && s.outbox[fates[k].row].status == Unpublished
      && fates[k].target in s.parts && !fates[k].target.retry && (fates[k].acknowledged ==> fates[k].delivered))
    && (forall j, k :: 0 <= j < k < |fates| ==> fates[j].row != fates[k].row)
  }

  // ---- what a batch does ----

  /** A row that does not serialise fails for good, one that the broker acknowledged is published, and
      any other counts one attempt more and stays due. */
  function RowAfter(codec: Codec, e: Event, acknowledged: bool): Event {
    if codec.encode(e).None? then e.(status := Unserializable, attempts := e.attempts + 1)
    else if acknowledged then e.(status := Published)
    else e.(attempts := e.attempts + 1)
  }

  /** The records that the first `n` rows put on a partition, in the order of the rows. */
  function Sent(codec: Codec, outbox: seq<Event>, fates: seq<Fate>, x: TopicPartition, n: nat): seq<BrokerRecord>
    requires n <= |fates| && forall k :: 0 <= k < |fates| ==> fates[k].row < |outbox|
  {
    if n == 0 then []
    else
      var f, before := fates[n - 1], Sent(codec, outbox, fates, x, n - 1);
      var r := codec.encode(outbox[f.row]);
      if r.Some? && f.delivered && f.target == x then before + [r.value] else before
  }

  /** Every row of the batch is marked by its own fate, every other row stays, every partition gets the
      records sent to it, and nothing else changes. */
  ghost predicate BatchDone(s: State, t: State, fates: seq<Fate>)
    requires forall k :: 0 <= k < |fates| ==> fates[k].row < |s.outbox|
  {
    && t == s.(outbox := t.outbox, parts := t.parts) && |t.outbox| == |s.outbox| && t.parts.Keys == s.parts.Keys
    && (forall k :: 0 <= k < |fates| ==>
          t.outbox[fates[k].row] == RowAfter(s.codec, s.outbox[fates[k].row], fates[k].acknowledged))
    && (forall i: nat :: i < |s.outbox| && (forall k :: 0 <= k < |fates| ==> fates[k].row != i) ==>
          t.outbox[i] == s.outbox[i])
    && (forall x :: x in s.parts ==>
          t.parts[x] == s.parts[x].(log := s.parts[x].log + Sent(s.codec, s.outbox, fates, x, |fates|)))
  }

  function MarkFor(codec: Codec, e: Event, acknowledged: bool): Mark {
    if codec.encode(e).None? then MarkUnserializable else if acknowledged then MarkPublished else MarkRetry
  }

  /** One row's publication. */
  lemma PublishEffect(t: State, f: Fate)
    requires f.row < |t.outbox| && t.outbox[f.row].status == Unpublished && f.row !in t.batch
    requires f.target in t.parts && !f.target.retry && (f.acknowledged ==> f.delivered)
    ensures var r := t.codec.encode(t.outbox[f.row]);
      StepPublish(t, f.row, f.target, f.delivered, f.acknowledged)
      == t.(batch := t.batch[f.row := MarkFor(t.codec, t.outbox[f.row], f.acknowledged)],
            parts := if r.Some? && f.delivered then Append(t.parts, f.target, r.value) else t.parts)
  {
  }

  /** The row is one of the first `n` of the batch. */
  ghost predicate RowAmong(fates: seq<Fate>, n: nat, row: nat)
    requires n <= |fates|
  {
    exists k :: 0 <= k < n && fates[k].row == row
  }

  /** The marks after `n` rows. */
  ghost predicate MarksOf(s: State, batch: map<nat, Mark>, fates: seq<Fate>, n: nat)
    requires n <= |fates| && Claimable(s, fates)
  {
    && (forall k :: 0 <= k < n ==> fates[k].row in batch)
    && (forall k :: 0 <= k < n ==>
          batch[fates[k].row] == MarkFor(s.codec, s.outbox[fates[k].row], fates[k].acknowledged))
    && (forall i :: i in batch ==> RowAmong(fates, n, i))
  }

  lemma {:induction false} LastRowIsNew(s: State, fates: seq<Fate>, n: nat, row: nat)
    requires 0 < n <= |fates| && Claimable(s, fates)
    ensures RowAmong(fates, n, row) <==> RowAmong(fates, n - 1, row) || row == fates[n - 1].row
    ensures !RowAmong(fates, n - 1, fates[n - 1].row)
  {
    if RowAmong(fates, n, row) && row != fates[n - 1].row {
      var k :| 0 <= k < n && fates[k].row == row;
      assert k < n - 1;
    }
  }

  lemma {:induction false} MarksGoOn(s: State, batch: map<nat, Mark>, fates: seq<Fate>, n: nat)
    requires 0 < n <= |fates| && Claimable(s, fates) && MarksOf(s, batch, fates, n - 1)
    ensures fates[n - 1].row !in batch
    ensures var f := fates[n - 1];
      MarksOf(s, batch[f.row := MarkFor(s.codec, s.outbox[f.row], f.acknowledged)], fates, n)
  {
    var f := fates[n - 1];
    var after := batch[f.row := MarkFor(s.codec, s.outbox[f.row], f.acknowledged)];
    LastRowIsNew(s, fates, n, f.row);
    forall i | i in after ensures RowAmong(fates, n, i) { LastRowIsNew(s, fates, n, i); }
  }

  /** The partitions after `n` rows. */
  ghost predicate LogsOf(s: State, parts: Partitions, fates: seq<Fate>, n: nat)
    requires n <= |fates| && Claimable(s, fates)
  {
    && parts.Keys == s.parts.Keys
    && (forall x :: x in s.parts ==>
          parts[x] == s.parts[x].(log := s.parts[x].log + Sent(s.codec, s.outbox, fates, x, n)))
  }

  lemma LongerLog(part: Partition, sent: seq<BrokerRecord>, r: BrokerRecord)
    ensures var grown := part.(log := part.log + sent);
      grown.(log := grown.log + [r]) == part.(log := part.log + (sent + [r]))
  {
    assert part.log + sent + [r] == part.log + (sent + [r]);
  }

  lemma {:induction false} LogsGoOn(s: State, parts: Partitions, fates: seq<Fate>, n: nat, after: Partitions)
    requires 0 < n <= |fates| && Claimable(s, fates) && LogsOf(s, parts, fates, n - 1)
    requires var f := fates[n - 1];
      var r := s.codec.encode(s.outbox[f.row]);
      after == if r.Some? && f.delivered then Append(parts, f.target, r.value) else parts
    ensures LogsOf(s, after, fates, n)
  {
    var f := fates[n - 1];
    var r := s.codec.encode(s.outbox[f.row]);
    if r.Some? && f.delivered {
      LongerLog(s.parts[f.target], Sent(s.codec, s.outbox, fates, f.target, n - 1), r.value);
    }
  }

  /** The state after `n` rows: their marks, their records, and nothing else. */
  ghost predicate Underway(s: State, t: State, fates: seq<Fate>, n: nat)
    requires n <= |fates| && Claimable(s, fates)
  {
    t == s.(batch := t.batch, parts := t.parts) && MarksOf(s, t.batch, fates, n) && LogsOf(s, t.parts, fates, n)
  }

  lemma {:induction false} StepGoesOn(s: State, t: State, after: State, fates: seq<Fate>, n: nat)
    requires 0 < n <= |fates| && Claimable(s, fates) && Underway(s, t, fates, n - 1)
    requires var f := fates[n - 1]; after == StepPublish(t, f.row, f.target, f.delivered, f.acknowledged)
    ensures Underway(s, after, fates, n)
  {
    MarksGoOn(s, t.batch, fates, n);
    PublishEffect(t, fates[n - 1]);
    LogsGoOn(s, t.parts, fates, n, after.parts);
  }

  lemma {:induction false} NothingYet(s: State, fates: seq<Fate>)
    requires Claimable(s, fates) && s.batch == map[]
    ensures Underway(s, s, fates, 0)
  {
    forall x | x in s.parts
      ensures s.parts[x] == s.parts[x].(log := s.parts[x].log + Sent(s.codec, s.outbox, fates, x, 0))
    {
      assert s.parts[x].log + [] == s.parts[x].log;
    }
  }

  lemma {:induction false} OneMoreRow(s: State, fates: seq<Fate>, n: nat)
    requires 0 < n <= |fates|
    ensures var f := fates[n - 1];
      PublishAll(s, fates, n) == StepPublish(PublishAll(s, fates, n - 1), f.row, f.target, f.delivered, f.acknowledged)
  {
  }

  lemma {:induction false} AllGoOn(s: State, fates: seq<Fate>, n: nat)
    requires n <= |fates| && Claimable(s, fates) && s.batch == map[]
    ensures Underway(s, PublishAll(s, fates, n), fates, n)
    decreases n
  {
    if n > 0 {
      AllGoOn(s, fates, n - 1);
      OneMoreRow(s, fates, n);
      StepGoesOn(s, PublishAll(s, fates, n - 1), PublishAll(s, fates, n), fates, n);
    } else {
      NothingYet(s, fates);
    }
  }

  lemma {:induction false} MarkedRows(s: State, batch: map<nat, Mark>, fates: seq<Fate>, k: nat)
    requires Claimable(s, fates) && MarksOf(s, batch, fates, |fates|) && k < |fates|
    ensures Committed(s.outbox, batch)[fates[k].row] == RowAfter(s.codec, s.outbox[fates[k].row], fates[k].acknowledged)
  {
  }

  lemma {:induction false} UnmarkedRows(s: State, batch: map<nat, Mark>, fates: seq<Fate>, i: nat)
    requires Claimable(s, fates) && MarksOf(s, batch, fates, |fates|) && i < |s.outbox|
    requires forall k :: 0 <= k < |fates| ==> fates[k].row != i
    ensures Committed(s.outbox, batch)[i] == s.outbox[i]
  {
    assert !RowAmong(fates, |fates|, i);
  }

  lemma {:induction false} UnderwayIsDone(s: State, t: State, fates: seq<Fate>)
    requires Claimable(s, fates) && Underway(s, t, fates, |fates|) && s.batch == map[]
    ensures BatchDone(s, t.(outbox := Committed(t.outbox, t.batch), batch := map[]), fates)
  {
    forall k | 0 <= k < |fates|
      ensures Committed(s.outbox, t.batch)[fates[k].row]
           == RowAfter(s.codec, s.outbox[fates[k].row], fates[k].acknowledged)
    {
      MarkedRows(s, t.batch, fates, k);
    }
    forall i: nat | i < |s.outbox| && forall k :: 0 <= k < |fates| ==> fates[k].row != i
      ensures Committed(s.outbox, t.batch)[i] == s.outbox[i]
    {
      UnmarkedRows(s, t.batch, fates, i);
    }
  }

  /** A batch marks its rows by what became of them, and sends each record where it belongs. */
  lemma {:induction false} BatchIsDone(s: State, fates: seq<Fate>)
    requires s.batch == map[] && Claimable(s, fates)
    ensures BatchDone(s, StepCommitBatch(PublishAll(s, fates, |fates|)), fates)
  {
    AllGoOn(s, fates, |fates|);
    CommitBatchIs(PublishAll(s, fates, |fates|));
    UnderwayIsDone(s, PublishAll(s, fates, |fates|), fates);
  }
}
