/** `_window_provenance`: which segments of a group a chunk came from. */
module Provenance {
  import opened Common
  import opened TokenSpans
  import opened Segments

  datatype Origin = Origin(
    segmentOrdinal: int,
    page: Option<int>,
    headingPath: seq<string>,
    startLine: Option<int>,
    endLine: Option<int>)

  function OriginOf(s: Segment): Origin {
    Origin(s.ordinal, s.page, s.headingPath, s.startLine, s.endLine)
  }

  /** The span overlaps `[lo, hi)`. */
  predicate Meets(s: Span, lo: nat, hi: nat) {
    s.start < hi && lo < s.end
  }

  /** The plain filter: segments whose span meets the window. */
  function Meeting(g: seq<Segment>, spans: seq<Span>, lo: nat, hi: nat, n: nat): seq<Origin>
    requires n <= |g| == |spans|
  {
    if n == 0 then []
    else Meeting(g, spans, lo, hi, n - 1) + if Meets(spans[n - 1], lo, hi) then [OriginOf(g[n - 1])] else []
  }

  /** Apart and in order. */
  predicate Ordered(spans: seq<Span>) {
    && (forall i :: 0 <= i < |spans| ==> spans[i].start <= spans[i].end)
    && (forall i, j :: 0 <= i < j < |spans| ==> spans[i].end <= spans[j].start)
  }

  lemma {:induction false} SkipsMeetNothing(g: seq<Segment>, spans: seq<Span>, lo: nat, hi: nat, k: nat, n: nat)
    requires k <= n <= |g| == |spans|
    requires forall i :: k <= i < n ==> !Meets(spans[i], lo, hi)
    ensures Meeting(g, spans, lo, hi, n) == Meeting(g, spans, lo, hi, k)
    decreases n
  {
    if k < n { SkipsMeetNothing(g, spans, lo, hi, k, n - 1); }
  }

  /** Starting late and stopping early loses nothing. */
  method WindowProvenance(g: seq<Segment>, spans: seq<Span>, startIndex: nat, lo: nat, hi: nat)
    returns (r: seq<Origin>)
    requires |g| == |spans| && Ordered(spans) && startIndex <= |spans|
    requires forall i :: 0 <= i < startIndex ==> spans[i].end <= lo
    ensures r == Meeting(g, spans, lo, hi, |g|)
  {
    r := [];
    SkipsMeetNothing(g, spans, lo, hi, 0, startIndex);
    for index := startIndex to |spans|
      invariant r == Meeting(g, spans, lo, hi, index)
    {
      if spans[index].start >= hi {
        SkipsMeetNothing(g, spans, lo, hi, index, |g|);
        return;
      }
      if spans[index].end <= lo {
        continue;
      }
      r := r + [OriginOf(g[index])];
    }
  }

  /** The start index moves over the spans that end before the window. */
  method AdvanceStart(spans: seq<Span>, startIndex: nat, lo: nat) returns (r: nat)
    requires startIndex <= |spans|
    requires forall i :: 0 <= i < startIndex ==> spans[i].end <= lo
    ensures startIndex <= r <= |spans|
    ensures forall i :: 0 <= i < r ==> spans[i].end <= lo
  {
    r := startIndex;
    while r < |spans| && spans[r].end <= lo
      invariant startIndex <= r <= |spans|
      invariant forall i :: 0 <= i < r ==> spans[i].end <= lo
    {
      r := r + 1;
    }
  }

  /** A segment is named exactly when its span meets the window. */
  lemma {:induction false} MeetingIsExact(g: seq<Segment>, spans: seq<Span>, lo: nat, hi: nat, n: nat, i: nat)
    requires n <= |g| == |spans| && i < n
    requires forall j, k :: 0 <= j < k < |g| ==> g[j].ordinal != g[k].ordinal
    ensures OriginOf(g[i]) in Meeting(g, spans, lo, hi, n) <==> Meets(spans[i], lo, hi)
  {
    MeetingOrdinals(g, spans, lo, hi, n);
    if i < n - 1 {
      MeetingIsExact(g, spans, lo, hi, n - 1, i);
      assert OriginOf(g[i]) != OriginOf(g[n - 1]);
    } else {
      MeetingOrdinals(g, spans, lo, hi, n - 1);
    }
  }

  lemma {:induction false} MeetingOrdinals(g: seq<Segment>, spans: seq<Span>, lo: nat, hi: nat, n: nat)
    requires n <= |g| == |spans|
    ensures forall o :: o in Meeting(g, spans, lo, hi, n) ==> exists j :: 0 <= j < n && o == OriginOf(g[j])
  {
    if n > 0 { MeetingOrdinals(g, spans, lo, hi, n - 1); }
  }
}
