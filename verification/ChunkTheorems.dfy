/** What the chunks are: texts that re-tokenise to their counts, with exact provenance, that leave
    no segment out. */
module ChunkTheorems {
  import opened PyText
  import opened TokenSpans
  import opened Windows
  import opened Segments
  import opened GroupText
  import opened Provenance
  import opened Chunking

  // ---- one group ----

  function WindowOf(ws: char -> bool, p: Policy, piece: Piece, k: nat): (w: Window)
    requires ValidPolicy(p) && Tokens(ws, piece.text) != [] && k < |WindowsFrom(0, |Tokens(ws, piece.text)|, p)|
    ensures w.first < w.last <= |Tokens(ws, piece.text)| && w.last - w.first <= p.maxTokens
  {
    WindowBounds(0, |Tokens(ws, piece.text)|, p, k);
    WindowsFrom(0, |Tokens(ws, piece.text)|, p)[k]
  }

  /** A chunk's text re-tokenises to exactly the tokens of its window. */
  lemma {:induction false} ChunkRetokenises(ws: char -> bool, p: Policy, piece: Piece, k: nat, ordinal: nat)
    requires ValidPolicy(p) && Derived(ws, p, piece) && WellFormed(piece) && k < |piece.windows|
    ensures var c, w := ChunkFor(piece, k, ordinal), WindowOf(ws, p, piece, k);
      && Shift(Tokens(ws, c.text), piece.windows[k].start) == Tokens(ws, piece.text)[w.first..w.last]
      && |Tokens(ws, c.text)| == c.tokenCount
      && 0 < c.tokenCount <= p.maxTokens
  {
    SliceRetokenises(ws, piece.text, WindowOf(ws, p, piece, k), piece.windows[k]);
  }

  lemma {:induction false} SliceRetokenises(ws: char -> bool, text: string, w: Window, y: Yielded)
    requires w.first < w.last <= |Tokens(ws, text)| && y == Render(Tokens(ws, text), w)
    ensures y.start <= y.end <= |text|
    ensures Shift(Tokens(ws, text[y.start..y.end]), y.start) == Tokens(ws, text)[w.first..w.last]
    ensures |Tokens(ws, text[y.start..y.end])| == y.count
  {
    TokensBetween(ws, text, w.first, w.last);
  }

  /** Token `t` of the group's text lies in segment `i`. */
  predicate InSegment(g: seq<Segment>, i: nat, token: Span)
    requires i < |g|
  {
    SpanOf(g, i).start <= token.start && token.end <= SpanOf(g, i).end
  }

  lemma {:induction false} LeadIsPrefix(g: seq<Segment>, i: nat)
    requires i < |g|
    ensures |Lead(g, i)| <= |Text(g, |g|)| && Text(g, |g|)[..|Lead(g, i)|] == Lead(g, i)
  {
    TextPrefix(g, i + 1, |g|);
    var t, u, l := Text(g, |g|), Text(g, i + 1), Lead(g, i);
    assert u == l + g[i].text;
    assert t[..|l|] == u[..|l|] == l;
  }

  lemma PrefixEndsAtBoundary(ws: char -> bool, t: string, u: string)
    requires |u| <= |t| && t[..|u|] == u && (u == [] || ws(u[|u| - 1]))
    ensures Boundary(ws, t, |u|)
  {
    if u != [] { assert t[..|u|][|u| - 1] == t[|u| - 1]; }
  }

  lemma {:induction false} SpanStartIsBoundary(ws: char -> bool, g: seq<Segment>, i: nat)
    requires SeparatorsAreSpace(ws) && i < |g|
    ensures |Lead(g, i)| <= |Text(g, |g|)| && Text(g, |g|)[..|Lead(g, i)|] == Lead(g, i)
    ensures Boundary(ws, Text(g, |g|), |Lead(g, i)|)
  {
    LeadIsPrefix(g, i);
    LeadTokens(ws, g, i);
    PrefixEndsAtBoundary(ws, Text(g, |g|), Lead(g, i));
  }

  lemma {:induction false} SpanEndIsBoundary(ws: char -> bool, g: seq<Segment>, i: nat)
    requires SeparatorsAreSpace(ws) && i < |g|
    ensures |Text(g, i + 1)| <= |Text(g, |g|)| && Text(g, |g|)[..|Text(g, i + 1)|] == Text(g, i + 1)
    ensures Boundary(ws, Text(g, |g|), |Text(g, i + 1)|)
  {
    TextPrefix(g, i + 1, |g|);
    if i + 1 < |g| {
      LeadIsPrefix(g, i + 1);
      NextIsSpace(ws, Text(g, |g|), Text(g, i + 1), Lead(g, i + 1));
    }
  }

  lemma NextIsSpace(ws: char -> bool, t: string, u: string, v: string)
    requires SeparatorsAreSpace(ws) && v == u + SEPARATOR && |v| <= |t| && t[..|v|] == v
    ensures ws(t[|u|])
  {
    assert t[|u|] == t[..|v|][|u|] == SEPARATOR[0];
  }

  /** The first `a` tokens lie before position `p`, and the others after it. */
  ghost predicate Divides(tokens: seq<Span>, a: nat, p: nat) {
    && a <= |tokens|
    && (forall t: nat :: t < |tokens| ==> (t < a <==> tokens[t].start < p))
    && (forall t: nat :: t < |tokens| ==> (t < a <==> tokens[t].end <= p))
  }

  lemma {:induction false} BoundaryDivides(ws: char -> bool, text: string, p: nat)
    requires Boundary(ws, text, p)
    ensures Divides(Tokens(ws, text), |Tokens(ws, text[..p])|, p)
  {
    CutTokens(ws, text, p);
    forall t: nat | t < |Tokens(ws, text)|
      ensures t < |Tokens(ws, text[..p])| <==> Tokens(ws, text)[t].start < p
      ensures t < |Tokens(ws, text[..p])| <==> Tokens(ws, text)[t].end <= p
    {
      TokensBefore(ws, text, p, t);
    }
  }

  /** A segment with a token adds one to the tokens before it. */
  lemma {:induction false} SegmentAddsTokens(ws: char -> bool, g: seq<Segment>, i: nat)
    requires SeparatorsAreSpace(ws) && i < |g| && Tokens(ws, g[i].text) != []
    ensures |Tokens(ws, Lead(g, i))| < |Tokens(ws, Text(g, i + 1))|
  {
    LeadTokens(ws, g, i);
    TextTokens(ws, g, i);
  }

  /** The tokens of segment `i` are the tokens `a..b` of the group, and it has some. */
  lemma {:induction false} SegmentRange(ws: char -> bool, g: seq<Segment>, i: nat) returns (a: nat, b: nat)
    requires SeparatorsAreSpace(ws) && i < |g| && Tokens(ws, g[i].text) != []
    ensures a < b && Divides(Tokens(ws, Text(g, |g|)), a, SpanOf(g, i).start)
    ensures Divides(Tokens(ws, Text(g, |g|)), b, SpanOf(g, i).end)
  {
    a, b := |Tokens(ws, Lead(g, i))|, |Tokens(ws, Text(g, i + 1))|;
    SegmentAddsTokens(ws, g, i);
    SpanStartIsBoundary(ws, g, i);
    SpanEndIsBoundary(ws, g, i);
    BoundaryDivides(ws, Text(g, |g|), SpanOf(g, i).start);
    BoundaryDivides(ws, Text(g, |g|), SpanOf(g, i).end);
  }

  /** A window meets a segment's span exactly when it holds one of the segment's tokens. */
  lemma {:induction false} WindowMeetsSegment(ws: char -> bool, g: seq<Segment>, i: nat, w: Window)
    requires SeparatorsAreSpace(ws) && i < |g| && Tokens(ws, g[i].text) != []
    requires w.first < w.last <= |Tokens(ws, Text(g, |g|))|
    ensures var tokens := Tokens(ws, Text(g, |g|)); var y := Render(tokens, w);
      Meets(SpanOf(g, i), y.start, y.end) <==> exists t: nat :: w.first <= t < w.last && InSegment(g, i, tokens[t])
  {
    var a, b := SegmentRange(ws, g, i);
    var tokens := Tokens(ws, Text(g, |g|));
    var y := Render(tokens, w);
    assert Meets(SpanOf(g, i), y.start, y.end) <==> a < w.last && w.first < b;
    if a < w.last && w.first < b {
      var t: nat := if w.first < a then a else w.first;
      assert w.first <= t < w.last && InSegment(g, i, tokens[t]);
    }
    forall t: nat | w.first <= t < w.last && InSegment(g, i, tokens[t]) ensures a < w.last && w.first < b {
      TokensAreMaximalRuns(ws, Text(g, |g|));
      assert MaximalRun(ws, Text(g, |g|), tokens[t]);
      assert a <= t < b;
    }
  }

  /** Segments of one group that the chunker can tell apart, each with a token. */
  ghost predicate Distinct(ws: char -> bool, g: seq<Segment>) {
    && (forall i :: 0 <= i < |g| ==> Tokens(ws, g[i].text) != [])
    && (forall i, j :: 0 <= i < j < |g| ==> g[i].ordinal != g[j].ordinal)
  }

  /** Provenance is exact: a chunk names a segment if and only if one of the segment's tokens is
      among the chunk's. */
  lemma {:induction false} ProvenanceIsExact(ws: char -> bool, p: Policy, piece: Piece, k: nat, ordinal: nat, i: nat)
    requires SeparatorsAreSpace(ws) && ValidPolicy(p) && Derived(ws, p, piece) && WellFormed(piece)
    requires Distinct(ws, piece.group.segments) && k < |piece.windows| && i < |piece.group.segments|
    ensures var w := WindowOf(ws, p, piece, k); var g := piece.group.segments;
      OriginOf(g[i]) in ChunkFor(piece, k, ordinal).provenance
      <==> exists t: nat :: w.first <= t < w.last && InSegment(g, i, Tokens(ws, piece.text)[t])
  {
    var g, y := piece.group.segments, piece.windows[k];
    MeetingIsExact(g, piece.spans, y.start, y.end, |g|, i);
    WindowMeetsSegment(ws, g, i, WindowOf(ws, p, piece, k));
  }

  /** Every segment of a group is named by one of its chunks. */
  lemma {:induction false} SegmentIsNamed(ws: char -> bool, p: Policy, piece: Piece, i: nat) returns (k: nat)
    requires SeparatorsAreSpace(ws) && ValidPolicy(p) && Derived(ws, p, piece) && WellFormed(piece)
    requires Distinct(ws, piece.group.segments) && i < |piece.group.segments|
    ensures k < |piece.windows|
    ensures forall ordinal: nat :: OriginOf(piece.group.segments[i]) in ChunkFor(piece, k, ordinal).provenance
  {
    var g := piece.group.segments;
    var a, b := SegmentRange(ws, g, i);
    k := CoveringWindow(|Tokens(ws, piece.text)|, p, a);
    var w := WindowOf(ws, p, piece, k);
    assert InSegment(g, i, Tokens(ws, piece.text)[a]);
    forall ordinal: nat ensures OriginOf(g[i]) in ChunkFor(piece, k, ordinal).provenance {
      ProvenanceIsExact(ws, p, piece, k, ordinal, i);
    }
  }

  lemma CoveringWindow(n: nat, p: Policy, t: nat) returns (k: nat)
    requires ValidPolicy(p) && t < n
    ensures k < |WindowsFrom(0, n, p)| && WindowsFrom(0, n, p)[k].first <= t < WindowsFrom(0, n, p)[k].last
  {
    WindowsCover(0, n, p, t);
    var w := WindowsFrom(0, n, p);
    k :| k < |w| && w[k].first <= t < w[k].last;
  }

  // ---- the whole document ----

  /** Where a chunk of the list comes from. */
  lemma {:induction false} ChunkComesFrom(pieces: seq<Piece>, n: nat, j: nat) returns (i: nat, k: nat)
    requires n <= |pieces| && forall i :: 0 <= i < |pieces| ==> WellFormed(pieces[i])
    requires j < |AllChunks(pieces, n)|
    ensures i < n && k < |pieces[i].windows| && AllChunks(pieces, n)[j] == ChunkFor(pieces[i], k, j)
  {
    var before := AllChunks(pieces, n - 1);
    if j < |before| {
      i, k := ChunkComesFrom(pieces, n - 1, j);
    } else {
      i, k := n - 1, j - |before|;
    }
  }

  /** Where a window's chunk is in the list. */
  lemma {:induction false} ChunkGoesTo(pieces: seq<Piece>, n: nat, i: nat, k: nat) returns (j: nat)
    requires i < n <= |pieces| && forall i :: 0 <= i < |pieces| ==> WellFormed(pieces[i])
    requires k < |pieces[i].windows|
    ensures j < |AllChunks(pieces, n)| && AllChunks(pieces, n)[j] == ChunkFor(pieces[i], k, j)
  {
    if i < n - 1 {
      j := ChunkGoesTo(pieces, n - 1, i, k);
    } else {
      j := |AllChunks(pieces, n - 1)| + k;
    }
  }

  /** Chunks are numbered in order, and each re-tokenises to its own token count. */
  lemma EveryChunkRetokenises(
      ws: char -> bool, p: Policy, segments: seq<Segment>, paths: seq<Path>, pieces: seq<Piece>, j: nat)
    requires ValidPolicy(p) && Pieces(ws, p, segments, paths, pieces) && j < |AllChunks(pieces, |pieces|)|
    ensures var c := AllChunks(pieces, |pieces|)[j];
      c.ordinal == j && |Tokens(ws, c.text)| == c.tokenCount && 0 < c.tokenCount <= p.maxTokens
  {
    var i, k := ChunkComesFrom(pieces, |pieces|, j);
    ChunkRetokenises(ws, p, pieces[i], k, j);
  }

  /** The group a segment is in. */
  lemma {:induction false} GroupOf(groups: seq<Group>, s: nat) returns (k: nat, i: nat)
    requires s < |Flatten(groups)|
    ensures k < |groups| && i < |groups[k].segments| && groups[k].segments[i] == Flatten(groups)[s]
  {
    var l := |groups| - 1;
    var before := Flatten(groups[..l]);
    if s < |before| {
      k, i := GroupOf(groups[..l], s);
    } else {
      k, i := l, s - |before|;
    }
  }

  lemma GroupIsDistinct(ws: char -> bool, segments: seq<Segment>, paths: seq<Path>, groups: seq<Group>, k: nat)
    requires Acceptable(ws, segments) && Grouped(segments, paths, groups) && k < |groups|
    ensures Distinct(ws, groups[k].segments)
  {
    assert GroupFits(segments, paths, groups, k);
    var g, s := groups[k].segments, Start(groups, k);
    forall i | 0 <= i < |g| ensures Tokens(ws, g[i].text) != [] && g[i].ordinal == s + i {
      assert GoodSegment(ws, segments, s + i);
    }
  }

  /** No segment is left out: each is named by some chunk. */
  lemma {:induction false} EverySegmentIsNamed(
      ws: char -> bool, p: Policy, segments: seq<Segment>, paths: seq<Path>, pieces: seq<Piece>, s: nat)
    requires SeparatorsAreSpace(ws) && ValidPolicy(p) && Acceptable(ws, segments)
    requires Pieces(ws, p, segments, paths, pieces) && s < |segments|
    ensures exists j: nat ::
      && j < |AllChunks(pieces, |pieces|)|
      && OriginOf(segments[s]) in AllChunks(pieces, |pieces|)[j].provenance
  {
    var i, at := GroupOf(GroupsOf(pieces), s);
    GroupIsDistinct(ws, segments, paths, GroupsOf(pieces), i);
    var k := SegmentIsNamed(ws, p, pieces[i], at);
    var j := ChunkGoesTo(pieces, |pieces|, i, k);
    assert OriginOf(segments[s]) in ChunkFor(pieces[i], k, j).provenance;
  }
}
