/** What one chunk holds: a stretch of consecutive segments of one section, named in order, with the
    part of their joined text that its words come from. */
module ChunkContents {
  import opened PyText
  import opened TokenSpans
  import opened Windows
  import opened Segments
  import opened GroupText
  import opened Provenance
  import opened Chunking
  import opened ChunkTheorems

  /** The texts of the segments, with a blank line between any two. */
  function Joined(g: seq<Segment>): string {
    if g == [] then "" else if |g| == 1 then g[0].text else g[0].text + "\n\n" + Joined(g[1..])
  }

  /** The chunk's text is the joined text of the segments, less a beginning that is shorter than the
      first of them and an end that is shorter than the last. */
  ghost predicate TextFrom(c: Chunk, g: seq<Segment>) {
    && g != []
    && exists lo: nat, hi: nat ::
         && lo <= hi <= |Joined(g)| && c.text == Joined(g)[lo..hi]
         && lo < |g[0].text| && |Joined(g)| < hi + |g[|g| - 1].text|
  }

  /** The chunk names exactly the segments `a` to `b`, in order, each with its place in the document. */
  ghost predicate Names(c: Chunk, segments: seq<Segment>, a: nat, b: nat)
    requires a <= b <= |segments|
  {
    && |c.provenance| == b - a
    && forall x :: 0 <= x < b - a ==>
         var s := segments[a + x];
         c.provenance[x] == Origin(s.ordinal, s.page, s.headingPath, s.startLine, s.endLine)
  }

  // ---- the joined text is a slice of the group's ----

  lemma {:induction false} JoinedIsSlice(g: seq<Segment>, a: nat, b: nat)
    requires a < b <= |g|
    ensures |Lead(g, a)| <= |Text(g, b)| && Joined(g[a..b]) == Text(g, b)[|Lead(g, a)|..]
    decreases b - a
  {
    var text, lead := Text(g, b), Lead(g, a);
    TextPrefix(g, a + 1, b);
    if a + 1 == b {
      assert text[|lead|..] == g[a].text;
    } else {
      JoinedIsSlice(g, a + 1, b);
      LeadStarts(g, a + 1, b);
      assert g[a..b][1..] == g[a + 1..b];
      TextSplits(text, lead, g[a].text, Lead(g, a + 1));
    }
  }

  lemma {:induction false} LeadStarts(g: seq<Segment>, i: nat, n: nat)
    requires i < n <= |g|
    ensures |Lead(g, i)| <= |Text(g, n)| && Text(g, n)[..|Lead(g, i)|] == Lead(g, i)
  {
    TextPrefix(g, i + 1, n);
    var text, part, lead := Text(g, n), Text(g, i + 1), Lead(g, i);
    assert part == lead + g[i].text;
    assert text[..|lead|] == part[..|lead|] == lead;
  }

  lemma TextSplits(text: string, lead: string, own: string, next: string)
    requires next == lead + own + "\n\n" && |next| <= |text| && text[..|next|] == next
    ensures text[|lead|..] == own + "\n\n" + text[|next|..]
  {
    assert text == next + text[|next|..];
  }

  // ---- the segment of a token ----

  lemma {:induction false} CountingSegment(ws: char -> bool, g: seq<Segment>, n: nat, t: nat) returns (i: nat)
    requires SeparatorsAreSpace(ws) && n <= |g| && t < |Tokens(ws, Text(g, n))|
    ensures i < n && |Tokens(ws, Lead(g, i))| <= t < |Tokens(ws, Text(g, i + 1))|
    decreases n
  {
    if n > 0 && |Tokens(ws, Text(g, n - 1))| <= t {
      LeadTokens(ws, g, n - 1);
      i := n - 1;
    } else {
      i := CountingSegment(ws, g, n - 1, t);
    }
  }

  /** Every token of the group's text lies in one of its segments. */
  lemma {:induction false} SegmentOfToken(ws: char -> bool, g: seq<Segment>, tokens: seq<Span>, t: nat)
    returns (i: nat)
    requires SeparatorsAreSpace(ws) && tokens == Tokens(ws, Text(g, |g|)) && t < |tokens|
    ensures i < |g| && InSegment(g, i, tokens[t])
  {
    i := CountingSegment(ws, g, |g|, t);
    SpanStartIsBoundary(ws, g, i);
    SpanEndIsBoundary(ws, g, i);
    BoundaryDivides(ws, Text(g, |g|), SpanOf(g, i).start);
    BoundaryDivides(ws, Text(g, |g|), SpanOf(g, i).end);
  }

  // ---- the segments of a window ----

  /** A slice of the text that begins in one segment and ends in another meets those and all between. */
  predicate Reaches(g: seq<Segment>, lo: nat, hi: nat, a: nat, b: nat) {
    && a < b <= |g|
    && SpanOf(g, a).start <= lo < SpanOf(g, a).end
    && SpanOf(g, b - 1).start < hi <= SpanOf(g, b - 1).end
  }

  /** The first token of a window starts before the last one ends. */
  ghost predicate InOrder(tokens: seq<Span>, w: Window) {
    && w.first < w.last <= |tokens|
    && tokens[w.first].start < tokens[w.first].end <= tokens[w.last - 1].end
    && tokens[w.first].start <= tokens[w.last - 1].start < tokens[w.last - 1].end
  }

  lemma {:induction false} TokensInOrder(ws: char -> bool, text: string, w: Window)
    requires w.first < w.last <= |Tokens(ws, text)|
    ensures InOrder(Tokens(ws, text), w)
  {
    TokensAreMaximalRuns(ws, text);
    var tokens := Tokens(ws, text);
    assert MaximalRun(ws, text, tokens[w.first]) && MaximalRun(ws, text, tokens[w.last - 1]);
    assert w.first < w.last - 1 ==> tokens[w.first].end < tokens[w.last - 1].start;
  }

  lemma TwoTokensReach(g: seq<Segment>, tokens: seq<Span>, w: Window, a: nat, last: nat)
    requires InOrder(tokens, w) && a < |g| && last < |g|
    requires InSegment(g, a, tokens[w.first]) && InSegment(g, last, tokens[w.last - 1])
    ensures var y := Render(tokens, w); y.start < y.end && Reaches(g, y.start, y.end, a, last + 1)
  {
    if last < a { SpansAscend(g, last, a); }
  }

  lemma {:induction false} WindowReaches(ws: char -> bool, g: seq<Segment>, tokens: seq<Span>, w: Window)
    returns (a: nat, b: nat)
    requires SeparatorsAreSpace(ws) && tokens == Tokens(ws, Text(g, |g|)) && InOrder(tokens, w)
    ensures var y := Render(tokens, w); y.start < y.end && Reaches(g, y.start, y.end, a, b)
  {
    a := SegmentOfToken(ws, g, tokens, w.first);
    var last := SegmentOfToken(ws, g, tokens, w.last - 1);
    TwoTokensReach(g, tokens, w, a, last);
    b := last + 1;
  }

  lemma ReachedAreMet(g: seq<Segment>, lo: nat, hi: nat, a: nat, b: nat, i: nat)
    requires lo < hi && Reaches(g, lo, hi, a, b) && i < |g|
    requires SpanOf(g, i).start < SpanOf(g, i).end
    ensures Meets(SpanOf(g, i), lo, hi) <==> a <= i < b
  {
    if i < a { SpansAscend(g, i, a); }
    if a < i { SpansAscend(g, a, i); }
    if i < b - 1 { SpansAscend(g, i, b - 1); }
    if b - 1 < i { SpansAscend(g, b - 1, i); }
  }

  lemma {:induction false} MetInOrder(g: seq<Segment>, spans: seq<Span>, lo: nat, hi: nat, n: nat, a: nat, b: nat)
    requires n <= |g| == |spans| && a <= b <= |g|
    requires forall i :: 0 <= i < |g| ==> (Meets(spans[i], lo, hi) <==> a <= i < b)
    ensures var r := Meeting(g, spans, lo, hi, n);
      && |r| == (if n <= a then 0 else if n <= b then n - a else b - a)
      && forall x :: 0 <= x < |r| ==> r[x] == Origin(g[a + x].ordinal, g[a + x].page, g[a + x].headingPath,
                                                    g[a + x].startLine, g[a + x].endLine)
  {
    if n > 0 { MetInOrder(g, spans, lo, hi, n - 1, a, b); }
  }

  lemma {:induction false} SpansHaveText(ws: char -> bool, g: seq<Segment>, i: nat)
    requires SeparatorsAreSpace(ws) && i < |g| && Tokens(ws, g[i].text) != []
    ensures SpanOf(g, i).start < SpanOf(g, i).end
  {
    SpanHoldsSegment(g, i);
  }

  lemma {:induction false} SpanLength(g: seq<Segment>, i: nat, n: nat)
    requires i < |g| && n == i + 1
    ensures |Text(g, n)| == SpanOf(g, i).end == SpanOf(g, i).start + |g[i].text|
  {
  }

  lemma SliceOfPart(whole: string, part: string, joined: string, base: nat, lo: nat, hi: nat)
    requires base <= lo <= hi <= |part| <= |whole| && whole[..|part|] == part && joined == part[base..]
    ensures hi - base <= |joined| && whole[lo..hi] == joined[lo - base..hi - base]
  {
    forall x | 0 <= x < hi - lo ensures whole[lo..hi][x] == joined[lo - base..hi - base][x] {
      assert whole[lo + x] == whole[..|part|][lo + x] == part[lo + x] == joined[lo - base + x];
    }
  }

  /** How much the slice leaves off at the two ends. */
  lemma {:induction false} EndsAreShort(g: seq<Segment>, lo: nat, hi: nat, a: nat, b: nat)
    requires Reaches(g, lo, hi, a, b)
    ensures hi <= |Text(g, b)| < hi + |g[b - 1].text| && lo < SpanOf(g, a).start + |g[a].text|
  {
    SpanLength(g, a, a + 1);
    SpanLength(g, b - 1, b);
  }

  /** The slice of the group's text is a slice of the joined text of the segments that it reaches. */
  lemma {:induction false} SliceIsJoined(g: seq<Segment>, whole: string, lo: nat, hi: nat, a: nat, b: nat)
    requires whole == Text(g, |g|) && lo <= hi && Reaches(g, lo, hi, a, b)
    ensures var base := SpanOf(g, a).start; var joined := Joined(g[a..b]);
      && base <= lo && hi - base <= |joined| < hi - base + |g[b - 1].text| && lo - base < |g[a].text|
      && hi <= |whole| && whole[lo..hi] == joined[lo - base..hi - base]
  {
    JoinedIsSlice(g, a, b);
    TextPrefix(g, b, |g|);
    EndsAreShort(g, lo, hi, a, b);
    SliceOfPart(whole, Text(g, b), Joined(g[a..b]), SpanOf(g, a).start, lo, hi);
  }

  lemma {:induction false} ReachedAreNamed(
      ws: char -> bool, piece: Piece, k: nat, ordinal: nat, a: nat, b: nat)
    requires SeparatorsAreSpace(ws) && WellFormed(piece) && k < |piece.windows|
    requires piece.spans == Spans(piece.group.segments, |piece.group.segments|)
    requires forall s :: s in piece.group.segments ==> Tokens(ws, s.text) != []
    requires var y := piece.windows[k]; y.start < y.end && Reaches(piece.group.segments, y.start, y.end, a, b)
    ensures Names(ChunkFor(piece, k, ordinal), piece.group.segments, a, b)
  {
    var g, y := piece.group.segments, piece.windows[k];
    forall i | 0 <= i < |g| ensures Meets(piece.spans[i], y.start, y.end) <==> a <= i < b {
      SpansHaveText(ws, g, i);
      ReachedAreMet(g, y.start, y.end, a, b, i);
    }
    MetInOrder(g, piece.spans, y.start, y.end, |g|, a, b);
  }

  lemma {:induction false} ReachedIsText(piece: Piece, k: nat, ordinal: nat, a: nat, b: nat)
    requires WellFormed(piece) && k < |piece.windows|
    requires piece.text == Text(piece.group.segments, |piece.group.segments|)
    requires var y := piece.windows[k]; y.start < y.end && Reaches(piece.group.segments, y.start, y.end, a, b)
    ensures TextFrom(ChunkFor(piece, k, ordinal), piece.group.segments[a..b])
  {
    var g, y := piece.group.segments, piece.windows[k];
    SliceIsJoined(g, piece.text, y.start, y.end, a, b);
    var lo: nat, hi: nat := y.start - SpanOf(g, a).start, y.end - SpanOf(g, a).start;
    assert ChunkFor(piece, k, ordinal).text == Joined(g[a..b])[lo..hi];
  }

  /** A chunk of one group. */
  lemma {:induction false} ChunkReaches(ws: char -> bool, p: Policy, piece: Piece, k: nat, ordinal: nat)
    returns (a: nat, b: nat)
    requires SeparatorsAreSpace(ws) && ValidPolicy(p) && Derived(ws, p, piece) && WellFormed(piece)
    requires Distinct(ws, piece.group.segments) && k < |piece.windows|
    ensures a < b <= |piece.group.segments|
    ensures Names(ChunkFor(piece, k, ordinal), piece.group.segments, a, b)
    ensures TextFrom(ChunkFor(piece, k, ordinal), piece.group.segments[a..b])
  {
    TokensInOrder(ws, piece.text, WindowOf(ws, p, piece, k));
    a, b := WindowReaches(ws, piece.group.segments, Tokens(ws, piece.text), WindowOf(ws, p, piece, k));
    ReachedAreNamed(ws, piece, k, ordinal, a, b);
    ReachedIsText(piece, k, ordinal, a, b);
  }

  // ---- the whole document ----

  /** A chunk cut from the segments `a` to `b` of a section, that carries the section's path. */
  ghost predicate CutFrom(c: Chunk, segments: seq<Segment>, paths: seq<Path>, a: nat, b: nat) {
    && a < b <= |segments| == |paths|
    && Names(c, segments, a, b) && TextFrom(c, segments[a..b])
    && forall i :: a <= i < b ==> paths[i] == c.headingPath
  }

  lemma {:induction false} SliceOfSlice(segments: seq<Segment>, s: nat, n: nat, a: nat, b: nat)
    requires s + n <= |segments| && a <= b <= n
    ensures segments[s..s + n][a..b] == segments[s + a..s + b]
  {
    var g := segments[s..s + n];
    assert forall i :: a <= i < b ==> g[i] == segments[s + i];
  }

  lemma {:induction false} CutFromDocument(
      c: Chunk, segments: seq<Segment>, paths: seq<Path>, groups: seq<Group>, n: nat, a: nat, b: nat)
    requires |paths| == |segments| && n < |groups| && GroupFits(segments, paths, groups, n)
    requires a < b <= |groups[n].segments| && c.headingPath == groups[n].headingPath
    requires Names(c, groups[n].segments, a, b) && TextFrom(c, groups[n].segments[a..b])
    ensures exists from: nat, to: nat :: CutFrom(c, segments, paths, from, to)
  {
    var s, g := Start(groups, n), groups[n].segments;
    SliceOfSlice(segments, s, |g|, a, b);
    forall x | 0 <= x < b - a
      ensures var o := segments[s + a + x];
        c.provenance[x] == Origin(o.ordinal, o.page, o.headingPath, o.startLine, o.endLine)
    {
      assert g[a + x] == segments[s + a + x];
    }
    assert CutFrom(c, segments, paths, s + a, s + b);
  }

  lemma {:induction false} PieceChunkIsCutFrom(
      ws: char -> bool, p: Policy, segments: seq<Segment>, paths: seq<Path>, groups: seq<Group>, n: nat,
      piece: Piece, k: nat, j: nat)
    requires SeparatorsAreSpace(ws) && ValidPolicy(p) && Derived(ws, p, piece) && WellFormed(piece)
    requires |paths| == |segments| && n < |groups| && GroupFits(segments, paths, groups, n)
    requires piece.group == groups[n] && Distinct(ws, piece.group.segments) && k < |piece.windows|
    ensures exists a: nat, b: nat :: CutFrom(ChunkFor(piece, k, j), segments, paths, a, b)
  {
    var a, b := ChunkReaches(ws, p, piece, k, j);
    CutFromDocument(ChunkFor(piece, k, j), segments, paths, groups, n, a, b);
  }

  /** Every chunk is cut from consecutive segments `a` to `b` of one section: it carries the
      section's path, names those segments in order, and holds their text but for its ends. */
  lemma {:induction false} EveryChunkIsCutFrom(
      ws: char -> bool, p: Policy, segments: seq<Segment>, paths: seq<Path>, pieces: seq<Piece>, j: nat)
    requires SeparatorsAreSpace(ws) && ValidPolicy(p) && Acceptable(ws, segments)
    requires Pieces(ws, p, segments, paths, pieces) && j < |AllChunks(pieces, |pieces|)|
    ensures exists a: nat, b: nat :: CutFrom(AllChunks(pieces, |pieces|)[j], segments, paths, a, b)
  {
    var n, k := ChunkComesFrom(pieces, |pieces|, j);
    GroupIsDistinct(ws, segments, paths, GroupsOf(pieces), n);
    PieceChunkIsCutFrom(ws, p, segments, paths, GroupsOf(pieces), n, pieces[n], k, j);
  }
}
