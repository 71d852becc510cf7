/** `chunk_normalized_segments`. */
module Chunking {
  import opened Common
  import opened PyText
  import opened TokenSpans
  import opened Windows
  import opened Segments
  import opened GroupText
  import opened Provenance

  datatype Chunk = Chunk(
    ordinal: nat,
    text: string,
    tokenCount: nat,
    headingPath: seq<string>,
    provenance: seq<Origin>)

  /** A group with its text, its segments' spans and its windows. */
  datatype Piece = Piece(group: Group, text: string, spans: seq<Span>, windows: seq<Yielded>)

  /** What the chunker derives from a group. */
  ghost predicate Derived(ws: char -> bool, p: Policy, piece: Piece)
    requires ValidPolicy(p)
  {
    var g, tokens := piece.group.segments, Tokens(ws, piece.text);
    && piece.text == Text(g, |g|) && piece.spans == Spans(g, |g|)
    && tokens != [] && Renders(tokens, WindowsFrom(0, |tokens|, p), piece.windows)
  }

  /** All that the chunking loop needs of a piece. */
  ghost predicate WellFormed(piece: Piece) {
    && |piece.spans| == |piece.group.segments| && Ordered(piece.spans)
    && (forall k :: 0 <= k < |piece.windows| ==> piece.windows[k].start <= piece.windows[k].end <= |piece.text|)
    && (forall j, k :: 0 <= j < k < |piece.windows| ==> piece.windows[j].start <= piece.windows[k].start)
  }

  ghost function ChunkFor(piece: Piece, k: nat, ordinal: nat): Chunk
    requires WellFormed(piece) && k < |piece.windows|
  {
    var y := piece.windows[k];
    Chunk(ordinal, piece.text[y.start..y.end], y.count, piece.group.headingPath,
          Meeting(piece.group.segments, piece.spans, y.start, y.end, |piece.spans|))
  }

  ghost function PieceChunks(piece: Piece, base: nat): (r: seq<Chunk>)
    requires WellFormed(piece)
    ensures |r| == |piece.windows| && forall k :: 0 <= k < |r| ==> r[k] == ChunkFor(piece, k, base + k)
  {
    seq(|piece.windows|, k requires 0 <= k < |piece.windows| => ChunkFor(piece, k, base + k))
  }

  /** The chunks of the first `n` pieces, numbered through. */
  ghost function AllChunks(pieces: seq<Piece>, n: nat): seq<Chunk>
    requires n <= |pieces| && forall i :: 0 <= i < |pieces| ==> WellFormed(pieces[i])
  {
    if n == 0 then []
    else AllChunks(pieces, n - 1) + PieceChunks(pieces[n - 1], |AllChunks(pieces, n - 1)|)
  }

  /** The inner loop: one group's windows, or None at the chunk limit. */
  method AppendChunks(piece: Piece, chunks: seq<Chunk>, limit: nat) returns (r: Option<seq<Chunk>>)
    requires WellFormed(piece) && |chunks| <= limit
    ensures r == if |chunks| + |piece.windows| <= limit then Some(chunks + PieceChunks(piece, |chunks|)) else None
  {
    var all, startIndex := chunks, 0;
    for k := 0 to |piece.windows|
      invariant all == chunks + PieceChunks(piece, |chunks|)[..k] && |all| <= limit && startIndex <= |piece.spans|
      invariant k < |piece.windows| ==> forall i :: 0 <= i < startIndex ==> piece.spans[i].end <= piece.windows[k].start
    {
      var y := piece.windows[k];
      startIndex := AdvanceStart(piece.spans, startIndex, y.start);
      if |all| >= limit {
        return None;
      }
      var provenance := WindowProvenance(piece.group.segments, piece.spans, startIndex, y.start, y.end);
      all := all + [Chunk(|all|, piece.text[y.start..y.end], y.count, piece.group.headingPath, provenance)];
    }
    assert PieceChunks(piece, |chunks|)[..|piece.windows|] == PieceChunks(piece, |chunks|);
    r := Some(all);
  }

  // ---- what is derived from a group is well-formed and unique ----

  lemma SpansAreOrdered(g: seq<Segment>)
    ensures Ordered(Spans(g, |g|))
  {
    var spans := Spans(g, |g|);
    forall i | 0 <= i < |spans| ensures spans[i].start <= spans[i].end { SpanHoldsSegment(g, i); }
    forall i, j | 0 <= i < j < |spans| ensures spans[i].end <= spans[j].start { SpansAscend(g, i, j); }
  }

  /** From the start of one token to the end of a later one there is text. */
  lemma {:induction false} TokenBounds(ws: char -> bool, text: string, first: nat, last: nat)
    requires first < last <= |Tokens(ws, text)|
    ensures Tokens(ws, text)[first].start <= Tokens(ws, text)[last - 1].end <= |text|
  {
    TokensBetween(ws, text, first, last);
  }

  /** A window's characters lie in the text. */
  lemma {:induction false} WindowStart(ws: char -> bool, p: Policy, text: string, k: nat)
    requires ValidPolicy(p) && Tokens(ws, text) != [] && k < |WindowsFrom(0, |Tokens(ws, text)|, p)|
    ensures var tokens := Tokens(ws, text); var w := WindowsFrom(0, |tokens|, p)[k];
      && w.first < w.last <= |tokens| && tokens[w.first].start <= tokens[w.last - 1].end <= |text|
  {
    var n := |Tokens(ws, text)|;
    WindowBounds(0, n, p, k);
    TokenBounds(ws, text, WindowsFrom(0, n, p)[k].first, WindowsFrom(0, n, p)[k].last);
  }

  lemma {:induction false} WindowsAscend(n: nat, p: Policy, j: nat, k: nat)
    requires ValidPolicy(p) && 0 < n && j < k < |WindowsFrom(0, n, p)|
    ensures WindowsFrom(0, n, p)[j].first < WindowsFrom(0, n, p)[k].first
    decreases k
  {
    ConsecutiveWindows(0, n, p, k - 1);
    if j < k - 1 { WindowsAscend(n, p, j, k - 1); }
  }

  lemma WindowStartsAscend(ws: char -> bool, p: Policy, text: string, j: nat, k: nat)
    requires ValidPolicy(p) && Tokens(ws, text) != [] && j < k < |WindowsFrom(0, |Tokens(ws, text)|, p)|
    ensures var tokens := Tokens(ws, text); var w := WindowsFrom(0, |tokens|, p);
      && w[j].first < |tokens| && w[k].first < |tokens|
      && tokens[w[j].first].start <= tokens[w[k].first].start
  {
    var tokens := Tokens(ws, text);
    WindowStart(ws, p, text, j);
    WindowStart(ws, p, text, k);
    WindowsAscend(|tokens|, p, j, k);
    TokensAreMaximalRuns(ws, text);
    var a, b := WindowsFrom(0, |tokens|, p)[j].first, WindowsFrom(0, |tokens|, p)[k].first;
    assert MaximalRun(ws, text, tokens[a]) && tokens[a].end < tokens[b].start;
  }

  lemma DerivedIsWellFormed(ws: char -> bool, p: Policy, piece: Piece)
    requires ValidPolicy(p) && Derived(ws, p, piece)
    ensures WellFormed(piece)
  {
    SpansAreOrdered(piece.group.segments);
    var ys := piece.windows;
    forall k | 0 <= k < |ys| ensures ys[k].start <= ys[k].end <= |piece.text| {
      WindowStart(ws, p, piece.text, k);
    }
    forall j, k | 0 <= j < k < |ys| ensures ys[j].start <= ys[k].start {
      WindowStartsAscend(ws, p, piece.text, j, k);
    }
  }

  /** A group whose segments hold tokens has tokens. */
  lemma {:induction false} GroupHasTokens(ws: char -> bool, g: seq<Segment>)
    requires SeparatorsAreSpace(ws) && g != [] && Tokens(ws, g[|g| - 1].text) != []
    ensures Tokens(ws, Text(g, |g|)) != []
  {
    GroupTokens(ws, g);
  }

  /** The one piece derived from a group. */
  ghost function PieceOf(ws: char -> bool, p: Policy, g: Group): (piece: Piece)
    requires ValidPolicy(p) && Tokens(ws, Text(g.segments, |g.segments|)) != []
    ensures Derived(ws, p, piece) && piece.group == g
  {
    var text := Text(g.segments, |g.segments|);
    var tokens := Tokens(ws, text);
    var w := WindowsFrom(0, |tokens|, p);
    assert forall k: nat :: k < |w| ==> w[k].first < w[k].last <= |tokens| by {
      forall k: nat | k < |w| ensures w[k].first < w[k].last <= |tokens| { WindowBounds(0, |tokens|, p, k); }
    }
    Piece(g, text, Spans(g.segments, |g.segments|), seq(|w|, k requires 0 <= k < |w| => Render(tokens, w[k])))
  }

  lemma DerivedOnce(ws: char -> bool, p: Policy, a: Piece, b: Piece)
    requires ValidPolicy(p) && Derived(ws, p, a) && Derived(ws, p, b) && a.group == b.group
    ensures a == b
  {
    assert a.windows == b.windows;
  }

  // ---- the whole function ----

  /** The pieces of a segment sequence: its heading groups, with what is derived from each. */
  ghost predicate Pieces(ws: char -> bool, p: Policy, segments: seq<Segment>, paths: seq<Path>, pieces: seq<Piece>)
    requires ValidPolicy(p)
  {
    && Grouped(segments, paths, GroupsOf(pieces))
    && forall i :: 0 <= i < |pieces| ==> Derived(ws, p, pieces[i]) && WellFormed(pieces[i])
  }

  ghost function GroupsOf(pieces: seq<Piece>): (r: seq<Group>)
    ensures |r| == |pieces| && forall i :: 0 <= i < |r| ==> r[i] == pieces[i].group
  {
    seq(|pieces|, i requires 0 <= i < |pieces| => pieces[i].group)
  }

  /** Every group ends with a segment that holds a token. */
  lemma GroupsHaveTokens(ws: char -> bool, segments: seq<Segment>, paths: seq<Path>, groups: seq<Group>, k: nat)
    requires SeparatorsAreSpace(ws) && Acceptable(ws, segments) && Grouped(segments, paths, groups) && k < |groups|
    ensures Tokens(ws, Text(groups[k].segments, |groups[k].segments|)) != []
  {
    assert GroupFits(segments, paths, groups, k);
    var g := groups[k].segments;
    assert GoodSegment(ws, segments, Start(groups, k) + |g| - 1);
    GroupHasTokens(ws, g);
  }

  ghost method DerivePieces(ws: char -> bool, p: Policy, segments: seq<Segment>, paths: seq<Path>, groups: seq<Group>)
    returns (pieces: seq<Piece>)
    requires ValidPolicy(p) && SeparatorsAreSpace(ws) && Acceptable(ws, segments) && Grouped(segments, paths, groups)
    ensures GroupsOf(pieces) == groups && Pieces(ws, p, segments, paths, pieces)
  {
    pieces := [];
    for k := 0 to |groups|
      invariant |pieces| == k && forall i :: 0 <= i < k ==>
        pieces[i].group == groups[i] && Derived(ws, p, pieces[i]) && WellFormed(pieces[i])
    {
      GroupsHaveTokens(ws, segments, paths, groups, k);
      var piece := PieceOf(ws, p, groups[k]);
      DerivedIsWellFormed(ws, p, piece);
      pieces := pieces + [piece];
    }
    assert GroupsOf(pieces) == groups;
  }

  /** One group, from its segments to its windows. */
  method Materialize(ws: char -> bool, p: Policy, group: Group, ghost derived: Piece) returns (piece: Piece)
    requires ValidPolicy(p) && Derived(ws, p, derived) && derived.group == group
    ensures piece == derived
  {
    var text, spans := MaterializeGroup(group.segments);
    var windows := TokenWindows(Tokens(ws, text), p);
    piece := Piece(group, text, spans, windows.value);
    DerivedOnce(ws, p, piece, derived);
  }

  lemma {:induction false} ChunksGrow(pieces: seq<Piece>, n: nat, m: nat)
    requires n <= m <= |pieces| && forall i :: 0 <= i < |pieces| ==> WellFormed(pieces[i])
    ensures |AllChunks(pieces, n)| <= |AllChunks(pieces, m)|
    decreases m
  {
    if n < m { ChunksGrow(pieces, n, m - 1); }
  }

  /** One group: its chunks join those before it, unless the limit is passed. */
  method ChunkGroup(ws: char -> bool, p: Policy, group: Group, chunks: seq<Chunk>, ghost derived: Piece)
    returns (r: Option<seq<Chunk>>)
    requires ValidPolicy(p) && group == derived.group && Derived(ws, p, derived) && WellFormed(derived)
    requires |chunks| <= p.maxChunks
    ensures var all := chunks + PieceChunks(derived, |chunks|); r == if |all| <= p.maxChunks then Some(all) else None
  {
    var piece := Materialize(ws, p, group, derived);
    r := AppendChunks(piece, chunks, p.maxChunks);
  }

  /** The lists that the outer loop goes through. */
  ghost predicate Grows(pieces: seq<Piece>, upTo: nat -> seq<Chunk>)
    requires forall i :: 0 <= i < |pieces| ==> WellFormed(pieces[i])
  {
    && upTo(0) == []
    && (forall k: nat :: k < |pieces| ==> upTo(k + 1) == upTo(k) + PieceChunks(pieces[k], |upTo(k)|))
    && (forall k: nat :: k <= |pieces| ==> |upTo(k)| <= |upTo(|pieces|)|)
  }

  lemma NextChunks(pieces: seq<Piece>, k: nat)
    requires k < |pieces| && forall i :: 0 <= i < |pieces| ==> WellFormed(pieces[i])
    ensures AllChunks(pieces, k + 1) == AllChunks(pieces, k) + PieceChunks(pieces[k], |AllChunks(pieces, k)|)
  {
  }

  lemma GrowingLists(pieces: seq<Piece>) returns (upTo: nat -> seq<Chunk>)
    requires forall i :: 0 <= i < |pieces| ==> WellFormed(pieces[i])
    ensures Grows(pieces, upTo) && upTo(|pieces|) == AllChunks(pieces, |pieces|)
  {
    upTo := (k: nat) => if k <= |pieces| then AllChunks(pieces, k) else [];
    assert upTo(0) == [];
    forall k: nat | k < |pieces| ensures upTo(k + 1) == upTo(k) + PieceChunks(pieces[k], |upTo(k)|) {
      NextChunks(pieces, k);
    }
    forall k: nat | k <= |pieces| ensures |upTo(k)| <= |upTo(|pieces|)| { ChunksGrow(pieces, k, |pieces|); }
  }

  /** The outer loop, over the groups. */
  method ChunkGroups(
      ws: char -> bool, p: Policy, groups: seq<Group>, ghost pieces: seq<Piece>, ghost upTo: nat -> seq<Chunk>)
    returns (r: Result<seq<Chunk>, ChunkError>)
    requires ValidPolicy(p) && |pieces| == |groups|
    requires forall i :: 0 <= i < |pieces| ==> pieces[i].group == groups[i] && Derived(ws, p, pieces[i])
    requires forall i :: 0 <= i < |pieces| ==> WellFormed(pieces[i])
    requires Grows(pieces, upTo)
    ensures r == if |upTo(|pieces|)| <= p.maxChunks then Ok(upTo(|pieces|)) else Err(ChunkLimitExceeded)
  {
    var chunks := [];
    for k := 0 to |groups|
      invariant chunks == upTo(k) && |chunks| <= p.maxChunks
    {
      var more := ChunkGroup(ws, p, groups[k], chunks, pieces[k]);
      assert upTo(k + 1) == upTo(k) + PieceChunks(pieces[k], |upTo(k)|);
      if more.None? {
        return Err(ChunkLimitExceeded);
      }
      chunks := more.value;
    }
    r := Ok(chunks);
  }

  /** `chunk_normalized_segments`; `pieces` is for the specification. */
  method ChunkNormalizedSegments(ws: char -> bool, segments: seq<Segment>, p: Policy)
    returns (r: Result<seq<Chunk>, ChunkError>, ghost pieces: seq<Piece>)
    requires ValidPolicy(p) && SeparatorsAreSpace(ws)
    ensures Acceptable(ws, segments) ==> Pieces(ws, p, segments, Paths(segments), pieces)
    ensures Acceptable(ws, segments) ==>
      r == (if |AllChunks(pieces, |pieces|)| <= p.maxChunks then Ok(AllChunks(pieces, |pieces|))
            else Err(ChunkLimitExceeded))
    ensures !Acceptable(ws, segments) ==> r.Err? && r.error != ChunkLimitExceeded
  {
    pieces := [];
    var validated := ValidateSegments(ws, segments);
    if validated.Err? {
      return Err(validated.error), pieces;
    }
    var groups := HeadingGroups(validated.value);
    pieces := DerivePieces(ws, p, segments, Paths(segments), groups);
    ghost var upTo := GrowingLists(pieces);
    r := ChunkGroups(ws, p, groups, pieces, upTo);
  }

  /** Segments have one sequence of pieces, so the contract above determines the chunks. */
  lemma PiecesAreUnique(
      ws: char -> bool, p: Policy, segments: seq<Segment>, paths: seq<Path>, a: seq<Piece>, b: seq<Piece>)
    requires ValidPolicy(p) && Pieces(ws, p, segments, paths, a) && Pieces(ws, p, segments, paths, b)
    ensures a == b
  {
    GroupingIsUnique(segments, paths, GroupsOf(a), GroupsOf(b));
    assert |a| == |GroupsOf(a)| && |b| == |GroupsOf(b)|;
    forall i | 0 <= i < |a| ensures a[i] == b[i] {
      assert GroupsOf(a)[i] == GroupsOf(b)[i];
      DerivedOnce(ws, p, a[i], b[i]);
    }
  }
}
