/** `_materialize_segments`: from blocks to numbered segments, within the limits. */
module Materialize {
  import opened Common
  import opened PyText
  import opened TokenSpans
  import opened Segments
  import opened SplitText
  import opened SplitTheorems

  datatype Block = Block(
    text: string,
    page: Option<int>,
    headingPath: seq<string>,
    startLine: Option<int>,
    endLine: Option<int>)

  datatype Limits = Limits(maxTotalChars: nat, maxSegmentChars: nat, maxSegments: nat)

  predicate ValidLimits(l: Limits) {
    l.maxTotalChars > 0 && l.maxSegmentChars > 0 && l.maxSegments > 0
  }

  datatype MaterializeError = OutputTooLarge | SegmentLimitExceeded | EmptyContent

  // ---- the segments, without limits ----

  /** The pieces of every block. */
  function Cuts(ws: char -> bool, l: Limits, blocks: seq<Block>): (cuts: seq<seq<string>>)
    requires ValidLimits(l)
    ensures |cuts| == |blocks|
  {
    seq(|blocks|, i requires 0 <= i < |blocks| => Split(ws, Strip(ws, blocks[i].text), l.maxSegmentChars))
  }

  function SegmentOf(ordinal: nat, piece: string, b: Block): Segment {
    Segment(ordinal, piece, b.page, b.headingPath, b.startLine, b.endLine)
  }

  function SegmentsOf(base: nat, pieces: seq<string>, b: Block): (r: seq<Segment>)
    ensures |r| == |pieces| && forall k :: 0 <= k < |r| ==> r[k] == SegmentOf(base + k, pieces[k], b)
  {
    seq(|pieces|, k requires 0 <= k < |pieces| => SegmentOf(base + k, pieces[k], b))
  }

  /** The segments of the first `n` blocks, numbered through. */
  function Unlimited(cuts: seq<seq<string>>, blocks: seq<Block>, n: nat): seq<Segment>
    requires n <= |blocks| == |cuts|
  {
    if n == 0 then []
    else
      var before := Unlimited(cuts, blocks, n - 1);
      before + SegmentsOf(|before|, cuts[n - 1], blocks[n - 1])
  }

  /** Characters of the first `n` segments. */
  function Chars(segments: seq<Segment>, n: nat): nat
    requires n <= |segments|
  {
    if n == 0 then 0 else Chars(segments, n - 1) + |segments[n - 1].text|
  }

  /** What the limits make of all the segments: the size of one segment too many still counts. */
  function Limited(all: seq<Segment>, l: Limits): Result<seq<Segment>, MaterializeError> {
    var seen := if |all| <= l.maxSegments then |all| else l.maxSegments + 1;
    if Chars(all, seen) > l.maxTotalChars then Err(OutputTooLarge)
    else if |all| > l.maxSegments then Err(SegmentLimitExceeded)
    else if all == [] then Err(EmptyContent)
    else Ok(all)
  }

  // ---- the loops ----

  lemma {:induction false} CharsGrow(segments: seq<Segment>, n: nat, m: nat)
    requires n <= m <= |segments|
    ensures Chars(segments, n) <= Chars(segments, m)
    decreases m
  {
    if n < m { CharsGrow(segments, n, m - 1); }
  }

  lemma TooLarge(all: seq<Segment>, l: Limits, n: nat)
    requires n < |all| && n <= l.maxSegments && Chars(all, n + 1) > l.maxTotalChars
    ensures Limited(all, l) == Err(OutputTooLarge)
  {
    CharsGrow(all, n + 1, if |all| <= l.maxSegments then |all| else l.maxSegments + 1);
  }

  /** The inner loop, over the pieces of one block. */
  method AddBlock(
      b: Block, pieces: seq<string>, l: Limits, segments: seq<Segment>, totalChars: nat, ghost all: seq<Segment>)
    returns (r: Result<seq<Segment>, MaterializeError>, total: nat)
    requires |segments| + |pieces| <= |all| && |segments| <= l.maxSegments
    requires segments == all[..|segments|] && totalChars == Chars(all, |segments|) <= l.maxTotalChars
    requires forall k :: 0 <= k < |pieces| ==> all[|segments| + k] == SegmentOf(|segments| + k, pieces[k], b)
    ensures r.Ok? ==> r.value == all[..|segments| + |pieces|] && |r.value| <= l.maxSegments
    ensures r.Ok? ==> total == Chars(all, |segments| + |pieces|) <= l.maxTotalChars
    ensures r.Err? ==> Limited(all, l) == Err(r.error)
  {
    var grown := segments;
    total := totalChars;
    for k := 0 to |pieces|
      invariant grown == all[..|segments| + k] && |grown| <= l.maxSegments
      invariant total == Chars(all, |segments| + k) <= l.maxTotalChars
    {
      total := total + |pieces[k]|;
      if total > l.maxTotalChars {
        TooLarge(all, l, |segments| + k);
        return Err(OutputTooLarge), total;
      }
      if |grown| >= l.maxSegments {
        return Err(SegmentLimitExceeded), total;
      }
      grown := grown + [SegmentOf(|grown|, pieces[k], b)];
    }
    r := Ok(grown);
  }

  lemma {:induction false} UnlimitedGrows(cuts: seq<seq<string>>, blocks: seq<Block>, n: nat, m: nat)
    requires n <= m <= |blocks| == |cuts|
    ensures |Unlimited(cuts, blocks, n)| <= |Unlimited(cuts, blocks, m)|
    ensures Unlimited(cuts, blocks, m)[..|Unlimited(cuts, blocks, n)|] == Unlimited(cuts, blocks, n)
    decreases m
  {
    if n < m { UnlimitedGrows(cuts, blocks, n, m - 1); }
  }

  lemma PrefixAt(all: seq<Segment>, part: seq<Segment>, i: nat)
    requires |part| <= |all| && all[..|part|] == part && i < |part|
    ensures all[i] == part[i]
  {
    assert all[..|part|][i] == all[i];
  }

  /** Block `n` adds its own segments. */
  lemma {:induction false} UnlimitedAt(cuts: seq<seq<string>>, blocks: seq<Block>, n: nat, all: seq<Segment>)
    requires n < |blocks| == |cuts| && all == Unlimited(cuts, blocks, |blocks|)
    ensures var b, before := blocks[n], |Unlimited(cuts, blocks, n)|; var pieces := cuts[n];
      && before + |pieces| == |Unlimited(cuts, blocks, n + 1)| <= |all|
      && forall k :: 0 <= k < |pieces| ==> all[before + k] == SegmentOf(before + k, pieces[k], b)
  {
    var step := Unlimited(cuts, blocks, n + 1);
    UnlimitedGrows(cuts, blocks, n + 1, |blocks|);
    var before, pieces := |Unlimited(cuts, blocks, n)|, cuts[n];
    forall k | 0 <= k < |pieces| ensures all[before + k] == SegmentOf(before + k, pieces[k], blocks[n]) {
      PrefixAt(all, step, before + k);
    }
  }

  /** Where block `n`'s segments lie among all of them. */
  ghost predicate PlacedAt(pieces: seq<string>, b: Block, all: seq<Segment>, start: nat, end: nat) {
    && start + |pieces| == end <= |all|
    && forall k :: 0 <= k < |pieces| ==> all[start + k] == SegmentOf(start + k, pieces[k], b)
  }

  ghost predicate Placed(cuts: seq<seq<string>>, blocks: seq<Block>, all: seq<Segment>, at: nat -> nat) {
    && |cuts| == |blocks| && at(0) == 0 && at(|blocks|) == |all|
    && forall n: nat :: n < |blocks| ==> PlacedAt(cuts[n], blocks[n], all, at(n), at(n + 1))
  }

  lemma BlockIsPlaced(cuts: seq<seq<string>>, blocks: seq<Block>, all: seq<Segment>, n: nat)
    requires n < |blocks| == |cuts| && all == Unlimited(cuts, blocks, |blocks|)
    ensures PlacedAt(cuts[n], blocks[n], all, |Unlimited(cuts, blocks, n)|, |Unlimited(cuts, blocks, n + 1)|)
  {
    UnlimitedAt(cuts, blocks, n, all);
  }

  lemma Place(cuts: seq<seq<string>>, blocks: seq<Block>, all: seq<Segment>) returns (at: nat -> nat)
    requires |cuts| == |blocks| && all == Unlimited(cuts, blocks, |blocks|)
    ensures Placed(cuts, blocks, all, at)
  {
    at := (n: nat) => if n <= |blocks| then |Unlimited(cuts, blocks, n)| else 0;
    assert at(0) == 0 && at(|blocks|) == |all|;
    forall n: nat | n < |blocks| ensures PlacedAt(cuts[n], blocks[n], all, at(n), at(n + 1)) {
      BlockIsPlaced(cuts, blocks, all, n);
    }
  }

  lemma WithinLimits(all: seq<Segment>, l: Limits)
    requires |all| <= l.maxSegments && Chars(all, |all|) <= l.maxTotalChars
    ensures Limited(all, l) == if all == [] then Err(EmptyContent) else Ok(all)
  {
  }

  /** The outer loop, over the blocks and their pieces. */
  method AddBlocks(blocks: seq<Block>, cuts: seq<seq<string>>, l: Limits, ghost all: seq<Segment>, ghost at: nat -> nat)
    returns (r: Result<seq<Segment>, MaterializeError>)
    requires Placed(cuts, blocks, all, at)
    ensures r == Limited(all, l)
  {
    var segments, totalChars := [], 0;
    for n := 0 to |blocks|
      invariant |segments| <= |all| && segments == all[..|segments|]
      invariant |segments| == at(n)
      invariant |segments| <= l.maxSegments && totalChars == Chars(all, |segments|) <= l.maxTotalChars
    {
      assert PlacedAt(cuts[n], blocks[n], all, at(n), at(n + 1));
      var added;
      added, totalChars := AddBlock(blocks[n], cuts[n], l, segments, totalChars, all);
      if added.Err? {
        return added;
      }
      segments := added.value;
    }
    assert segments == all;
    WithinLimits(all, l);
    r := if segments == [] then Err(EmptyContent) else Ok(segments);
  }

  method SplitBlock(ws: char -> bool, blocks: seq<Block>, l: Limits, n: nat, ghost all: seq<seq<string>>)
    returns (pieces: seq<string>)
    requires ValidLimits(l) && n < |blocks| && all == Cuts(ws, l, blocks)
    ensures pieces == all[n]
  {
    pieces := SplitPieces(ws, blocks[n].text, l.maxSegmentChars);
  }

  /** `_split_text` of every block. */
  method SplitBlocks(ws: char -> bool, blocks: seq<Block>, l: Limits) returns (cuts: seq<seq<string>>)
    requires ValidLimits(l)
    ensures cuts == Cuts(ws, l, blocks)
  {
    cuts := [];
    ghost var all := Cuts(ws, l, blocks);
    for n := 0 to |blocks|
      invariant cuts == all[..n]
    {
      var pieces := SplitBlock(ws, blocks, l, n, all);
      cuts := cuts + [pieces];
    }
  }

  /** `_materialize_segments`; all texts are split first, which no caller can see. */
  method MaterializeSegments(ws: char -> bool, blocks: seq<Block>, l: Limits)
    returns (r: Result<seq<Segment>, MaterializeError>)
    requires ValidLimits(l)
    ensures r == Limited(Unlimited(Cuts(ws, l, blocks), blocks, |blocks|), l)
  {
    var cuts := SplitBlocks(ws, blocks, l);
    ghost var all := Unlimited(cuts, blocks, |blocks|);
    ghost var at := Place(cuts, blocks, all);
    r := AddBlocks(blocks, cuts, l, all, at);
  }

  // ---- what the segments are ----

  /** Every segment comes from a block, with that block's place in the document. */
  lemma {:induction false} SegmentComesFrom(cuts: seq<seq<string>>, blocks: seq<Block>, n: nat, s: nat)
    returns (i: nat, k: nat)
    requires n <= |blocks| == |cuts| && s < |Unlimited(cuts, blocks, n)|
    ensures i < n && k < |cuts[i]|
    ensures var b := blocks[i];
      Unlimited(cuts, blocks, n)[s] == Segment(s, cuts[i][k], b.page, b.headingPath, b.startLine, b.endLine)
  {
    var before := Unlimited(cuts, blocks, n - 1);
    if s < |before| {
      i, k := SegmentComesFrom(cuts, blocks, n - 1, s);
    } else {
      i, k := n - 1, s - |before|;
    }
  }

  /** A trimmed text that is not empty holds a token. */
  lemma {:induction false} TrimmedHasToken(ws: char -> bool, t: string)
    requires t != [] && Trimmed(ws, t)
    ensures Tokens(ws, t) != []
  {
    ScanCovers(ws, t, |t|, 0);
  }

  /** Every successful normalisation is accepted by the chunker, and its segments fit the limits. */
  lemma NormalizedIsAcceptable(ws: char -> bool, blocks: seq<Block>, l: Limits)
    requires ValidLimits(l)
    requires Limited(Unlimited(Cuts(ws, l, blocks), blocks, |blocks|), l).Ok?
    ensures var segments := Limited(Unlimited(Cuts(ws, l, blocks), blocks, |blocks|), l).value;
      && Acceptable(ws, segments)
      && |segments| <= l.maxSegments && Chars(segments, |segments|) <= l.maxTotalChars
      && forall s :: 0 <= s < |segments| ==> GoodPiece(ws, segments[s].text, l.maxSegmentChars)
  {
    var cuts := Cuts(ws, l, blocks);
    var segments := Unlimited(cuts, blocks, |blocks|);
    forall s | 0 <= s < |segments|
      ensures GoodSegment(ws, segments, s) && GoodPiece(ws, segments[s].text, l.maxSegmentChars)
    {
      var i, k := SegmentComesFrom(cuts, blocks, |blocks|, s);
      CutsAreGood(ws, l, blocks, i, k);
      TrimmedHasToken(ws, cuts[i][k]);
    }
  }

  lemma CutsAreGood(ws: char -> bool, l: Limits, blocks: seq<Block>, i: nat, k: nat)
    requires ValidLimits(l) && i < |blocks| && k < |Cuts(ws, l, blocks)[i]|
    ensures GoodPiece(ws, Cuts(ws, l, blocks)[i][k], l.maxSegmentChars)
  {
    var t := Strip(ws, blocks[i].text);
    StripTrims(ws, blocks[i].text);
    PiecesAreGood(ws, t, l.maxSegmentChars);
  }

  /** All ink of a list of texts. */
  function InkOf(ws: char -> bool, segments: seq<Segment>, n: nat): string
    requires n <= |segments|
  {
    if n == 0 then [] else InkOf(ws, segments, n - 1) + Ink(ws, segments[n - 1].text)
  }

  function BlockInk(ws: char -> bool, blocks: seq<Block>, n: nat): string
    requires n <= |blocks|
  {
    if n == 0 then [] else BlockInk(ws, blocks, n - 1) + Ink(ws, blocks[n - 1].text)
  }

  lemma {:induction false} InkOfPrefix(ws: char -> bool, a: seq<Segment>, b: seq<Segment>, n: nat)
    requires n <= |a|
    ensures InkOf(ws, a + b, n) == InkOf(ws, a, n)
    decreases n
  {
    if n > 0 { InkOfPrefix(ws, a, b, n - 1); }
  }

  lemma {:induction false} AllInkAppend(ws: char -> bool, pieces: seq<string>, piece: string)
    ensures AllInk(ws, pieces + [piece]) == AllInk(ws, pieces) + Ink(ws, piece)
  {
    if pieces == [] {
      HeadInk(ws, piece, []);
      assert [] + [piece] == [piece] + [];
    } else {
      AllInkAppend(ws, pieces[1..], piece);
      TailInk(ws, pieces, piece);
    }
  }

  lemma {:induction false} TailInk(ws: char -> bool, pieces: seq<string>, piece: string)
    requires pieces != []
    ensures AllInk(ws, pieces + [piece]) == Ink(ws, pieces[0]) + AllInk(ws, pieces[1..] + [piece])
  {
    HeadInk(ws, pieces[0], pieces[1..] + [piece]);
    assert [pieces[0]] + (pieces[1..] + [piece]) == pieces + [piece];
  }

  lemma {:induction false} InkOfBlock(
      ws: char -> bool, before: seq<Segment>, base: nat, pieces: seq<string>, b: Block, k: nat)
    requires k <= |pieces|
    ensures InkOf(ws, before + SegmentsOf(base, pieces, b), |before| + k)
         == InkOf(ws, before, |before|) + AllInk(ws, pieces[..k])
    decreases k
  {
    var all := before + SegmentsOf(base, pieces, b);
    if k == 0 {
      InkOfPrefix(ws, before, SegmentsOf(base, pieces, b), |before|);
      assert AllInk(ws, pieces[..0]) == [];
    } else {
      InkOfBlock(ws, before, base, pieces, b, k - 1);
      AllInkAppend(ws, pieces[..k - 1], pieces[k - 1]);
      assert pieces[..k] == pieces[..k - 1] + [pieces[k - 1]];
      assert all[|before| + k - 1].text == pieces[k - 1];
    }
  }

  lemma {:induction false} CutsKeepInk(ws: char -> bool, l: Limits, blocks: seq<Block>, i: nat)
    requires ValidLimits(l) && i < |blocks|
    ensures AllInk(ws, Cuts(ws, l, blocks)[i]) == Ink(ws, blocks[i].text)
  {
    var t := blocks[i].text;
    StripTrims(ws, t);
    SplitKeepsInk(ws, Strip(ws, t), l.maxSegmentChars);
    StripKeepsInk(ws, t);
  }

  lemma {:induction false} InkOfWholeBlock(ws: char -> bool, before: seq<Segment>, pieces: seq<string>, b: Block)
    requires AllInk(ws, pieces) == Ink(ws, b.text)
    ensures var all := before + SegmentsOf(|before|, pieces, b);
      InkOf(ws, all, |all|) == InkOf(ws, before, |before|) + Ink(ws, b.text)
  {
    InkOfBlock(ws, before, |before|, pieces, b, |pieces|);
    assert pieces[..|pieces|] == pieces;
  }

  ghost predicate InkKept(ws: char -> bool, cuts: seq<seq<string>>, blocks: seq<Block>) {
    |cuts| == |blocks| && forall i :: 0 <= i < |blocks| ==> AllInk(ws, cuts[i]) == Ink(ws, blocks[i].text)
  }

  lemma {:induction false} InkStep(ws: char -> bool, cuts: seq<seq<string>>, blocks: seq<Block>, n: nat)
    requires InkKept(ws, cuts, blocks) && 0 < n <= |blocks|
    ensures var all, before := Unlimited(cuts, blocks, n), Unlimited(cuts, blocks, n - 1);
      InkOf(ws, all, |all|) == InkOf(ws, before, |before|) + Ink(ws, blocks[n - 1].text)
  {
    InkOfWholeBlock(ws, Unlimited(cuts, blocks, n - 1), cuts[n - 1], blocks[n - 1]);
  }

  /** Two sums of the same parts. */
  lemma {:induction false} SameSums(f: nat -> string, g: nat -> string, part: nat -> string, n: nat)
    requires f(0) == g(0)
    requires forall k: nat :: k < n ==> f(k + 1) == f(k) + part(k) && g(k + 1) == g(k) + part(k)
    ensures f(n) == g(n)
  {
    if n > 0 {
      SameSums(f, g, part, n - 1);
      var k: nat := n - 1;
      assert f(k + 1) == f(k) + part(k);
    }
  }

  lemma InkAddsUp(ws: char -> bool, cuts: seq<seq<string>>, blocks: seq<Block>)
    requires InkKept(ws, cuts, blocks)
    ensures var all := Unlimited(cuts, blocks, |blocks|); InkOf(ws, all, |all|) == BlockInk(ws, blocks, |blocks|)
  {
    var f := (n: nat) => if n <= |blocks| then var all := Unlimited(cuts, blocks, n); InkOf(ws, all, |all|) else [];
    var g := (n: nat) => if n <= |blocks| then BlockInk(ws, blocks, n) else [];
    var part := (n: nat) => if n < |blocks| then Ink(ws, blocks[n].text) else [];
    forall k: nat | k < |blocks| ensures f(k + 1) == f(k) + part(k) && g(k + 1) == g(k) + part(k) {
      InkStep(ws, cuts, blocks, k + 1);
    }
    SameSums(f, g, part, |blocks|);
  }

  /** Segments carry exactly the ink of the blocks, in order. */
  lemma SegmentsKeepInk(ws: char -> bool, l: Limits, blocks: seq<Block>)
    requires ValidLimits(l)
    ensures var all := Unlimited(Cuts(ws, l, blocks), blocks, |blocks|);
      InkOf(ws, all, |all|) == BlockInk(ws, blocks, |blocks|)
  {
    var cuts := Cuts(ws, l, blocks);
    forall i | 0 <= i < |blocks| ensures AllInk(ws, cuts[i]) == Ink(ws, blocks[i].text) {
      CutsKeepInk(ws, l, blocks, i);
    }
    InkAddsUp(ws, cuts, blocks);
  }

  // ---- when normalisation succeeds ----

  ghost predicate HasInk(ws: char -> bool, blocks: seq<Block>) {
    exists i :: 0 <= i < |blocks| && exists k :: 0 <= k < |blocks[i].text| && !ws(blocks[i].text[k])
  }

  lemma {:induction false} InkIsThere(ws: char -> bool, t: string, n: nat)
    requires n <= |t|
    ensures InkUpTo(ws, t, n) != [] <==> exists k :: 0 <= k < n && !ws(t[k])
  {
    if n > 0 { InkIsThere(ws, t, n - 1); }
  }

  lemma {:induction false} BlockInkIsThere(ws: char -> bool, blocks: seq<Block>, n: nat)
    requires n <= |blocks|
    ensures BlockInk(ws, blocks, n) != [] <==> exists i :: 0 <= i < n && Ink(ws, blocks[i].text) != []
  {
    if n > 0 { BlockInkIsThere(ws, blocks, n - 1); }
  }

  lemma {:induction false} PieceHasInk(ws: char -> bool, t: string, maximum: nat)
    requires GoodPiece(ws, t, maximum)
    ensures Ink(ws, t) != []
  {
    InkIsThere(ws, t, |t|);
  }

  /** There are segments if and only if some block holds a character that is not white space. */
  lemma {:induction false} SegmentsIffInk(ws: char -> bool, l: Limits, blocks: seq<Block>)
    requires ValidLimits(l)
    ensures Unlimited(Cuts(ws, l, blocks), blocks, |blocks|) != [] <==> HasInk(ws, blocks)
  {
    var cuts := Cuts(ws, l, blocks);
    var all := Unlimited(cuts, blocks, |blocks|);
    SegmentsKeepInk(ws, l, blocks);
    BlockInkIsThere(ws, blocks, |blocks|);
    forall i | 0 <= i < |blocks|
      ensures Ink(ws, blocks[i].text) != [] <==> exists k :: 0 <= k < |blocks[i].text| && !ws(blocks[i].text[k])
    {
      InkIsThere(ws, blocks[i].text, |blocks[i].text|);
    }
    if all != [] {
      var i, k := SegmentComesFrom(cuts, blocks, |blocks|, |all| - 1);
      CutsAreGood(ws, l, blocks, i, k);
      PieceHasInk(ws, cuts[i][k], l.maxSegmentChars);
    }
  }

  /** Normalisation succeeds if and only if there is something to read and it fits: the error is
      "empty" exactly for blocks without ink, and "too large" before "too many". */
  lemma {:induction false} NormalizesIff(ws: char -> bool, l: Limits, blocks: seq<Block>)
    requires ValidLimits(l)
    ensures var all := Unlimited(Cuts(ws, l, blocks), blocks, |blocks|); var r := Limited(all, l);
      && (r.Ok? <==> HasInk(ws, blocks) && |all| <= l.maxSegments && Chars(all, |all|) <= l.maxTotalChars)
      && (r.Ok? ==> r.value == all)
      && (r == Err(EmptyContent) <==> !HasInk(ws, blocks))
      && (r == Err(SegmentLimitExceeded) <==>
            |all| > l.maxSegments && Chars(all, l.maxSegments + 1) <= l.maxTotalChars)
  {
    SegmentsIffInk(ws, l, blocks);
  }
}
