/** What the pieces of a text keep. */
module SplitTheorems {
  import opened PyText
  import opened TokenSpans
  import opened SplitText

  // ---- stripping keeps words ----

  lemma {:induction false} SpacesHaveNoWords(ws: char -> bool, t: string)
    requires forall i :: 0 <= i < |t| ==> ws(t[i])
    ensures Words(ws, t) == []
  {
    SpacesHaveNoTokens(ws, t, |t|);
  }

  lemma {:induction false} LStripKeepsWords(ws: char -> bool, t: string)
    ensures Words(ws, LStrip(ws, t)) == Words(ws, t)
  {
    var r := LStrip(ws, t);
    var n: nat :| n <= |t| && r == t[n..] && forall i :: 0 <= i < n ==> ws(t[i]);
    WordsAfterSpaces(ws, t, n);
  }

  lemma {:induction false} WordsAfterSpaces(ws: char -> bool, t: string, n: nat)
    requires n <= |t| && forall i :: 0 <= i < n ==> ws(t[i])
    ensures Words(ws, t[n..]) == Words(ws, t)
  {
    CutWords(ws, t, n);
    SpacesHaveNoWords(ws, t[..n]);
  }

  lemma {:induction false} RStripKeepsWords(ws: char -> bool, t: string)
    ensures Words(ws, RStrip(ws, t)) == Words(ws, t)
  {
    var r := RStrip(ws, t);
    CutWords(ws, t, |r|);
    SpacesHaveNoWords(ws, t[|r|..]);
  }

  lemma {:induction false} StripKeepsWords(ws: char -> bool, t: string)
    ensures Words(ws, Strip(ws, t)) == Words(ws, t)
  {
    LStripKeepsWords(ws, t);
    RStripKeepsWords(ws, LStrip(ws, t));
  }

  // ---- one cut ----

  /** A text that does not start with white space keeps all of its start. */
  lemma {:induction false} StripOfStart(ws: char -> bool, u: string)
    requires u != [] && !ws(u[0])
    ensures Strip(ws, u) != [] && Trimmed(ws, Strip(ws, u)) && |Strip(ws, u)| <= |u|
  {
    StripTrims(ws, u);
    assert LStrip(ws, u) == u;
    assert RStrip(ws, u) != [];
  }

  /** One that does not end with white space keeps its end. */
  lemma {:induction false} LStripOfEnd(ws: char -> bool, u: string)
    requires u != [] && !ws(u[|u| - 1])
    ensures LStrip(ws, u) != [] && Trimmed(ws, LStrip(ws, u))
  {
    var r := LStrip(ws, u);
    var n: nat :| n <= |u| && r == u[n..] && forall i :: 0 <= i < n ==> ws(u[i]);
    assert n < |u|;
    assert r[|r| - 1] == u[|u| - 1];
  }

  /** A cut of a trimmed text leaves a piece, and a trimmed rest. */
  lemma {:induction false} CutIsGood(ws: char -> bool, t: string, b: nat)
    requires t != [] && Trimmed(ws, t) && 0 < b < |t|
    ensures Strip(ws, t[..b]) != [] && Trimmed(ws, Strip(ws, t[..b])) && |Strip(ws, t[..b])| <= b
    ensures LStrip(ws, t[b..]) != [] && Trimmed(ws, LStrip(ws, t[b..]))
  {
    StripOfStart(ws, t[..b]);
    LStripOfEnd(ws, t[b..]);
  }

  lemma {:induction false} InkOfCut(ws: char -> bool, t: string, b: nat)
    requires b <= |t|
    ensures Ink(ws, t) == Ink(ws, t[..b]) + Ink(ws, t[b..])
  {
    InkConcat(ws, t[..b], t[b..]);
    assert t == t[..b] + t[b..];
  }

  lemma {:induction false} CutKeepsInk(ws: char -> bool, t: string, b: nat)
    requires b <= |t|
    ensures Ink(ws, Strip(ws, t[..b])) + Ink(ws, LStrip(ws, t[b..])) == Ink(ws, t)
  {
    StripKeepsInk(ws, t[..b]);
    LStripKeepsInk(ws, t[b..]);
    InkOfCut(ws, t, b);
  }

  lemma {:induction false} CutKeepsWords(ws: char -> bool, t: string, b: nat)
    requires Boundary(ws, t, b)
    ensures Words(ws, Strip(ws, t[..b])) + Words(ws, LStrip(ws, t[b..])) == Words(ws, t)
  {
    StripKeepsWords(ws, t[..b]);
    LStripKeepsWords(ws, t[b..]);
    CutWords(ws, t, b);
  }

  /** `k` is the last place of `c` within reach of the limit, past the first character. */
  predicate LastWithin(t: string, c: char, maximum: nat, k: nat)
    requires maximum < |t|
  {
    0 < k <= maximum && t[k] == c && forall i :: k < i <= maximum ==> t[i] != c
  }

  /** Where a text that is too long is cut: at the last line feed within reach, even if a space comes
      later; without one at the last space; without either at the limit. */
  lemma CutIsPreferred(t: string, maximum: nat)
    requires 0 < maximum < |t|
    ensures var b := Cut(t, maximum);
      if exists i :: 0 < i <= maximum && t[i] == '\n' then LastWithin(t, '\n', maximum, b)
      else if exists i :: 0 < i <= maximum && t[i] == ' ' then LastWithin(t, ' ', maximum, b)
      else b == maximum
  {
  }

  // ---- all pieces ----

  predicate GoodPiece(ws: char -> bool, piece: string, maximum: nat) {
    piece != [] && Trimmed(ws, piece) && |piece| <= maximum
  }

  predicate GoodPieces(ws: char -> bool, pieces: seq<string>, maximum: nat) {
    forall i :: 0 <= i < |pieces| ==> GoodPiece(ws, pieces[i], maximum)
  }

  /** How a text that is too long splits. */
  lemma SplitLong(ws: char -> bool, t: string, maximum: nat) returns (b: nat, piece: string, rest: string)
    requires 0 < maximum < |t| && Trimmed(ws, t)
    ensures b == Cut(t, maximum) && piece == Strip(ws, t[..b]) && rest == LStrip(ws, t[b..])
    ensures GoodPiece(ws, piece, maximum) && rest != [] && Trimmed(ws, rest) && |rest| < |t|
    ensures Split(ws, t, maximum) == [piece] + Split(ws, rest, maximum)
  {
    b := Cut(t, maximum);
    piece, rest := Strip(ws, t[..b]), LStrip(ws, t[b..]);
    CutIsGood(ws, t, b);
    LStripShortens(ws, t[b..]);
  }

  /** Pieces are not empty, have nothing to strip and fit the limit; only an empty text has none. */
  lemma {:induction false} PiecesAreGood(ws: char -> bool, t: string, maximum: nat)
    requires maximum > 0 && Trimmed(ws, t)
    ensures GoodPieces(ws, Split(ws, t, maximum), maximum)
    ensures Split(ws, t, maximum) == [] <==> t == []
    decreases |t|
  {
    if |t| > maximum {
      var b, piece, rest := SplitLong(ws, t, maximum);
      PiecesAreGood(ws, rest, maximum);
      OneMoreGoodPiece(ws, piece, Split(ws, rest, maximum), maximum);
    }
  }

  lemma OneMoreGoodPiece(ws: char -> bool, piece: string, pieces: seq<string>, maximum: nat)
    requires GoodPiece(ws, piece, maximum) && GoodPieces(ws, pieces, maximum)
    ensures GoodPieces(ws, [piece] + pieces, maximum)
  {
  }

  function AllInk(ws: char -> bool, pieces: seq<string>): string {
    if pieces == [] then [] else Ink(ws, pieces[0]) + AllInk(ws, pieces[1..])
  }

  function AllWords(ws: char -> bool, pieces: seq<string>): seq<string> {
    if pieces == [] then [] else Words(ws, pieces[0]) + AllWords(ws, pieces[1..])
  }

  lemma HeadInk(ws: char -> bool, piece: string, pieces: seq<string>)
    ensures AllInk(ws, [piece] + pieces) == Ink(ws, piece) + AllInk(ws, pieces)
  {
    assert ([piece] + pieces)[1..] == pieces;
  }

  lemma HeadWords(ws: char -> bool, piece: string, pieces: seq<string>)
    ensures AllWords(ws, [piece] + pieces) == Words(ws, piece) + AllWords(ws, pieces)
  {
    assert ([piece] + pieces)[1..] == pieces;
  }

  /** No character that is not white space is lost, added or moved. */
  lemma {:induction false} SplitKeepsInk(ws: char -> bool, t: string, maximum: nat)
    requires maximum > 0 && Trimmed(ws, t)
    ensures AllInk(ws, Split(ws, t, maximum)) == Ink(ws, t)
    decreases |t|
  {
    if |t| > maximum {
      var b, piece, rest := SplitLong(ws, t, maximum);
      SplitKeepsInk(ws, rest, maximum);
      HeadInk(ws, piece, Split(ws, rest, maximum));
      CutKeepsInk(ws, t, b);
    } else if t != [] {
      HeadInk(ws, t, []);
    }
  }

  // ---- when no token is cut ----

  predicate IsBreak(c: char) { c == ' ' || c == '\n' }

  ghost predicate HasBreak(t: string, i: nat, n: nat)
    requires i + n < |t|
  {
    exists k: nat :: i <= k <= i + n && IsBreak(t[k])
  }

  /** Every run free of spaces and line ends is at most `maximum` long: no `maximum + 1`
      characters in a row go without one. */
  ghost predicate RunsFit(t: string, maximum: nat) {
    forall i: nat :: i + maximum < |t| ==> HasBreak(t, i, maximum)
  }

  lemma RunsOfSuffixFit(t: string, n: nat, maximum: nat)
    requires n <= |t| && RunsFit(t, maximum)
    ensures RunsFit(t[n..], maximum)
  {
    var u := t[n..];
    forall i: nat | i + maximum < |u| ensures HasBreak(u, i, maximum) {
      assert HasBreak(t, i + n, maximum);
      var k: nat :| i + n <= k <= i + n + maximum && IsBreak(t[k]);
      assert u[k - n] == t[k];
    }
  }

  lemma RestFits(ws: char -> bool, t: string, b: nat, maximum: nat)
    requires b <= |t| && RunsFit(t, maximum)
    ensures RunsFit(LStrip(ws, t[b..]), maximum)
  {
    var u := t[b..];
    RunsOfSuffixFit(t, b, maximum);
    var n: nat :| n <= |u| && LStrip(ws, u) == u[n..];
    RunsOfSuffixFit(u, n, maximum);
  }

  /** With a break within reach, the text is cut at one. */
  lemma CutAtBreak(ws: char -> bool, t: string, maximum: nat)
    requires SeparatorsAreSpace(ws) && 0 < maximum < |t| && !ws(t[0]) && HasBreak(t, 0, maximum)
    ensures Boundary(ws, t, Cut(t, maximum))
  {
    var k: nat :| 0 <= k <= 0 + maximum && IsBreak(t[k]);
    assert k > 0;
  }

  lemma {:induction false} JoinWords(ws: char -> bool, t: string, b: nat, pieces: seq<string>)
    requires Boundary(ws, t, b) && AllWords(ws, pieces) == Words(ws, LStrip(ws, t[b..]))
    ensures AllWords(ws, [Strip(ws, t[..b])] + pieces) == Words(ws, t)
  {
    HeadWords(ws, Strip(ws, t[..b]), pieces);
    CutKeepsWords(ws, t, b);
  }

  lemma {:induction false} ShortKeepsWords(ws: char -> bool, t: string)
    ensures AllWords(ws, NonEmpty(t)) == Words(ws, t)
  {
    if t != [] {
      HeadWords(ws, t, []);
    } else {
      SpacesHaveNoWords(ws, t);
    }
  }

  /** No token is cut when every run fits. */
  lemma {:induction false} SplitKeepsWords(ws: char -> bool, t: string, maximum: nat)
    requires SeparatorsAreSpace(ws) && maximum > 0 && Trimmed(ws, t) && RunsFit(t, maximum)
    ensures AllWords(ws, Split(ws, t, maximum)) == Words(ws, t)
    decreases |t|
  {
    if |t| > maximum {
      var b, piece, rest := SplitLong(ws, t, maximum);
      RestFits(ws, t, b, maximum);
      SplitKeepsWords(ws, rest, maximum);
      assert HasBreak(t, 0, maximum);
      CutAtBreak(ws, t, maximum);
      JoinWords(ws, t, b, Split(ws, rest, maximum));
    } else {
      ShortKeepsWords(ws, t);
    }
  }

  // ---- and when some must be ----

  lemma {:induction false} WordsFit(ws: char -> bool, t: string, i: nat)
    requires i < |Words(ws, t)|
    ensures |Words(ws, t)[i]| <= |t|
  {
    TokensAreInBounds(ws, t);
  }

  lemma {:induction false} WordsOfPiecesFit(ws: char -> bool, pieces: seq<string>, maximum: nat, i: nat)
    requires forall k :: 0 <= k < |pieces| ==> |pieces[k]| <= maximum
    requires i < |AllWords(ws, pieces)|
    ensures |AllWords(ws, pieces)[i]| <= maximum
  {
    var n := |Words(ws, pieces[0])|;
    if i < n { WordsFit(ws, pieces[0], i); } else { WordsOfPiecesFit(ws, pieces[1..], maximum, i - n); }
  }

  ghost predicate AllFit(words: seq<string>, maximum: nat) {
    forall i :: 0 <= i < |words| ==> |words[i]| <= maximum
  }

  /** Words that are kept fit in a piece: a longer one is cut. */
  lemma {:induction false} KeptWordsFit(ws: char -> bool, t: string, maximum: nat)
    requires maximum > 0 && Trimmed(ws, t) && AllWords(ws, Split(ws, t, maximum)) == Words(ws, t)
    ensures AllFit(Words(ws, t), maximum)
  {
    var pieces := Split(ws, t, maximum);
    PiecesAreGood(ws, t, maximum);
    forall k | 0 <= k < |pieces| ensures |pieces[k]| <= maximum { assert GoodPiece(ws, pieces[k], maximum); }
    forall i | 0 <= i < |Words(ws, t)| ensures |Words(ws, t)[i]| <= maximum {
      WordsOfPiecesFit(ws, pieces, maximum, i);
    }
  }

  // ---- exactly when all are kept ----

  /** Every cut that is made lies between tokens. */
  predicate CutsBetweenTokens(ws: char -> bool, t: string, maximum: nat)
    requires maximum > 0
    decreases |t|
  {
    |t| <= maximum
    || (var b := Cut(t, maximum);
        LStripShortens(ws, t[b..]);
        Boundary(ws, t, b) && CutsBetweenTokens(ws, LStrip(ws, t[b..]), maximum))
  }

  /** One more character does as much to the tokens on either side of a cut inside a token. */
  lemma {:induction false} ScanInsideToken(ws: char -> bool, t: string, v: string, p: nat, m: nat)
    requires 0 < p < |t| && v == t[p..] && !ws(t[p - 1]) && !ws(t[p]) && 1 <= m <= |v|
    ensures |Scan(ws, t, p + m)| + 1 == |Scan(ws, t, p)| + |Scan(ws, v, m)|
    decreases m
  {
    if m > 1 {
      ScanInsideToken(ws, t, v, p, m - 1);
      assert v[m - 1] == t[p + m - 1] && v[m - 2] == t[p + m - 2];
    } else {
      assert Scan(ws, v, 0) == [] && v[0] == t[p];
    }
  }

  /** A cut inside a token makes two words of one. */
  lemma {:induction false} CutInsideToken(ws: char -> bool, t: string, p: nat)
    requires p <= |t| && !Boundary(ws, t, p)
    ensures |Words(ws, t[..p])| + |Words(ws, t[p..])| == |Words(ws, t)| + 1
  {
    ScanInsideToken(ws, t, t[p..], p, |t| - p);
    ScanPrefix(ws, t, p, p);
  }

  /** No cut makes fewer words. */
  lemma {:induction false} CutCounts(ws: char -> bool, t: string, b: nat)
    requires b <= |t|
    ensures |Words(ws, Strip(ws, t[..b]))| + |Words(ws, LStrip(ws, t[b..]))|
         == |Words(ws, t)| + if Boundary(ws, t, b) then 0 else 1
  {
    StripKeepsWords(ws, t[..b]);
    LStripKeepsWords(ws, t[b..]);
    if Boundary(ws, t, b) { CutWords(ws, t, b); } else { CutInsideToken(ws, t, b); }
  }

  lemma {:induction false} SplitCounts(ws: char -> bool, t: string, maximum: nat)
    requires maximum > 0 && Trimmed(ws, t)
    ensures |AllWords(ws, Split(ws, t, maximum))| >= |Words(ws, t)|
    ensures |AllWords(ws, Split(ws, t, maximum))| == |Words(ws, t)| ==> CutsBetweenTokens(ws, t, maximum)
    decreases |t|
  {
    if |t| > maximum {
      var b, piece, rest := SplitLong(ws, t, maximum);
      SplitCounts(ws, rest, maximum);
      HeadWords(ws, piece, Split(ws, rest, maximum));
      CutCounts(ws, t, b);
    } else {
      ShortKeepsWords(ws, t);
    }
  }

  lemma {:induction false} GoodCutsKeepWords(ws: char -> bool, t: string, maximum: nat)
    requires maximum > 0 && Trimmed(ws, t) && CutsBetweenTokens(ws, t, maximum)
    ensures AllWords(ws, Split(ws, t, maximum)) == Words(ws, t)
    decreases |t|
  {
    if |t| > maximum {
      var b, piece, rest := SplitLong(ws, t, maximum);
      GoodCutsKeepWords(ws, rest, maximum);
      JoinWords(ws, t, b, Split(ws, rest, maximum));
    } else {
      ShortKeepsWords(ws, t);
    }
  }

  /** Whatever white space is, the pieces keep all words if and only if every cut lies between
      tokens. */
  lemma SplitKeepsWordsExactly(ws: char -> bool, t: string, maximum: nat)
    requires maximum > 0 && Trimmed(ws, t)
    ensures AllWords(ws, Split(ws, t, maximum)) == Words(ws, t) <==> CutsBetweenTokens(ws, t, maximum)
  {
    if CutsBetweenTokens(ws, t, maximum) { GoodCutsKeepWords(ws, t, maximum); } else { SplitCounts(ws, t, maximum); }
  }

  // ---- where spaces and line ends are the only white space ----

  /** A run without a break is part of one word, when every white space is a break. */
  lemma {:induction false} LongRunIsLongWord(ws: char -> bool, t: string, i: nat, maximum: nat)
    requires forall k :: 0 <= k < |t| && ws(t[k]) ==> IsBreak(t[k])
    requires i + maximum < |t| && AllFit(Words(ws, t), maximum)
    ensures HasBreak(t, i, maximum)
  {
    if !ws(t[i]) {
      ScanCovers(ws, t, |t|, i);
      TokensAreMaximalRuns(ws, t);
      TokensAreInBounds(ws, t);
      var tokens := Tokens(ws, t);
      var s: nat :| s < |tokens| && tokens[s].start <= i < tokens[s].end;
      assert MaximalRun(ws, t, tokens[s]);
      assert |Words(ws, t)[s]| <= maximum;
      assert IsBreak(t[tokens[s].end]);
    }
  }

  /** Where spaces and line ends are the only white space, the pieces keep all words if and only if
      every word fits in a piece. */
  lemma {:induction false} SplitKeepsWordsIff(ws: char -> bool, t: string, maximum: nat)
    requires SeparatorsAreSpace(ws) && maximum > 0 && Trimmed(ws, t)
    requires forall k :: 0 <= k < |t| && ws(t[k]) ==> IsBreak(t[k])
    ensures AllWords(ws, Split(ws, t, maximum)) == Words(ws, t) <==> AllFit(Words(ws, t), maximum)
  {
    if AllFit(Words(ws, t), maximum) {
      forall i: nat | i + maximum < |t| ensures HasBreak(t, i, maximum) {
        LongRunIsLongWord(ws, t, i, maximum);
      }
      SplitKeepsWords(ws, t, maximum);
    }
    if AllWords(ws, Split(ws, t, maximum)) == Words(ws, t) {
      KeptWordsFit(ws, t, maximum);
    }
  }
}
