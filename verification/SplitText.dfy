/** `_split_text`: cutting a long text into pieces at line ends or spaces, where there are any. */
module SplitText {
  import opened PyText
  import opened TokenSpans

  /** `t.rfind(c, 0, n)`. */
  function RFind(t: string, c: char, n: nat): (r: int)
    requires n <= |t|
    ensures -1 <= r < n
    ensures r >= 0 ==> t[r] == c
    ensures forall i :: r < i < n ==> t[i] != c
  {
    if n == 0 then -1 else if t[n - 1] == c then n - 1 else RFind(t, c, n - 1)
  }

  /** Where a text that is too long is cut: at the last line end within reach, else at the last
      space, else at the limit. */
  function Cut(t: string, maximum: nat): (b: nat)
    requires 0 < maximum < |t|
    ensures 0 < b <= maximum
  {
    var newline := RFind(t, '\n', maximum + 1);
    if newline > 0 then newline else
      var space := RFind(t, ' ', maximum + 1);
      if space > 0 then space else maximum
  }

  function NonEmpty(piece: string): seq<string> {
    if piece == "" then [] else [piece]
  }

  /** The pieces of a text that has been stripped. */
  function Split(ws: char -> bool, t: string, maximum: nat): seq<string>
    requires maximum > 0
    decreases |t|
  {
    if |t| <= maximum then NonEmpty(t) else
      var b := Cut(t, maximum);
      LStripShortens(ws, t[b..]);
      NonEmpty(Strip(ws, t[..b])) + Split(ws, LStrip(ws, t[b..]), maximum)
  }

  lemma LStripShortens(ws: char -> bool, t: string)
    ensures |LStrip(ws, t)| <= |t|
  {
  }

  /** The piece cut off a text, and what remains of it. */
  method CutPiece(ws: char -> bool, t: string, maximum: nat) returns (piece: string, rest: string)
    requires 0 < maximum < |t|
    ensures |rest| < |t|
    ensures Split(ws, t, maximum) == NonEmpty(piece) + Split(ws, rest, maximum)
  {
    var boundary := RFind(t, '\n', maximum + 1);
    if boundary <= 0 {
      boundary := RFind(t, ' ', maximum + 1);
    }
    if boundary <= 0 {
      boundary := maximum;
    }
    assert boundary == Cut(t, maximum);
    piece := Strip(ws, t[..boundary]);
    LStripShortens(ws, t[boundary..]);
    rest := LStrip(ws, t[boundary..]);
  }

  lemma Regroup(a: seq<string>, b: seq<string>, c: seq<string>)
    ensures (a + b) + c == a + (b + c)
  {
  }

  method SplitAll(ws: char -> bool, stripped: string, maximum: nat, ghost whole: seq<string>)
    returns (pieces: seq<string>)
    requires maximum > 0 && whole == Split(ws, stripped, maximum)
    ensures pieces == whole
  {
    var remaining := stripped;
    pieces := [];
    while |remaining| > maximum
      invariant pieces + Split(ws, remaining, maximum) == whole
      decreases |remaining|
    {
      ghost var before := pieces;
      var piece, rest := CutPiece(ws, remaining, maximum);
      Regroup(pieces, NonEmpty(piece), Split(ws, rest, maximum));
      if piece != "" {
        pieces := pieces + [piece];
      }
      assert pieces == before + NonEmpty(piece);
      remaining := rest;
    }
    if remaining != "" {
      pieces := pieces + [remaining];
    }
  }

  /** `_split_text`. */
  method SplitPieces(ws: char -> bool, text: string, maximum: nat) returns (pieces: seq<string>)
    requires maximum > 0
    ensures pieces == Split(ws, Strip(ws, text), maximum)
  {
    var stripped := Strip(ws, text);
    pieces := SplitAll(ws, stripped, maximum, Split(ws, stripped, maximum));
  }
}
