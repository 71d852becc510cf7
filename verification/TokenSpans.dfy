/** Tokens of a text: the matches of `\S+`, as spans. White space is a parameter `ws`. */
module TokenSpans {
  import opened PyText

  datatype Span = Span(start: nat, end: nat)

  function Last(r: seq<Span>): Span
    requires r != []
  {
    r[|r| - 1]
  }

  /** The last token grows to a new end. */
  function Extend(r: seq<Span>, end: nat): seq<Span>
    requires r != []
  {
    r[..|r| - 1] + [Span(Last(r).start, end)]
  }

  /** What one more character does to the tokens of the `n` before it: nothing, a new token, or
      a longer last one. */
  function Grown(r: seq<Span>, n: nat, white: bool, joined: bool): seq<Span> {
    if white then r
    else if joined && r != [] then Extend(r, n + 1)
    else r + [Span(n, n + 1)]
  }

  /** The tokens of the first `n` characters, from left to right. */
  function Scan(ws: char -> bool, t: string, n: nat): (r: seq<Span>)
    requires n <= |t|
    ensures n > 0 && !ws(t[n - 1]) <==> r != [] && Last(r).end == n
    ensures r != [] ==> Last(r).end <= n
  {
    if n == 0 then [] else Grown(Scan(ws, t, n - 1), n - 1, ws(t[n - 1]), n > 1 && !ws(t[n - 2]))
  }

  function Tokens(ws: char -> bool, t: string): seq<Span> {
    Scan(ws, t, |t|)
  }

  lemma {:induction false} ScanPrefix(ws: char -> bool, t: string, n: nat, m: nat)
    requires n <= m <= |t|
    ensures Scan(ws, t[..m], n) == Scan(ws, t, n)
    decreases n
  {
    if n > 0 { ScanPrefix(ws, t, n - 1, m); }
  }

  // ---- they are exactly the maximal runs ----

  /** A maximal run of characters that are not white space. */
  predicate MaximalRun(ws: char -> bool, t: string, s: Span) {
    && s.start < s.end <= |t|
    && (forall i :: s.start <= i < s.end ==> !ws(t[i]))
    && (s.start == 0 || ws(t[s.start - 1]))
    && (s.end == |t| || ws(t[s.end]))
  }

  /** Ordered and separated. */
  predicate Ascending(r: seq<Span>) {
    forall i, j :: 0 <= i < j < |r| ==> r[i].end < r[j].start
  }

  /** Maximal among the first `n` characters. */
  predicate RunUpTo(ws: char -> bool, t: string, n: nat, s: Span) {
    && s.start < s.end <= n <= |t|
    && (forall i :: s.start <= i < s.end ==> !ws(t[i]))
    && (s.start == 0 || ws(t[s.start - 1]))
    && (s.end == n || ws(t[s.end]))
  }

  predicate AllRuns(ws: char -> bool, t: string, n: nat, r: seq<Span>) {
    Ascending(r) && forall i :: 0 <= i < |r| ==> RunUpTo(ws, t, n, r[i])
  }

  lemma RunsAfterSpace(ws: char -> bool, t: string, n: nat, r: seq<Span>)
    requires n < |t| && AllRuns(ws, t, n, r) && ws(t[n])
    ensures AllRuns(ws, t, n + 1, r)
  {
    forall i | 0 <= i < |r| ensures RunUpTo(ws, t, n + 1, r[i]) { assert RunUpTo(ws, t, n, r[i]); }
  }

  lemma RunsAfterNewToken(ws: char -> bool, t: string, n: nat, r: seq<Span>)
    requires n < |t| && AllRuns(ws, t, n, r) && !ws(t[n]) && (n == 0 || ws(t[n - 1]))
    ensures AllRuns(ws, t, n + 1, r + [Span(n, n + 1)])
  {
    forall i | 0 <= i < |r| ensures RunUpTo(ws, t, n + 1, r[i]) && r[i].end < n {
      assert RunUpTo(ws, t, n, r[i]);
      assert !ws(t[r[i].end - 1]);
    }
  }

  lemma RunsAfterExtension(ws: char -> bool, t: string, n: nat, r: seq<Span>)
    requires n < |t| && AllRuns(ws, t, n, r) && !ws(t[n]) && r != [] && Last(r).end == n
    ensures AllRuns(ws, t, n + 1, Extend(r, n + 1))
  {
    var w := Extend(r, n + 1);
    var l := |r| - 1;
    assert RunUpTo(ws, t, n, r[l]);
    forall i | 0 <= i < |w| ensures RunUpTo(ws, t, n + 1, w[i]) {
      if i < l { assert RunUpTo(ws, t, n, r[i]) && r[i].end < r[l].start; }
    }
    forall i, j | 0 <= i < j < |w| ensures w[i].end < w[j].start { assert r[i].end < r[j].start; }
  }

  lemma {:induction false} ScanFindsRuns(ws: char -> bool, t: string, n: nat)
    requires n <= |t|
    ensures AllRuns(ws, t, n, Scan(ws, t, n))
  {
    if n > 0 {
      ScanFindsRuns(ws, t, n - 1);
      var r := Scan(ws, t, n - 1);
      if ws(t[n - 1]) {
        RunsAfterSpace(ws, t, n - 1, r);
      } else if n == 1 || ws(t[n - 2]) {
        RunsAfterNewToken(ws, t, n - 1, r);
      } else {
        RunsAfterExtension(ws, t, n - 1, r);
      }
    }
  }

  /** Every token is a maximal run, and the tokens ascend. */
  lemma TokensAreMaximalRuns(ws: char -> bool, t: string)
    ensures Ascending(Tokens(ws, t))
    ensures forall i :: 0 <= i < |Tokens(ws, t)| ==> MaximalRun(ws, t, Tokens(ws, t)[i])
  {
    ScanFindsRuns(ws, t, |t|);
    forall i | 0 <= i < |Tokens(ws, t)| ensures MaximalRun(ws, t, Tokens(ws, t)[i]) {
      assert RunUpTo(ws, t, |t|, Tokens(ws, t)[i]);
    }
  }

  /** Some token holds position `k`. */
  ghost predicate HasTokenAt(r: seq<Span>, k: nat) {
    exists i :: 0 <= i < |r| && r[i].start <= k < r[i].end
  }

  /** A token that grows, or is followed by another, still holds what it held. */
  lemma GrownStillHolds(r: seq<Span>, n: nat, white: bool, joined: bool, k: nat)
    requires HasTokenAt(r, k) && Last(r).end <= n
    ensures HasTokenAt(Grown(r, n, white, joined), k)
  {
    var i :| 0 <= i < |r| && r[i].start <= k < r[i].end;
    var w := Grown(r, n, white, joined);
    assert w[i].start <= k < w[i].end;
  }

  /** The last character of a token is in the last token. */
  lemma GrownHoldsLast(r: seq<Span>, n: nat, joined: bool)
    requires r != [] ==> Last(r).start <= n
    ensures HasTokenAt(Grown(r, n, false, joined), n)
  {
    var w := Grown(r, n, false, joined);
    assert w[|w| - 1].start <= n < w[|w| - 1].end;
  }

  lemma {:induction false} ScanCovers(ws: char -> bool, t: string, n: nat, k: nat)
    requires k < n <= |t| && !ws(t[k])
    ensures HasTokenAt(Scan(ws, t, n), k)
  {
    var r := Scan(ws, t, n - 1);
    var white, joined := ws(t[n - 1]), n > 1 && !ws(t[n - 2]);
    if k < n - 1 {
      ScanCovers(ws, t, n - 1, k);
      GrownStillHolds(r, n - 1, white, joined, k);
    } else {
      LastStartsBefore(ws, t, n - 1);
      GrownHoldsLast(r, n - 1, joined);
    }
  }

  lemma LastStartsBefore(ws: char -> bool, t: string, n: nat)
    requires n <= |t|
    ensures Scan(ws, t, n) != [] ==> Last(Scan(ws, t, n)).start <= n
  {
    ScanFindsRuns(ws, t, n);
    var r := Scan(ws, t, n);
    if r != [] { assert RunUpTo(ws, t, n, r[|r| - 1]); }
  }

  lemma OverlappingRunsAreEqual(ws: char -> bool, t: string, a: Span, b: Span)
    requires MaximalRun(ws, t, a) && MaximalRun(ws, t, b) && a.start <= b.start < a.end
    ensures a == b
  {
    var k := if a.start < b.start then b.start - 1 else b.start;
    assert !ws(t[k]);
    var e := if a.end < b.end then a.end else b.end;
    assert e == |t| || ws(t[e]);
  }

  /** A span is a token exactly when it is a maximal run. */
  lemma TokensAreExact(ws: char -> bool, t: string, s: Span)
    ensures s in Tokens(ws, t) <==> MaximalRun(ws, t, s)
  {
    TokensAreMaximalRuns(ws, t);
    if MaximalRun(ws, t, s) {
      ScanCovers(ws, t, |t|, s.start);
      var i :| 0 <= i < |Tokens(ws, t)| && Tokens(ws, t)[i].start <= s.start < Tokens(ws, t)[i].end;
      OverlappingRunsAreEqual(ws, t, Tokens(ws, t)[i], s);
    }
  }

  // ---- cutting a text between tokens ----

  function Shift(r: seq<Span>, offset: nat): (w: seq<Span>)
    ensures |w| == |r|
    ensures forall i :: 0 <= i < |r| ==> w[i] == Span(r[i].start + offset, r[i].end + offset)
  {
    seq(|r|, i requires 0 <= i < |r| => Span(r[i].start + offset, r[i].end + offset))
  }

  /** No token spans this position. */
  predicate Boundary(ws: char -> bool, t: string, p: nat) {
    p <= |t| && (p == 0 || p == |t| || ws(t[p - 1]) || ws(t[p]))
  }

  lemma ShiftAppend(r: seq<Span>, s: Span, offset: nat)
    ensures Shift(r + [s], offset) == Shift(r, offset) + [Span(s.start + offset, s.end + offset)]
  {
  }

  lemma ShiftExtend(a: seq<Span>, r: seq<Span>, end: nat, offset: nat)
    requires r != []
    ensures Extend(a + Shift(r, offset), end + offset) == a + Shift(Extend(r, end), offset)
  {
  }

  lemma GrownShifts(a: seq<Span>, b: seq<Span>, n: nat, p: nat, white: bool, joined: bool)
    requires joined ==> b != []
    ensures Grown(a + Shift(b, p), n + p, white, joined) == a + Shift(Grown(b, n, white, joined), p)
  {
    if !white {
      if joined { ShiftExtend(a, b, n + 1, p); } else { ShiftAppend(b, Span(n, n + 1), p); }
    }
  }

  lemma {:induction false} CutScan(ws: char -> bool, t: string, p: nat, m: nat)
    requires p + m <= |t| && Boundary(ws, t, p)
    ensures Scan(ws, t, p + m) == Scan(ws, t, p) + Shift(Scan(ws, t[p..], m), p)
    decreases m
  {
    if m > 0 {
      CutScan(ws, t, p, m - 1);
      var c := ScanTogether(ws, t, t[p..], p, m);
      TogetherKeeps(Scan(ws, t, p), Scan(ws, t, p + m - 1), Scan(ws, t, p + m),
                    Scan(ws, t[p..], m - 1), Scan(ws, t[p..], m), m - 1, p, c);
    }
  }

  /** What a new character is, seen from the whole text and from the part after the cut. */
  datatype Seen = Seen(white: bool, inWhole: bool, inPart: bool)

  /** Two token sequences take the same step, one of them `p` characters further on. */
  predicate Together(f0: seq<Span>, f1: seq<Span>, g0: seq<Span>, g1: seq<Span>, n: nat, p: nat, c: Seen) {
    && f1 == Grown(f0, n + p, c.white, c.inWhole) && g1 == Grown(g0, n, c.white, c.inPart)
    && (c.white || c.inWhole == c.inPart) && (c.inPart ==> g0 != [])
  }

  lemma TogetherKeeps(
      a: seq<Span>, f0: seq<Span>, f1: seq<Span>, g0: seq<Span>, g1: seq<Span>, n: nat, p: nat, c: Seen)
    requires f0 == a + Shift(g0, p) && Together(f0, f1, g0, g1, n, p, c)
    ensures f1 == a + Shift(g1, p)
  {
    GrownShifts(a, g0, n, p, c.white, c.inPart);
  }

  lemma ScanTogether(ws: char -> bool, t: string, v: string, p: nat, m: nat) returns (c: Seen)
    requires 0 < m && p + m <= |t| && v == t[p..] && Boundary(ws, t, p)
    ensures Together(Scan(ws, t, p + m - 1), Scan(ws, t, p + m), Scan(ws, v, m - 1), Scan(ws, v, m), m - 1, p, c)
  {
    c := Seen(ws(v[m - 1]), p + m > 1 && !ws(t[p + m - 2]), m > 1 && !ws(v[m - 2]));
    ScanStep(ws, v, m);
    ScanStep(ws, t, p + m);
    FlagsAfterCut(ws, t, v, p, m);
  }

  lemma ScanStep(ws: char -> bool, t: string, n: nat)
    requires 0 < n <= |t|
    ensures Scan(ws, t, n) == Grown(Scan(ws, t, n - 1), n - 1, ws(t[n - 1]), n > 1 && !ws(t[n - 2]))
  {
  }

  /** After a cut the characters are the same, and a token that ends at the cut does not go on; so
      the last character joins a token in the whole text exactly when it does in the rest. */
  lemma FlagsAfterCut(ws: char -> bool, t: string, v: string, p: nat, m: nat)
    requires 0 < m && p + m <= |t| && v == t[p..] && Boundary(ws, t, p)
    ensures ws(t[p + m - 1]) == ws(v[m - 1])
    ensures !ws(v[m - 1]) ==> ((p + m > 1 && !ws(t[p + m - 2])) == (m > 1 && !ws(v[m - 2])))
    ensures m > 1 && !ws(v[m - 2]) ==> Scan(ws, v, m - 1) != []
  {
    assert v[m - 1] == t[p + m - 1];
    if m > 1 { assert v[m - 2] == t[p + m - 2]; }
  }

  /** Tokens of a text cut at a boundary are the tokens of its two parts. */
  lemma CutTokens(ws: char -> bool, t: string, p: nat)
    requires Boundary(ws, t, p)
    ensures Tokens(ws, t) == Tokens(ws, t[..p]) + Shift(Tokens(ws, t[p..]), p)
  {
    CutScan(ws, t, p, |t| - p);
    ScanPrefix(ws, t, p, p);
  }

  // ---- the texts of the tokens ----

  predicate InBounds(t: string, r: seq<Span>) {
    forall i :: 0 <= i < |r| ==> r[i].start <= r[i].end <= |t|
  }

  function Texts(t: string, r: seq<Span>): seq<string>
    requires InBounds(t, r)
  {
    seq(|r|, i requires 0 <= i < |r| => t[r[i].start..r[i].end])
  }

  lemma TokensAreInBounds(ws: char -> bool, t: string)
    ensures InBounds(t, Tokens(ws, t))
  {
    TokensAreMaximalRuns(ws, t);
    forall i | 0 <= i < |Tokens(ws, t)| ensures Tokens(ws, t)[i].start <= Tokens(ws, t)[i].end <= |t| {
      assert MaximalRun(ws, t, Tokens(ws, t)[i]);
    }
  }

  function Words(ws: char -> bool, t: string): seq<string> {
    TokensAreInBounds(ws, t);
    Texts(t, Tokens(ws, t))
  }

  lemma TextsOfCut(t: string, p: nat, a: seq<Span>, b: seq<Span>)
    requires p <= |t| && InBounds(t[..p], a) && InBounds(t[p..], b)
    ensures InBounds(t, a + Shift(b, p))
    ensures Texts(t, a + Shift(b, p)) == Texts(t[..p], a) + Texts(t[p..], b)
  {
    var r := a + Shift(b, p);
    forall i | 0 <= i < |r|
      ensures r[i].start <= r[i].end <= |t|
      ensures t[r[i].start..r[i].end] == (Texts(t[..p], a) + Texts(t[p..], b))[i]
    {
      if i < |a| {
        assert t[..p][a[i].start..a[i].end] == t[a[i].start..a[i].end];
      } else {
        var s := b[i - |a|];
        assert t[p..][s.start..s.end] == t[s.start + p..s.end + p];
      }
    }
  }

  lemma CutWords(ws: char -> bool, t: string, p: nat)
    requires Boundary(ws, t, p)
    ensures Words(ws, t) == Words(ws, t[..p]) + Words(ws, t[p..])
  {
    CutTokens(ws, t, p);
    TokensAreInBounds(ws, t[..p]);
    TokensAreInBounds(ws, t[p..]);
    TextsOfCut(t, p, Tokens(ws, t[..p]), Tokens(ws, t[p..]));
  }

  lemma {:induction false} SpacesHaveNoTokens(ws: char -> bool, t: string, n: nat)
    requires n <= |t| && forall i :: 0 <= i < n ==> ws(t[i])
    ensures Scan(ws, t, n) == []
  {
    if n > 0 { SpacesHaveNoTokens(ws, t, n - 1); }
  }

  /** Tokens lie on one side of a boundary: those of the prefix come first. */
  lemma TokensBefore(ws: char -> bool, t: string, p: nat, i: nat)
    requires Boundary(ws, t, p) && i < |Tokens(ws, t)|
    ensures i < |Tokens(ws, t[..p])| <==> Tokens(ws, t)[i].start < p
    ensures i < |Tokens(ws, t[..p])| <==> Tokens(ws, t)[i].end <= p
  {
    CutTokens(ws, t, p);
    TokensAreMaximalRuns(ws, t[..p]);
    TokensAreMaximalRuns(ws, t[p..]);
    if i < |Tokens(ws, t[..p])| {
      assert MaximalRun(ws, t[..p], Tokens(ws, t[..p])[i]);
    } else {
      assert MaximalRun(ws, t[p..], Tokens(ws, t[p..])[i - |Tokens(ws, t[..p])|]);
    }
  }

  /** A boundary that separates the first `n` tokens from the others. */
  lemma PrefixCount(ws: char -> bool, t: string, p: nat, n: nat)
    requires Boundary(ws, t, p) && n <= |Tokens(ws, t)|
    requires n > 0 ==> Tokens(ws, t)[n - 1].end <= p
    requires n < |Tokens(ws, t)| ==> p <= Tokens(ws, t)[n].start
    ensures |Tokens(ws, t[..p])| == n
  {
    var k := |Tokens(ws, t[..p])|;
    assert n <= k by { if n > 0 { TokensBefore(ws, t, p, n - 1); } }
    assert k <= n by {
      if n < |Tokens(ws, t)| { TokensBefore(ws, t, p, n); } else { CutTokens(ws, t, p); }
    }
  }

  lemma PrefixTokens(ws: char -> bool, t: string, p: nat, n: nat)
    requires Boundary(ws, t, p) && n <= |Tokens(ws, t)|
    requires n > 0 ==> Tokens(ws, t)[n - 1].end <= p
    requires n < |Tokens(ws, t)| ==> p <= Tokens(ws, t)[n].start
    ensures Tokens(ws, t[..p]) == Tokens(ws, t)[..n]
    ensures Shift(Tokens(ws, t[p..]), p) == Tokens(ws, t)[n..]
  {
    PrefixCount(ws, t, p, n);
    CutTokens(ws, t, p);
  }

  /** The text from one token to another re-tokenises to exactly those tokens. */
  lemma TokensBetween(ws: char -> bool, t: string, i: nat, j: nat)
    requires i < j <= |Tokens(ws, t)|
    ensures Tokens(ws, t)[i].start <= Tokens(ws, t)[j - 1].end <= |t|
    ensures Shift(Tokens(ws, t[Tokens(ws, t)[i].start..Tokens(ws, t)[j - 1].end]), Tokens(ws, t)[i].start)
         == Tokens(ws, t)[i..j]
  {
    var r := Tokens(ws, t);
    TokensAreMaximalRuns(ws, t);
    assert MaximalRun(ws, t, r[i]) && MaximalRun(ws, t, r[j - 1]);
    var p, q := r[i].start, r[j - 1].end;
    if i < j - 1 { assert r[i].end < r[j - 1].start; }
    if j < |r| { assert r[j - 1].end < r[j].start; }
    PrefixTokens(ws, t, q, j);
    var u := t[..q];
    assert Tokens(ws, u) == r[..j];
    assert Boundary(ws, u, p);
    if i > 0 { assert r[i - 1].end < r[i].start; }
    PrefixTokens(ws, u, p, i);
    assert r[..j][i..] == r[i..j];
    assert t[p..q] == u[p..];
  }
}
