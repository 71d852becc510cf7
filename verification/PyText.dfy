/** The parts of Python's text model that the code relies on. Which characters are white space
    is a parameter `ws`; `str.strip` and `\s` in patterns agree on it. */
module PyText {

  /** `str.isspace` for one character. */
  predicate IsSpace(c: char) {
    var n := c as int;
    9 <= n <= 13 || 28 <= n <= 32 || n == 0x85 || n == 0xA0 || n == 0x1680
    || 0x2000 <= n <= 0x200A || n == 0x2028 || n == 0x2029 || n == 0x202F || n == 0x205F || n == 0x3000
  }

  /** All that the code needs of white space: its own separators belong to it. */
  predicate SeparatorsAreSpace(ws: char -> bool) {
    ws(' ') && ws('\n')
  }

  lemma PythonSeparatorsAreSpace()
    ensures SeparatorsAreSpace(IsSpace)
  {
  }

  /** How many characters of white space a text starts with, from character `i` on. */
  function LeadingFrom(ws: char -> bool, t: string, i: nat): (n: nat)
    requires i <= |t|
    ensures i <= n <= |t|
    ensures forall k :: i <= k < n ==> ws(t[k])
    ensures n < |t| ==> !ws(t[n])
    decreases |t| - i
  {
    if i == |t| || !ws(t[i]) then i else LeadingFrom(ws, t, i + 1)
  }

  /** `str.lstrip()`. */
  function LStrip(ws: char -> bool, t: string): (r: string)
    ensures r == [] || !ws(r[0])
  {
    t[LeadingFrom(ws, t, 0)..]
  }

  function RStrip(ws: char -> bool, t: string): (r: string)
    ensures r == [] || !ws(r[|r| - 1])
    ensures |r| <= |t| && r == t[..|r|] && forall i :: |r| <= i < |t| ==> ws(t[i])
  {
    if t == [] || !ws(t[|t| - 1]) then t else RStrip(ws, t[..|t| - 1])
  }

  /** `str.strip()`. */
  function Strip(ws: char -> bool, t: string): string {
    RStrip(ws, LStrip(ws, t))
  }

  /** A text with nothing left to strip. */
  predicate Trimmed(ws: char -> bool, t: string) {
    t == [] || (!ws(t[0]) && !ws(t[|t| - 1]))
  }

  lemma StripTrims(ws: char -> bool, t: string)
    ensures Trimmed(ws, Strip(ws, t)) && |Strip(ws, t)| <= |t|
  {
    var l := LStrip(ws, t);
    var s := RStrip(ws, l);
    if s != [] { assert s[0] == l[0]; }
  }

  /** The characters a reader sees, among the first `n`. */
  function InkUpTo(ws: char -> bool, t: string, n: nat): string
    requires n <= |t|
  {
    if n == 0 then []
    else if ws(t[n - 1]) then InkUpTo(ws, t, n - 1)
    else InkUpTo(ws, t, n - 1) + [t[n - 1]]
  }

  /** The characters a reader sees. */
  function Ink(ws: char -> bool, t: string): string {
    InkUpTo(ws, t, |t|)
  }

  lemma {:induction false} InkOfPrefix(ws: char -> bool, a: string, b: string, n: nat)
    requires n <= |a|
    ensures InkUpTo(ws, a + b, n) == InkUpTo(ws, a, n)
    decreases n
  {
    if n > 0 { InkOfPrefix(ws, a, b, n - 1); }
  }

  lemma {:induction false} InkAfter(ws: char -> bool, a: string, b: string, m: nat)
    requires m <= |b|
    ensures InkUpTo(ws, a + b, |a| + m) == Ink(ws, a) + InkUpTo(ws, b, m)
    decreases m
  {
    if m == 0 {
      InkOfPrefix(ws, a, b, |a|);
    } else {
      InkAfter(ws, a, b, m - 1);
      assert (a + b)[|a| + m - 1] == b[m - 1];
    }
  }

  lemma InkConcat(ws: char -> bool, a: string, b: string)
    ensures Ink(ws, a + b) == Ink(ws, a) + Ink(ws, b)
  {
    InkAfter(ws, a, b, |b|);
  }

  lemma {:induction false} SpacesHaveNoInk(ws: char -> bool, t: string, n: nat)
    requires n <= |t| && forall i :: 0 <= i < n ==> ws(t[i])
    ensures InkUpTo(ws, t, n) == []
    decreases n
  {
    if n > 0 { SpacesHaveNoInk(ws, t, n - 1); }
  }

  lemma InkOfSpaces(ws: char -> bool, t: string)
    requires forall i :: 0 <= i < |t| ==> ws(t[i])
    ensures Ink(ws, t) == []
  {
    SpacesHaveNoInk(ws, t, |t|);
  }

  lemma StripKeepsInk(ws: char -> bool, t: string)
    ensures Ink(ws, LStrip(ws, t)) == Ink(ws, t) && Ink(ws, RStrip(ws, t)) == Ink(ws, t)
    ensures Ink(ws, Strip(ws, t)) == Ink(ws, t)
  {
    LStripKeepsInk(ws, t);
    RStripKeepsInk(ws, t);
    RStripKeepsInk(ws, LStrip(ws, t));
  }

  lemma LStripKeepsInk(ws: char -> bool, t: string)
    ensures Ink(ws, LStrip(ws, t)) == Ink(ws, t)
  {
    InkAfterSpaces(ws, t, LeadingFrom(ws, t, 0));
  }

  lemma InkAfterSpaces(ws: char -> bool, t: string, n: nat)
    requires n <= |t| && forall i :: 0 <= i < n ==> ws(t[i])
    ensures Ink(ws, t[n..]) == Ink(ws, t)
  {
    assert t == t[..n] + t[n..];
    InkConcat(ws, t[..n], t[n..]);
    InkOfSpaces(ws, t[..n]);
  }

  lemma RStripKeepsInk(ws: char -> bool, t: string)
    ensures Ink(ws, RStrip(ws, t)) == Ink(ws, t)
  {
    var r := RStrip(ws, t);
    assert t == r + t[|r|..];
    InkConcat(ws, r, t[|r|..]);
    InkOfSpaces(ws, t[|r|..]);
  }
}
