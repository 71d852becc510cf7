/** `_materialize_group`: one text for the segments of a group, and where each of them lies. */
module GroupText {
  import opened PyText
  import opened TokenSpans
  import opened Segments

  const SEPARATOR: string := "\n\n"

  /** The text of the first `n` segments. */
  function Text(g: seq<Segment>, n: nat): string
    requires n <= |g|
    decreases n, 0
  {
    if n == 0 then "" else Lead(g, n - 1) + g[n - 1].text
  }

  /** What comes before segment `i`: the text so far, and a separator. */
  function Lead(g: seq<Segment>, i: nat): string
    requires i <= |g|
    decreases i, 1
  {
    Text(g, i) + if i == 0 then "" else SEPARATOR
  }

  function SpanOf(g: seq<Segment>, i: nat): Span
    requires i < |g|
  {
    Span(|Lead(g, i)|, |Text(g, i + 1)|)
  }

  function Spans(g: seq<Segment>, n: nat): (r: seq<Span>)
    requires n <= |g|
    ensures |r| == n && forall i :: 0 <= i < n ==> r[i] == SpanOf(g, i)
  {
    seq(n, i requires 0 <= i < n => SpanOf(g, i))
  }

  method MaterializeGroup(g: seq<Segment>) returns (text: string, spans: seq<Span>)
    ensures text == Text(g, |g|) && spans == Spans(g, |g|)
  {
    text, spans := "", [];
    var cursor := 0;
    for i := 0 to |g|
      invariant text == Text(g, i) && cursor == |text| && spans == Spans(g, i)
    {
      if i > 0 {
        text := text + SEPARATOR;
        cursor := cursor + |SEPARATOR|;
      }
      assert text == Lead(g, i);
      var start := cursor;
      text := text + g[i].text;
      cursor := cursor + |g[i].text|;
      spans := spans + [Span(start, cursor)];
    }
  }

  // ---- spans ----

  /** The text of a shorter group is a prefix. */
  lemma {:induction false} TextPrefix(g: seq<Segment>, i: nat, n: nat)
    requires i <= n <= |g|
    ensures |Text(g, i)| <= |Text(g, n)| && Text(g, n)[..|Text(g, i)|] == Text(g, i)
    decreases n
  {
    if i < n {
      TextPrefix(g, i, n - 1);
      assert Text(g, n)[..|Text(g, n - 1)|] == Text(g, n - 1);
    }
  }

  /** A segment's span cuts its own text out of the group's. */
  lemma SpanHoldsSegment(g: seq<Segment>, i: nat)
    requires i < |g|
    ensures SpanOf(g, i).start <= SpanOf(g, i).end <= |Text(g, |g|)|
    ensures Text(g, |g|)[SpanOf(g, i).start..SpanOf(g, i).end] == g[i].text
  {
    var whole, part := Text(g, |g|), Text(g, i + 1);
    TextPrefix(g, i + 1, |g|);
    assert part == Lead(g, i) + g[i].text;
    assert whole[SpanOf(g, i).start..SpanOf(g, i).end] == part[SpanOf(g, i).start..];
  }

  /** Spans are apart, in the order of the segments. */
  lemma SpansAscend(g: seq<Segment>, i: nat, j: nat)
    requires i < j < |g|
    ensures SpanOf(g, i).end + 2 <= SpanOf(g, j).start
  {
    TextPrefix(g, i + 1, j);
  }

  // ---- tokens ----

  /** The segments' own tokens, moved to where the segments lie. */
  function SegmentTokens(tokens: string -> seq<Span>, g: seq<Segment>, n: nat): seq<Span>
    requires n <= |g|
  {
    if n == 0 then []
    else SegmentTokens(tokens, g, n - 1) + Shift(tokens(g[n - 1].text), SpanOf(g, n - 1).start)
  }

  lemma TokensBeforeSpaces(ws: char -> bool, a: string, b: string)
    requires b != [] && forall i :: 0 <= i < |b| ==> ws(b[i])
    ensures Tokens(ws, a + b) == Tokens(ws, a)
  {
    assert (a + b)[|a|] == b[0];
    CutTokens(ws, a + b, |a|);
    assert (a + b)[..|a|] == a && (a + b)[|a|..] == b;
    SpacesHaveNoTokens(ws, b, |b|);
  }

  lemma LeadTokens(ws: char -> bool, g: seq<Segment>, i: nat)
    requires SeparatorsAreSpace(ws) && i < |g|
    ensures Tokens(ws, Lead(g, i)) == Tokens(ws, Text(g, i))
    ensures i > 0 ==> |Lead(g, i)| > 0 && ws(Lead(g, i)[|Lead(g, i)| - 1])
  {
    if i > 0 { TokensBeforeSpaces(ws, Text(g, i), SEPARATOR); }
  }

  lemma JoinTokens(ws: char -> bool, a: string, b: string)
    requires a == [] || ws(a[|a| - 1])
    ensures Tokens(ws, a + b) == Tokens(ws, a) + Shift(Tokens(ws, b), |a|)
  {
    assert (a + b)[..|a|] == a && (a + b)[|a|..] == b;
    CutTokens(ws, a + b, |a|);
  }

  lemma TextTokens(ws: char -> bool, g: seq<Segment>, i: nat)
    requires SeparatorsAreSpace(ws) && i < |g|
    ensures Tokens(ws, Text(g, i + 1)) == Tokens(ws, Text(g, i)) + Shift(Tokens(ws, g[i].text), SpanOf(g, i).start)
  {
    LeadTokens(ws, g, i);
    var lead := Lead(g, i);
    JoinTokens(ws, lead, g[i].text);
    assert Text(g, i + 1) == lead + g[i].text;
  }

  lemma {:induction false} AddUp(tokens: string -> seq<Span>, g: seq<Segment>, n: nat)
    requires n <= |g| && tokens(Text(g, 0)) == []
    requires forall i: nat :: i < |g| ==>
      tokens(Text(g, i + 1)) == tokens(Text(g, i)) + Shift(tokens(g[i].text), SpanOf(g, i).start)
    ensures tokens(Text(g, n)) == SegmentTokens(tokens, g, n)
  {
    if n > 0 { AddUp(tokens, g, n - 1); }
  }

  /** The group's text tokenises to the tokens of its segments, one segment after another. */
  lemma GroupTokens(ws: char -> bool, g: seq<Segment>)
    requires SeparatorsAreSpace(ws)
    ensures Tokens(ws, Text(g, |g|)) == SegmentTokens(t => Tokens(ws, t), g, |g|)
  {
    var tokens := t => Tokens(ws, t);
    forall i: nat | i < |g|
      ensures tokens(Text(g, i + 1)) == tokens(Text(g, i)) + Shift(tokens(g[i].text), SpanOf(g, i).start)
    {
      TextTokens(ws, g, i);
    }
    AddUp(tokens, g, |g|);
  }
}
