/** Which blocks a Markdown document has: one for every maximal run of text lines with ink, holding the
    text of exactly those lines, and one for every heading with a title. */
module MarkdownBlocks {
  import opened Common
  import opened PyText
  import opened HeadingStack
  import opened Materialize
  import opened Markdown

  // ---- runs of text lines ----

  /** Where the run of text lines that ends before line `n` begins. */
  function RunStart(lines: seq<Line>, n: nat): (a: nat)
    requires n <= |lines|
    ensures a <= n
  {
    if n == 0 || !IsText(lines, n - 1) then n else RunStart(lines, n - 1)
  }

  lemma {:induction false} RunIsText(lines: seq<Line>, n: nat)
    requires n <= |lines|
    ensures AllText(lines, RunStart(lines, n), n)
    ensures RunStart(lines, n) > 0 ==> !IsText(lines, RunStart(lines, n) - 1)
    decreases n
  {
    if n > 0 && IsText(lines, n - 1) { RunIsText(lines, n - 1); }
  }

  /** The lines from `a` to `e` that have content, with their numbers. */
  function Items(lines: seq<Line>, a: nat, e: nat): seq<Pending>
    requires a <= e <= |lines|
    decreases e
  {
    if e == a then []
    else if Content(lines, e - 1) == "" then Items(lines, a, e - 1)
    else Items(lines, a, e - 1) + [Pending(e, Content(lines, e - 1))]
  }

  /** The block of a run, unless there is nothing in it. */
  function RunBlock(ws: char -> bool, lines: seq<Line>, a: nat, e: nat): seq<Block>
    requires GoodLines(lines) && a <= e <= |lines|
  {
    var items := Items(lines, a, e);
    if items == [] || Strip(ws, Joined(items)) == "" then []
    else
      [Block(Strip(ws, Joined(items)), None, Stack(Headings(lines, e)),
             Some(items[0].line), Some(items[|items| - 1].line))]
  }

  /** The block of a heading line, if it has a title. */
  function TitleBlock(lines: seq<Line>, i: nat): seq<Block>
    requires GoodLines(lines) && i < |lines|
  {
    if !IsHeading(lines, i) || lines[i].heading.value.title == "" then []
    else [Block(lines[i].heading.value.title, None, Filled(Stack(Headings(lines, i + 1))), Some(i + 1), Some(i + 1))]
  }

  /** The blocks that line `i` completes: a line that is not text completes the run before it, and a
      heading line its own block. */
  function Added(ws: char -> bool, lines: seq<Line>, i: nat): seq<Block>
    requires GoodLines(lines)
  {
    if i >= |lines| || IsText(lines, i) then []
    else RunBlock(ws, lines, RunStart(lines, i), i) + TitleBlock(lines, i)
  }

  function Gathered(parts: nat -> seq<Block>, n: nat): seq<Block> {
    if n == 0 then [] else Gathered(parts, n - 1) + parts(n - 1)
  }

  /** The blocks that are complete before line `n`. */
  function Complete(ws: char -> bool, lines: seq<Line>, n: nat): seq<Block>
    requires GoodLines(lines)
  {
    Gathered((i: nat) => Added(ws, lines, i), n)
  }

  /** All blocks of a document. */
  function DocumentBlocks(ws: char -> bool, lines: seq<Line>): seq<Block>
    requires GoodLines(lines)
  {
    Complete(ws, lines, |lines|) + RunBlock(ws, lines, RunStart(lines, |lines|), |lines|)
  }

  // ---- the loop computes them ----

  /** What the loop holds after `n` lines, besides the blocks. */
  function Held(lines: seq<Line>, n: nat, blocks: seq<Block>): Md
    requires GoodLines(lines) && n <= |lines|
  {
    Md(blocks, Items(lines, RunStart(lines, n), n), Stack(Headings(lines, n)), Fenced(lines, n))
  }

  lemma {:induction false} FlushedIsRunBlock(ws: char -> bool, lines: seq<Line>, n: nat, md: Md)
    requires GoodLines(lines) && n <= |lines| && md == Held(lines, n, md.blocks)
    ensures Flushed(ws, md) == md.(blocks := md.blocks + RunBlock(ws, lines, RunStart(lines, n), n), pending := [])
  {
  }

  lemma {:induction false} TextStep(ws: char -> bool, lines: seq<Line>, n: nat, md: Md)
    requires GoodLines(lines) && n < |lines| && md == Held(lines, n, md.blocks) && IsText(lines, n)
    ensures Stepped(ws, md, lines[n], n + 1) == Held(lines, n + 1, md.blocks)
  {
    assert RunStart(lines, n + 1) == RunStart(lines, n);
    assert Headings(lines, n + 1) == Headings(lines, n);
    assert Stepped(ws, md, lines[n], n + 1) == AddText(md, Content(lines, n), n + 1);
  }

  /** A line that is not text ends the run before it. */
  lemma {:induction false} RunEnds(lines: seq<Line>, n: nat)
    requires n < |lines| && !IsText(lines, n)
    ensures RunStart(lines, n + 1) == n + 1 && Items(lines, n + 1, n + 1) == []
  {
  }

  lemma {:induction false} SteppedAtBreak(ws: char -> bool, lines: seq<Line>, n: nat, md: Md)
    requires GoodLines(lines) && n < |lines| && md.inFence == Fenced(lines, n) && !IsText(lines, n)
    requires !(IsHeading(lines, n) && lines[n].heading.value.title != "")
    ensures Stepped(ws, md, lines[n], n + 1) == Flushed(ws, md).(inFence := Fenced(lines, n + 1))
    ensures TitleBlock(lines, n) == [] && Headings(lines, n + 1) == Headings(lines, n)
  {
  }

  lemma {:induction false} BreakStep(ws: char -> bool, lines: seq<Line>, n: nat, md: Md)
    requires GoodLines(lines) && n < |lines| && md == Held(lines, n, md.blocks) && !IsText(lines, n)
    requires !(IsHeading(lines, n) && lines[n].heading.value.title != "")
    ensures Stepped(ws, md, lines[n], n + 1)
         == Held(lines, n + 1, md.blocks + RunBlock(ws, lines, RunStart(lines, n), n))
    ensures TitleBlock(lines, n) == []
  {
    FlushedIsRunBlock(ws, lines, n, md);
    RunEnds(lines, n);
    SteppedAtBreak(ws, lines, n, md);
  }

  lemma {:induction false} SteppedAtHeading(ws: char -> bool, lines: seq<Line>, n: nat, md: Md)
    requires GoodLines(lines) && n < |lines|
    requires md.inFence == Fenced(lines, n) && md.headings == Stack(Headings(lines, n))
    requires IsHeading(lines, n) && lines[n].heading.value.title != ""
    ensures var f := Flushed(ws, md);
      Stepped(ws, md, lines[n], n + 1)
      == f.(headings := Stack(Headings(lines, n + 1)), blocks := f.blocks + TitleBlock(lines, n))
    ensures !IsText(lines, n) && Fenced(lines, n + 1) == Fenced(lines, n)
  {
    var h, hs, next := lines[n].heading.value, Headings(lines, n), Headings(lines, n + 1);
    assert next == hs + [h] && next[..|hs|] == hs;
    assert Stack(next) == Push(Stack(hs), h);
  }

  lemma {:induction false} HeadingStep(ws: char -> bool, lines: seq<Line>, n: nat, md: Md)
    requires GoodLines(lines) && n < |lines| && md == Held(lines, n, md.blocks)
    requires IsHeading(lines, n) && lines[n].heading.value.title != ""
    ensures Stepped(ws, md, lines[n], n + 1)
         == Held(lines, n + 1, md.blocks + RunBlock(ws, lines, RunStart(lines, n), n) + TitleBlock(lines, n))
  {
    FlushedIsRunBlock(ws, lines, n, md);
    SteppedAtHeading(ws, lines, n, md);
    RunEnds(lines, n);
  }

  lemma Regroup(a: seq<Block>, b: seq<Block>, c: seq<Block>)
    ensures a + b + c == a + (b + c)
  {
  }

  /** A line adds the blocks that it completes. */
  lemma {:induction false} LineStep(ws: char -> bool, lines: seq<Line>, n: nat, md: Md)
    requires GoodLines(lines) && n < |lines| && md == Held(lines, n, md.blocks)
    ensures Stepped(ws, md, lines[n], n + 1) == Held(lines, n + 1, md.blocks + Added(ws, lines, n))
  {
    if IsText(lines, n) {
      TextStep(ws, lines, n, md);
    } else {
      Regroup(md.blocks, RunBlock(ws, lines, RunStart(lines, n), n), TitleBlock(lines, n));
      if IsHeading(lines, n) && lines[n].heading.value.title != "" {
        HeadingStep(ws, lines, n, md);
      } else {
        BreakStep(ws, lines, n, md);
      }
    }
  }

  lemma {:induction false} PendingIsHeld(ws: char -> bool, lines: seq<Line>, n: nat)
    requires GoodLines(lines) && n <= |lines|
    ensures After(ws, lines, n) == Held(lines, n, After(ws, lines, n).blocks)
    decreases n
  {
    if n > 0 {
      PendingIsHeld(ws, lines, n - 1);
      LineStep(ws, lines, n - 1, After(ws, lines, n - 1));
    }
  }

  lemma {:induction false} LineAdds(ws: char -> bool, lines: seq<Line>, n: nat)
    requires GoodLines(lines) && n < |lines|
    ensures After(ws, lines, n + 1).blocks == After(ws, lines, n).blocks + Added(ws, lines, n)
  {
    PendingIsHeld(ws, lines, n);
    LineStep(ws, lines, n, After(ws, lines, n));
  }

  lemma {:induction false} GatherUp(f: nat -> seq<Block>, parts: nat -> seq<Block>, n: nat)
    requires f(0) == [] && forall k: nat :: k < n ==> f(k + 1) == f(k) + parts(k)
    ensures f(n) == Gathered(parts, n)
  {
    if n > 0 {
      GatherUp(f, parts, n - 1);
      var k: nat := n - 1;
      assert f(k + 1) == f(k) + parts(k);
    }
  }

  lemma {:induction false} BlocksAreGathered(
      ws: char -> bool, lines: seq<Line>, f: nat -> seq<Block>, parts: nat -> seq<Block>)
    requires GoodLines(lines) && f(0) == []
    requires forall k: nat :: k <= |lines| ==> f(k) == After(ws, lines, k).blocks
    requires forall k: nat :: k < |lines| ==> parts(k) == Added(ws, lines, k)
    ensures f(|lines|) == Gathered(parts, |lines|)
  {
    forall k: nat | k < |lines| ensures f(k + 1) == f(k) + parts(k) { LineAdds(ws, lines, k); }
    GatherUp(f, parts, |lines|);
  }

  lemma {:induction false} BlocksAreComplete(ws: char -> bool, lines: seq<Line>)
    requires GoodLines(lines)
    ensures After(ws, lines, |lines|).blocks == Complete(ws, lines, |lines|)
  {
    var f := (n: nat) => if n <= |lines| then After(ws, lines, n).blocks else [];
    BlocksAreGathered(ws, lines, f, (i: nat) => Added(ws, lines, i));
    assert f(|lines|) == After(ws, lines, |lines|).blocks;
  }

  /** The blocks of `_normalize_markdown` are exactly the document's. */
  lemma {:induction false} BlocksAreTheDocuments(ws: char -> bool, lines: seq<Line>)
    requires GoodLines(lines)
    ensures Flushed(ws, After(ws, lines, |lines|)).blocks == DocumentBlocks(ws, lines)
  {
    PendingIsHeld(ws, lines, |lines|);
    BlocksAreComplete(ws, lines);
    FlushedIsRunBlock(ws, lines, |lines|, After(ws, lines, |lines|));
  }

  // ---- what that says of a block ----

  /** A run of text lines that no text line continues. */
  ghost predicate MaximalRun(lines: seq<Line>, a: nat, e: nat) {
    && a <= e <= |lines| && AllText(lines, a, e)
    && (a > 0 ==> !IsText(lines, a - 1)) && (e < |lines| ==> !IsText(lines, e))
  }

  /** The block holds the text of the run's lines, from the first with content to the last. */
  ghost predicate IsBlockOf(ws: char -> bool, lines: seq<Line>, a: nat, e: nat, b: Block)
    requires a <= e <= |lines|
  {
    var items := Items(lines, a, e);
    && items != [] && b.text == Strip(ws, Joined(items)) && b.text != ""
    && b.startLine == Some(items[0].line) && b.endLine == Some(items[|items| - 1].line)
  }

  /** The block of a heading with a title. */
  ghost predicate IsBlockOfTitle(lines: seq<Line>, i: nat, b: Block) {
    && i < |lines| && IsHeading(lines, i) && lines[i].heading.value.title != ""
    && b.text == lines[i].heading.value.title && b.startLine == Some(i + 1) && b.endLine == Some(i + 1)
  }

  ghost predicate ComesFromLines(ws: char -> bool, lines: seq<Line>, b: Block) {
    || (exists i :: IsBlockOfTitle(lines, i, b))
    || (exists a, e :: MaximalRun(lines, a, e) && IsBlockOf(ws, lines, a, e, b))
  }

  lemma {:induction false} RunBlockComesFrom(ws: char -> bool, lines: seq<Line>, e: nat, b: Block)
    requires GoodLines(lines) && e <= |lines| && (e < |lines| ==> !IsText(lines, e))
    requires RunBlock(ws, lines, RunStart(lines, e), e) == [b]
    ensures ComesFromLines(ws, lines, b)
  {
    var a := RunStart(lines, e);
    RunIsText(lines, e);
    assert MaximalRun(lines, a, e) && IsBlockOf(ws, lines, a, e, b);
  }

  lemma {:induction false} AddedComesFrom(ws: char -> bool, lines: seq<Line>, i: nat, b: Block)
    requires GoodLines(lines) && b in Added(ws, lines, i)
    ensures ComesFromLines(ws, lines, b)
  {
    if b in TitleBlock(lines, i) {
      assert IsBlockOfTitle(lines, i, b);
    } else {
      RunBlockComesFrom(ws, lines, i, b);
    }
  }

  lemma {:induction false} GatheredFrom(parts: nat -> seq<Block>, n: nat, b: Block) returns (i: nat)
    requires b in Gathered(parts, n)
    ensures i < n && b in parts(i)
  {
    if b in parts(n - 1) { i := n - 1; } else { i := GatheredFrom(parts, n - 1, b); }
  }

  lemma {:induction false} GatheredHas(parts: nat -> seq<Block>, n: nat, i: nat, b: Block)
    requires i < n && b in parts(i)
    ensures b in Gathered(parts, n)
  {
    if i < n - 1 { GatheredHas(parts, n - 1, i, b); }
  }

  /** Every block is a heading's, with the title as its text, or a maximal run's, with the stripped join
      of the contents of its lines. */
  lemma {:induction false} EveryBlockComesFromLines(ws: char -> bool, lines: seq<Line>, k: nat)
    requires GoodLines(lines) && k < |DocumentBlocks(ws, lines)|
    ensures ComesFromLines(ws, lines, DocumentBlocks(ws, lines)[k])
  {
    var n := |lines|;
    if k < |Complete(ws, lines, n)| {
      var b := Complete(ws, lines, n)[k];
      var i := GatheredFrom((i: nat) => Added(ws, lines, i), n, b);
      AddedComesFrom(ws, lines, i, b);
    } else {
      RunBlockComesFrom(ws, lines, n, RunBlock(ws, lines, RunStart(lines, n), n)[0]);
    }
  }

  // ---- and of the lines ----

  lemma {:induction false} AddedIsInDocument(ws: char -> bool, lines: seq<Line>, i: nat, b: Block)
    requires GoodLines(lines) && i < |lines| && b in Added(ws, lines, i)
    ensures b in DocumentBlocks(ws, lines)
  {
    GatheredHas((i: nat) => Added(ws, lines, i), |lines|, i, b);
    assert b in Complete(ws, lines, |lines|);
  }

  lemma {:induction false} RunBlockIsInDocument(ws: char -> bool, lines: seq<Line>, e: nat, b: Block)
    requires GoodLines(lines) && e <= |lines| && (e < |lines| ==> !IsText(lines, e))
    requires b in RunBlock(ws, lines, RunStart(lines, e), e)
    ensures b in DocumentBlocks(ws, lines)
  {
    if e < |lines| { AddedIsInDocument(ws, lines, e, b); }
  }

  /** The run that a text line belongs to. */
  lemma {:induction false} RunOf(lines: seq<Line>, i: nat, n: nat) returns (e: nat)
    requires i < n <= |lines| && AllText(lines, i, n)
    ensures n <= e <= |lines| && AllText(lines, i, e) && (e < |lines| ==> !IsText(lines, e))
    ensures RunStart(lines, e) <= i
    decreases |lines| - n
  {
    if n < |lines| && IsText(lines, n) {
      e := RunOf(lines, i, n + 1);
    } else {
      e := n;
      StartsBefore(lines, i, n);
    }
  }

  lemma {:induction false} StartsBefore(lines: seq<Line>, i: nat, n: nat)
    requires i <= n <= |lines| && AllText(lines, i, n)
    ensures RunStart(lines, n) <= i
    decreases n
  {
    if i < n {
      assert IsText(lines, n - 1);
      StartsBefore(lines, i, n - 1);
    }
  }

  /** Items are in the order of their lines. */
  lemma {:induction false} ItemsAreInOrder(lines: seq<Line>, a: nat, e: nat)
    requires a <= e <= |lines|
    ensures forall k :: 0 <= k < |Items(lines, a, e)| ==> a < Items(lines, a, e)[k].line <= e
    ensures forall j, k :: 0 <= j < k < |Items(lines, a, e)| ==> Items(lines, a, e)[j].line < Items(lines, a, e)[k].line
    decreases e
  {
    if a < e { ItemsAreInOrder(lines, a, e - 1); }
  }

  lemma {:induction false} ItemOf(lines: seq<Line>, a: nat, e: nat, i: nat) returns (k: nat)
    requires a <= i < e <= |lines| && Content(lines, i) != ""
    ensures k < |Items(lines, a, e)| && Items(lines, a, e)[k] == Pending(i + 1, Content(lines, i))
    decreases e
  {
    if i < e - 1 { k := ItemOf(lines, a, e - 1, i); } else { k := |Items(lines, a, e)| - 1; }
  }

  lemma {:induction false} InkOfItem(ws: char -> bool, items: seq<Pending>, k: nat)
    requires k < |items| && Ink(ws, items[k].text) != []
    ensures PendingInk(ws, items) != []
    decreases |items|
  {
    if k < |items| - 1 { InkOfItem(ws, items[..|items| - 1], k); }
  }

  /** Text with ink is left when lines with ink are joined and stripped. */
  lemma {:induction false} InkyItems(ws: char -> bool, items: seq<Pending>, k: nat)
    requires SeparatorsAreSpace(ws) && k < |items| && Ink(ws, items[k].text) != []
    ensures Strip(ws, Joined(items)) != ""
  {
    InkOfItem(ws, items, k);
    InkOfPendingBlock(ws, items);
    assert Strip(ws, Joined(items)) != "" by { InkOfSpaces(ws, ""); }
  }

  /** The items reach from the first line with content to the last. */
  lemma {:induction false} ItemsSpan(lines: seq<Line>, a: nat, e: nat, x: nat, items: seq<Pending>)
    requires a <= x < e <= |lines| && Content(lines, x) != "" && items == Items(lines, a, e)
    ensures items != [] && items[0].line <= x + 1 <= items[|items| - 1].line
  {
    var m := ItemOf(lines, a, e, x);
    ItemsAreInOrder(lines, a, e);
    assert m == 0 || items[0].line < items[m].line;
    assert m == |items| - 1 || items[m].line < items[|items| - 1].line;
  }

  lemma {:induction false} BlockSpans(ws: char -> bool, lines: seq<Line>, a: nat, e: nat, x: nat, b: Block)
    requires a <= x < e <= |lines| && Content(lines, x) != "" && IsBlockOf(ws, lines, a, e, b)
    ensures b.startLine.Some? && b.endLine.Some? && b.startLine.value <= x + 1 <= b.endLine.value
  {
    ItemsSpan(lines, a, e, x, Items(lines, a, e));
  }

  lemma {:induction false} BlockOfItems(ws: char -> bool, lines: seq<Line>, a: nat, e: nat) returns (b: Block)
    requires GoodLines(lines) && a <= e <= |lines| && Items(lines, a, e) != []
    requires Strip(ws, Joined(Items(lines, a, e))) != ""
    ensures RunBlock(ws, lines, a, e) == [b] && IsBlockOf(ws, lines, a, e, b)
  {
    b := RunBlock(ws, lines, a, e)[0];
  }

  /** A run with ink in one of its lines has a block that spans its lines with content. */
  lemma {:induction false} RunHasBlock(ws: char -> bool, lines: seq<Line>, a: nat, e: nat, i: nat) returns (b: Block)
    requires SeparatorsAreSpace(ws) && GoodLines(lines) && a <= i < e <= |lines| && Ink(ws, Content(lines, i)) != []
    ensures RunBlock(ws, lines, a, e) == [b] && IsBlockOf(ws, lines, a, e, b)
  {
    assert Content(lines, i) != "" by { InkOfSpaces(ws, ""); }
    var k := ItemOf(lines, a, e, i);
    InkyItems(ws, Items(lines, a, e), k);
    b := BlockOfItems(ws, lines, a, e);
  }

  /** No text with ink is lost, and no paragraph is cut: the text lines of a run that have content are
      all in one block of the document, if one of them has ink. */
  lemma {:induction false} RunIsOneBlock(ws: char -> bool, lines: seq<Line>, i: nat, j: nat) returns (b: Block)
    requires SeparatorsAreSpace(ws) && GoodLines(lines) && i <= j < |lines| && AllText(lines, i, j + 1)
    requires Ink(ws, Content(lines, i)) != [] && Content(lines, j) != ""
    ensures b in DocumentBlocks(ws, lines)
    ensures b.startLine.Some? && b.endLine.Some? && b.startLine.value <= i + 1 <= j + 1 <= b.endLine.value
  {
    var e := RunOf(lines, i, j + 1);
    var a := RunStart(lines, e);
    assert Content(lines, i) != "" by { InkOfSpaces(ws, ""); }
    b := RunHasBlock(ws, lines, a, e, i);
    BlockSpans(ws, lines, a, e, i, b);
    BlockSpans(ws, lines, a, e, j, b);
    RunBlockIsInDocument(ws, lines, e, b);
  }

  /** Every heading with a title has its block, with the title as its text. */
  lemma {:induction false} HeadingHasBlock(ws: char -> bool, lines: seq<Line>, i: nat)
    requires GoodLines(lines) && i < |lines| && IsHeading(lines, i) && lines[i].heading.value.title != ""
    ensures exists b :: b in DocumentBlocks(ws, lines) && IsBlockOfTitle(lines, i, b)
  {
    var b := TitleBlock(lines, i)[0];
    assert b in Added(ws, lines, i);
    AddedIsInDocument(ws, lines, i, b);
    assert b in DocumentBlocks(ws, lines) && IsBlockOfTitle(lines, i, b);
  }
}
