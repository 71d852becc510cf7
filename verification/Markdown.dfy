/** `_normalize_markdown` over classified lines: what a heading pattern, an inline cleaner and
    `strip` make of each line are inputs. */
module Markdown {
  import opened Common
  import opened PyText
  import opened HeadingStack
  import opened Materialize

  /** A line: stripped, the heading it would be outside a fence, and its cleaned text. */
  datatype Line = Line(stripped: string, heading: Option<Heading>, cleaned: string)

  predicate GoodLine(l: Line) {
    l.heading.Some? ==> 1 <= l.heading.value.level <= 6
  }

  predicate GoodLines(lines: seq<Line>) {
    forall i :: 0 <= i < |lines| ==> GoodLine(lines[i])
  }

  predicate IsFence(l: Line) {
    "```" <= l.stripped || "~~~" <= l.stripped
  }

  // ---- what the lines mean ----

  /** The first `n` lines leave a fence open. */
  function Fenced(lines: seq<Line>, n: nat): bool
    requires n <= |lines|
  {
    n > 0 && Fenced(lines, n - 1) != IsFence(lines[n - 1])
  }

  /** Line `i` is read as a heading. */
  predicate IsHeading(lines: seq<Line>, i: nat)
    requires i < |lines|
  {
    !IsFence(lines[i]) && !Fenced(lines, i) && lines[i].heading.Some?
  }

  /** The headings with a title among the first `n` lines. */
  function Headings(lines: seq<Line>, n: nat): (hs: seq<Heading>)
    requires GoodLines(lines) && n <= |lines|
    ensures GoodHeadings(hs)
  {
    if n == 0 then []
    else if IsHeading(lines, n - 1) && lines[n - 1].heading.value.title != "" then
      Headings(lines, n - 1) + [lines[n - 1].heading.value]
    else Headings(lines, n - 1)
  }

  /** The sections open at the end of line `n`. */
  ghost function Sections(lines: seq<Line>, n: nat): seq<string>
    requires GoodLines(lines) && n <= |lines|
  {
    Titles(Open(Headings(lines, n), |Headings(lines, n)|))
  }

  /** The text line `i` contributes. */
  function Content(lines: seq<Line>, i: nat): string
    requires i < |lines|
  {
    var l := lines[i];
    if IsFence(l) then ""
    else if IsHeading(lines, i) then l.heading.value.title
    else if l.stripped == "" then ""
    else if Fenced(lines, i) then l.stripped
    else l.cleaned
  }

  function LinesInk(ws: char -> bool, lines: seq<Line>, n: nat): string
    requires n <= |lines|
  {
    if n == 0 then [] else LinesInk(ws, lines, n - 1) + Ink(ws, Content(lines, n - 1))
  }

  // ---- the loop ----

  datatype Pending = Pending(line: nat, text: string)

  function Joined(pending: seq<Pending>): string
    requires pending != []
  {
    if |pending| == 1 then pending[0].text
    else Joined(pending[..|pending| - 1]) + "\n" + pending[|pending| - 1].text
  }

  function PendingInk(ws: char -> bool, pending: seq<Pending>): string {
    if pending == [] then []
    else PendingInk(ws, pending[..|pending| - 1]) + Ink(ws, pending[|pending| - 1].text)
  }

  lemma {:induction false} InkOfJoined(ws: char -> bool, pending: seq<Pending>)
    requires SeparatorsAreSpace(ws) && pending != []
    ensures Ink(ws, Joined(pending)) == PendingInk(ws, pending)
    decreases |pending|
  {
    var n := |pending| - 1;
    var last := pending[n].text;
    if n == 0 {
      assert PendingInk(ws, pending[..0]) == [];
    } else {
      InkOfJoined(ws, pending[..n]);
      InkOfLines(ws, Joined(pending[..n]), last);
    }
  }

  lemma {:induction false} InkOfLines(ws: char -> bool, a: string, b: string)
    requires SeparatorsAreSpace(ws)
    ensures Ink(ws, a + "\n" + b) == Ink(ws, a) + Ink(ws, b)
  {
    InkConcat(ws, a + "\n", b);
    InkConcat(ws, a, "\n");
    InkOfSpaces(ws, "\n");
  }

  function PendingBlock(ws: char -> bool, pending: seq<Pending>, headings: seq<string>): Block
    requires pending != []
  {
    Block(Strip(ws, Joined(pending)), None, headings, Some(pending[0].line), Some(pending[|pending| - 1].line))
  }

  // ---- what the blocks are ----

  /** Line `i` is text: no fence, no heading and not blank. */
  predicate IsText(lines: seq<Line>, i: nat)
    requires i < |lines|
  {
    !IsFence(lines[i]) && !IsHeading(lines, i) && lines[i].stripped != ""
  }

  ghost predicate AllText(lines: seq<Line>, lo: nat, hi: nat)
    requires hi <= |lines|
  {
    forall i: nat :: lo <= i < hi ==> IsText(lines, i)
  }

  /** A heading's block has the path of the open sections. A content block has the heading stack,
      which shows them up to placeholders, and spans nothing but text lines. */
  ghost predicate PlacedBlock(lines: seq<Line>, b: Block)
    requires GoodLines(lines)
  {
    && b.startLine.Some? && b.endLine.Some? && 1 <= b.startLine.value <= b.endLine.value <= |lines|
    && Filled(b.headingPath) == Sections(lines, b.startLine.value)
    && if IsHeading(lines, b.startLine.value - 1) then
        b.startLine == b.endLine && b.headingPath == Sections(lines, b.startLine.value)
       else
        && AllText(lines, b.startLine.value - 1, b.endLine.value)
        && b.headingPath == Stack(Headings(lines, b.startLine.value))
  }

  /** In order, and on lines of their own, all before line `n`. */
  ghost predicate PlacedBlocks(lines: seq<Line>, blocks: seq<Block>, n: nat)
    requires GoodLines(lines)
  {
    && (forall k :: 0 <= k < |blocks| ==> PlacedBlock(lines, blocks[k]) && blocks[k].endLine.value <= n)
    && (forall j, k :: 0 <= j < k < |blocks| ==> blocks[j].endLine.value < blocks[k].startLine.value)
  }

  /** Pending lines come after the blocks, and no heading has come since. */
  ghost predicate PlacedPending(lines: seq<Line>, blocks: seq<Block>, pending: seq<Pending>, n: nat)
    requires GoodLines(lines) && n <= |lines|
  {
    pending != [] ==>
      var first, last := pending[0].line, pending[|pending| - 1].line;
      && 1 <= first <= last <= n && PlacedBlocks(lines, blocks, first - 1)
      && Headings(lines, first) == Headings(lines, n) && AllText(lines, first - 1, n)
  }

  datatype Md = Md(blocks: seq<Block>, pending: seq<Pending>, headings: seq<string>, inFence: bool)

  ghost predicate Shape(lines: seq<Line>, n: nat, md: Md)
    requires GoodLines(lines) && n <= |lines|
  {
    && md.inFence == Fenced(lines, n) && md.headings == Stack(Headings(lines, n))
    && PlacedBlocks(lines, md.blocks, n) && PlacedPending(lines, md.blocks, md.pending, n)
  }

  lemma AddBlock(lines: seq<Line>, blocks: seq<Block>, b: Block, n: nat)
    requires GoodLines(lines) && PlacedBlock(lines, b) && b.endLine.value <= n
    requires PlacedBlocks(lines, blocks, b.startLine.value - 1)
    ensures PlacedBlocks(lines, blocks + [b], n)
  {
  }

  lemma StackShowsSections(lines: seq<Line>, n: nat)
    requires GoodLines(lines) && n <= |lines|
    ensures Filled(Stack(Headings(lines, n))) == Sections(lines, n)
  {
    StackIsOpenHeadings(Headings(lines, n));
  }

  lemma BlockIsPlaced(lines: seq<Line>, b: Block, n: nat)
    requires GoodLines(lines) && n <= |lines| && b.startLine.Some? && b.endLine.Some?
    requires 1 <= b.startLine.value <= b.endLine.value <= n && AllText(lines, b.startLine.value - 1, n)
    requires Headings(lines, b.startLine.value) == Headings(lines, n) && b.headingPath == Stack(Headings(lines, n))
    ensures PlacedBlock(lines, b)
  {
    assert IsText(lines, b.startLine.value - 1);
    StackShowsSections(lines, b.startLine.value);
  }

  function Flushed(ws: char -> bool, md: Md): Md {
    if md.pending == [] then md
    else if Strip(ws, Joined(md.pending)) == "" then md.(pending := [])
    else md.(blocks := md.blocks + [PendingBlock(ws, md.pending, md.headings)], pending := [])
  }

  lemma FlushKeepsShape(ws: char -> bool, lines: seq<Line>, n: nat, md: Md)
    requires GoodLines(lines) && n <= |lines| && Shape(lines, n, md)
    ensures Shape(lines, n, Flushed(ws, md)) && Flushed(ws, md).pending == []
  {
    if md.pending != [] {
      var b := PendingBlock(ws, md.pending, md.headings);
      BlockIsPlaced(lines, b, n);
      AddBlock(lines, md.blocks, b, n);
    }
  }

  lemma {:induction false} BlockInkAppend(ws: char -> bool, blocks: seq<Block>, b: Block)
    ensures BlockInk(ws, blocks + [b], |blocks| + 1) == BlockInk(ws, blocks, |blocks|) + Ink(ws, b.text)
  {
    BlockInkPrefix(ws, blocks, b, |blocks|);
  }

  lemma {:induction false} BlockInkPrefix(ws: char -> bool, blocks: seq<Block>, b: Block, n: nat)
    requires n <= |blocks|
    ensures BlockInk(ws, blocks + [b], n) == BlockInk(ws, blocks, n)
    decreases n
  {
    if n > 0 { BlockInkPrefix(ws, blocks, b, n - 1); }
  }

  lemma {:induction false} InkOfPendingBlock(ws: char -> bool, pending: seq<Pending>)
    requires SeparatorsAreSpace(ws) && pending != []
    ensures Ink(ws, Strip(ws, Joined(pending))) == PendingInk(ws, pending)
  {
    InkOfJoined(ws, pending);
    StripKeepsInk(ws, Joined(pending));
  }

  lemma {:induction false} FlushKeepsInk(ws: char -> bool, md: Md)
    requires SeparatorsAreSpace(ws)
    ensures var f := Flushed(ws, md);
      && f.pending == []
      && BlockInk(ws, f.blocks, |f.blocks|) == BlockInk(ws, md.blocks, |md.blocks|) + PendingInk(ws, md.pending)
  {
    if md.pending != [] {
      InkOfPendingBlock(ws, md.pending);
      InkOfFlushed(ws, md.blocks, PendingBlock(ws, md.pending, md.headings));
    }
  }

  lemma {:induction false} InkOfFlushed(ws: char -> bool, blocks: seq<Block>, b: Block)
    ensures var r := if b.text == "" then blocks else blocks + [b];
      BlockInk(ws, r, |r|) == BlockInk(ws, blocks, |blocks|) + Ink(ws, b.text)
  {
    if b.text != "" { BlockInkAppend(ws, blocks, b); }
  }

  // ---- one line ----

  function HeadingBlock(headings: seq<string>, title: string, line: nat): Block {
    Block(title, None, Filled(headings), Some(line), Some(line))
  }

  function AddHeading(md: Md, h: Heading, line: nat): Md
    requires h.level >= 1
  {
    if h.title == "" then md
    else
      var headings := Push(md.headings, h);
      md.(headings := headings, blocks := md.blocks + [HeadingBlock(headings, h.title, line)])
  }

  function AddText(md: Md, text: string, line: nat): Md {
    if text == "" then md else md.(pending := md.pending + [Pending(line, text)])
  }

  /** What line number `line` does. */
  function Stepped(ws: char -> bool, md: Md, l: Line, line: nat): Md
    requires GoodLine(l)
  {
    if IsFence(l) then Flushed(ws, md).(inFence := !md.inFence)
    else if !md.inFence && l.heading.Some? then AddHeading(Flushed(ws, md), l.heading.value, line)
    else if l.stripped == "" then Flushed(ws, md)
    else AddText(md, if md.inFence then l.stripped else l.cleaned, line)
  }

  lemma StaySame(lines: seq<Line>, n: nat, md: Md, next: Md)
    requires GoodLines(lines) && n < |lines| && Shape(lines, n, md) && md.pending == []
    requires Headings(lines, n + 1) == Headings(lines, n)
    requires next == md.(inFence := Fenced(lines, n + 1))
    ensures Shape(lines, n + 1, next)
  {
  }

  lemma HeadingKeepsShape(lines: seq<Line>, n: nat, md: Md)
    requires GoodLines(lines) && n < |lines| && Shape(lines, n, md) && md.pending == []
    requires IsHeading(lines, n) && lines[n].heading.value.title != ""
    ensures Shape(lines, n + 1, AddHeading(md, lines[n].heading.value, n + 1))
  {
    var h := lines[n].heading.value;
    var hs, next := Headings(lines, n), Headings(lines, n + 1);
    assert next == hs + [h] && next[..|hs|] == hs;
    var headings := Push(md.headings, h);
    assert headings == Stack(next);
    var b := HeadingBlock(headings, h.title, n + 1);
    StackShowsSections(lines, n + 1);
    FilledTwice(headings);
    AddBlock(lines, md.blocks, b, n + 1);
  }

  /** Nothing is left to filter out. */
  lemma {:induction false} FilledTwice(path: seq<string>)
    ensures Filled(Filled(path)) == Filled(path)
    decreases |path|
  {
    if path != [] {
      var n := |path| - 1;
      FilledTwice(path[..n]);
      if path[n] != "" { FilledAppend(Filled(path[..n]), path[n]); }
    }
  }

  lemma FilledAppend(path: seq<string>, title: string)
    requires title != ""
    ensures Filled(path + [title]) == Filled(path) + [title]
  {
    assert (path + [title])[..|path|] == path;
  }

  lemma TextKeepsShape(lines: seq<Line>, n: nat, md: Md, text: string)
    requires GoodLines(lines) && n < |lines| && Shape(lines, n, md) && IsText(lines, n)
    ensures Shape(lines, n + 1, AddText(md, text, n + 1))
  {
    assert Headings(lines, n + 1) == Headings(lines, n) && Fenced(lines, n + 1) == Fenced(lines, n);
    PendingStays(lines, n, md.blocks, md.pending);
    if text != "" { PendingGrows(lines, n, md.blocks, md.pending, Pending(n + 1, text)); }
  }

  lemma PendingStays(lines: seq<Line>, n: nat, blocks: seq<Block>, pending: seq<Pending>)
    requires GoodLines(lines) && n < |lines| && IsText(lines, n) && PlacedPending(lines, blocks, pending, n)
    requires Headings(lines, n + 1) == Headings(lines, n)
    ensures PlacedPending(lines, blocks, pending, n + 1)
  {
  }

  lemma PendingGrows(lines: seq<Line>, n: nat, blocks: seq<Block>, pending: seq<Pending>, p: Pending)
    requires GoodLines(lines) && n < |lines| && IsText(lines, n) && PlacedPending(lines, blocks, pending, n + 1)
    requires PlacedBlocks(lines, blocks, n) && p.line == n + 1
    ensures PlacedPending(lines, blocks, pending + [p], n + 1)
  {
    if pending != [] { assert (pending + [p])[0] == pending[0]; }
  }

  lemma StepKeepsShape(ws: char -> bool, lines: seq<Line>, n: nat, md: Md)
    requires GoodLines(lines) && n < |lines| && Shape(lines, n, md)
    ensures Shape(lines, n + 1, Stepped(ws, md, lines[n], n + 1))
  {
    var l, f := lines[n], Flushed(ws, md);
    FlushKeepsShape(ws, lines, n, md);
    if IsHeading(lines, n) && l.heading.value.title != "" {
      HeadingKeepsShape(lines, n, f);
    } else if IsFence(l) || IsHeading(lines, n) || l.stripped == "" {
      StaySame(lines, n, f, f.(inFence := Fenced(lines, n + 1)));
    } else {
      TextKeepsShape(lines, n, md, if md.inFence then l.stripped else l.cleaned);
    }
  }

  lemma {:induction false} PendingInkAppend(ws: char -> bool, pending: seq<Pending>, p: Pending)
    ensures PendingInk(ws, pending + [p]) == PendingInk(ws, pending) + Ink(ws, p.text)
  {
    assert (pending + [p])[..|pending|] == pending;
  }

  /** The ink of blocks and pending lines together. */
  function TotalInk(ws: char -> bool, md: Md): string {
    BlockInk(ws, md.blocks, |md.blocks|) + PendingInk(ws, md.pending)
  }

  lemma {:induction false} FlushTotal(ws: char -> bool, md: Md)
    requires SeparatorsAreSpace(ws)
    ensures TotalInk(ws, Flushed(ws, md)) == TotalInk(ws, md)
  {
    FlushKeepsInk(ws, md);
  }

  lemma {:induction false} TextTotal(ws: char -> bool, md: Md, text: string, line: nat)
    ensures TotalInk(ws, AddText(md, text, line)) == TotalInk(ws, md) + Ink(ws, text)
  {
    if text != "" { PendingInkAppend(ws, md.pending, Pending(line, text)); }
  }

  lemma {:induction false} HeadingTotal(ws: char -> bool, md: Md, h: Heading, line: nat)
    requires h.level >= 1 && md.pending == []
    ensures TotalInk(ws, AddHeading(md, h, line)) == TotalInk(ws, md) + Ink(ws, h.title)
  {
    BlockInkAppend(ws, md.blocks, HeadingBlock(Push(md.headings, h), h.title, line));
  }

  /** The text of a line that is neither fence nor heading. */
  function PlainText(l: Line, inFence: bool): string {
    if l.stripped == "" then "" else if inFence then l.stripped else l.cleaned
  }

  lemma {:induction false} FenceTotal(ws: char -> bool, md: Md, inFence: bool)
    requires SeparatorsAreSpace(ws)
    ensures TotalInk(ws, Flushed(ws, md).(inFence := inFence)) == TotalInk(ws, md) + Ink(ws, "")
  {
    FlushTotal(ws, md);
  }

  lemma {:induction false} PlainTotal(ws: char -> bool, md: Md, l: Line, line: nat)
    requires SeparatorsAreSpace(ws)
    ensures TotalInk(ws, if l.stripped == "" then Flushed(ws, md) else AddText(md, PlainText(l, md.inFence), line))
         == TotalInk(ws, md) + Ink(ws, PlainText(l, md.inFence))
  {
    if l.stripped == "" { FlushTotal(ws, md); } else { TextTotal(ws, md, PlainText(l, md.inFence), line); }
  }

  lemma {:induction false} TitleTotal(ws: char -> bool, md: Md, h: Heading, line: nat)
    requires SeparatorsAreSpace(ws) && h.level >= 1
    ensures TotalInk(ws, AddHeading(Flushed(ws, md), h, line)) == TotalInk(ws, md) + Ink(ws, h.title)
  {
    FlushKeepsInk(ws, md);
    FlushTotal(ws, md);
    HeadingTotal(ws, Flushed(ws, md), h, line);
  }

  /** A line adds the ink of its content, and nothing else. */
  lemma {:induction false} StepKeepsInk(ws: char -> bool, lines: seq<Line>, n: nat, md: Md)
    requires SeparatorsAreSpace(ws) && GoodLines(lines) && n < |lines| && md.inFence == Fenced(lines, n)
    ensures TotalInk(ws, Stepped(ws, md, lines[n], n + 1)) == TotalInk(ws, md) + Ink(ws, Content(lines, n))
  {
    var l := lines[n];
    if IsFence(l) {
      FenceTotal(ws, md, !md.inFence);
    } else if IsHeading(lines, n) {
      TitleTotal(ws, md, l.heading.value, n + 1);
    } else {
      PlainTotal(ws, md, l, n + 1);
    }
  }

  ghost predicate Loop(ws: char -> bool, lines: seq<Line>, n: nat, md: Md)
    requires GoodLines(lines) && n <= |lines|
  {
    Shape(lines, n, md) && TotalInk(ws, md) == LinesInk(ws, lines, n)
  }

  lemma {:induction false} LoopStep(ws: char -> bool, lines: seq<Line>, n: nat, md: Md)
    requires SeparatorsAreSpace(ws) && GoodLines(lines) && n < |lines| && Loop(ws, lines, n, md)
    ensures Loop(ws, lines, n + 1, Stepped(ws, md, lines[n], n + 1))
  {
    StepKeepsShape(ws, lines, n, md);
    StepKeepsInk(ws, lines, n, md);
  }

  /** The state after the first `n` lines. */
  function After(ws: char -> bool, lines: seq<Line>, n: nat): Md
    requires GoodLines(lines) && n <= |lines|
  {
    if n == 0 then Md([], [], [], false) else Stepped(ws, After(ws, lines, n - 1), lines[n - 1], n)
  }

  lemma {:induction false} LoopHolds(ws: char -> bool, lines: seq<Line>, n: nat)
    requires SeparatorsAreSpace(ws) && GoodLines(lines) && n <= |lines|
    ensures Loop(ws, lines, n, After(ws, lines, n))
    decreases n
  {
    if n > 0 {
      LoopHolds(ws, lines, n - 1);
      LoopStep(ws, lines, n - 1, After(ws, lines, n - 1));
    }
  }

  lemma {:induction false} LoopEnd(ws: char -> bool, lines: seq<Line>, md: Md)
    requires SeparatorsAreSpace(ws) && GoodLines(lines) && Loop(ws, lines, |lines|, md)
    ensures var f := Flushed(ws, md);
      PlacedBlocks(lines, f.blocks, |lines|) && BlockInk(ws, f.blocks, |f.blocks|) == LinesInk(ws, lines, |lines|)
  {
    FlushKeepsShape(ws, lines, |lines|, md);
    FlushKeepsInk(ws, md);
  }

  // ---- the loop ----

  /** `flush_pending`. */
  method FlushPending(ws: char -> bool, md: Md) returns (r: Md)
    ensures r == Flushed(ws, md)
  {
    r := md;
    if r.pending == [] {
      return;
    }
    var text := Strip(ws, Joined(r.pending));
    if text != "" {
      var first, last := r.pending[0].line, r.pending[|r.pending| - 1].line;
      r := r.(blocks := r.blocks + [Block(text, None, r.headings, Some(first), Some(last))]);
    }
    r := r.(pending := []);
  }

  method HandleLine(ws: char -> bool, md: Md, l: Line, line: nat) returns (r: Md)
    requires GoodLine(l)
    ensures r == Stepped(ws, md, l, line)
  {
    r := md;
    if IsFence(l) {
      r := FlushPending(ws, r);
      r := r.(inFence := !r.inFence);
      return;
    }
    if !r.inFence && l.heading.Some? {
      r := FlushPending(ws, r);
      var h := l.heading.value;
      if h.title != "" {
        var headings := PushHeading(r.headings, h);
        r := r.(headings := headings, blocks := r.blocks + [HeadingBlock(headings, h.title, line)]);
      }
      return;
    }
    if l.stripped == "" {
      r := FlushPending(ws, r);
      return;
    }
    var cleaned := if r.inFence then l.stripped else l.cleaned;
    if cleaned != "" {
      r := r.(pending := r.pending + [Pending(line, cleaned)]);
    }
  }

  method HandleLines(ws: char -> bool, lines: seq<Line>) returns (md: Md)
    requires GoodLines(lines)
    ensures md == After(ws, lines, |lines|)
  {
    md := Md([], [], [], false);
    for i := 0 to |lines|
      invariant md == After(ws, lines, i)
    {
      md := HandleLine(ws, md, lines[i], i + 1);
    }
  }

  /** `_normalize_markdown`: every block lies on lines of its own, in order, under the sections open
      where it starts, and the blocks hold all the ink of the lines and no other. */
  method NormalizeMarkdown(ws: char -> bool, lines: seq<Line>) returns (blocks: seq<Block>)
    requires SeparatorsAreSpace(ws) && GoodLines(lines)
    ensures blocks == Flushed(ws, After(ws, lines, |lines|)).blocks
    ensures PlacedBlocks(lines, blocks, |lines|)
    ensures BlockInk(ws, blocks, |blocks|) == LinesInk(ws, lines, |lines|)
  {
    var md := HandleLines(ws, lines);
    LoopHolds(ws, lines, |lines|);
    LoopEnd(ws, lines, md);
    md := FlushPending(ws, md);
    blocks := md.blocks;
  }

  // ---- placeholders ----

  /** Exactly when a block's path is that of the open sections: it is a heading's own block, or the
      levels of the headings open at it have no gap. */
  lemma PathIsExactIff(lines: seq<Line>, blocks: seq<Block>, k: nat)
    requires GoodLines(lines) && PlacedBlocks(lines, blocks, |lines|) && k < |blocks|
    ensures var start := blocks[k].startLine.value; var hs := Headings(lines, start);
      blocks[k].headingPath == Sections(lines, start)
      <==> IsHeading(lines, start - 1) || WithoutGaps(Open(hs, |hs|))
  {
    var start := blocks[k].startLine.value;
    assert PlacedBlock(lines, blocks[k]);
    StackIsExactIff(Headings(lines, start));
  }

  /** A document whose only heading has level two. */
  function GapDocument(): seq<Line> {
    [Line("## B", Some(Heading(2, "B")), "## B"), Line("x", None, "x")]
  }

  lemma GapHeadings()
    ensures GoodLines(GapDocument())
    ensures Headings(GapDocument(), 1) == [Heading(2, "B")] && Headings(GapDocument(), 2) == [Heading(2, "B")]
    ensures IsHeading(GapDocument(), 0) && !IsHeading(GapDocument(), 1)
  {
    var lines := GapDocument();
    assert lines[0].stripped[0] == '#' && lines[1].stripped[0] == 'x';
    assert !IsFence(lines[0]) && !IsFence(lines[1]);
    assert !Fenced(lines, 0) && !Fenced(lines, 1);
    assert Headings(lines, 0) == [];
  }

  lemma GapIsWide()
    ensures !WithoutGaps(Open([Heading(2, "B")], 1))
  {
    var hs := [Heading(2, "B")];
    assert !Closed(hs, 0);
    assert Open(hs, 1) == Open(hs, 0) + [hs[0]];
    assert Open(hs, 1)[0].level == 2;
  }

  /** Its text becomes a content block whose path is not that of the open sections. */
  lemma SkippedLevelLeavesPlaceholder(ws: char -> bool)
    requires SeparatorsAreSpace(ws) && !ws('x')
    ensures GoodLines(GapDocument())
    ensures var blocks := Flushed(ws, After(ws, GapDocument(), 2)).blocks;
      && |blocks| == 2 && blocks[1].text == "x" && blocks[1].startLine == Some(2)
      && blocks[1].headingPath != Sections(GapDocument(), 2)
  {
    GapHeadings();
    var lines := GapDocument();
    GapRuns(ws);
    LoopHolds(ws, lines, 2);
    LoopEnd(ws, lines, After(ws, lines, 2));
    PathIsExactIff(lines, Flushed(ws, After(ws, lines, 2)).blocks, 1);
    GapIsWide();
  }

  lemma GapRuns(ws: char -> bool)
    requires !ws('x') && GoodLines(GapDocument())
    ensures var blocks := Flushed(ws, After(ws, GapDocument(), 2)).blocks;
      |blocks| == 2 && blocks[1].text == "x" && blocks[1].startLine == Some(2)
  {
    GapHeadings();
    var lines := GapDocument();
    var zero := Md([], [], [], false);
    var one := After(ws, lines, 1);
    assert lines[0].stripped[0] == '#' && lines[1].stripped[0] == 'x';
    assert After(ws, lines, 0) == zero && one == Stepped(ws, zero, lines[0], 1);
    assert |one.blocks| == 1 && one.pending == [] && !one.inFence;
    var two := After(ws, lines, 2);
    assert two == Stepped(ws, one, lines[1], 2);
    assert two.pending == [Pending(2, "x")] && two.blocks == one.blocks;
    assert LStrip(ws, "x") == "x" && RStrip(ws, "x") == "x";
  }
}
