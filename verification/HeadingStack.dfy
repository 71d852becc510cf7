/** The heading stack of the Markdown and HTML loops: truncate, pad with empty entries, append. */
module HeadingStack {
  import opened Common

  datatype Heading = Heading(level: nat, title: string)

  predicate GoodHeading(h: Heading) {
    h.level >= 1 && h.title != ""
  }

  predicate GoodHeadings(hs: seq<Heading>) {
    forall i :: 0 <= i < |hs| ==> GoodHeading(hs[i])
  }

  /** The stack after one more heading. */
  function Push(stack: seq<string>, h: Heading): (r: seq<string>)
    requires h.level >= 1
    ensures |r| == h.level
  {
    var kept := stack[..Min(h.level - 1, |stack|)];
    kept + seq(h.level - 1 - |kept|, _ => "") + [h.title]
  }

  method PushHeading(stack: seq<string>, h: Heading) returns (headings: seq<string>)
    requires h.level >= 1
    ensures headings == Push(stack, h)
  {
    headings := stack[..Min(h.level - 1, |stack|)];
    ghost var kept := headings;
    while |headings| < h.level - 1
      invariant |kept| <= |headings| <= h.level - 1
      invariant headings == kept + seq(|headings| - |kept|, _ => "")
    {
      headings := headings + [""];
    }
    headings := headings + [h.title];
  }

  function Stack(hs: seq<Heading>): seq<string>
    requires GoodHeadings(hs)
  {
    if hs == [] then [] else Push(Stack(hs[..|hs| - 1]), hs[|hs| - 1])
  }

  /** The path without placeholders. */
  function Filled(stack: seq<string>): seq<string> {
    if stack == [] then []
    else
      var rest, last := Filled(stack[..|stack| - 1]), stack[|stack| - 1];
      if last == "" then rest else rest + [last]
  }

  // ---- the specification ----

  /** A later heading of the same or a smaller level ends this one's section. */
  ghost predicate Closed(hs: seq<Heading>, i: nat)
    requires i < |hs|
  {
    exists j: nat :: i < j < |hs| && hs[j].level <= hs[i].level
  }

  /** The headings whose sections are still open, in order. */
  ghost function Open(hs: seq<Heading>, n: nat): seq<Heading>
    requires n <= |hs|
  {
    if n == 0 then []
    else if Closed(hs, n - 1) then Open(hs, n - 1)
    else Open(hs, n - 1) + [hs[n - 1]]
  }

  function Titles(hs: seq<Heading>): seq<string> {
    if hs == [] then [] else Titles(hs[..|hs| - 1]) + [hs[|hs| - 1].title]
  }

  // ---- the stack is the open headings ----

  /** The stack's entries with their levels. */
  function Entries(stack: seq<string>, n: nat): seq<Heading>
    requires n <= |stack|
  {
    if n == 0 then []
    else if stack[n - 1] == "" then Entries(stack, n - 1)
    else Entries(stack, n - 1) + [Heading(n, stack[n - 1])]
  }

  function Below(hs: seq<Heading>, level: nat): seq<Heading> {
    if hs == [] then []
    else
      var rest, last := Below(hs[..|hs| - 1], level), hs[|hs| - 1];
      if last.level < level then rest + [last] else rest
  }

  lemma BelowAppend(hs: seq<Heading>, h: Heading, level: nat)
    ensures Below(hs + [h], level) == if h.level < level then Below(hs, level) + [h] else Below(hs, level)
  {
    assert (hs + [h])[..|hs|] == hs;
  }

  lemma {:induction false} EntriesPrefix(stack: seq<string>, other: seq<string>, n: nat)
    requires n <= |stack| && n <= |other| && stack[..n] == other[..n]
    ensures Entries(stack, n) == Entries(other, n)
    decreases n
  {
    if n > 0 {
      assert stack[..n - 1] == stack[..n][..n - 1];
      assert stack[n - 1] == stack[..n][n - 1];
      EntriesPrefix(stack, other, n - 1);
    }
  }

  lemma {:induction false} AllBelow(stack: seq<string>, level: nat, n: nat)
    requires n <= |stack| && n < level
    ensures Below(Entries(stack, n), level) == Entries(stack, n)
    decreases n
  {
    if n > 0 {
      AllBelow(stack, level, n - 1);
      if stack[n - 1] != "" { BelowAppend(Entries(stack, n - 1), Heading(n, stack[n - 1]), level); }
    }
  }

  lemma {:induction false} NoneAbove(stack: seq<string>, level: nat, n: nat)
    requires n <= |stack| && 1 <= level <= n + 1
    ensures Below(Entries(stack, n), level) == Below(Entries(stack, level - 1), level)
    decreases n
  {
    if level <= n {
      NoneAbove(stack, level, n - 1);
      if stack[n - 1] != "" { BelowAppend(Entries(stack, n - 1), Heading(n, stack[n - 1]), level); }
    }
  }

  /** Truncation keeps the entries of smaller level: all of them below the cut, none above. */
  lemma EntriesBelow(stack: seq<string>, level: nat, n: nat)
    requires n <= |stack| && level >= 1
    ensures Below(Entries(stack, n), level) == Entries(stack, Min(level - 1, n))
  {
    AllBelow(stack, level, Min(level - 1, n));
    if level <= n { NoneAbove(stack, level, n); }
  }

  /** Padding adds none. */
  lemma {:induction false} EntriesOfPadding(stack: seq<string>, k: nat, n: nat)
    requires k <= n <= |stack| && forall i :: k <= i < n ==> stack[i] == ""
    ensures Entries(stack, n) == Entries(stack, k)
    decreases n
  {
    if k < n { EntriesOfPadding(stack, k, n - 1); }
  }

  lemma {:induction false} EntriesOfPadded(stack: seq<string>, r: seq<string>, k: nat, h: Heading)
    requires k <= |stack| && k < |r| == h.level && h.title != "" && r[h.level - 1] == h.title
    requires r[..k] == stack[..k] && forall i :: k <= i < h.level - 1 ==> r[i] == ""
    ensures Entries(r, h.level) == Entries(stack, k) + [h]
  {
    EntriesPrefix(r, stack, k);
    EntriesOfPadding(r, k, h.level - 1);
  }

  lemma {:induction false} EntriesOfPush(stack: seq<string>, h: Heading)
    requires GoodHeading(h)
    ensures Entries(Push(stack, h), h.level) == Below(Entries(stack, |stack|), h.level) + [h]
  {
    var r, k := Push(stack, h), Min(h.level - 1, |stack|);
    assert r[..k] == stack[..k];
    EntriesOfPadded(stack, r, k, h);
    EntriesBelow(stack, h.level, |stack|);
  }

  /** One more heading closes those of its level and deeper ones, and opens itself. */
  lemma {:induction false} OpenAppend(hs: seq<Heading>, h: Heading, n: nat)
    requires n <= |hs|
    ensures Open(hs + [h], n) == Below(Open(hs, n), h.level)
    decreases n
  {
    if n > 0 {
      OpenAppend(hs, h, n - 1);
      var i, all := n - 1, hs + [h];
      assert Closed(all, i) <==> Closed(hs, i) || h.level <= hs[i].level by {
        assert all[|hs|] == h;
        if Closed(hs, i) { var j: nat :| i < j < |hs| && hs[j].level <= hs[i].level; assert all[j] == hs[j]; }
      }
      if !Closed(hs, i) { BelowAppend(Open(hs, i), hs[i], h.level); }
    }
  }

  lemma {:induction false} StackEntries(hs: seq<Heading>)
    requires GoodHeadings(hs)
    ensures Entries(Stack(hs), |Stack(hs)|) == Open(hs, |hs|)
    decreases |hs|
  {
    if hs != [] {
      var n := |hs| - 1;
      var before, h := hs[..n], hs[n];
      assert hs == before + [h];
      StackEntries(before);
      EntriesOfPush(Stack(before), h);
      OpenAppend(before, h, n);
      assert !Closed(hs, n);
    }
  }

  lemma TitlesAppend(hs: seq<Heading>, h: Heading)
    ensures Titles(hs + [h]) == Titles(hs) + [h.title]
  {
    assert (hs + [h])[..|hs|] == hs;
  }

  lemma {:induction false} FilledIsTitles(stack: seq<string>, n: nat)
    requires n <= |stack|
    ensures Filled(stack[..n]) == Titles(Entries(stack, n))
    decreases n
  {
    if n > 0 {
      FilledIsTitles(stack, n - 1);
      assert stack[..n][..n - 1] == stack[..n - 1];
      if stack[n - 1] != "" { TitlesAppend(Entries(stack, n - 1), Heading(n, stack[n - 1])); }
    }
  }

  /** Without placeholders, the stack is the sequence of earlier headings that no later heading of
      the same or a smaller level follows. */
  lemma StackIsOpenHeadings(hs: seq<Heading>)
    requires GoodHeadings(hs)
    ensures Filled(Stack(hs)) == Titles(Open(hs, |hs|))
  {
    StackEntries(hs);
    FilledIsTitles(Stack(hs), |Stack(hs)|);
    assert Stack(hs)[..|Stack(hs)|] == Stack(hs);
  }

  // ---- when the stack has no placeholder ----

  /** The open headings have the levels one, two, three and so on. */
  predicate WithoutGaps(hs: seq<Heading>) {
    forall j :: 0 <= j < |hs| ==> hs[j].level == j + 1
  }

  lemma {:induction false} TitlesLength(hs: seq<Heading>)
    ensures |Titles(hs)| == |hs|
    decreases |hs|
  {
    if hs != [] { TitlesLength(hs[..|hs| - 1]); }
  }

  /** As many entries as places: all of them, in their places. */
  lemma {:induction false} FullEntries(stack: seq<string>, n: nat)
    requires n <= |stack|
    ensures |Entries(stack, n)| <= n
    ensures |Entries(stack, n)| == n ==> WithoutGaps(Entries(stack, n)) && Titles(Entries(stack, n)) == stack[..n]
    decreases n
  {
    if n > 0 {
      FullEntries(stack, n - 1);
      if stack[n - 1] != "" {
        TitlesAppend(Entries(stack, n - 1), Heading(n, stack[n - 1]));
        assert stack[..n] == stack[..n - 1] + [stack[n - 1]];
      }
    }
  }

  /** The last of the stack is the last heading's title. */
  lemma StackEnds(hs: seq<Heading>)
    requires GoodHeadings(hs) && hs != []
    ensures |Stack(hs)| == hs[|hs| - 1].level && Stack(hs)[|Stack(hs)| - 1] != ""
  {
    var h := hs[|hs| - 1];
    assert Stack(hs) == Push(Stack(hs[..|hs| - 1]), h);
    assert GoodHeading(h);
  }

  /** The stack is exactly the open headings' titles if and only if their levels have no gap. */
  lemma StackIsExactIff(hs: seq<Heading>)
    requires GoodHeadings(hs)
    ensures Stack(hs) == Titles(Open(hs, |hs|)) <==> WithoutGaps(Open(hs, |hs|))
  {
    var stack, n := Stack(hs), |Stack(hs)|;
    StackEntries(hs);
    FullEntries(stack, n);
    TitlesLength(Open(hs, |hs|));
    assert stack[..n] == stack;
    if hs != [] {
      StackEnds(hs);
      var top := Entries(stack, n)[|Entries(stack, n)| - 1];
      assert top == Heading(n, stack[n - 1]);
    }
  }
}
