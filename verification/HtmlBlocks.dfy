/** `_html_blocks`: from candidates to blocks under their heading paths. */
module HtmlBlocks {
  import opened Common
  import opened HeadingStack
  import opened HtmlParser
  import opened HtmlPruning
  import opened Materialize

  // ---- which candidates count ----

  function InScope(cs: seq<Candidate>, scope: Scope): (r: seq<Candidate>)
    ensures forall c :: c in r <==> c in cs && c.scope == scope
  {
    if cs == [] then []
    else
      var rest, last := InScope(cs[..|cs| - 1], scope), cs[|cs| - 1];
      if last.scope == scope then rest + [last] else rest
  }

  /** Those of articles, else those of main parts, else the others. */
  function Selected(cs: seq<Candidate>): (r: seq<Candidate>)
    ensures forall c :: c in r ==> c in cs
    ensures r == [] <==> cs == []
  {
    if InScope(cs, InArticle) != [] then InScope(cs, InArticle)
    else if InScope(cs, InMain) != [] then InScope(cs, InMain)
    else
      assert cs != [] ==> cs[0].scope == Fallback by {
        if cs != [] { assert cs[0] !in InScope(cs, InArticle) && cs[0] !in InScope(cs, InMain); }
      }
      assert cs != [] ==> cs[0] in InScope(cs, Fallback);
      InScope(cs, Fallback)
  }

  /** The candidates of one scope, from the front. */
  function Only(cs: seq<Candidate>, scope: Scope): seq<Candidate> {
    if cs == [] then [] else If(cs[0], scope) + Only(cs[1..], scope)
  }

  function If(c: Candidate, scope: Scope): seq<Candidate> {
    if c.scope == scope then [c] else []
  }

  lemma {:induction false} OnlyHead(cs: seq<Candidate>, all: seq<Candidate>, c: Candidate, scope: Scope)
    requires cs != [] && all == cs + [c]
    ensures Only(all, scope) == If(cs[0], scope) + Only(cs[1..] + [c], scope)
  {
    assert all[0] == cs[0] && all[1..] == cs[1..] + [c];
  }

  lemma {:induction false} OnlyAppend(cs: seq<Candidate>, c: Candidate, scope: Scope)
    ensures Only(cs + [c], scope) == Only(cs, scope) + If(c, scope)
    decreases |cs|
  {
    if cs == [] {
      assert [] + [c] == [c] && [c][1..] == [];
    } else {
      OnlyAppend(cs[1..], c, scope);
      OnlyHead(cs, cs + [c], c, scope);
      Regroup(If(cs[0], scope), Only(cs[1..], scope), If(c, scope));
    }
  }

  lemma Regroup(a: seq<Candidate>, b: seq<Candidate>, c: seq<Candidate>)
    ensures a + (b + c) == a + b + c
  {
  }

  lemma {:induction false} InScopeIsOnly(cs: seq<Candidate>, scope: Scope)
    ensures InScope(cs, scope) == Only(cs, scope)
    decreases |cs|
  {
    if cs != [] {
      var n := |cs| - 1;
      InScopeIsOnly(cs[..n], scope);
      OnlyAppend(cs[..n], cs[n], scope);
      assert cs == cs[..n] + [cs[n]];
    }
  }

  ghost predicate Has(cs: seq<Candidate>, scope: Scope) {
    exists i :: 0 <= i < |cs| && cs[i].scope == scope
  }

  lemma {:induction false} HasIffOnly(cs: seq<Candidate>, scope: Scope)
    ensures Has(cs, scope) <==> Only(cs, scope) != []
    decreases |cs|
  {
    if cs != [] {
      HasIffOnly(cs[1..], scope);
      if Has(cs[1..], scope) {
        var i :| 0 <= i < |cs[1..]| && cs[1..][i].scope == scope;
        assert cs[i + 1].scope == scope;
      }
      if Has(cs, scope) && cs[0].scope != scope {
        var i :| 0 <= i < |cs| && cs[i].scope == scope;
        assert cs[1..][i - 1].scope == scope;
      }
    }
  }

  lemma {:induction false} SelectedIsOnly(cs: seq<Candidate>)
    ensures Selected(cs) ==
      if Only(cs, InArticle) != [] then Only(cs, InArticle)
      else if Only(cs, InMain) != [] then Only(cs, InMain)
      else Only(cs, Fallback)
  {
    InScopeIsOnly(cs, InArticle);
    InScopeIsOnly(cs, InMain);
    InScopeIsOnly(cs, Fallback);
  }

  /** If anything stands in an article, exactly that counts; else if anything stands in a main part,
      exactly that; else everything. The order is that of the document. */
  lemma {:induction false} ArticleBeforeMainBeforeRest(cs: seq<Candidate>)
    ensures Selected(cs) ==
      if Has(cs, InArticle) then Only(cs, InArticle) else if Has(cs, InMain) then Only(cs, InMain) else cs
  {
    SelectedIsOnly(cs);
    HasIffOnly(cs, InArticle);
    HasIffOnly(cs, InMain);
    if !Has(cs, InArticle) && !Has(cs, InMain) {
      forall i | 0 <= i < |cs| ensures cs[i].scope == Fallback {
        assert cs[i].scope != InArticle && cs[i].scope != InMain;
      }
      AllOnly(cs, Fallback);
    }
  }

  lemma {:induction false} AllOnly(cs: seq<Candidate>, scope: Scope)
    requires forall i :: 0 <= i < |cs| ==> cs[i].scope == scope
    ensures Only(cs, scope) == cs
    decreases |cs|
  {
    if cs != [] { AllOnly(cs[1..], scope); }
  }

  // ---- their paths ----

  predicate GoodCandidates(cs: seq<Candidate>) {
    forall i :: 0 <= i < |cs| ==> GoodCandidate(cs[i])
  }

  /** The headings among the first `n` candidates. */
  function HeadingsOf(cs: seq<Candidate>, n: nat): (hs: seq<Heading>)
    requires GoodCandidates(cs) && n <= |cs|
    ensures GoodHeadings(hs)
  {
    if n == 0 then []
    else if cs[n - 1].kind == HeadingText then
      HeadingsOf(cs, n - 1) + [Heading(cs[n - 1].headingLevel.value, cs[n - 1].text)]
    else HeadingsOf(cs, n - 1)
  }

  /** The titles of the sections that are open at candidate `k`. */
  ghost function PathAt(cs: seq<Candidate>, k: nat): seq<string>
    requires GoodCandidates(cs) && k < |cs|
  {
    var hs := HeadingsOf(cs, k + 1);
    Titles(Open(hs, |hs|))
  }

  function TextBlock(text: string, path: seq<string>): Block {
    Block(text, None, path, None, None)
  }

  /** What the blocks of the selected candidates are. */
  ghost predicate BlocksOf(cs: seq<Candidate>, blocks: seq<Block>)
    requires GoodCandidates(cs)
  {
    |blocks| <= |cs| && forall k :: 0 <= k < |blocks| ==> blocks[k] == TextBlock(cs[k].text, PathAt(cs, k))
  }

  /** What a candidate does to the stack. */
  function Visited(c: Candidate, stack: seq<string>): seq<string>
    requires GoodCandidate(c)
  {
    if c.kind == HeadingText then Push(stack, Heading(c.headingLevel.value, c.text)) else stack
  }

  lemma StackStep(cs: seq<Candidate>, k: nat)
    requires GoodCandidates(cs) && k < |cs|
    ensures Stack(HeadingsOf(cs, k + 1)) == Visited(cs[k], Stack(HeadingsOf(cs, k)))
    ensures Filled(Stack(HeadingsOf(cs, k + 1))) == PathAt(cs, k)
  {
    var hs, next := HeadingsOf(cs, k), HeadingsOf(cs, k + 1);
    StackIsOpenHeadings(next);
    if cs[k].kind == HeadingText { assert next[..|hs|] == hs; }
  }

  /** The loop over the candidates, with the stacks and paths it goes through. */
  method Collect(cs: seq<Candidate>, ghost stackAt: nat -> seq<string>, ghost pathAt: nat -> seq<string>)
    returns (blocks: seq<Block>)
    requires GoodCandidates(cs) && stackAt(0) == []
    requires forall k: nat :: k < |cs| ==> stackAt(k + 1) == Visited(cs[k], stackAt(k))
    requires forall k: nat :: k < |cs| ==> Filled(stackAt(k + 1)) == pathAt(k)
    ensures |blocks| == |cs| && forall k: nat :: k < |cs| ==> blocks[k] == TextBlock(cs[k].text, pathAt(k))
  {
    blocks := [];
    var headings := [];
    for k := 0 to |cs|
      invariant |blocks| == k && headings == stackAt(k)
      invariant forall j: nat :: j < k ==> blocks[j] == TextBlock(cs[j].text, pathAt(j))
    {
      assert stackAt(k + 1) == Visited(cs[k], stackAt(k));
      if cs[k].kind == HeadingText {
        headings := PushHeading(headings, Heading(cs[k].headingLevel.value, cs[k].text));
      }
      blocks := blocks + [TextBlock(cs[k].text, Filled(headings))];
    }
  }

  lemma StacksOf(cs: seq<Candidate>) returns (stackAt: nat -> seq<string>)
    requires GoodCandidates(cs)
    ensures stackAt(0) == []
    ensures forall k: nat :: k < |cs| ==> stackAt(k + 1) == Visited(cs[k], stackAt(k))
    ensures forall k: nat :: k < |cs| ==> Filled(stackAt(k + 1)) == PathAt(cs, k)
  {
    stackAt := (k: nat) => if k <= |cs| then Stack(HeadingsOf(cs, k)) else [];
    assert stackAt(0) == [];
    forall k: nat | k < |cs|
      ensures stackAt(k + 1) == Visited(cs[k], stackAt(k)) && Filled(stackAt(k + 1)) == PathAt(cs, k)
    {
      StackStep(cs, k);
    }
  }

  method SelectedBlocks(cs: seq<Candidate>) returns (blocks: seq<Block>)
    requires GoodCandidates(cs)
    ensures |blocks| == |cs| && BlocksOf(cs, blocks)
  {
    ghost var stackAt := StacksOf(cs);
    blocks := Collect(cs, stackAt, (k: nat) => if k < |cs| then PathAt(cs, k) else []);
  }

  /** The first title, then every selected candidate under the headings open at it. */
  method BuildBlocks(titles: seq<string>, candidates: seq<Candidate>) returns (blocks: seq<Block>)
    requires GoodCandidates(candidates)
    ensures var cs := Selected(candidates); var lead := if titles == [] then [] else [TextBlock(titles[0], [])];
      && GoodCandidates(cs) && |blocks| == |lead| + |cs|
      && blocks[..|lead|] == lead && BlocksOf(cs, blocks[|lead|..])
  {
    var cs := Selected(candidates);
    assert GoodCandidates(cs) by {
      forall i | 0 <= i < |cs| ensures GoodCandidate(cs[i]) { assert cs[i] in candidates; }
    }
    var lead := if titles == [] then [] else [TextBlock(titles[0], [])];
    var rest := SelectedBlocks(cs);
    blocks := lead + rest;
    assert blocks[|lead|..] == rest;
  }

  /** `_normalize_html` over the tag events: the whole way from events to blocks. */
  method NormalizeHtml(clean: Parts -> string, events: seq<Event>) returns (blocks: seq<Block>)
    requires forall i :: 0 <= i < |events| ==> GoodEvent(events[i])
    ensures var s := Finish(clean, Feed(clean, INITIAL, events)); var cs := Selected(s.candidates);
      var lead := if s.titles == [] then [] else [TextBlock(s.titles[0], [])];
      && GoodCandidates(cs) && |blocks| == |lead| + |cs|
      && blocks[..|lead|] == lead && BlocksOf(cs, blocks[|lead|..])
  {
    var parser := new KnowledgeHtmlParser(clean);
    parser.Parse(events);
    FeedKeepsSound(clean, INITIAL, events);
    assert Sound(parser.Now());
    blocks := BuildBlocks(parser.titles, parser.candidates);
  }
}
