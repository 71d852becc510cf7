/** Ignored elements leave no trace: a document parses like the one with them removed. */
module HtmlPruning {
  import opened Common
  import opened HtmlParser

  /** A document: elements with what is inside and after them, and loose events between them. */
  datatype Doc =
    | Nothing
    | Element(tag: Tag, inside: Doc, after: Doc)
    | Loose(event: Event, after: Doc)

  function Events(d: Doc): seq<Event> {
    match d
    case Nothing => []
    case Element(tag, inside, after) => [StartTag(tag)] + Events(inside) + [EndTag(tag)] + Events(after)
    case Loose(event, after) => [event] + Events(after)
  }

  /** Start and end tags of ignored elements come in pairs; all others may be loose. */
  predicate Balanced(d: Doc) {
    match d
    case Nothing => true
    case Element(_, inside, after) => Balanced(inside) && Balanced(after)
    case Loose(event, after) => !((event.StartTag? || event.EndTag?) && event.tag.Ignored?) && Balanced(after)
  }

  /** The document without its ignored elements. */
  function Prune(d: Doc): Doc {
    match d
    case Nothing => Nothing
    case Element(tag, inside, after) =>
      if tag.Ignored? then Prune(after) else Element(tag, Prune(inside), Prune(after))
    case Loose(event, after) => Loose(event, Prune(after))
  }

  /** Only ignored tags are on the skip stack. */
  predicate SkipsIgnored(s: State) {
    forall i :: 0 <= i < |s.skipStack| ==> s.skipStack[i].Ignored?
  }

  // ---- feeding in parts ----

  lemma {:induction false} FeedConcat(clean: Parts -> string, s: State, a: seq<Event>, b: seq<Event>)
    ensures Feed(clean, s, a + b) == Feed(clean, Feed(clean, s, a), b)
    decreases |b|
  {
    if b == [] {
      assert a + b == a;
    } else {
      var n := |b| - 1;
      assert (a + b)[..|a| + n] == a + b[..n];
      FeedConcat(clean, s, a, b[..n]);
    }
  }

  lemma FeedOne(clean: Parts -> string, s: State, e: Event)
    ensures Feed(clean, s, [e]) == Step(clean, s, e)
  {
    assert [e][..0] == [];
  }

  lemma FeedLoose(clean: Parts -> string, s: State, e: Event, rest: seq<Event>)
    ensures Feed(clean, s, [e] + rest) == Feed(clean, Step(clean, s, e), rest)
  {
    FeedConcat(clean, s, [e], rest);
    FeedOne(clean, s, e);
  }

  lemma FeedElement(clean: Parts -> string, s: State, tag: Tag, inside: seq<Event>, after: seq<Event>)
    ensures Feed(clean, s, [StartTag(tag)] + inside + [EndTag(tag)] + after)
         == Feed(clean, OnEnd(clean, Feed(clean, OnStart(s, tag), inside), tag), after)
  {
    var opening, closing := [StartTag(tag)] + inside, [StartTag(tag)] + inside + [EndTag(tag)];
    FeedConcat(clean, s, closing, after);
    FeedConcat(clean, s, opening, [EndTag(tag)]);
    FeedOne(clean, Feed(clean, s, opening), EndTag(tag));
    FeedLoose(clean, s, StartTag(tag), inside);
  }

  // ---- inside an ignored element ----

  lemma LooseIsSkipped(clean: Parts -> string, s: State, e: Event)
    requires SkipsIgnored(s) && s.skipStack != [] && !((e.StartTag? || e.EndTag?) && e.tag.Ignored?)
    ensures Step(clean, s, e) == s
  {
  }

  /** Opening and closing an ignored element, or any element where one is open, changes nothing. */
  lemma PairIsNeutral(clean: Parts -> string, s: State, tag: Tag)
    requires SkipsIgnored(s) && (tag.Ignored? || s.skipStack != [])
    ensures OnStart(s, tag).skipStack != [] && SkipsIgnored(OnStart(s, tag))
    ensures OnEnd(clean, OnStart(s, tag), tag) == s
  {
    if tag.Ignored? { assert (s.skipStack + [tag])[..|s.skipStack|] == s.skipStack; }
  }

  /** Below an open ignored element, no balanced part of the document changes the state. */
  lemma {:induction false} SkippedIsNeutral(clean: Parts -> string, s: State, d: Doc)
    requires SkipsIgnored(s) && s.skipStack != [] && Balanced(d)
    ensures Feed(clean, s, Events(d)) == s
    decreases d
  {
    match d
    case Nothing =>
    case Element(tag, inside, after) =>
      PairIsNeutral(clean, s, tag);
      SkippedIsNeutral(clean, OnStart(s, tag), inside);
      SkippedIsNeutral(clean, s, after);
      FeedElement(clean, s, tag, Events(inside), Events(after));
    case Loose(event, after) =>
      LooseIsSkipped(clean, s, event);
      SkippedIsNeutral(clean, s, after);
      FeedLoose(clean, s, event, Events(after));
  }

  /** An ignored element, whatever is inside it, leaves the whole state as it was. */
  lemma {:induction false} IgnoredElementIsNeutral(clean: Parts -> string, s: State, tag: Tag, inside: Doc)
    requires SkipsIgnored(s) && tag.Ignored? && Balanced(inside)
    ensures Feed(clean, s, Events(Element(tag, inside, Nothing))) == s
  {
    PairIsNeutral(clean, s, tag);
    SkippedIsNeutral(clean, OnStart(s, tag), inside);
    FeedElement(clean, s, tag, Events(inside), []);
  }

  // ---- the whole document ----

  lemma StepKeepsSkips(clean: Parts -> string, s: State, e: Event)
    requires SkipsIgnored(s)
    ensures SkipsIgnored(Step(clean, s, e))
  {
  }

  lemma {:induction false} FeedKeepsSkips(clean: Parts -> string, s: State, events: seq<Event>)
    requires SkipsIgnored(s)
    ensures SkipsIgnored(Feed(clean, s, events))
    decreases |events|
  {
    if events != [] {
      var n := |events| - 1;
      FeedKeepsSkips(clean, s, events[..n]);
      StepKeepsSkips(clean, Feed(clean, s, events[..n]), events[n]);
    }
  }

  /** Removing every ignored element does not change what the parser collects. */
  lemma {:induction false} PruningKeepsState(clean: Parts -> string, s: State, d: Doc)
    requires SkipsIgnored(s) && Balanced(d)
    ensures Feed(clean, s, Events(d)) == Feed(clean, s, Events(Prune(d)))
    decreases d
  {
    match d
    case Nothing =>
    case Element(tag, inside, after) =>
      StepKeepsSkips(clean, s, StartTag(tag));
      var entered := OnStart(s, tag);
      FeedElement(clean, s, tag, Events(inside), Events(after));
      if tag.Ignored? {
        PairIsNeutral(clean, s, tag);
        SkippedIsNeutral(clean, entered, inside);
        PruningKeepsState(clean, s, after);
      } else {
        PruningKeepsState(clean, entered, inside);
        FeedKeepsSkips(clean, entered, Events(inside));
        var filled := Feed(clean, entered, Events(inside));
        StepKeepsSkips(clean, filled, EndTag(tag));
        PruningKeepsState(clean, OnEnd(clean, filled, tag), after);
        FeedElement(clean, s, tag, Events(Prune(inside)), Events(Prune(after)));
      }
    case Loose(event, after) =>
      StepKeepsSkips(clean, s, event);
      PruningKeepsState(clean, Step(clean, s, event), after);
      FeedLoose(clean, s, event, Events(after));
      FeedLoose(clean, s, event, Events(Prune(after)));
  }

  /** A document and the one without ignored elements give the same titles and candidates. */
  lemma PruningKeepsOutput(clean: Parts -> string, d: Doc)
    requires Balanced(d)
    ensures Finish(clean, Feed(clean, INITIAL, Events(d))) == Finish(clean, Feed(clean, INITIAL, Events(Prune(d))))
  {
    PruningKeepsState(clean, INITIAL, d);
  }

  // ---- what candidates look like ----

  predicate GoodCapture(c: Capture) {
    && (c.kind == HeadingText <==> c.headingLevel.Some?)
    && (c.kind == HeadingText ==> c.tag == H(c.headingLevel.value))
  }

  predicate GoodCandidate(c: Candidate) {
    && c.text != "" && c.kind != TitleText
    && (c.kind == HeadingText <==> c.headingLevel.Some?)
    && (c.headingLevel.Some? ==> 1 <= c.headingLevel.value <= 6)
  }

  predicate GoodTag(tag: Tag) { tag.H? ==> 1 <= tag.level <= 6 }

  predicate GoodEvent(e: Event) { e.Data? || GoodTag(e.tag) }

  predicate Sound(s: State) {
    && (forall i :: 0 <= i < |s.titles| ==> s.titles[i] != "")
    && (forall i :: 0 <= i < |s.candidates| ==> GoodCandidate(s.candidates[i]))
    && (s.capture.Some? ==> GoodCapture(s.capture.value) && GoodTag(s.capture.value.tag))
  }

  /** Tags that come from names are good. */
  lemma NamedTagsAreGood(name: string)
    ensures GoodTag(TagOf(name))
  {
  }

  lemma FinishKeepsSound(clean: Parts -> string, s: State)
    requires Sound(s)
    ensures Sound(FinishCapture(clean, s))
  {
  }

  lemma StartKeepsSound(s: State, tag: Tag)
    requires Sound(s) && GoodTag(tag)
    ensures Sound(OnStart(s, tag))
  {
  }

  lemma EndKeepsSound(clean: Parts -> string, s: State, tag: Tag)
    requires Sound(s)
    ensures Sound(OnEnd(clean, s, tag))
  {
    FinishKeepsSound(clean, s);
  }

  lemma StepKeepsSound(clean: Parts -> string, s: State, e: Event)
    requires Sound(s) && GoodEvent(e)
    ensures Sound(Step(clean, s, e))
  {
    if !e.Data? {
      StartKeepsSound(s, e.tag);
      EndKeepsSound(clean, s, e.tag);
      EndKeepsSound(clean, OnStart(s, e.tag), e.tag);
    }
  }

  lemma {:induction false} FeedKeepsSound(clean: Parts -> string, s: State, events: seq<Event>)
    requires Sound(s) && forall i :: 0 <= i < |events| ==> GoodEvent(events[i])
    ensures Sound(Feed(clean, s, events)) && Sound(Finish(clean, Feed(clean, s, events)))
    decreases |events|
  {
    if events != [] {
      var n := |events| - 1;
      FeedKeepsSound(clean, s, events[..n]);
      StepKeepsSound(clean, Feed(clean, s, events[..n]), events[n]);
    }
    FinishKeepsSound(clean, Feed(clean, s, events));
  }
}
