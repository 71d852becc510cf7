/** What the parser collects: the text between a tag and its end, under the scope that is open there. */
module HtmlCaptures {
  import opened Common
  import opened HtmlParser
  import opened HtmlPruning

  // ---- parts ----

  /** What an event adds to a capture: its text, or a line break. */
  function PartOf(e: Event): Parts {
    match e
    case Data(text) => [Some(text)]
    case StartTag(tag) => if tag == Br then [None] else []
    case StartEndTag(tag) => if tag == Br then [None] else []
    case EndTag(_) => []
  }

  /** The texts and line breaks of some events, in order. */
  function PartsOf(events: seq<Event>): Parts {
    if events == [] then [] else PartsOf(events[..|events| - 1]) + PartOf(events[|events| - 1])
  }

  /** An event that neither opens or closes an ignored element nor closes the capture of `tag`. */
  predicate Plain(e: Event, tag: Tag) {
    && !((e.StartTag? || e.EndTag?) && e.tag.Ignored?)
    && e != EndTag(tag) && e != StartEndTag(tag)
  }

  predicate AllPlain(events: seq<Event>, tag: Tag) {
    forall i :: 0 <= i < |events| ==> Plain(events[i], tag)
  }

  // ---- while a capture is open ----

  /** Both states have collected the same, and the second has more parts in its open capture. */
  predicate Captured(s: State, t: State, more: Parts) {
    && s.capture.Some? && t.capture == Some(s.capture.value.(parts := s.capture.value.parts + more))
    && t.titles == s.titles && t.candidates == s.candidates && t.skipStack == []
  }

  lemma CaptureStep(clean: Parts -> string, s: State, e: Event)
    requires s.skipStack == [] && s.capture.Some? && Plain(e, s.capture.value.tag)
    ensures Captured(s, Step(clean, s, e), PartOf(e))
  {
    var c := s.capture.value;
    assert c.parts + [] == c.parts;
  }

  lemma {:induction false} CaptureRun(clean: Parts -> string, s: State, events: seq<Event>)
    requires s.skipStack == [] && s.capture.Some? && AllPlain(events, s.capture.value.tag)
    ensures Captured(s, Feed(clean, s, events), PartsOf(events))
    decreases |events|
  {
    var c := s.capture.value;
    if events == [] {
      assert c.parts + [] == c.parts;
    } else {
      var n := |events| - 1;
      CaptureRun(clean, s, events[..n]);
      CaptureStep(clean, Feed(clean, s, events[..n]), events[n]);
      var before, last := PartsOf(events[..n]), PartOf(events[n]);
      assert c.parts + (before + last) == (c.parts + before) + last;
    }
  }

  /** Pruned documents hold no tag of an ignored element. */
  lemma {:induction false} PrunedIsPlain(d: Doc, i: nat)
    requires Balanced(d) && i < |Events(Prune(d))|
    ensures var e := Events(Prune(d))[i]; !((e.StartTag? || e.EndTag?) && e.tag.Ignored?)
    decreases d
  {
    match d
    case Nothing =>
    case Element(tag, inside, after) =>
      if tag.Ignored? {
        PrunedIsPlain(after, i);
      } else {
        var n := |Events(Prune(inside))|;
        if 1 <= i < n + 1 { PrunedIsPlain(inside, i - 1); }
        if n + 2 <= i { PrunedIsPlain(after, i - n - 2); }
      }
    case Loose(event, after) => if i > 0 { PrunedIsPlain(after, i - 1); }
  }

  /** Nothing outside ignored elements closes the capture of `tag`. */
  predicate StaysOpen(d: Doc, tag: Tag) {
    EndTag(tag) !in Events(Prune(d)) && StartEndTag(tag) !in Events(Prune(d))
  }

  lemma PrunedIsAllPlain(d: Doc, tag: Tag)
    requires Balanced(d) && StaysOpen(d, tag)
    ensures AllPlain(Events(Prune(d)), tag)
  {
    var events := Events(Prune(d));
    forall i | 0 <= i < |events| ensures Plain(events[i], tag) {
      PrunedIsPlain(d, i);
      assert events[i] in events;
    }
  }

  /** What is captured between a tag and its end: the texts and line breaks outside ignored elements. */
  function TextParts(d: Doc): Parts {
    PartsOf(Events(Prune(d)))
  }

  lemma InsideIsCaptured(clean: Parts -> string, s: State, d: Doc)
    requires s.skipStack == [] && s.capture.Some? && Balanced(d) && StaysOpen(d, s.capture.value.tag)
    ensures Captured(s, Feed(clean, s, Events(d)), TextParts(d))
  {
    PruningKeepsState(clean, s, d);
    PrunedIsAllPlain(d, s.capture.value.tag);
    CaptureRun(clean, s, Events(Prune(d)));
  }

  // ---- a whole element ----

  /** The tags whose text counts, and as what. */
  predicate IsTextTag(tag: Tag) {
    tag == P || tag == Li || tag.H?
  }

  /** The scope at a start tag: an open article wins over an open main part. */
  function ScopeAt(s: State): Scope {
    if s.articleDepth > 0 then InArticle else if s.mainDepth > 0 then InMain else Fallback
  }

  /** The candidate of an element with this text, if it has any. */
  function CandidateOf(tag: Tag, text: string, scope: Scope): seq<Candidate>
    requires IsTextTag(tag)
  {
    if text == "" then []
    else if tag.H? then [Candidate(HeadingText, text, scope, Some(tag.level))]
    else [Candidate(ContentText, text, scope, None)]
  }

  /** A paragraph, a list item or a heading adds exactly its own text, as a candidate of the scope open at
      its start tag; ignored elements inside it add nothing. */
  lemma ElementIsCollected(clean: Parts -> string, s: State, tag: Tag, d: Doc)
    requires s.skipStack == [] && s.capture.None? && IsTextTag(tag) && Balanced(d) && StaysOpen(d, tag)
    ensures var t := Feed(clean, s, [StartTag(tag)] + Events(d) + [EndTag(tag)]);
      && t.candidates == s.candidates + CandidateOf(tag, clean(TextParts(d)), ScopeAt(s))
      && t.titles == s.titles && t.capture.None? && t.skipStack == []
  {
    FeedClosed(clean, s, tag, Events(d));
    var opening := OnStart(s, tag);
    InsideIsCaptured(clean, opening, d);
    assert [] + TextParts(d) == TextParts(d);
  }

  /** A title adds exactly its own text to the titles. */
  lemma TitleIsCollected(clean: Parts -> string, s: State, d: Doc)
    requires s.skipStack == [] && s.capture.None? && Balanced(d) && StaysOpen(d, Title)
    ensures var t, text := Feed(clean, s, [StartTag(Title)] + Events(d) + [EndTag(Title)]), clean(TextParts(d));
      && t.titles == s.titles + (if text == "" then [] else [text])
      && t.candidates == s.candidates && t.capture.None? && t.skipStack == []
  {
    FeedClosed(clean, s, Title, Events(d));
    var opening := OnStart(s, Title);
    InsideIsCaptured(clean, opening, d);
    assert [] + TextParts(d) == TextParts(d);
  }

  lemma FeedClosed(clean: Parts -> string, s: State, tag: Tag, inside: seq<Event>)
    ensures Feed(clean, s, [StartTag(tag)] + inside + [EndTag(tag)])
         == OnEnd(clean, Feed(clean, OnStart(s, tag), inside), tag)
  {
    FeedElement(clean, s, tag, inside, []);
    assert [StartTag(tag)] + inside + [EndTag(tag)] + [] == [StartTag(tag)] + inside + [EndTag(tag)];
  }

  /** An element that the document never closes still counts, at the end. */
  lemma UnclosedElementIsCollected(clean: Parts -> string, s: State, tag: Tag, d: Doc)
    requires s.skipStack == [] && s.capture.None? && IsTextTag(tag) && Balanced(d) && StaysOpen(d, tag)
    ensures var t := Finish(clean, Feed(clean, s, [StartTag(tag)] + Events(d)));
      && t.candidates == s.candidates + CandidateOf(tag, clean(TextParts(d)), ScopeAt(s)) && t.titles == s.titles
  {
    FeedLoose(clean, s, StartTag(tag), Events(d));
    InsideIsCaptured(clean, OnStart(s, tag), d);
    assert [] + TextParts(d) == TextParts(d);
  }

  /** Text outside paragraphs, list items, headings and titles is dropped. */
  lemma LooseTextIsDropped(clean: Parts -> string, s: State, text: string)
    requires s.capture.None?
    ensures Feed(clean, s, [Data(text)]) == s
  {
    FeedOne(clean, s, Data(text));
  }

  /** A self-closing element is its start tag and its end tag, so it ends an open element of its name;
      self-closing ignored elements and embeds are nothing. */
  lemma SelfClosingIsStartAndEnd(clean: Parts -> string, s: State, tag: Tag)
    requires s.skipStack == [] && tag != Br
    ensures Feed(clean, s, [StartEndTag(tag)]) ==
      if tag.Ignored? || tag == Embed then s else Feed(clean, s, [StartTag(tag)] + [] + [EndTag(tag)])
  {
    FeedOne(clean, s, StartEndTag(tag));
    FeedClosed(clean, s, tag, []);
  }

  // ---- scopes ----

  /** How many elements of a tag are open after some events; an end tag without a start closes none. */
  function OpenCount(events: seq<Event>, tag: Tag): nat {
    if events == [] then 0
    else
      Counted(OpenCount(events[..|events| - 1], tag), events[|events| - 1], tag)
  }

  predicate NoIgnored(events: seq<Event>) {
    forall i :: 0 <= i < |events| ==> !((events[i].StartTag? || events[i].EndTag?) && events[i].tag.Ignored?)
  }

  function Counted(before: nat, e: Event, tag: Tag): nat {
    if e == StartTag(tag) then before + 1 else if e == EndTag(tag) && before > 0 then before - 1 else before
  }

  lemma ArticleStep(clean: Parts -> string, s: State, e: Event)
    requires s.skipStack == [] && !((e.StartTag? || e.EndTag?) && e.tag.Ignored?)
    ensures Step(clean, s, e).articleDepth == Counted(s.articleDepth, e, Article)
  {
  }

  lemma SkipStep(clean: Parts -> string, s: State, e: Event)
    requires s.skipStack == [] && !((e.StartTag? || e.EndTag?) && e.tag.Ignored?)
    ensures Step(clean, s, e).skipStack == []
  {
  }

  lemma MainStep(clean: Parts -> string, s: State, e: Event)
    requires s.skipStack == [] && !((e.StartTag? || e.EndTag?) && e.tag.Ignored?)
    ensures Step(clean, s, e).mainDepth == Counted(s.mainDepth, e, MainPart)
  {
  }

  /** The depths count the open articles and main parts. */
  lemma {:induction false} DepthsAreCounts(clean: Parts -> string, events: seq<Event>)
    requires NoIgnored(events)
    ensures var s := Feed(clean, INITIAL, events);
      && s.skipStack == []
      && s.articleDepth == OpenCount(events, Article) && s.mainDepth == OpenCount(events, MainPart)
    decreases |events|
  {
    if events != [] {
      var n := |events| - 1;
      DepthsAreCounts(clean, events[..n]);
      SkipStep(clean, Feed(clean, INITIAL, events[..n]), events[n]);
      ArticleStep(clean, Feed(clean, INITIAL, events[..n]), events[n]);
      MainStep(clean, Feed(clean, INITIAL, events[..n]), events[n]);
    }
  }

  /** The scope of what follows a document: an article if one is open, else a main part if one is open,
      else neither; elements that are ignored do not count. */
  lemma ScopeIsWhatIsOpen(clean: Parts -> string, d: Doc)
    requires Balanced(d)
    ensures var s, events := Feed(clean, INITIAL, Events(d)), Events(Prune(d));
      ScopeAt(s) == if OpenCount(events, Article) > 0 then InArticle
                    else if OpenCount(events, MainPart) > 0 then InMain else Fallback
  {
    PruningKeepsState(clean, INITIAL, d);
    var events := Events(Prune(d));
    forall i | 0 <= i < |events| ensures !((events[i].StartTag? || events[i].EndTag?) && events[i].tag.Ignored?) {
      PrunedIsPlain(d, i);
    }
    DepthsAreCounts(clean, events);
  }

  // ---- names ----

  predicate IsHeadingName(name: string) {
    |name| == 2 && name[0] == 'h' && '1' <= name[1] <= '6'
  }

  /** The heading tags are h1 to h6, with the digit as their level. */
  lemma HeadingTagsAreH1ToH6(name: string)
    ensures TagOf(name).H? <==> IsHeadingName(name)
    ensures IsHeadingName(name) ==> TagOf(name) == H(name[1] as int - '0' as int)
  {
    if IsHeadingName(name) {
      assert name == ['h', name[1]];
      HeadingNameIsNotIgnored(name);
    }
  }

  lemma HeadingNameIsNotIgnored(name: string)
    requires |name| == 2
    ensures name !in IGNORED_NAMES
  {
    forall i | 0 <= i < |IGNORED_NAMES| ensures |IGNORED_NAMES[i]| > 2 {
    }
  }

  function NameOf(tag: Tag): string {
    match tag
    case Ignored(name) => name
    case Embed => "embed"
    case Article => "article"
    case MainPart => "main"
    case Body => "body"
    case Br => "br"
    case Title => "title"
    case H(level) => ['h', if 1 <= level <= 6 then ['0', '1', '2', '3', '4', '5', '6'][level] else '?']
    case P => "p"
    case Li => "li"
    case Other(name) => name
  }

  /** A tag keeps its name, so that an end tag matches only a start tag of the same name. */
  lemma TagKeepsName(name: string)
    ensures NameOf(TagOf(name)) == name
  {
  }

  /** The elements that are left out, with all that is inside them. */
  lemma IgnoredTagsAreThese(name: string)
    ensures TagOf(name).Ignored? <==>
      name in {"script", "style", "form", "nav", "noscript", "template", "svg", "canvas", "iframe", "object",
               "header", "footer", "aside"}
  {
  }
}
