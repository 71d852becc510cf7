/** `_KnowledgeHtmlParser`: text candidates from a stream of tag events. How the parts of a capture
    are cleaned is a parameter `clean`. */
module HtmlParser {
  import opened Common

  /** Tag names, by the part they play. */
  datatype Tag =
    | Ignored(name: string)
    | Embed
    | Article
    | MainPart
    | Body
    | Br
    | Title
    | H(level: nat)
    | P
    | Li
    | Other(name: string)

  const IGNORED_NAMES: seq<string> :=
    ["script", "style", "form", "nav", "noscript", "template", "svg", "canvas", "iframe", "object",
     "header", "footer", "aside"]

  function TagOf(name: string): Tag {
    if name in IGNORED_NAMES then Ignored(name)
    else match name
      case "embed" => Embed
      case "article" => Article
      case "main" => MainPart
      case "body" => Body
      case "br" => Br
      case "title" => Title
      case "h1" => H(1)
      case "h2" => H(2)
      case "h3" => H(3)
      case "h4" => H(4)
      case "h5" => H(5)
      case "h6" => H(6)
      case "p" => P
      case "li" => Li
      case _ => Other(name)
  }

  datatype Kind = TitleText | HeadingText | ContentText
  datatype Scope = InArticle | InMain | Fallback

  datatype Candidate = Candidate(kind: Kind, text: string, scope: Scope, headingLevel: Option<nat>)

  /** A missing part is a line break. */
  type Parts = seq<Option<string>>

  datatype Capture = Capture(tag: Tag, kind: Kind, scope: Scope, headingLevel: Option<nat>, parts: Parts)

  datatype State = State(
    titles: seq<string>,
    candidates: seq<Candidate>,
    capture: Option<Capture>,
    skipStack: seq<Tag>,
    articleDepth: nat,
    mainDepth: nat,
    bodyDepth: nat)

  const INITIAL: State := State([], [], None, [], 0, 0, 0)

  datatype Event = StartTag(tag: Tag) | EndTag(tag: Tag) | StartEndTag(tag: Tag) | Data(text: string)

  // ---- what one event does ----

  function CurrentScope(s: State): Scope {
    if s.articleDepth > 0 then InArticle else if s.mainDepth > 0 then InMain else Fallback
  }

  function AddPart(s: State, part: Option<string>): State {
    match s.capture
    case None => s
    case Some(c) => s.(capture := Some(c.(parts := c.parts + [part])))
  }

  function Opened(s: State, tag: Tag): State {
    if s.capture.Some? then s
    else match tag
      case Title => s.(capture := Some(Capture(tag, TitleText, Fallback, None, [])))
      case H(level) => s.(capture := Some(Capture(tag, HeadingText, CurrentScope(s), Some(level), [])))
      case P => s.(capture := Some(Capture(tag, ContentText, CurrentScope(s), None, [])))
      case Li => s.(capture := Some(Capture(tag, ContentText, CurrentScope(s), None, [])))
      case _ => s
  }

  function OnStart(s: State, tag: Tag): State {
    if tag.Ignored? then s.(skipStack := s.skipStack + [tag])
    else if s.skipStack != [] then s
    else match tag
      case Embed => s
      case Article => s.(articleDepth := s.articleDepth + 1)
      case MainPart => s.(mainDepth := s.mainDepth + 1)
      case Body => s.(bodyDepth := s.bodyDepth + 1)
      case Br => AddPart(s, None)
      case _ => Opened(s, tag)
  }

  function FinishCapture(clean: Parts -> string, s: State): State {
    match s.capture
    case None => s
    case Some(c) =>
      var text, rest := clean(c.parts), s.(capture := None);
      if text == "" then rest
      else if c.kind == TitleText then rest.(titles := s.titles + [text])
      else rest.(candidates := s.candidates + [Candidate(c.kind, text, c.scope, c.headingLevel)])
  }

  function Leave(s: State, tag: Tag): State {
    match tag
    case Article => if s.articleDepth > 0 then s.(articleDepth := s.articleDepth - 1) else s
    case MainPart => if s.mainDepth > 0 then s.(mainDepth := s.mainDepth - 1) else s
    case Body => if s.bodyDepth > 0 then s.(bodyDepth := s.bodyDepth - 1) else s
    case _ => s
  }

  function OnEnd(clean: Parts -> string, s: State, tag: Tag): State {
    var n := |s.skipStack|;
    if n > 0 then
      if tag == s.skipStack[n - 1] then s.(skipStack := s.skipStack[..n - 1]) else s
    else
      Leave(if s.capture.Some? && s.capture.value.tag == tag then FinishCapture(clean, s) else s, tag)
  }

  function OnStartEnd(clean: Parts -> string, s: State, tag: Tag): State {
    if s.skipStack != [] || tag.Ignored? || tag == Embed then s
    else if tag == Br then AddPart(s, None)
    else OnEnd(clean, OnStart(s, tag), tag)
  }

  function OnData(s: State, text: string): State {
    if s.skipStack == [] then AddPart(s, Some(text)) else s
  }

  function Step(clean: Parts -> string, s: State, e: Event): State {
    match e
    case StartTag(tag) => OnStart(s, tag)
    case EndTag(tag) => OnEnd(clean, s, tag)
    case StartEndTag(tag) => OnStartEnd(clean, s, tag)
    case Data(text) => OnData(s, text)
  }

  function Feed(clean: Parts -> string, s: State, events: seq<Event>): State {
    if events == [] then s
    else Step(clean, Feed(clean, s, events[..|events| - 1]), events[|events| - 1])
  }

  /** `finish`: an open capture counts, outside ignored elements. */
  function Finish(clean: Parts -> string, s: State): State {
    if s.skipStack == [] then FinishCapture(clean, s) else s
  }

  // ---- the parser itself ----

  class KnowledgeHtmlParser {
    const clean: Parts -> string
    var titles: seq<string>
    var candidates: seq<Candidate>
    var capture: Option<Capture>
    var skipStack: seq<Tag>
    var articleDepth: nat
    var mainDepth: nat
    var bodyDepth: nat

    function Now(): State
      reads this
    {
      State(titles, candidates, capture, skipStack, articleDepth, mainDepth, bodyDepth)
    }

    constructor (clean: Parts -> string)
      ensures this.clean == clean && Now() == INITIAL
    {
      this.clean := clean;
      titles, candidates, capture, skipStack := [], [], None, [];
      articleDepth, mainDepth, bodyDepth := 0, 0, 0;
    }

    method AppendPart(part: Option<string>)
      requires capture.Some?
      modifies this`capture
      ensures Now() == AddPart(old(Now()), part)
    {
      var c := capture.value;
      capture := Some(c.(parts := c.parts + [part]));
    }

    method HandleStartTag(tag: Tag)
      modifies this
      ensures Now() == OnStart(old(Now()), tag)
    {
      if skipStack != [] && tag.Ignored? {
        skipStack := skipStack + [tag];
        return;
      }
      if skipStack != [] {
        return;
      }
      if tag.Ignored? {
        skipStack := skipStack + [tag];
        return;
      }
      if tag == Embed {
        return;
      }
      if tag == Article {
        articleDepth := articleDepth + 1;
        return;
      }
      if tag == MainPart {
        mainDepth := mainDepth + 1;
        return;
      }
      if tag == Body {
        bodyDepth := bodyDepth + 1;
        return;
      }
      if tag == Br && capture.Some? {
        AppendPart(None);
        return;
      }
      if tag == Br {
        return;
      }
      if capture.Some? {
        return;
      }
      if tag == Title {
        capture := Some(Capture(tag, TitleText, Fallback, None, []));
        return;
      }
      if tag.H? {
        capture := Some(Capture(tag, HeadingText, CurrentScope(Now()), Some(tag.level), []));
        return;
      }
      if tag == P || tag == Li {
        capture := Some(Capture(tag, ContentText, CurrentScope(Now()), None, []));
      }
    }

    method CloseCapture()
      modifies this
      ensures Now() == FinishCapture(clean, old(Now()))
    {
      var closed := capture;
      capture := None;
      if closed.None? {
        return;
      }
      var text := clean(closed.value.parts);
      if text == "" {
        return;
      }
      if closed.value.kind == TitleText {
        titles := titles + [text];
        return;
      }
      candidates := candidates
        + [Candidate(closed.value.kind, text, closed.value.scope, closed.value.headingLevel)];
    }

    method HandleEndTag(tag: Tag)
      modifies this
      ensures Now() == OnEnd(clean, old(Now()), tag)
    {
      if skipStack != [] {
        if tag == skipStack[|skipStack| - 1] {
          skipStack := skipStack[..|skipStack| - 1];
        }
        return;
      }
      if capture.Some? && tag == capture.value.tag {
        CloseCapture();
      }
      if tag == Article && articleDepth > 0 {
        articleDepth := articleDepth - 1;
      } else if tag == MainPart && mainDepth > 0 {
        mainDepth := mainDepth - 1;
      } else if tag == Body && bodyDepth > 0 {
        bodyDepth := bodyDepth - 1;
      }
    }

    method HandleStartEndTag(tag: Tag)
      modifies this
      ensures Now() == OnStartEnd(clean, old(Now()), tag)
    {
      if skipStack != [] || tag.Ignored? || tag == Embed {
        return;
      }
      if tag == Br && capture.Some? {
        AppendPart(None);
        return;
      }
      if tag == Br {
        return;
      }
      HandleStartTag(tag);
      HandleEndTag(tag);
    }

    method HandleData(text: string)
      modifies this
      ensures Now() == OnData(old(Now()), text)
    {
      if skipStack == [] && capture.Some? {
        AppendPart(Some(text));
      }
    }

    method Handle(e: Event)
      modifies this
      ensures Now() == Step(clean, old(Now()), e)
    {
      match e
      case StartTag(tag) => HandleStartTag(tag);
      case EndTag(tag) => HandleEndTag(tag);
      case StartEndTag(tag) => HandleStartEndTag(tag);
      case Data(text) => HandleData(text);
    }

    /** All events, and the end of input. */
    method Parse(events: seq<Event>)
      modifies this
      ensures Now() == Finish(clean, Feed(clean, old(Now()), events))
    {
      for i := 0 to |events|
        invariant Now() == Feed(clean, old(Now()), events[..i])
      {
        assert events[..i + 1][..i] == events[..i];
        Handle(events[i]);
      }
      assert events[..|events|] == events;
      if capture.Some? && skipStack == [] {
        CloseCapture();
      }
    }
  }
}
