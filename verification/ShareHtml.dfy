/** The share viewer's HTML: one flat loop over a document's events, and the tree it stands
    for. The Markdown parser is not part of this model: its events come well nested. */
module ShareHtml {
  import opened Wrappers
  import CanonicalJson

  // ----- text -----

  function EscapedChar(c: char): string {
    if c == '&' then "&amp;"
    else if c == '<' then "&lt;"
    else if c == '>' then "&gt;"
    else if c == '"' then "&quot;"
    else if c == '\'' then "&#39;"
    else [c]
  }

  function Escaped(text: string): string {
    if text == [] then [] else Escaped(text[..|text| - 1]) + EscapedChar(text[|text| - 1])
  }

  method Escape(text: string) returns (out: string)
    ensures out == Escaped(text)
  {
    out := [];
    for i := 0 to |text|
      invariant out == Escaped(text[..i])
    {
      assert text[..i + 1][..i] == text[..i];
      match text[i]
      case '&' => out := out + "&amp;";
      case '<' => out := out + "&lt;";
      case '>' => out := out + "&gt;";
      case '"' => out := out + "&quot;";
      case '\'' => out := out + "&#39;";
      case c => out := out + [c];
    }
    assert text[..|text|] == text;
  }

  function HasPrefix(text: string, prefix: string): bool { |prefix| <= |text| && text[..|prefix|] == prefix }

  /** What a browser reads escaped text as: the five references back to their characters. */
  function Unescaped(text: string): string
    decreases |text|
  {
    if text == [] then []
    else if HasPrefix(text, "&amp;") then "&" + Unescaped(text[5..])
    else if HasPrefix(text, "&lt;") then "<" + Unescaped(text[4..])
    else if HasPrefix(text, "&gt;") then ">" + Unescaped(text[4..])
    else if HasPrefix(text, "&quot;") then "\"" + Unescaped(text[6..])
    else if HasPrefix(text, "&#39;") then "'" + Unescaped(text[5..])
    else [text[0]] + Unescaped(text[1..])
  }

  lemma NoPrefix(text: string, prefix: string, i: nat)
    requires i < |text| && i < |prefix| && text[i] != prefix[i]
    ensures !HasPrefix(text, prefix)
  {
  }

  lemma UnescapedChar(c: char, rest: string)
    ensures Unescaped(EscapedChar(c) + rest) == [c] + Unescaped(rest)
  {
    var e := EscapedChar(c);
    var text := e + rest;
    assert text[..|e|] == e && text[|e|..] == rest && text[0] == e[0];
    if c == '&' {
      assert HasPrefix(text, "&amp;");
    } else if c in {'<', '>', '"', '\''} {
      assert text[1] == e[1];
      NoPrefix(text, "&amp;", 1);
      if c != '<' { NoPrefix(text, "&lt;", 1); }
      if c in {'"', '\''} { NoPrefix(text, "&gt;", 1); }
      if c == '\'' { NoPrefix(text, "&quot;", 1); }
    } else {
      NoPrefix(text, "&amp;", 0);
      NoPrefix(text, "&lt;", 0);
      NoPrefix(text, "&gt;", 0);
      NoPrefix(text, "&quot;", 0);
      NoPrefix(text, "&#39;", 0);
    }
  }

  lemma {:induction false} UnescapedOnto(text: string, rest: string)
    ensures Unescaped(Escaped(text) + rest) == text + Unescaped(rest)
  {
    hide Unescaped, EscapedChar;
    if text == [] {
      assert Escaped(text) + rest == rest;
    } else {
      var n := |text| - 1;
      assert Escaped(text) + rest == Escaped(text[..n]) + (EscapedChar(text[n]) + rest);
      UnescapedOnto(text[..n], EscapedChar(text[n]) + rest);
      UnescapedChar(text[n], rest);
      assert text == text[..n] + [text[n]];
    }
  }

  /** Escaping loses nothing. */
  lemma EscapeReverses(text: string)
    ensures Unescaped(Escaped(text)) == text
  {
    UnescapedOnto(text, "");
    assert Escaped(text) + "" == Escaped(text);
  }

  /** Escaped text never opens or closes a tag or an attribute. */
  lemma {:induction false} EscapedInert(text: string)
    ensures forall c <- Escaped(text) :: c !in {'<', '>', '"', '\''}
  {
    if text != [] { EscapedInert(text[..|text| - 1]); }
  }

  // ----- links -----

  /** Unicode white space. */
  predicate IsSpace(c: char) {
    var n := c as int;
    || 9 <= n <= 13 || n in {32, 0x85, 0xA0, 0x1680, 0x2028, 0x2029, 0x202F, 0x205F, 0x3000} || 0x2000 <= n <= 0x200A
  }

  function Trimmed(text: string): string {
    if text != [] && IsSpace(text[0]) then Trimmed(text[1..])
    else if text != [] && IsSpace(text[|text| - 1]) then Trimmed(text[..|text| - 1])
    else text
  }

  function Lower(text: string): string {
    if text == [] then []
    else [if 'A' <= text[0] <= 'Z' then text[0] - 'A' + 'a' else text[0]] + Lower(text[1..])
  }

  predicate AllowedLink(url: string) {
    var lower := Lower(Trimmed(url));
    HasPrefix(lower, "https://") || HasPrefix(lower, "http://") || HasPrefix(lower, "mailto:") || HasPrefix(lower, "#")
  }

  // ----- events -----

  type Level = n: nat | 1 <= n <= 6 witness 1

  datatype Tag =
    | Paragraph | Heading(level: Level) | BlockQuote | CodeBlock | List(start: Option<nat>) | Item
    | Emphasis | Strong | Strikethrough | Link(url: string) | Image | Table | TableHead | TableRow | TableCell
    | Metadata | OtherTag

  datatype TagEnd =
    | ParagraphEnd | HeadingEnd(level: Level) | BlockQuoteEnd | CodeBlockEnd | ListEnd(ordered: bool) | ItemEnd
    | EmphasisEnd | StrongEnd | StrikethroughEnd | LinkEnd | ImageEnd | TableEnd | TableHeadEnd | TableRowEnd
    | TableCellEnd | MetadataEnd | OtherEnd

  datatype Event =
    | Start(tag: Tag) | End(end: TagEnd) | Text(text: string) | Code(text: string) | SoftBreak | HardBreak | Rule
    | TaskListMarker(done: bool) | FootnoteReference(name: string) | Math(text: string) | Html(text: string)

  function EndOf(tag: Tag): TagEnd {
    match tag
    case Paragraph => ParagraphEnd
    case Heading(level) => HeadingEnd(level)
    case BlockQuote => BlockQuoteEnd
    case CodeBlock => CodeBlockEnd
    case List(start) => ListEnd(start.Some?)
    case Item => ItemEnd
    case Emphasis => EmphasisEnd
    case Strong => StrongEnd
    case Strikethrough => StrikethroughEnd
    case Link(_) => LinkEnd
    case Image => ImageEnd
    case Table => TableEnd
    case TableHead => TableHeadEnd
    case TableRow => TableRowEnd
    case TableCell => TableCellEnd
    case Metadata => MetadataEnd
    case OtherTag => OtherEnd
  }

  // ----- the flat loop -----

  function HeadingName(level: Level): string { "h" + CanonicalJson.Decimal(level) }

  /** What the loop keeps: its output, whether each open link rendered, the depth of open
      images, and whether it is in metadata or in a table's head. */
  datatype Writer = Writer(out: string, links: seq<bool>, depth: nat, metadata: bool, head: bool)

  /** A list says where it starts, unless at 1. */
  function ListAttribute(start: nat): string {
    if start != 1 then " start=\"" + CanonicalJson.Decimal(start) + "\"" else ""
  }

  function LinkAttributes(url: string): string {
    " href=\"" + Escaped(url) + "\" rel=\"noopener noreferrer nofollow\""
  }

  function Opening(name: string, attributes: string): string { "<" + name + attributes + ">" }

  function Closing(name: string): string { "</" + name + ">" }

  function StartText(tag: Tag, head: bool): string {
    match tag
    case Paragraph => Opening("p", "")
    case Heading(level) => Opening(HeadingName(level), "")
    case BlockQuote => Opening("blockquote", "")
    case CodeBlock => Opening("pre", "") + Opening("code", "")
    case List(Some(start)) => Opening("ol", ListAttribute(start))
    case List(None) => Opening("ul", "")
    case Item => Opening("li", "")
    case Emphasis => Opening("em", "")
    case Strong => Opening("strong", "")
    case Strikethrough => Opening("del", "")
    case Link(url) => if AllowedLink(url) then Opening("a", LinkAttributes(url)) else ""
    case Table => Opening("table", "")
    case TableHead => Opening("thead", "") + Opening("tr", "")
    case TableRow => Opening("tr", "")
    case TableCell => Opening(if head then "th" else "td", "")
    case _ => ""
  }

  function EndText(end: TagEnd, head: bool, open: bool): string {
    match end
    case ParagraphEnd => Closing("p")
    case HeadingEnd(level) => Closing(HeadingName(level))
    case BlockQuoteEnd => Closing("blockquote")
    case CodeBlockEnd => Closing("code") + Closing("pre")
    case ListEnd(ordered) => Closing(if ordered then "ol" else "ul")
    case ItemEnd => Closing("li")
    case EmphasisEnd => Closing("em")
    case StrongEnd => Closing("strong")
    case StrikethroughEnd => Closing("del")
    case LinkEnd => if open then Closing("a") else ""
    case TableEnd => Closing("tbody") + Closing("table")
    case TableHeadEnd => Closing("tr") + Closing("thead") + Opening("tbody", "")
    case TableRowEnd => Closing("tr")
    case TableCellEnd => Closing(if head then "th" else "td")
    case _ => ""
  }

  function LeafText(event: Event, metadata: bool): string {
    match event
    case Text(text) => if metadata then "" else Escaped(text)
    case Code(text) => Opening("code", "") + Escaped(text) + Closing("code")
    case SoftBreak => "\n"
    case HardBreak => Opening("br", "")
    case Rule => Opening("hr", "")
    case TaskListMarker(done) => if done then "\U{2611} " else "\U{2610} "
    case FootnoteReference(name) => "[" + Escaped(name) + "]"
    case Math(text) => Escaped(text)
    case _ => ""
  }

  function Step(w: Writer, event: Event): Writer {
    if w.depth > 0 then
      if event == Start(Image) then w.(depth := w.depth + 1)
      else if event == End(ImageEnd) then w.(depth := w.depth - 1)
      else w
    else match event
      case Start(tag) =>
        var next := w.(out := w.out + StartText(tag, w.head));
        (match tag
         case Link(url) => next.(links := w.links + [AllowedLink(url)])
         case Image => next.(depth := 1)
         case TableHead => next.(head := true)
         case Metadata => next.(metadata := true)
         case _ => next)
      case End(end) =>
        var open := w.links != [] && w.links[|w.links| - 1];
        var next := w.(out := w.out + EndText(end, w.head, open));
        (match end
         case LinkEnd => if w.links == [] then next else next.(links := w.links[..|w.links| - 1])
         case TableHeadEnd => next.(head := false)
         case MetadataEnd => next.(metadata := false)
         case _ => next)
      case _ => w.(out := w.out + LeafText(event, w.metadata))
  }

  function Written(w: Writer, events: seq<Event>): Writer {
    if events == [] then w else Step(Written(w, events[..|events| - 1]), events[|events| - 1])
  }

  const BLANK := Writer("", [], 0, false, false)

  /** One event outside any image. */
  method WriteEvent(event: Event, w: Writer) returns (out: string, links: seq<bool>, depth: nat, metadata: bool, head: bool)
    requires w.depth == 0
    ensures Writer(out, links, depth, metadata, head) == Step(w, event)
  {
    hide StartText, EndText, LeafText, AllowedLink;
    out, links, depth, metadata, head := w.out, w.links, w.depth, w.metadata, w.head;
    match event
    case Start(tag) =>
      out := out + StartText(tag, head);
      match tag {
        case Link(url) => links := links + [AllowedLink(url)];
        case Image => depth := 1;
        case TableHead => head := true;
        case Metadata => metadata := true;
        case _ =>
      }
    case End(end) =>
      out := out + EndText(end, head, links != [] && links[|links| - 1]);
      match end {
        case LinkEnd => if links != [] { links := links[..|links| - 1]; }
        case TableHeadEnd => head := false;
        case MetadataEnd => metadata := false;
        case _ =>
      }
    case _ => out := out + LeafText(event, metadata);
  }

  method Render(events: seq<Event>) returns (out: string)
    ensures out == Written(BLANK, events).out
  {
    hide StartText, EndText, LeafText, AllowedLink;
    out := "";
    var links: seq<bool> := [];
    var imageDepth: nat := 0;
    var metadata, inHead := false, false;
    for i := 0 to |events|
      invariant Writer(out, links, imageDepth, metadata, inHead) == Written(BLANK, events[..i])
    {
      assert events[..i + 1][..i] == events[..i];
      if imageDepth > 0 {
        if events[i] == Start(Image) {
          imageDepth := imageDepth + 1;
        } else if events[i] == End(ImageEnd) {
          imageDepth := imageDepth - 1;
        }
        continue;
      }
      out, links, imageDepth, metadata, inHead :=
        WriteEvent(events[i], Writer(out, links, imageDepth, metadata, inHead));
    }
    assert events[..|events|] == events;
  }

  // ----- the tree -----

  datatype Node = Element(tag: Tag, children: Nodes) | Leaf(event: Event)

  datatype Nodes = Empty | More(head: Node, tail: Nodes)

  /** The events of a tree, as a parser streams them. */
  function Flat(nodes: Nodes): seq<Event> {
    match nodes
    case Empty => []
    case More(head, tail) => FlatNode(head) + Flat(tail)
  }

  function FlatNode(node: Node): seq<Event> {
    match node
    case Element(tag, children) => [Start(tag)] + Flat(children) + [End(EndOf(tag))]
    case Leaf(event) => [event]
  }

  /** Leaves are not starts or ends; a table's head holds no other head, and metadata no
      other metadata. */
  predicate Proper(nodes: Nodes, head: bool, metadata: bool) {
    match nodes
    case Empty => true
    case More(first, rest) => ProperNode(first, head, metadata) && Proper(rest, head, metadata)
  }

  predicate ProperNode(node: Node, head: bool, metadata: bool) {
    match node
    case Leaf(event) => !event.Start? && !event.End?
    case Element(Image, children) => Leaves(children)
    case Element(TableHead, children) => !head && Proper(children, true, metadata)
    case Element(Metadata, children) => !metadata && Proper(children, head, true)
    case Element(_, children) => Proper(children, head, metadata)
  }

  /** No leaf is a start or an end. */
  predicate Leaves(nodes: Nodes) {
    match nodes
    case Empty => true
    case More(Leaf(event), rest) => !event.Start? && !event.End? && Leaves(rest)
    case More(Element(_, children), rest) => Leaves(children) && Leaves(rest)
  }

  /** One piece of HTML. */
  datatype Token = Open(name: string, attributes: string) | Close(name: string) | Void(name: string) | Chars(text: string)

  function Shown(tokens: seq<Token>): string {
    if tokens == [] then "" else Shown(tokens[..|tokens| - 1]) + ShownToken(tokens[|tokens| - 1])
  }

  function ShownToken(token: Token): string {
    match token
    case Open(name, attributes) => Opening(name, attributes)
    case Close(name) => Closing(name)
    case Void(name) => Opening(name, "")
    case Chars(text) => Escaped(text)
  }

  function Wrapped(name: string, inner: seq<Token>): seq<Token> { [Open(name, "")] + inner + [Close(name)] }

  /** The HTML of a tree. */
  function TreeHtml(nodes: Nodes, head: bool, metadata: bool): seq<Token> {
    match nodes
    case Empty => []
    case More(first, rest) => NodeHtml(first, head, metadata) + TreeHtml(rest, head, metadata)
  }

  function NodeHtml(node: Node, head: bool, metadata: bool): seq<Token> {
    match node
    case Leaf(event) => LeafTokens(event, metadata)
    case Element(Image, _) => []
    case Element(TableHead, children) =>
      Wrapped("thead", Wrapped("tr", TreeHtml(children, true, metadata))) + [Open("tbody", "")]
    case Element(Table, children) =>
      [Open("table", "")] + TreeHtml(children, head, metadata) + [Close("tbody"), Close("table")]
    case Element(Metadata, children) => TreeHtml(children, head, true)
    case Element(tag, children) => Around(tag, head, TreeHtml(children, head, metadata))
  }

  function Around(tag: Tag, head: bool, inner: seq<Token>): seq<Token> {
    match tag
    case Paragraph => Wrapped("p", inner)
    case Heading(level) => Wrapped(HeadingName(level), inner)
    case BlockQuote => Wrapped("blockquote", inner)
    case CodeBlock => Wrapped("pre", Wrapped("code", inner))
    case List(Some(start)) =>
      [Open("ol", ListAttribute(start))] + inner + [Close("ol")]
    case List(None) => Wrapped("ul", inner)
    case Item => Wrapped("li", inner)
    case Emphasis => Wrapped("em", inner)
    case Strong => Wrapped("strong", inner)
    case Strikethrough => Wrapped("del", inner)
    case Link(url) =>
      if AllowedLink(url)
      then [Open("a", LinkAttributes(url))] + inner + [Close("a")]
      else inner
    case TableRow => Wrapped("tr", inner)
    case TableCell => Wrapped(if head then "th" else "td", inner)
    case _ => inner
  }

  function LeafTokens(event: Event, metadata: bool): seq<Token> {
    match event
    case Text(text) => if metadata then [] else [Chars(text)]
    case Code(text) => Wrapped("code", [Chars(text)])
    case SoftBreak => [Chars("\n")]
    case HardBreak => [Void("br")]
    case Rule => [Void("hr")]
    case TaskListMarker(done) => [Chars(if done then "\U{2611} " else "\U{2610} ")]
    case FootnoteReference(name) => [Chars("[" + name + "]")]
    case Math(text) => [Chars(text)]
    case _ => []
  }

  // ----- what tokens print -----

  lemma {:induction false} ShownSplits(a: seq<Token>, b: seq<Token>)
    ensures Shown(a + b) == Shown(a) + Shown(b)
  {
    hide ShownToken;
    if b == [] {
      assert a + b == a;
    } else {
      var n := |b| - 1;
      assert (a + b)[..|a + b| - 1] == a + b[..n];
      ShownSplits(a, b[..n]);
      assert Shown(a) + Shown(b[..n]) + ShownToken(b[n]) == Shown(a) + (Shown(b[..n]) + ShownToken(b[n]));
    }
  }

  lemma {:induction false} WrittenSplits(w: Writer, a: seq<Event>, b: seq<Event>)
    ensures Written(w, a + b) == Written(Written(w, a), b)
  {
    hide Step;
    if b == [] {
      assert a + b == a;
    } else {
      var n := |b| - 1;
      assert (a + b)[..|a + b| - 1] == a + b[..n];
      WrittenSplits(w, a, b[..n]);
    }
  }


  lemma ShownWrapped(name: string, inner: seq<Token>)
    ensures Shown(Wrapped(name, inner)) == Opening(name, "") + Shown(inner) + Closing(name)
  {
    ShownAround(Open(name, ""), inner, Close(name));
  }

  lemma ShownAround(open: Token, inner: seq<Token>, close: Token)
    ensures Shown([open] + inner + [close]) == ShownToken(open) + Shown(inner) + ShownToken(close)
  {
    hide ShownToken;
    ShownSplits([open] + inner, [close]);
    ShownSplits([open], inner);
    assert Shown([open]) == ShownToken(open) && Shown([close]) == ShownToken(close) by {
      assert [open][..0] == [] && [close][..0] == [];
    }
  }

  lemma Regroup(a: string, b: string, x: string, c: string, d: string)
    ensures a + (b + x + c) + d == (a + b) + x + (c + d)
  {
  }

  /** Written text around an element's children is its tokens' text. */
  lemma TagShown(tag: Tag, head: bool, inner: seq<Token>)
    requires !tag.Image? && !tag.Table? && !tag.TableHead? && !tag.Metadata?
    ensures StartText(tag, head) + Shown(inner) + EndText(EndOf(tag), head, tag.Link? && AllowedLink(tag.url))
         == Shown(Around(tag, head, inner))
  {
    hide Shown, AllowedLink, HeadingName, ListAttribute, LinkAttributes, Opening, Closing;
    match tag
    case Paragraph => ShownWrapped("p", inner);
    case Heading(level) => ShownWrapped(HeadingName(level), inner);
    case BlockQuote => ShownWrapped("blockquote", inner);
    case CodeBlock =>
      ShownWrapped("pre", Wrapped("code", inner));
      ShownWrapped("code", inner);
      Regroup(Opening("pre", ""), Opening("code", ""), Shown(inner), Closing("code"), Closing("pre"));
    case List(Some(start)) => ShownAround(Open("ol", ListAttribute(start)), inner, Close("ol"));
    case List(None) => ShownWrapped("ul", inner);
    case Item => ShownWrapped("li", inner);
    case Emphasis => ShownWrapped("em", inner);
    case Strong => ShownWrapped("strong", inner);
    case Strikethrough => ShownWrapped("del", inner);
    case Link(url) => if AllowedLink(url) { ShownAround(Open("a", LinkAttributes(url)), inner, Close("a")); }
    case TableRow => ShownWrapped("tr", inner);
    case TableCell => ShownWrapped(if head then "th" else "td", inner);
    case _ =>
  }

  lemma ShownLast(tokens: seq<Token>, last: Token)
    ensures Shown(tokens + [last]) == Shown(tokens) + ShownToken(last)
  {
    assert (tokens + [last])[..|tokens|] == tokens;
  }

  lemma Append(a: string, b: string, c: string, d: string)
    ensures a + b + c + d == a + b + (c + d)
  {
  }

  lemma TableTexts(head: bool)
    ensures StartText(Table, head) == Opening("table", "")
    ensures EndText(TableEnd, head, false) == Closing("tbody") + Closing("table")
  {
    hide Opening, Closing;
  }

  lemma TableShown(inner: seq<Token>, head: bool)
    ensures Shown([Open("table", "")] + inner + [Close("tbody"), Close("table")])
         == StartText(Table, head) + Shown(inner) + EndText(TableEnd, head, false)
  {
    var started := [Open("table", "")] + inner;
    assert started + [Close("tbody"), Close("table")] == (started + [Close("tbody")]) + [Close("table")];
    hide Opening, Closing, Shown, StartText, EndText;
    TableTexts(head);
    ShownLast(started + [Close("tbody")], Close("table"));
    ShownAround(Open("table", ""), inner, Close("tbody"));
    Append(Opening("table", ""), Shown(inner), Closing("tbody"), Closing("table"));
  }

  lemma HeadShown(inner: seq<Token>, head: bool)
    ensures Shown(Wrapped("thead", Wrapped("tr", inner)) + [Open("tbody", "")])
         == StartText(TableHead, head) + Shown(inner) + EndText(TableHeadEnd, false, false)
  {
    hide Opening, Closing, Shown, Wrapped;
    var wrapped := Wrapped("thead", Wrapped("tr", inner));
    ShownLast(wrapped, Open("tbody", ""));
    ShownWrapped("thead", Wrapped("tr", inner));
    ShownWrapped("tr", inner);
    Regroup(Opening("thead", ""), Opening("tr", ""), Shown(inner), Closing("tr"), Closing("thead"));
    Append(Opening("thead", "") + Opening("tr", ""), Shown(inner), Closing("tr") + Closing("thead"), Opening("tbody", ""));
  }

  // ----- the loop writes the tree -----

  lemma LeafShown(event: Event, metadata: bool)
    requires !event.Start? && !event.End?
    ensures Shown(LeafTokens(event, metadata)) == LeafText(event, metadata)
  {
    hide Opening, Closing;
    match event
    case Code(text) =>
      ShownWrapped("code", [Chars(text)]);
      ShownOne(Chars(text));
    case Text(text) => ShownOne(Chars(text));
    case SoftBreak => ShownOne(Chars("\n")); LeafEscapes(event);
    case HardBreak => ShownOne(Void("br"));
    case Rule => ShownOne(Void("hr"));
    case TaskListMarker(done) => ShownOne(Chars(if done then "\U{2611} " else "\U{2610} ")); LeafEscapes(event);
    case FootnoteReference(name) => ShownOne(Chars("[" + name + "]")); LeafEscapes(event);
    case Math(text) => ShownOne(Chars(text));
    case _ =>
  }

  lemma ShownOne(token: Token)
    ensures Shown([token]) == ShownToken(token)
  {
    hide ShownToken;
    assert [token][..0] == [];
  }

  lemma LeafEscapes(event: Event)
    ensures Escaped("\n") == "\n" && Escaped("\U{2611} ") == "\U{2611} " && Escaped("\U{2610} ") == "\U{2610} "
    ensures event.FootnoteReference? ==> Escaped("[" + event.name + "]") == "[" + Escaped(event.name) + "]"
  {
    EscapedOne('\n');
    EscapedTwo('\U{2611}', ' ');
    EscapedTwo('\U{2610}', ' ');
    if event.FootnoteReference? { EscapedBrackets(event.name); }
    hide Escaped;
  }

  lemma EscapedBrackets(name: string)
    ensures Escaped("[" + name + "]") == "[" + Escaped(name) + "]"
  {
    EscapedOne('[');
    EscapedOne(']');
    hide Escaped;
    EscapedSplits("[", name);
    EscapedSplits("[" + name, "]");
  }

  lemma EscapedOne(c: char)
    ensures Escaped([c]) == EscapedChar(c)
  {
    assert [c][..0] == [];
  }

  lemma EscapedTwo(c: char, d: char)
    ensures Escaped([c, d]) == EscapedChar(c) + EscapedChar(d)
  {
    assert [c, d][..1] == [c];
    EscapedOne(c);
  }

  lemma {:induction false} EscapedSplits(a: string, b: string)
    ensures Escaped(a + b) == Escaped(a) + Escaped(b)
  {
    hide EscapedChar;
    if b == [] {
      assert a + b == a;
    } else {
      var n := |b| - 1;
      assert (a + b)[..|a + b| - 1] == a + b[..n];
      EscapedSplits(a, b[..n]);
    }
  }

  /** Inside an image nothing is written, whatever it holds. */
  lemma {:induction false} ImageSkips(w: Writer, nodes: Nodes)
    requires w.depth > 0 && Leaves(nodes)
    ensures Written(w, Flat(nodes)) == w
    decreases nodes
  {
    hide Step;
    match nodes
    case Empty =>
    case More(head, rest) =>
      WrittenSplits(w, FlatNode(head), Flat(rest));
      ImageSkipsNode(w, head);
      ImageSkips(w, rest);
  }

  lemma {:induction false} ImageSkipsNode(w: Writer, node: Node)
    requires w.depth > 0 && (if node.Leaf? then !node.event.Start? && !node.event.End? else Leaves(node.children))
    ensures Written(w, FlatNode(node)) == w
    decreases node
  {
    match node
    case Leaf(event) =>
      WrittenOne(w, event);
    case Element(tag, children) =>
      ElementWritten(w, tag, children);
      ImageSkips(Step(w, Start(tag)), children);
      assert EndOf(tag) == ImageEnd <==> tag.Image?;
  }

  lemma WrittenOne(w: Writer, event: Event)
    ensures Written(w, [event]) == Step(w, event)
  {
    hide Step;
    assert [event][..0] == [];
  }

  /** An element's start, its children and its end. */
  lemma ElementWritten(w: Writer, tag: Tag, children: Nodes)
    ensures Written(w, FlatNode(Element(tag, children)))
         == Step(Written(Step(w, Start(tag)), Flat(children)), End(EndOf(tag)))
  {
    hide Step;
    WrittenSplits(w, [Start(tag)] + Flat(children), [End(EndOf(tag))]);
    WrittenSplits(w, [Start(tag)], Flat(children));
    WrittenOne(w, Start(tag));
    WrittenOne(Written(w, [Start(tag)] + Flat(children)), End(EndOf(tag)));
  }

  /** The writer after a tree's HTML. */
  function After(w: Writer, tokens: seq<Token>): Writer { w.(out := w.out + Shown(tokens)) }

  /** The loop over a tree's events writes the tree's HTML, and leaves its link stack, its
      image depth and its flags as they were. */
  lemma {:induction false} LoopWritesTree(w: Writer, nodes: Nodes)
    requires w.depth == 0 && Proper(nodes, w.head, w.metadata)
    ensures Written(w, Flat(nodes)) == After(w, TreeHtml(nodes, w.head, w.metadata))
    decreases nodes
  {
    hide Step, NodeHtml, ProperNode;
    match nodes
    case Empty =>
    case More(head, rest) =>
      LoopWritesNode(w, head);
      LoopWritesTree(After(w, NodeHtml(head, w.head, w.metadata)), rest);
      WritesBoth(w, FlatNode(head), Flat(rest), NodeHtml(head, w.head, w.metadata), TreeHtml(rest, w.head, w.metadata));
  }

  lemma WritesBoth(w: Writer, a: seq<Event>, b: seq<Event>, first: seq<Token>, more: seq<Token>)
    requires Written(w, a) == After(w, first) && Written(After(w, first), b) == After(After(w, first), more)
    ensures Written(w, a + b) == After(w, first + more)
  {
    hide Written, Shown;
    WrittenSplits(w, a, b);
    ShownSplits(first, more);
    assert w.out + Shown(first) + Shown(more) == w.out + (Shown(first) + Shown(more));
  }

  lemma {:induction false} LoopWritesNode(w: Writer, node: Node)
    requires w.depth == 0 && ProperNode(node, w.head, w.metadata)
    ensures Written(w, FlatNode(node)) == After(w, NodeHtml(node, w.head, w.metadata))
    decreases node
  {
    match node
    case Leaf(event) =>
      WrittenOne(w, event);
      LeafShown(event, w.metadata);
    case Element(tag, children) =>
      ElementWritten(w, tag, children);
      var start := Step(w, Start(tag));
      if tag.Image? {
        ImageSkips(start, children);
      } else {
        LoopWritesTree(start, children);
        ElementAfter(w, tag, TreeHtml(children, start.head, start.metadata), children);
      }
  }

  lemma MetadataShown(head: bool, inner: seq<Token>)
    ensures StartText(Metadata, head) + Shown(inner) + EndText(MetadataEnd, head, false) == Shown(inner)
  {
    hide Shown;
  }

  /** What an element writes before and after its children. */
  lemma ElementShown(tag: Tag, head: bool, metadata: bool, children: Nodes, inner: seq<Token>)
    requires !tag.Image?
    requires inner == TreeHtml(children, tag.TableHead? || head, tag.Metadata? || metadata)
    ensures Shown(NodeHtml(Element(tag, children), head, metadata))
         == StartText(tag, head) + Shown(inner)
            + EndText(EndOf(tag), !tag.TableHead? && head, tag.Link? && AllowedLink(tag.url))
  {
    hide Shown, StartText, EndText, Around, AllowedLink, TreeHtml;
    match tag
    case Table => TableShown(inner, head);
    case TableHead => HeadShown(inner, head);
    case Metadata => MetadataShown(head, inner);
    case _ => TagShown(tag, head, inner);
  }

  lemma EndIgnoresLinks(end: TagEnd, head: bool)
    ensures !end.LinkEnd? ==> EndText(end, head, true) == EndText(end, head, false)
    ensures end.TableHeadEnd? ==> EndText(end, true, false) == EndText(end, false, false)
  {
  }

  /** The end of an element whose children left the writer as its start did. */
  lemma WriterAfter(w: Writer, tag: Tag, inner: seq<Token>, html: seq<Token>)
    requires w.depth == 0 && !tag.Image? && (tag.TableHead? ==> !w.head) && (tag.Metadata? ==> !w.metadata)
    requires Shown(html) == StartText(tag, w.head) + Shown(inner)
                            + EndText(EndOf(tag), !tag.TableHead? && w.head, tag.Link? && AllowedLink(tag.url))
    ensures Step(After(Step(w, Start(tag)), inner), End(EndOf(tag))) == After(w, html)
  {
    hide StartText, EndText, Shown, AllowedLink;
    var open := tag.Link? && AllowedLink(tag.url);
    var start, end := StartText(tag, w.head), EndText(EndOf(tag), !tag.TableHead? && w.head, open);
    assert (w.out + start) + Shown(inner) + end == w.out + (start + Shown(inner) + end);
    assert (w.links + [open])[..|w.links|] == w.links;
    EndIgnoresLinks(EndOf(tag), w.head);
    EndIgnoresLinks(EndOf(tag), true);
  }

  lemma ElementAfter(w: Writer, tag: Tag, inner: seq<Token>, children: Nodes)
    requires w.depth == 0 && !tag.Image? && ProperNode(Element(tag, children), w.head, w.metadata)
    requires var start := Step(w, Start(tag)); inner == TreeHtml(children, start.head, start.metadata)
    ensures Step(After(Step(w, Start(tag)), inner), End(EndOf(tag)))
         == After(w, NodeHtml(Element(tag, children), w.head, w.metadata))
  {
    hide StartText, EndText, Shown, AllowedLink, NodeHtml, TreeHtml, Proper, After;
    ElementShown(tag, w.head, w.metadata, children, inner);
    WriterAfter(w, tag, inner, NodeHtml(Element(tag, children), w.head, w.metadata));
  }

  /** What the viewer shows is the tree's HTML. */
  lemma RenderShowsTree(nodes: Nodes)
    requires Proper(nodes, false, false)
    ensures Written(BLANK, Flat(nodes)).out == Shown(TreeHtml(nodes, false, false))
  {
    LoopWritesTree(BLANK, nodes);
  }

  // ----- every tag closes -----

  /** The elements still open after some tokens, or none if one closed out of order. */
  function StillOpen(tokens: seq<Token>, stack: seq<string>): Option<seq<string>> {
    if tokens == [] then Some(stack)
    else match StillOpen(tokens[..|tokens| - 1], stack)
      case None => None
      case Some(names) => Applied(tokens[|tokens| - 1], names)
  }

  function Applied(token: Token, names: seq<string>): Option<seq<string>> {
    if token.Open? then Some(names + [token.name])
    else if !token.Close? then Some(names)
    else if names != [] && names[|names| - 1] == token.name then Some(names[..|names| - 1])
    else None
  }

  lemma {:induction false} StillOpenSplits(a: seq<Token>, b: seq<Token>, stack: seq<string>)
    ensures StillOpen(a + b, stack) ==
      match StillOpen(a, stack)
      case None => None
      case Some(names) => StillOpen(b, names)
  {
    if b == [] {
      assert a + b == a;
    } else {
      var n := |b| - 1;
      assert (a + b)[..|a + b| - 1] == a + b[..n] && (a + b)[|a + b| - 1] == b[n];
      StillOpenSplits(a, b[..n], stack);
    }
  }

  /** How many heads a table's children hold. */
  function Heads(nodes: Nodes): nat {
    match nodes
    case Empty => 0
    case More(first, rest) => (if first.Element? && first.tag.TableHead? then 1 else 0) + Heads(rest)
  }

  /** Heads are children of tables, one each. */
  predicate Tabular(nodes: Nodes, table: bool) {
    match nodes
    case Empty => true
    case More(Leaf(_), rest) => Tabular(rest, table)
    case More(Element(tag, children), rest) =>
      && (tag.TableHead? ==> table)
      && (tag.Table? ==> Heads(children) == 1)
      && (tag.Image? || Tabular(children, tag.Table?))
      && Tabular(rest, table)
  }

  function Bodies(n: nat): seq<string> { if n == 0 then [] else ["tbody"] + Bodies(n - 1) }

  /** A wrapped part whose inside closes, closes. */
  lemma WrapCloses(name: string, attributes: string, inner: seq<Token>, stack: seq<string>)
    requires StillOpen(inner, stack + [name]) == Some(stack + [name])
    ensures StillOpen([Open(name, attributes)] + inner + [Close(name)], stack) == Some(stack)
  {
    OneToken(Open(name, attributes), stack);
    StillOpenSplits([Open(name, attributes)], inner, stack);
    StillOpenSplits([Open(name, attributes)] + inner, [Close(name)], stack);
    OneToken(Close(name), stack + [name]);
    assert (stack + [name])[..|stack|] == stack;
  }

  lemma OneToken(token: Token, stack: seq<string>)
    ensures StillOpen([token], stack) == Applied(token, stack)
  {
    assert [token][..0] == [];
  }

  lemma {:induction false} NoHeads(nodes: Nodes)
    requires Tabular(nodes, false)
    ensures Heads(nodes) == 0
  {
    match nodes
    case Empty =>
    case More(_, rest) => NoHeads(rest);
  }

  /** Whatever was open before a tree is open after it, with one body for each head. */
  lemma {:induction false} TreeCloses(nodes: Nodes, table: bool, head: bool, metadata: bool, stack: seq<string>)
    requires Tabular(nodes, table)
    ensures StillOpen(TreeHtml(nodes, head, metadata), stack) == Some(stack + Bodies(Heads(nodes)))
    decreases nodes
  {
    hide StillOpen, NodeHtml;
    match nodes
    case Empty =>
      NothingOpens(stack);
    case More(first, rest) =>
      var here := if first.Element? && first.tag.TableHead? then 1 else 0;
      NodeCloses(first, table, head, metadata, stack);
      TreeCloses(rest, table, head, metadata, stack + Bodies(here));
      StillOpenSplits(NodeHtml(first, head, metadata), TreeHtml(rest, head, metadata), stack);
      assert stack + Bodies(here) + Bodies(Heads(rest)) == stack + Bodies(here + Heads(rest));
  }

  lemma NothingOpens(stack: seq<string>)
    ensures StillOpen([], stack) == Some(stack + Bodies(0))
  {
    assert stack + [] == stack;
  }

  lemma {:induction false} NodeCloses(node: Node, table: bool, head: bool, metadata: bool, stack: seq<string>)
    requires node.Element? ==>
      && (node.tag.TableHead? ==> table) && (node.tag.Table? ==> Heads(node.children) == 1)
      && (node.tag.Image? || Tabular(node.children, node.tag.Table?))
    ensures StillOpen(NodeHtml(node, head, metadata), stack)
         == Some(stack + Bodies(if node.Element? && node.tag.TableHead? then 1 else 0))
    decreases node
  {
    hide StillOpen, Around, LeafTokens;
    NothingOpens(stack);
    assert stack + [] == stack;
    match node
    case Leaf(event) => LeafCloses(event, metadata, stack);
    case Element(Image, _) =>
    case Element(TableHead, children) =>
      NoHeads(children);
      TreeCloses(children, false, true, metadata, stack + ["thead"] + ["tr"]);
      HeadCloses(TreeHtml(children, true, metadata), stack);
    case Element(Table, children) =>
      TreeCloses(children, true, head, metadata, stack + ["table"]);
      assert Bodies(1) == ["tbody"] + Bodies(0);
      TableCloses(TreeHtml(children, head, metadata), stack);
    case Element(Metadata, children) =>
      NoHeads(children);
      TreeCloses(children, false, head, true, stack);
    case Element(tag, children) =>
      NoHeads(children);
      forall names { TreeCloses(children, false, head, metadata, names); }
      AroundCloses(tag, head, TreeHtml(children, head, metadata), stack);
  }

  lemma LeafCloses(event: Event, metadata: bool, stack: seq<string>)
    ensures StillOpen(LeafTokens(event, metadata), stack) == Some(stack)
  {
    hide StillOpen;
    NothingOpens(stack);
    assert stack + [] == stack;
    match event
    case Code(text) =>
      OneToken(Chars(text), stack + ["code"]);
      WrapCloses("code", "", [Chars(text)], stack);
    case Text(text) => OneToken(Chars(text), stack);
    case SoftBreak => OneToken(Chars("\n"), stack);
    case HardBreak => OneToken(Void("br"), stack);
    case Rule => OneToken(Void("hr"), stack);
    case TaskListMarker(done) => OneToken(Chars(if done then "\U{2611} " else "\U{2610} "), stack);
    case FootnoteReference(name) => OneToken(Chars("[" + name + "]"), stack);
    case Math(text) => OneToken(Chars(text), stack);
    case _ =>
  }

  lemma HeadCloses(inner: seq<Token>, stack: seq<string>)
    requires var inside := stack + ["thead"] + ["tr"]; StillOpen(inner, inside) == Some(inside + Bodies(0))
    ensures StillOpen(Wrapped("thead", Wrapped("tr", inner)) + [Open("tbody", "")], stack) == Some(stack + Bodies(1))
  {
    hide StillOpen;
    var inside := stack + ["thead"] + ["tr"];
    assert inside + [] == inside;
    WrapCloses("tr", "", inner, stack + ["thead"]);
    WrapCloses("thead", "", Wrapped("tr", inner), stack);
    StillOpenSplits(Wrapped("thead", Wrapped("tr", inner)), [Open("tbody", "")], stack);
    OneToken(Open("tbody", ""), stack);
    assert Bodies(1) == ["tbody"] + Bodies(0) == ["tbody"];
  }

  lemma TableCloses(inner: seq<Token>, stack: seq<string>)
    requires StillOpen(inner, stack + ["table"]) == Some(stack + ["table"] + Bodies(1))
    ensures StillOpen([Open("table", "")] + inner + [Close("tbody"), Close("table")], stack) == Some(stack + Bodies(0))
  {
    hide StillOpen;
    assert Bodies(1) == ["tbody"] + Bodies(0) == ["tbody"];
    var started := [Open("table", "")] + inner;
    OneToken(Open("table", ""), stack);
    StillOpenSplits([Open("table", "")], inner, stack);
    assert started + [Close("tbody"), Close("table")] == started + [Close("tbody")] + [Close("table")];
    StillOpenSplits(started, [Close("tbody")], stack);
    OneToken(Close("tbody"), stack + ["table"] + ["tbody"]);
    assert (stack + ["table"] + ["tbody"])[..|stack| + 1] == stack + ["table"];
    StillOpenSplits(started + [Close("tbody")], [Close("table")], stack);
    OneToken(Close("table"), stack + ["table"]);
    assert (stack + ["table"])[..|stack|] == stack == stack + [];
  }

  lemma AroundCloses(tag: Tag, head: bool, inner: seq<Token>, stack: seq<string>)
    requires forall names :: StillOpen(inner, names) == Some(names + Bodies(0))
    ensures StillOpen(Around(tag, head, inner), stack) == Some(stack + Bodies(0))
  {
    hide StillOpen, HeadingName, ListAttribute, LinkAttributes;
    assert forall names: seq<string> :: names + [] == names;
    match tag
    case Paragraph => WrapCloses("p", "", inner, stack);
    case Heading(level) => WrapCloses(HeadingName(level), "", inner, stack);
    case BlockQuote => WrapCloses("blockquote", "", inner, stack);
    case CodeBlock =>
      WrapCloses("code", "", inner, stack + ["pre"]);
      WrapCloses("pre", "", Wrapped("code", inner), stack);
    case List(Some(start)) => WrapCloses("ol", ListAttribute(start), inner, stack);
    case List(None) => WrapCloses("ul", "", inner, stack);
    case Item => WrapCloses("li", "", inner, stack);
    case Emphasis => WrapCloses("em", "", inner, stack);
    case Strong => WrapCloses("strong", "", inner, stack);
    case Strikethrough => WrapCloses("del", "", inner, stack);
    case Link(url) => if AllowedLink(url) { WrapCloses("a", LinkAttributes(url), inner, stack); }
    case TableRow => WrapCloses("tr", "", inner, stack);
    case TableCell => WrapCloses(if head then "th" else "td", "", inner, stack);
    case _ =>
  }

  /** The printer's tokens, which the viewer writes, close in order. */
  lemma RenderCloses(nodes: Nodes)
    requires Proper(nodes, false, false) && Tabular(nodes, false)
    ensures Written(BLANK, Flat(nodes)).out == Shown(TreeHtml(nodes, false, false))
    ensures StillOpen(TreeHtml(nodes, false, false), []) == Some([])
  {
    NoHeads(nodes);
    TreeCloses(nodes, false, false, false, []);
    RenderShowsTree(nodes);
    assert [] + Bodies(0) == [];
  }

  // ----- only allowed elements -----

  const ELEMENTS: set<string> :=
    {"p", "h1", "h2", "h3", "h4", "h5", "h6", "blockquote", "pre", "code", "ol", "ul", "li", "em", "strong", "del", "a",
     "table", "thead", "tbody", "tr", "th", "td"}

  /** The elements that hold nothing and never close. */
  const VOIDS: set<string> := {"br", "hr"}

  /** An element of the allowlist, with no attribute but a list's start and a checked
      link's two. */
  ghost predicate Allowed(token: Token) {
    match token
    case Open(name, attributes) =>
      && name in ELEMENTS
      && (attributes == "" || (name == "ol" && exists start :: attributes == ListAttribute(start))
          || (name == "a" && exists url :: AllowedLink(url) && attributes == LinkAttributes(url)))
    case Close(name) => name in ELEMENTS
    case Void(name) => name in VOIDS
    case Chars(_) => true
  }

  ghost predicate AllAllowed(tokens: seq<Token>) {
    forall t <- tokens :: Allowed(t)
  }

  lemma HeadingAllowed(level: Level)
    ensures HeadingName(level) in ELEMENTS
  {
    assert "h" + CanonicalJson.Decimal(level) == ["h"[0], CanonicalJson.Digit(level)];
  }

  lemma AroundAllowed(tag: Tag, head: bool, inner: seq<Token>)
    requires AllAllowed(inner)
    ensures AllAllowed(Around(tag, head, inner))
  {
    hide ListAttribute, LinkAttributes, AllowedLink, HeadingName;
    if tag.Heading? { HeadingAllowed(tag.level); }
  }

  /** Whatever the document, every tag and attribute written is an allowed one. */
  lemma {:induction false} TreeAllowed(nodes: Nodes, head: bool, metadata: bool)
    ensures AllAllowed(TreeHtml(nodes, head, metadata))
    decreases nodes
  {
    match nodes
    case Empty =>
    case More(first, rest) =>
      NodeAllowed(first, head, metadata);
      TreeAllowed(rest, head, metadata);
  }

  lemma {:induction false} NodeAllowed(node: Node, head: bool, metadata: bool)
    ensures AllAllowed(NodeHtml(node, head, metadata))
    decreases node
  {
    hide Around, ListAttribute, LinkAttributes, AllowedLink;
    match node
    case Leaf(event) =>
    case Element(tag, children) =>
      var h, m := tag.TableHead? || head, tag.Metadata? || metadata;
      TreeAllowed(children, h, m);
      AroundAllowed(tag, head, TreeHtml(children, h, m));
  }
}

