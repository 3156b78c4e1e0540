/** The markup the share viewer puts around each element, and the text it shows. */
module ShareContent {
  import opened Wrappers
  import opened ShareHtml
  import opened ShareLinks
  import CanonicalJson

  /** What stands before and after what an element holds, letter by letter. */
  ghost function Markup(tag: Tag, head: bool): (string, string) {
    match tag
    case Paragraph => ("<p>", "</p>")
    case Heading(level) =>
      if level == 1 then ("<h1>", "</h1>")
      else if level == 2 then ("<h2>", "</h2>")
      else if level == 3 then ("<h3>", "</h3>")
      else if level == 4 then ("<h4>", "</h4>")
      else if level == 5 then ("<h5>", "</h5>")
      else ("<h6>", "</h6>")
    case BlockQuote => ("<blockquote>", "</blockquote>")
    case CodeBlock => ("<pre><code>", "</code></pre>")
    case List(Some(start)) =>
      (if start == 1 then "<ol>" else "<ol start=\"" + CanonicalJson.Decimal(start) + "\">", "</ol>")
    case List(None) => ("<ul>", "</ul>")
    case Item => ("<li>", "</li>")
    case Emphasis => ("<em>", "</em>")
    case Strong => ("<strong>", "</strong>")
    case Strikethrough => ("<del>", "</del>")
    case Link(url) =>
      if Points(url) then ("<a href=\"" + Escaped(url) + "\" rel=\"noopener noreferrer nofollow\">", "</a>") else ("", "")
    case Table => ("<table>", "</tbody></table>")
    case TableHead => ("<thead><tr>", "</tr></thead><tbody>")
    case TableRow => ("<tr>", "</tr>")
    case TableCell => if head then ("<th>", "</th>") else ("<td>", "</td>")
    case _ => ("", "")
  }

  lemma Headings(level: Level)
    ensures HeadingName(level) ==
      if level == 1 then "h1" else if level == 2 then "h2" else if level == 3 then "h3"
      else if level == 4 then "h4" else if level == 5 then "h5" else "h6"
  {
  }

  lemma BlockMarkup(tag: Tag, head: bool)
    requires tag.Paragraph? || tag.BlockQuote? || tag.Item?
    ensures StartText(tag, head) == Markup(tag, head).0 && EndText(EndOf(tag), head, false) == Markup(tag, head).1
  {
  }

  lemma InlineMarkup(tag: Tag, head: bool)
    requires tag.Emphasis? || tag.Strong? || tag.Strikethrough?
    ensures StartText(tag, head) == Markup(tag, head).0 && EndText(EndOf(tag), head, false) == Markup(tag, head).1
  {
  }

  lemma TableMarkup(head: bool)
    ensures StartText(Table, head) == Markup(Table, head).0 && EndText(TableEnd, head, false) == Markup(Table, head).1
  {
  }

  lemma HeadMarkup(head: bool)
    ensures StartText(TableHead, head) == Markup(TableHead, head).0
    ensures EndText(TableHeadEnd, head, false) == Markup(TableHead, head).1
  {
  }

  lemma CellMarkup(tag: Tag, head: bool)
    requires tag.TableRow? || tag.TableCell?
    ensures StartText(tag, head) == Markup(tag, head).0 && EndText(EndOf(tag), head, false) == Markup(tag, head).1
  {
  }

  lemma CodeMarkup(tag: Tag, head: bool)
    requires tag.CodeBlock?
    ensures StartText(tag, head) == Markup(tag, head).0 && EndText(EndOf(tag), head, false) == Markup(tag, head).1
  {
  }

  lemma HeadingMarkup(level: Level, head: bool)
    ensures StartText(Heading(level), head) == Markup(Heading(level), head).0
    ensures EndText(HeadingEnd(level), head, false) == Markup(Heading(level), head).1
  {
    Headings(level);
    hide HeadingName;
  }

  lemma ListMarkup(start: Option<nat>, head: bool)
    ensures StartText(List(start), head) == Markup(List(start), head).0
    ensures EndText(ListEnd(start.Some?), head, false) == Markup(List(start), head).1
  {
    hide CanonicalJson.Decimal;
    if start.Some? { ListText(start.value); }
    hide ListAttribute;
  }

  lemma LinkMarkup(url: string, head: bool)
    ensures StartText(Link(url), head) == Markup(Link(url), head).0
    ensures EndText(LinkEnd, head, AllowedLink(url)) == Markup(Link(url), head).1
  {
    AllowedExactly(url);
    LinkText(url);
    hide AllowedLink, Points, LinkAttributes, Escaped;
  }

  lemma TagMarkup(tag: Tag, head: bool)
    requires !tag.Image? && !tag.Metadata?
    ensures StartText(tag, head) == Markup(tag, head).0
    ensures EndText(EndOf(tag), head, tag.Link? && AllowedLink(tag.url)) == Markup(tag, head).1
  {
    if tag.Paragraph? || tag.BlockQuote? || tag.Item? { BlockMarkup(tag, head); }
    else if tag.Emphasis? || tag.Strong? || tag.Strikethrough? { InlineMarkup(tag, head); }
    else if tag.Heading? { HeadingMarkup(tag.level, head); }
    else if tag.List? { ListMarkup(tag.start, head); }
    else if tag.Link? { LinkMarkup(tag.url, head); }
    else if tag.Table? { TableMarkup(head); }
    else if tag.TableHead? { HeadMarkup(head); }
    else if tag.TableRow? || tag.TableCell? { CellMarkup(tag, head); }
    else if tag.CodeBlock? { CodeMarkup(tag, head); }
    hide AllowedLink, Opening, Closing, HeadingName, Escaped, Points, ListAttribute, LinkAttributes;
  }

  lemma LinkText(url: string)
    ensures Opening("a", LinkAttributes(url)) == "<a href=\"" + Escaped(url) + "\" rel=\"noopener noreferrer nofollow\">"
  {
    hide Escaped;
  }

  lemma ListText(start: nat)
    ensures Opening("ol", ListAttribute(start)) ==
      if start == 1 then "<ol>" else "<ol start=\"" + CanonicalJson.Decimal(start) + "\">"
  {
    hide CanonicalJson.Decimal;
  }

  lemma TextsAround(tag: Tag, children: Nodes, head: bool, metadata: bool)
    requires !tag.Image? && !tag.Metadata?
    ensures Shown(NodeHtml(Element(tag, children), head, metadata)) ==
      StartText(tag, head) + Shown(TreeHtml(children, head || tag.TableHead?, metadata))
      + EndText(EndOf(tag), head, tag.Link? && AllowedLink(tag.url))
  {
    var inner := TreeHtml(children, head || tag.TableHead?, metadata);
    hide TreeHtml, StartText, Around, AllowedLink, Wrapped, Shown;
    if tag.Table? {
      TableShown(inner, head);
      TableEndText(head);
    } else if tag.TableHead? {
      HeadShown(inner, head);
      TableEndText(head);
    } else {
      TagShown(tag, head, inner);
    }
    hide EndText;
  }

  /** What ends a table or its head does not depend on where it is. */
  lemma TableEndText(head: bool)
    ensures EndText(TableEnd, head, false) == EndText(TableEnd, false, false)
    ensures EndText(TableHeadEnd, head, false) == EndText(TableHeadEnd, false, false)
  {
    hide Opening, Closing;
  }

  /** An element is shown as what it holds between its markup. */
  lemma ElementShown(tag: Tag, children: Nodes, head: bool, metadata: bool)
    requires !tag.Image? && !tag.Metadata?
    ensures Shown(NodeHtml(Element(tag, children), head, metadata)) ==
      Markup(tag, head).0 + Shown(TreeHtml(children, head || tag.TableHead?, metadata)) + Markup(tag, head).1
  {
    TextsAround(tag, children, head, metadata);
    TagMarkup(tag, head);
    hide NodeHtml, TreeHtml, Shown, StartText, EndText, Markup, AllowedLink;
  }

  /** What holds nothing is shown as one tag. */
  lemma BreaksShown(metadata: bool)
    ensures Shown(LeafTokens(HardBreak, metadata)) == "<br>" && Shown(LeafTokens(Rule, metadata)) == "<hr>"
  {
    assert [Void("br")][..0] == [] && [Void("hr")][..0] == [];
  }

  // ----- the text -----

  function CharsOf(tokens: seq<Token>): string {
    if tokens == [] then ""
    else CharsOf(tokens[..|tokens| - 1]) + (if tokens[|tokens| - 1].Chars? then tokens[|tokens| - 1].text else "")
  }

  /** The text of a document: what is written, in code or formulas, line breaks as such, boxes
      for tasks and brackets for footnotes; nothing of images, metadata or raw HTML. */
  function TextOf(nodes: Nodes, metadata: bool): string {
    match nodes
    case Empty => ""
    case More(first, rest) => NodeText(first, metadata) + TextOf(rest, metadata)
  }

  function NodeText(node: Node, metadata: bool): string {
    match node
    case Element(tag, children) => if tag.Image? then "" else TextOf(children, metadata || tag.Metadata?)
    case Leaf(event) =>
      match event
      case Text(text) => if metadata then "" else text
      case Code(text) => text
      case Math(text) => text
      case SoftBreak => "\n"
      case TaskListMarker(done) => if done then "\U{2611} " else "\U{2610} "
      case FootnoteReference(name) => "[" + name + "]"
      case _ => ""
  }

  lemma {:induction false} CharsSplit(a: seq<Token>, b: seq<Token>)
    ensures CharsOf(a + b) == CharsOf(a) + CharsOf(b)
  {
    if b == [] {
      assert a + b == a;
    } else {
      var n := |b| - 1;
      assert (a + b)[..|a + b| - 1] == a + b[..n];
      CharsSplit(a, b[..n]);
    }
  }

  lemma CharsAround(before: seq<Token>, inner: seq<Token>, after: seq<Token>)
    requires forall token <- before + after :: !token.Chars?
    ensures CharsOf(before + inner + after) == CharsOf(inner)
  {
    CharsSplit(before + inner, after);
    CharsSplit(before, inner);
    NoChars(before);
    NoChars(after);
    hide CharsOf;
  }

  lemma {:induction false} NoChars(tokens: seq<Token>)
    requires forall token <- tokens :: !token.Chars?
    ensures CharsOf(tokens) == ""
  {
    if tokens != [] { NoChars(tokens[..|tokens| - 1]); }
  }

  lemma WrappedChars(name: string, inner: seq<Token>)
    ensures CharsOf(Wrapped(name, inner)) == CharsOf(inner)
  {
    CharsAround([Open(name, "")], inner, [Close(name)]);
  }

  /** Markup has no text of its own. */
  lemma AroundChars(tag: Tag, head: bool, inner: seq<Token>)
    ensures CharsOf(Around(tag, head, inner)) == CharsOf(inner)
  {
    forall name { WrappedChars(name, inner); }
    if tag.CodeBlock? { WrappedChars("pre", Wrapped("code", inner)); }
    if tag.List? && tag.start.Some? { CharsAround([Open("ol", ListAttribute(tag.start.value))], inner, [Close("ol")]); }
    if tag.Link? { CharsAround([Open("a", LinkAttributes(tag.url))], inner, [Close("a")]); }
    hide CharsOf, Wrapped, HeadingName, ListAttribute, LinkAttributes, AllowedLink;
  }

  lemma LeafChars(event: Event, metadata: bool)
    requires !event.Start? && !event.End?
    ensures CharsOf(LeafTokens(event, metadata)) == NodeText(Leaf(event), metadata)
  {
    forall text { CharsOne(text); }
    hide Wrapped;
    if event.Code? { WrappedChars("code", [Chars(event.text)]); }
    if event.HardBreak? || event.Rule? { NoChars(LeafTokens(event, metadata)); }
  }

  lemma CharsOne(text: string)
    ensures CharsOf([Chars(text)]) == text
  {
    assert [Chars(text)][..0] == [];
  }

  /** The viewer shows all of a document's text, in order, and no other. */
  lemma {:induction false} TextShown(nodes: Nodes, head: bool, metadata: bool)
    ensures CharsOf(TreeHtml(nodes, head, metadata)) == TextOf(nodes, metadata)
  {
    match nodes
    case Empty =>
    case More(first, rest) =>
      NodeTextShown(first, head, metadata);
      TextShown(rest, head, metadata);
      CharsSplit(NodeHtml(first, head, metadata), TreeHtml(rest, head, metadata));
      hide NodeHtml, NodeText, CharsOf;
  }

  lemma {:induction false} NodeTextShown(node: Node, head: bool, metadata: bool)
    ensures CharsOf(NodeHtml(node, head, metadata)) == NodeText(node, metadata)
  {
    if node.Leaf? {
      if node.event.Start? || node.event.End? { NoChars([]); } else { LeafChars(node.event, metadata); }
    } else if !node.tag.Image? {
      var tag, children := node.tag, node.children;
      TextShown(children, head || tag.TableHead?, metadata || tag.Metadata?);
      var inner := TreeHtml(children, head || tag.TableHead?, metadata || tag.Metadata?);
      if tag.TableHead? {
        HeadChars(inner);
      } else if tag.Table? {
        CharsAround([Open("table", "")], inner, [Close("tbody"), Close("table")]);
      } else if !tag.Metadata? {
        AroundChars(tag, head, inner);
      }
      hide TreeHtml, CharsOf, Around, TextOf, Wrapped;
    }
  }

  lemma HeadChars(inner: seq<Token>)
    ensures CharsOf(Wrapped("thead", Wrapped("tr", inner)) + [Open("tbody", "")]) == CharsOf(inner)
  {
    WrappedChars("tr", inner);
    WrappedChars("thead", Wrapped("tr", inner));
    CharsSplit(Wrapped("thead", Wrapped("tr", inner)), [Open("tbody", "")]);
    NoChars([Open("tbody", "")]);
    hide CharsOf, Wrapped;
  }

  // ----- which trees, and what closing means -----

  /** Trees without tables or metadata, whose leaves are no starts or ends. */
  predicate Simple(nodes: Nodes) {
    match nodes
    case Empty => true
    case More(Leaf(event), rest) => !event.Start? && !event.End? && Simple(rest)
    case More(Element(tag, children), rest) =>
      !tag.Table? && !tag.TableHead? && !tag.Metadata? && Simple(children) && Simple(rest)
  }

  /** The results about trees cover all of these, at any place. */
  lemma {:induction false} SimpleCovered(nodes: Nodes, head: bool, metadata: bool, table: bool)
    requires Simple(nodes)
    ensures Proper(nodes, head, metadata) && Tabular(nodes, table) && Leaves(nodes) && Heads(nodes) == 0
  {
    match nodes
    case Empty =>
    case More(Leaf(_), rest) => SimpleCovered(rest, head, metadata, table);
    case More(Element(tag, children), rest) =>
      SimpleCovered(children, head, metadata, tag.Table?);
      SimpleCovered(rest, head, metadata, table);
  }

  /** They cover tables of a head and rows, and documents that begin with metadata. */
  lemma TablesCovered(cells: Nodes, rows: Nodes, after: Nodes, notes: Nodes)
    requires Simple(cells) && Simple(rows) && Simple(after) && Simple(notes)
    ensures var table := Element(Table, More(Element(TableHead, cells), rows));
      var document := More(Element(Metadata, notes), More(table, after));
      Proper(document, false, false) && Tabular(document, false)
  {
    SimpleCovered(cells, true, false, false);
    SimpleCovered(rows, false, false, true);
    SimpleCovered(after, false, false, false);
    SimpleCovered(notes, false, true, false);
    hide Simple;
    var table := Element(Table, More(Element(TableHead, cells), rows));
    var document := More(Element(Metadata, notes), More(table, after));
    assert Heads(More(Element(TableHead, cells), rows)) == 1;
    assert Proper(More(Element(TableHead, cells), rows), false, false);
    assert Tabular(More(Element(TableHead, cells), rows), true);
    assert ProperNode(table, false, false) && ProperNode(Element(Metadata, notes), false, false);
    assert Proper(More(table, after), false, false) && Tabular(More(table, after), false);
  }

  /** Tags that cross, that close nothing, or that are left open do not count as closed. */
  lemma CrossedFails(a: string, b: string, attributes: string)
    requires a != b
    ensures StillOpen([Open(a, attributes), Open(b, attributes), Close(a)], []) == None
    ensures StillOpen([Close(a)], []) == None && StillOpen([Open(a, attributes)], []) == Some([a])
  {
    var tokens := [Open(a, attributes), Open(b, attributes), Close(a)];
    assert tokens[..2] == [Open(a, attributes), Open(b, attributes)] && tokens[..2][..1] == [Open(a, attributes)];
    assert [Open(a, attributes)][..0] == [] && [Close(a)][..0] == [];
    assert StillOpen([Open(a, attributes)], []) == Some([] + [a]) && [] + [a] == [a];
    assert StillOpen(tokens[..2], []) == Some([a] + [b]);
  }
}
