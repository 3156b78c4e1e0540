/** The share viewer's output read back as text: its tags are the printer's, and close. */
module ShareTags {
  import opened Wrappers
  import opened ShareHtml

  // ----- reading tags -----

  /** How much of `text` comes before the first `c`. */
  function Until(text: string, c: char): (n: nat)
    ensures n <= |text| && (n < |text| ==> text[n] == c)
  {
    if text == [] || text[0] == c then 0 else 1 + Until(text[1..], c)
  }

  /** What stands between `<` and `>`: an end tag, an element that holds nothing, or a start
      tag with its attributes. */
  function TagOf(inner: string): Token {
    if inner != [] && inner[0] == '/' then Close(inner[1..])
    else
      var n := Until(inner, ' ');
      if inner[..n] in VOIDS then Void(inner[..n]) else Open(inner[..n], inner[n..])
  }

  /** The elements still open after some HTML text, or none when a tag is not closed or
      closes out of order. */
  function OpenAfter(text: string, stack: seq<string>): Option<seq<string>>
    decreases |text|
  {
    if text == [] then Some(stack)
    else if text[0] != '<' then OpenAfter(text[1..], stack)
    else
      var n := Until(text, '>');
      if n == |text| then None
      else match Applied(TagOf(text[1..n]), stack)
        case None => None
        case Some(names) => OpenAfter(text[n + 1..], names)
  }

  // ----- reading what was printed -----

  /** Characters that neither end a tag nor begin one. */
  predicate Quiet(text: string) { forall c <- text :: c != '<' && c != '>' }

  predicate Name(name: string) { name != [] && forall c <- name :: c !in {'<', '>', '/', ' '} }

  /** A token whose text reads back. */
  predicate Readable(token: Token) {
    match token
    case Open(name, attributes) =>
      Name(name) && name !in VOIDS && Quiet(attributes) && (attributes == [] || attributes[0] == ' ')
    case Close(name) => Name(name)
    case Void(name) => Name(name) && name in VOIDS
    case Chars(_) => true
  }

  lemma {:induction false} UntilFirst(text: string, c: char, rest: string)
    requires c !in text
    ensures Until(text + [c] + rest, c) == |text|
  {
    if text == [] {
      assert (text + [c] + rest)[0] == c;
    } else {
      assert (text + [c] + rest)[1..] == text[1..] + [c] + rest && text[0] in text;
      UntilFirst(text[1..], c, rest);
    }
  }

  lemma {:induction false} UntilEnd(text: string, c: char)
    requires c !in text
    ensures Until(text, c) == |text|
  {
    if text != [] {
      assert text[0] in text;
      UntilEnd(text[1..], c);
    }
  }

  lemma {:induction false} TextRead(text: string, rest: string, stack: seq<string>)
    requires Quiet(text)
    ensures OpenAfter(text + rest, stack) == OpenAfter(rest, stack)
  {
    if text == [] {
      assert text + rest == rest;
    } else {
      assert (text + rest)[0] == text[0] && text[0] in text && (text + rest)[1..] == text[1..] + rest;
      assert forall c <- text[1..] :: c in text;
      TextRead(text[1..], rest, stack);
    }
  }

  /** What a token does to the elements that are open, then the rest of the text. */
  function Onward(token: Token, stack: seq<string>, rest: string): Option<seq<string>> {
    match Applied(token, stack)
    case None => None
    case Some(names) => OpenAfter(rest, names)
  }

  lemma TagRead(inner: string, rest: string, stack: seq<string>)
    requires Quiet(inner)
    ensures OpenAfter("<" + inner + ">" + rest, stack) == Onward(TagOf(inner), stack, rest)
  {
    var text := "<" + inner + ">" + rest;
    hide TagOf, Applied;
    UntilFirst("<" + inner, '>', rest);
    assert text == ("<" + inner) + ['>'] + rest;
    var n := |inner| + 1;
    assert text[1..n] == inner && text[n + 1..] == rest && text[0] == '<';
  }

  lemma OpenTag(name: string, attributes: string)
    requires Readable(Open(name, attributes))
    ensures TagOf(name + attributes) == Open(name, attributes)
  {
    var inner := name + attributes;
    assert inner[0] == name[0] && name[0] in name;
    if attributes == [] {
      assert inner == name;
      UntilEnd(name, ' ');
    } else {
      assert inner == name + [' '] + attributes[1..];
      UntilFirst(name, ' ', attributes[1..]);
    }
    assert inner[..|name|] == name && inner[|name|..] == attributes;
  }

  lemma VoidTag(name: string)
    requires Readable(Void(name))
    ensures TagOf(name) == Void(name)
  {
    assert name[0] in name;
    UntilEnd(name, ' ');
    assert name[..|name|] == name;
  }

  /** One printed token reads back as itself. */
  lemma TokenRead(token: Token, rest: string, stack: seq<string>)
    requires Readable(token)
    ensures OpenAfter(ShownToken(token) + rest, stack) == Onward(token, stack, rest)
  {
    hide OpenAfter, TagOf, Applied, Escaped;
    match token
    case Open(name, attributes) =>
      OpenTag(name, attributes);
      assert "<" + name + attributes + ">" == "<" + (name + attributes) + ">";
      TagRead(name + attributes, rest, stack);
    case Close(name) =>
      CloseTag(name);
      assert "</" + name + ">" == "<" + ("/" + name) + ">";
      TagRead("/" + name, rest, stack);
    case Void(name) =>
      VoidTag(name);
      assert "<" + name + "" + ">" == "<" + name + ">";
      TagRead(name, rest, stack);
    case Chars(text) =>
      EscapedInert(text);
      TextRead(Escaped(text), rest, stack);
      CharsLeave(text, stack);
  }

  lemma CloseTag(name: string)
    ensures TagOf("/" + name) == Close(name)
  {
    assert ("/" + name)[1..] == name;
  }

  lemma CharsLeave(text: string, stack: seq<string>)
    ensures Applied(Chars(text), stack) == Some(stack)
  {
  }

  /** Reading printed tokens opens and closes what the tokens do. */
  lemma {:induction false} TokensRead(tokens: seq<Token>, rest: string, stack: seq<string>)
    requires forall t <- tokens :: Readable(t)
    ensures OpenAfter(Shown(tokens) + rest, stack) ==
      match StillOpen(tokens, stack)
      case None => None
      case Some(names) => OpenAfter(rest, names)
  {
    hide OpenAfter, Applied, ShownToken, Readable;
    if tokens == [] {
      assert Shown(tokens) + rest == rest;
    } else {
      var n := |tokens| - 1;
      TokensRead(tokens[..n], ShownToken(tokens[n]) + rest, stack);
      assert Shown(tokens) + rest == Shown(tokens[..n]) + (ShownToken(tokens[n]) + rest);
      if StillOpen(tokens[..n], stack).Some? {
        TokenRead(tokens[n], rest, StillOpen(tokens[..n], stack).value);
      }
    }
  }

  // ----- what the viewer writes -----

  lemma NamesReadable(name: string)
    ensures name in ELEMENTS ==> Name(name) && name !in VOIDS
    ensures name in VOIDS ==> Name(name)
  {
  }

  lemma {:induction false} DigitsQuiet(n: nat)
    ensures Quiet(CanonicalJson.Decimal(n))
  {
  }

  lemma ListAttributeReadable(start: nat)
    ensures var a := ListAttribute(start); Quiet(a) && (a == [] || a[0] == ' ')
  {
    DigitsQuiet(start);
    hide CanonicalJson.Decimal;
  }

  lemma LinkAttributesReadable(url: string)
    ensures var a := LinkAttributes(url); Quiet(a) && a != [] && a[0] == ' '
  {
    EscapedInert(url);
    hide Escaped;
  }

  lemma AllowedReadable(token: Token)
    requires Allowed(token)
    ensures Readable(token)
  {
    hide Name, ELEMENTS, VOIDS, ListAttribute, LinkAttributes, AllowedLink;
    if !token.Chars? { NamesReadable(token.name); }
    if token.Open? && token.attributes != "" {
      if start :| token.attributes == ListAttribute(start) {
        ListAttributeReadable(start);
      } else {
        var url :| AllowedLink(url) && token.attributes == LinkAttributes(url);
        LinkAttributesReadable(url);
      }
    }
  }

  /** Every tag of the text the viewer writes for a document closes, in order. */
  lemma OutputCloses(nodes: Nodes)
    requires Proper(nodes, false, false) && Tabular(nodes, false)
    ensures OpenAfter(Written(BLANK, Flat(nodes)).out, []) == Some([])
  {
    hide OpenAfter, Written, Shown, StillOpen, Allowed, Readable, TreeHtml;
    var tokens := TreeHtml(nodes, false, false);
    RenderCloses(nodes);
    TreeAllowed(nodes, false, false);
    forall t <- tokens { AllowedReadable(t); }
    TokensRead(tokens, "", []);
    assert Shown(tokens) + "" == Shown(tokens);
    NothingLeft();
  }

  lemma NothingLeft()
    ensures OpenAfter("", []) == Some([])
  {
  }
}
