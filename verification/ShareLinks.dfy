/** Which links the share viewer opens, and where they point. */
module ShareLinks {
  import opened Wrappers
  import opened ShareHtml

  // ----- white space and letters -----

  /** The code points of Unicode's White_Space property. */
  const WHITE_SPACE: set<int> :=
    {9, 10, 11, 12, 13, 32, 133, 160, 5760, 8192, 8193, 8194, 8195, 8196, 8197, 8198, 8199, 8200, 8201, 8202,
     8232, 8233, 8239, 8287, 12288}

  predicate White(text: string) { forall c <- text :: c as int in WHITE_SPACE }

  lemma SpacesExactly()
    ensures forall c: char :: IsSpace(c) <==> c as int in WHITE_SPACE
  {
  }

  /** Whether `c` is the small letter or other character `small`, or its capital. */
  predicate SameLetter(c: char, small: char) {
    c == small || ('a' <= small <= 'z' && c as int == small as int - 32)
  }

  /** Whether a text begins with `prefix`, in capitals or small letters. */
  predicate Begins(text: string, prefix: string) {
    |prefix| <= |text| && forall i | 0 <= i < |prefix| :: SameLetter(text[i], prefix[i])
  }

  lemma {:induction false} LowerPointwise(text: string)
    ensures |Lower(text)| == |text|
    ensures forall i | 0 <= i < |text| ::
      Lower(text)[i] == if 'A' <= text[i] <= 'Z' then (text[i] as int + 32) as char else text[i]
  {
    if text != [] { LowerPointwise(text[1..]); }
  }

  lemma LowerBegins(text: string, prefix: string)
    requires forall c <- prefix :: !('A' <= c <= 'Z')
    ensures HasPrefix(Lower(text), prefix) <==> Begins(text, prefix)
  {
    LowerPointwise(text);
    hide Lower;
    if HasPrefix(Lower(text), prefix) {
      forall i | 0 <= i < |prefix| ensures SameLetter(text[i], prefix[i]) {
        assert prefix[i] == Lower(text)[..|prefix|][i] && prefix[i] in prefix;
      }
    }
    if Begins(text, prefix) {
      forall i | 0 <= i < |prefix| ensures Lower(text)[i] == prefix[i] {
        assert SameLetter(text[i], prefix[i]) && prefix[i] in prefix;
      }
      assert Lower(text)[..|prefix|] == prefix;
    }
  }

  // ----- trimming -----

  /** Trimming takes white space away from both ends. */
  lemma {:induction false} TrimmedIs(text: string) returns (pre: string, post: string)
    ensures text == pre + Trimmed(text) + post && White(pre) && White(post)
    ensures Trimmed(text) != [] ==>
      Trimmed(text)[0] as int !in WHITE_SPACE && Trimmed(text)[|Trimmed(text)| - 1] as int !in WHITE_SPACE
    decreases |text|
  {
    SpacesExactly();
    hide IsSpace;
    pre, post := [], [];
    if text != [] && IsSpace(text[0]) {
      pre, post := TrimmedIs(text[1..]);
      pre := [text[0]] + pre;
      assert text == [text[0]] + text[1..];
    } else if text != [] && IsSpace(text[|text| - 1]) {
      var n := |text| - 1;
      pre, post := TrimmedIs(text[..n]);
      post := post + [text[n]];
      assert text == text[..n] + [text[n]];
    }
  }

  /** What follows the leading white space keeps its first characters, when they are none. */
  lemma {:induction false} TrimmedKeeps(pre: string, prefix: string, tail: string)
    requires prefix != [] && White(pre) && forall c <- prefix :: c as int !in WHITE_SPACE
    ensures HasPrefix(Trimmed(pre + prefix + tail), prefix)
    decreases |pre| + |tail|
  {
    SpacesExactly();
    hide IsSpace;
    var text := pre + prefix + tail;
    if pre != [] {
      assert text[0] == pre[0] && pre[0] in pre && text[1..] == pre[1..] + prefix + tail;
      assert forall c <- pre[1..] :: c in pre;
      TrimmedKeeps(pre[1..], prefix, tail);
    } else {
      assert text[0] == prefix[0] && prefix[0] in prefix && prefix[|prefix| - 1] in prefix;
      assert tail == [] ==> text[|text| - 1] == prefix[|prefix| - 1];
      if IsSpace(text[|text| - 1]) {
        assert text[..|text| - 1] == pre + prefix + tail[..|tail| - 1];
        TrimmedKeeps(pre, prefix, tail[..|tail| - 1]);
      } else {
        assert text[..|prefix|] == prefix;
      }
    }
  }

  // ----- allowed links -----

  const PREFIXES: set<string> := {"https://", "http://", "mailto:", "#"}

  /** The address, past any white space, begins like the web, mail or an anchor on the page,
      in capitals or small letters. */
  ghost predicate Points(url: string) {
    exists pre, body, prefix :: url == pre + body && White(pre) && prefix in PREFIXES && Begins(body, prefix)
  }

  lemma PrefixesPlain(prefix: string)
    requires prefix in PREFIXES
    ensures prefix != [] && forall c <- prefix :: !('A' <= c <= 'Z') && c as int !in WHITE_SPACE
  {
  }

  /** A text that begins like a prefix has no white space there. */
  lemma BeginsPlain(text: string, prefix: string)
    requires prefix in PREFIXES && Begins(text, prefix)
    ensures forall c <- text[..|prefix|] :: c as int !in WHITE_SPACE
    ensures Begins(text[..|prefix|], prefix)
  {
    PrefixesPlain(prefix);
    forall c <- text[..|prefix|] ensures c as int !in WHITE_SPACE {
      var i :| 0 <= i < |prefix| && text[i] == c;
      assert SameLetter(text[i], prefix[i]) && prefix[i] in prefix;
    }
  }

  lemma AllowedIs(url: string)
    ensures AllowedLink(url) <==> exists prefix <- PREFIXES :: Begins(Trimmed(url), prefix)
  {
    forall prefix <- PREFIXES ensures HasPrefix(Lower(Trimmed(url)), prefix) <==> Begins(Trimmed(url), prefix) {
      PrefixesPlain(prefix);
      LowerBegins(Trimmed(url), prefix);
    }
    assert "https://" in PREFIXES && "http://" in PREFIXES && "mailto:" in PREFIXES && "#" in PREFIXES;
    hide Lower, Trimmed, Begins;
  }

  lemma AllowedExactly(url: string)
    ensures AllowedLink(url) <==> Points(url)
  {
    AllowedIs(url);
    if prefix :| prefix in PREFIXES && Begins(Trimmed(url), prefix) {
      var pre, post := TrimmedIs(url);
      var body := Trimmed(url) + post;
      assert url == pre + body && Begins(body, prefix);
    }
    if Points(url) {
      var pre, body, prefix :| url == pre + body && White(pre) && prefix in PREFIXES && Begins(body, prefix);
      var n := |prefix|;
      PrefixesPlain(prefix);
      BeginsPlain(body, prefix);
      TrimmedKeeps(pre, body[..n], body[n..]);
      assert url == pre + body[..n] + body[n..];
      assert Trimmed(url)[..n] == body[..n];
      forall i | 0 <= i < n ensures SameLetter(Trimmed(url)[i], prefix[i]) {
        assert Trimmed(url)[i] == Trimmed(url)[..n][i] == body[i];
      }
    }
  }

  // ----- schemes -----

  /** The scheme of an address: what comes before the first ':', when it has one. */
  function Scheme(text: string): (scheme: Option<string>)
    ensures scheme.Some? ==> |scheme.value| < |text| && text[|scheme.value|] == ':' && text[..|scheme.value|] == scheme.value
                             && ':' !in scheme.value
    ensures scheme.None? ==> ':' !in text
  {
    if text == [] then None
    else if text[0] == ':' then Some([])
    else
      match Scheme(text[1..])
      case None => None
      case Some(rest) => Some([text[0]] + rest)
  }

  predicate SameLetters(text: string, small: string) { |text| == |small| && Begins(text, small) }

  /** An anchor on the page, or an address of the web or mail. */
  ghost predicate Safe(url: string) {
    exists pre, body ::
      && url == pre + body && White(pre) && body != []
      && (body[0] == '#'
          || (Scheme(body).Some? && exists name <- {"https", "http", "mailto"} :: SameLetters(Scheme(body).value, name)))
  }

  /** A link that is allowed has no scheme but these three. */
  lemma PointsSafely(url: string)
    requires Points(url)
    ensures Safe(url)
  {
    var pre, body, prefix :| url == pre + body && White(pre) && prefix in PREFIXES && Begins(body, prefix);
    if prefix == "#" {
      assert body[0] == '#';
    } else {
      var name := if prefix == "https://" then "https" else if prefix == "http://" then "http" else "mailto";
      var n := |name|;
      assert prefix[n] == ':' && prefix[..n] == name;
      SchemeBegins(body, name, n);
    }
  }

  lemma SchemeBegins(body: string, name: string, n: nat)
    requires n == |name| < |body| && body[n] == ':' && Begins(body, name) && name in {"https", "http", "mailto"}
    ensures Scheme(body).Some? && SameLetters(Scheme(body).value, name)
  {
    forall i | 0 <= i < n ensures body[i] != ':' {
      assert SameLetter(body[i], name[i]) && 'a' <= name[i] <= 'z';
    }
    assert body[n] in body;
    var scheme := Scheme(body).value;
    forall j | 0 <= j < |scheme| ensures body[j] != ':' {
      assert body[j] == scheme[j] && scheme[j] in scheme;
    }
    assert |scheme| == n;
  }

  // ----- what is shown -----

  /** A link of the tree, outside any image. */
  ghost predicate HasLink(nodes: Nodes, url: string) {
    match nodes
    case Empty => false
    case More(first, rest) => NodeHasLink(first, url) || HasLink(rest, url)
  }

  ghost predicate NodeHasLink(node: Node, url: string) {
    match node
    case Leaf(_) => false
    case Element(Image, _) => false
    case Element(tag, children) => tag == Link(url) || HasLink(children, url)
  }

  /** The anchor that points where the link does. */
  function Anchor(url: string): Token {
    Open("a", " href=\"" + Escaped(url) + "\" rel=\"noopener noreferrer nofollow\"")
  }

  /** A link opens an anchor around what it holds if and only if it points somewhere allowed;
      otherwise only what it holds is shown. */
  lemma LinkShown(url: string, children: Nodes, head: bool, metadata: bool)
    ensures NodeHtml(Element(Link(url), children), head, metadata) ==
      if Points(url) then [Anchor(url)] + TreeHtml(children, head, metadata) + [Close("a")]
      else TreeHtml(children, head, metadata)
  {
    AllowedExactly(url);
    hide AllowedLink, Points, Escaped;
  }

  lemma {:induction false} AnchorsFromLinks(nodes: Nodes, head: bool, metadata: bool)
    ensures forall token <- TreeHtml(nodes, head, metadata) | token.Open? && token.name == "a" ::
      exists url :: HasLink(nodes, url) && Points(url) && token == Anchor(url)
  {
    hide Points, Anchor;
    match nodes
    case Empty =>
    case More(first, rest) =>
      NodeAnchors(first, head, metadata);
      AnchorsFromLinks(rest, head, metadata);
      hide TreeHtml, NodeHtml;
  }

  lemma HeadingOpens(level: Level)
    ensures HeadingName(level)[0] == 'h'
  {
  }

  /** What surrounds an element opens no anchor, but for a link that is allowed. */
  lemma AroundAnchors(tag: Tag, head: bool, inner: seq<Token>)
    requires !tag.Link?
    ensures forall token <- Around(tag, head, inner) | token.Open? && token.name == "a" :: token in inner
  {
    if tag.Heading? { HeadingOpens(tag.level); }
    hide HeadingName, ListAttribute;
  }

  lemma {:induction false} NodeAnchors(node: Node, head: bool, metadata: bool)
    ensures forall token <- NodeHtml(node, head, metadata) | token.Open? && token.name == "a" ::
      exists url :: NodeHasLink(node, url) && Points(url) && token == Anchor(url)
  {
    hide Points, Anchor, Around;
    if node.Element? && !node.tag.Image? {
      var tag, children := node.tag, node.children;
      AnchorsFromLinks(children, if tag.TableHead? then true else head, if tag.Metadata? then true else metadata);
      hide TreeHtml, HasLink;
      if tag.Link? {
        LinkShown(tag.url, children, head, metadata);
        hide NodeHtml;
        assert NodeHasLink(node, tag.url);
      } else {
        AroundAnchors(tag, head, TreeHtml(children, head, metadata));
      }
    }
  }

  /** Every anchor shown comes from a link of the document, points where it does, and has no
      scheme but the web's and mail's, in whatever letters it is written. */
  lemma AnchorsSafe(nodes: Nodes, token: Token)
    requires token in TreeHtml(nodes, false, false) && token.Open? && token.name == "a"
    ensures exists url :: HasLink(nodes, url) && Safe(url) && token == Anchor(url)
  {
    AnchorsFromLinks(nodes, false, false);
    hide TreeHtml, Points, Safe, Anchor;
    var url :| HasLink(nodes, url) && Points(url) && token == Anchor(url);
    PointsSafely(url);
  }
}
