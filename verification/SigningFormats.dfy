/** The signing texts, written out as their tuples of `docs/workspace-format`, for the
    identifiers and base64 that the parsers accept. */
module SigningFormats {
  import opened Wrappers
  import opened SyncTypes
  import opened CanonicalJson
  import opened SigningText

  function HexValue(c: char): int { if '0' <= c <= '9' then c as int - 48 else c as int - 87 }

  /** A character inside a JSON string: itself, or a backslash and its letter, or its code in
      four small hexadecimal digits. */
  lemma EscapesAsJson(c: char)
    ensures c == '"' ==> Escaped(c) == ['\\', '"']
    ensures c == '\\' ==> Escaped(c) == ['\\', '\\']
    ensures c as int in {8, 9, 10, 12, 13} ==>
      Escaped(c) == ['\\', map[8 := 'b', 9 := 't', 10 := 'n', 12 := 'f', 13 := 'r'][c as int]]
    ensures c as int < 32 && c as int !in {8, 9, 10, 12, 13} ==>
      && |Escaped(c)| == 6 && Escaped(c)[..4] == "\\u00" && (forall i | 4 <= i < 6 :: Escaped(c)[i] in "0123456789abcdef")
      && 16 * HexValue(Escaped(c)[4]) + HexValue(Escaped(c)[5]) == c as int
    ensures c as int >= 32 && c != '"' && c != '\\' ==> Escaped(c) == [c]
  {
    if c as int < 32 && c as int !in {8, 9, 10, 12, 13} {
      assert "0123456789abcdef"[c as int / 16] == Hex(c as int / 16) && "0123456789abcdef"[c as int % 16] == Hex(c as int % 16);
    }
  }

  /** Text that JSON prints as it is. */
  predicate Plainly(text: string) { forall c <- text :: c != '"' && c != '\\' && c as int >= 32 }

  function Q(text: string): string { "\"" + text + "\"" }

  function Commas(parts: seq<string>): string {
    if parts == [] then "" else if |parts| == 1 then parts[0] else parts[0] + "," + Commas(parts[1..])
  }

  function Tuple(parts: seq<string>): string { "[" + Commas(parts) + "]" }

  lemma {:induction false} QuotedPlain(text: string)
    requires Plainly(text)
    ensures Quoted(text, "") == text + "\""
  {
    if text != [] {
      assert text[0] in text && forall c <- text[1..] :: c in text;
      QuotedPlain(text[1..]);
      assert Escaped(text[0]) == [text[0]];
      hide Escaped;
      assert [text[0]] + (text[1..] + "\"") == ([text[0]] + text[1..]) + "\"";
      assert text == [text[0]] + text[1..];
    }
  }

  lemma {:induction false} PrintOnto(j: Json, rest: string)
    ensures PrintTo(j, rest) == Print(j) + rest
    decreases j, 0
  {
    match j
    case Null => assert "null" + "" + rest == "null" + rest;
    case Number(n) => assert Decimal(n) + "" == Decimal(n);
    case Text(text) =>
      QuotedOnto(text, rest);
      assert "\"" + (Quoted(text, "") + rest) == ("\"" + Quoted(text, "")) + rest;
    case Array(Nil) => assert "[]" + "" + rest == "[]" + rest;
    case Array(Cons(head, tail)) =>
      PrintOnto(head, TailTo(tail, rest));
      PrintOnto(head, TailTo(tail, ""));
      TailOnto(tail, rest);
      Regroup("[", Print(head), TailTo(tail, ""), rest);
  }

  lemma Regroup(a: string, b: string, c: string, d: string)
    ensures a + (b + (c + d)) == (a + (b + c)) + d
  {
  }

  lemma {:induction false} QuotedOnto(text: string, rest: string)
    ensures Quoted(text, rest) == Quoted(text, "") + rest
  {
    if text == [] {
      assert "\"" + "" + rest == "\"" + rest;
    } else {
      hide Escaped;
      QuotedOnto(text[1..], rest);
      assert Escaped(text[0]) + (Quoted(text[1..], "") + rest) == (Escaped(text[0]) + Quoted(text[1..], "")) + rest;
    }
  }

  lemma {:induction false} TailOnto(items: Items, rest: string)
    ensures TailTo(items, rest) == TailTo(items, "") + rest
    decreases items, 1
  {
    match items
    case Nil => assert "]" + "" + rest == "]" + rest;
    case Cons(head, tail) =>
      PrintOnto(head, TailTo(tail, rest));
      PrintOnto(head, TailTo(tail, ""));
      TailOnto(tail, rest);
      Regroup(",", Print(head), TailTo(tail, ""), rest);
  }

  /** An array prints as its elements' texts between brackets. */
  lemma ArrayPrinted(values: seq<Json>, parts: seq<string>)
    requires |values| == |parts| && forall i | 0 <= i < |parts| :: Print(values[i]) == parts[i]
    ensures Print(Array(List(values))) == Tuple(parts)
  {
    if values != [] {
      PrintOnto(values[0], TailTo(List(values[1..]), ""));
      TailPrinted(values[1..], parts[1..]);
      hide Print, List, TailTo;
      CommasOnto(parts[0], parts[1..]);
    }
  }

  /** The rest of an array's text. */
  function Rest(parts: seq<string>): string { if parts == [] then "]" else "," + Commas(parts) + "]" }

  lemma CommasOnto(first: string, more: seq<string>)
    ensures first + Rest(more) == Commas([first] + more) + "]"
    ensures "," + (first + Rest(more)) == Rest([first] + more)
  {
    assert ([first] + more)[1..] == more;
    if more == [] {
    } else {
      assert first + ("," + Commas(more) + "]") == (first + "," + Commas(more)) + "]";
    }
  }

  lemma {:induction false} TailPrinted(values: seq<Json>, parts: seq<string>)
    requires |values| == |parts| && forall i | 0 <= i < |parts| :: Print(values[i]) == parts[i]
    ensures TailTo(List(values), "") == Rest(parts)
  {
    if values != [] {
      TailPrinted(values[1..], parts[1..]);
      PrintOnto(values[0], TailTo(List(values[1..]), ""));
      hide Print, Commas, Rest;
      assert parts == [parts[0]] + parts[1..];
      CommasOnto(parts[0], parts[1..]);
    }
  }

  lemma TextPrinted(text: string)
    requires Plainly(text)
    ensures Print(Text(text)) == Q(text)
  {
    QuotedPlain(text);
    assert "\"" + (text + "\"") == "\"" + text + "\"";
  }

  lemma NumberPrinted(n: nat)
    ensures Print(Number(n)) == Decimal(n) && Print(Cursor(n)) == Q(Decimal(n)) && Print(Null) == "null"
  {
    TextPrinted(Decimal(n));
  }

  // ----- the tuples -----

  /** The texts of some JSON values, one by one. */
  ghost predicate Prints(values: seq<Json>, parts: seq<string>) {
    |values| == |parts| && forall i | 0 <= i < |parts| :: Print(values[i]) == parts[i]
  }

  lemma PrintsMore(values: seq<Json>, parts: seq<string>, more: seq<Json>, rest: seq<string>)
    requires Prints(values, parts) && Prints(more, rest)
    ensures Prints(values + more, parts + rest)
  {
    hide Print;
  }

  /** Two texts, as they are printed. */
  lemma PairPrinted(a: string, b: string)
    requires Plainly(a) && Plainly(b)
    ensures Prints([Text(a), Text(b)], [Q(a), Q(b)])
  {
    TextPrinted(a);
    TextPrinted(b);
    hide Print, Q, Plainly;
  }

  lemma OnePrinted(a: string)
    requires Plainly(a)
    ensures Prints([Text(a)], [Q(a)])
  {
    TextPrinted(a);
    hide Print, Q, Plainly;
  }

  lemma HeadPrinted(name: string, version: nat)
    requires Plainly(name) && version < 10
    ensures Prints([Text(name), Number(version)], [Q(name), [Digit(version)]])
  {
    TextPrinted(name);
    NumberPrinted(version);
    assert Decimal(version) == [Digit(version)];
    hide Print, Q, Plainly, Decimal;
  }

  lemma CountsPrinted(a: nat, b: nat)
    ensures Prints([Number(a), Cursor(b)], [Decimal(a), Q(Decimal(b))])
  {
    NumberPrinted(a);
    NumberPrinted(b);
    hide Print, Q, Decimal, Cursor;
  }

  // ----- operations -----

  predicate OperationPlain(op: Operation) {
    && Plainly(op.workspace) && Plainly(op.objectId) && Plainly(op.device) && Plainly(op.id)
    && Plainly(op.nonce) && Plainly(op.ciphertext) && (op.edit.Edit? ==> Plainly(op.edit.generation))
  }

  function KindName(kind: Kind): string {
    if kind == TextKind then "text" else if kind == MetadataKind then "metadata" else "file"
  }

  function OperationTuple(op: Operation): seq<string> {
    [Q("noura.sync.operation"), if op.edit.Plain? then "1" else "2", Q(op.workspace), Q(op.objectId), Q(op.device), Q(op.id),
     Decimal(op.epoch), Q(Decimal(op.policyRevision)), Q(op.nonce), Q(op.ciphertext)]
    + if op.edit.Plain? then [] else [Q(op.edit.generation), Q(KindName(op.edit.kind))]
  }

  lemma NamesPlain()
    ensures Plainly("noura.sync.operation") && Plainly("text") && Plainly("metadata") && Plainly("file")
  {
  }

  lemma VersionDigit(plain: bool)
    ensures [Digit(if plain then 1 else 2)] == if plain then "1" else "2"
  {
  }

  /** The edit's fields, and their texts. */
  function EditFields(edit: Edit): seq<Json> {
    if edit.Plain? then [] else [Text(edit.generation), Text(KindName(edit.kind))]
  }

  function EditTexts(edit: Edit): seq<string> {
    if edit.Plain? then [] else [Q(edit.generation), Q(KindName(edit.kind))]
  }

  function Firsts(op: Operation, version: nat): seq<Json> {
    [Text("noura.sync.operation"), Number(version)] + [Text(op.workspace), Text(op.objectId)] + [Text(op.device), Text(op.id)]
  }

  function FirstTexts(op: Operation, mark: string): seq<string> {
    [Q("noura.sync.operation"), mark] + [Q(op.workspace), Q(op.objectId)] + [Q(op.device), Q(op.id)]
  }

  lemma FirstPrints(op: Operation, version: nat, mark: string)
    requires OperationPlain(op) && version < 10 && [Digit(version)] == mark
    ensures Prints(Firsts(op, version), FirstTexts(op, mark))
  {
    NamesPlain();
    hide Plainly, Digit, Q, Prints;
    HeadPrinted("noura.sync.operation", version);
    PairPrinted(op.workspace, op.objectId);
    PairPrinted(op.device, op.id);
    GroupsPrint([Text("noura.sync.operation"), Number(version)], [Q("noura.sync.operation"), mark],
                [Text(op.workspace), Text(op.objectId)], [Q(op.workspace), Q(op.objectId)],
                [Text(op.device), Text(op.id)], [Q(op.device), Q(op.id)]);
  }

  lemma EditPrints(edit: Edit)
    requires edit.Edit? ==> Plainly(edit.generation)
    ensures Prints(EditFields(edit), EditTexts(edit))
  {
    NamesPlain();
    hide Plainly, Q;
    if edit.Edit? { PairPrinted(edit.generation, KindName(edit.kind)); }
  }

  lemma OperationParts(op: Operation, version: nat, mark: string)
    requires version == (if op.edit.Plain? then 1 else 2) && mark == (if op.edit.Plain? then "1" else "2")
    ensures OperationFields(op) == Firsts(op, version)
      + ([Number(op.epoch), Cursor(op.policyRevision)] + [Text(op.nonce), Text(op.ciphertext)] + EditFields(op.edit))
    ensures OperationTuple(op) == FirstTexts(op, mark)
      + ([Decimal(op.epoch), Q(Decimal(op.policyRevision))] + [Q(op.nonce), Q(op.ciphertext)] + EditTexts(op.edit))
  {
    hide Q, Decimal, Cursor;
  }

  /** Six groups of fields, one after another. */
  lemma GroupsPrint(a: seq<Json>, x: seq<string>, b: seq<Json>, y: seq<string>, c: seq<Json>, z: seq<string>)
    requires Prints(a, x) && Prints(b, y) && Prints(c, z)
    ensures Prints(a + b + c, x + y + z)
  {
    hide Prints;
    PrintsMore(a, x, b, y);
    PrintsMore(a + b, x + y, c, z);
  }

  lemma OperationPrints(op: Operation)
    requires OperationPlain(op)
    ensures Prints(OperationFields(op), OperationTuple(op))
  {
    var version, mark := if op.edit.Plain? then 1 else 2, if op.edit.Plain? then "1" else "2";
    NamesPlain();
    VersionDigit(op.edit.Plain?);
    OperationParts(op, version, mark);
    hide Plainly, Digit, OperationFields, OperationTuple, Q, Decimal, Cursor, Prints, EditFields, EditTexts;
    FirstPrints(op, version, mark);
    CountsPrinted(op.epoch, op.policyRevision);
    PairPrinted(op.nonce, op.ciphertext);
    EditPrints(op.edit);
    GroupsPrint([Number(op.epoch), Cursor(op.policyRevision)], [Decimal(op.epoch), Q(Decimal(op.policyRevision))],
                [Text(op.nonce), Text(op.ciphertext)], [Q(op.nonce), Q(op.ciphertext)], EditFields(op.edit), EditTexts(op.edit));
    PrintsMore(Firsts(op, version), FirstTexts(op, mark),
      [Number(op.epoch), Cursor(op.policyRevision)] + [Text(op.nonce), Text(op.ciphertext)] + EditFields(op.edit),
      [Decimal(op.epoch), Q(Decimal(op.policyRevision))] + [Q(op.nonce), Q(op.ciphertext)] + EditTexts(op.edit));
  }

  /** An operation's signing text is the tuple of its version. */
  lemma OperationPrinted(op: Operation)
    requires OperationPlain(op)
    ensures Print(Array(List(OperationFields(op)))) == Tuple(OperationTuple(op))
  {
    OperationPrints(op);
    hide Print, List, Tuple, OperationFields, OperationTuple;
    ArrayPrinted(OperationFields(op), OperationTuple(op));
  }

  // ----- checkpoints -----

  lemma CheckpointName()
    ensures Plainly("noura.sync.checkpoint") && [Digit(1)] == "1"
  {
  }

  lemma CheckpointPrints(f: Format, c: Checkpoint)
    requires Plainly(c.generation) && Plainly(OperationDigest(f, c.payload))
    ensures Prints(CheckpointFields(f, c),
                   [Q("noura.sync.checkpoint"), "1"]
                   + ([Q(c.generation)] + [Q(Decimal(c.covered))] + [Q(OperationDigest(f, c.payload))]))
  {
    CheckpointName();
    NumberPrinted(c.covered);
    assert Prints([Cursor(c.covered)], [Q(Decimal(c.covered))]) by { hide Print, Q, Decimal, Cursor; }
    hide Plainly, Digit, Q, Decimal, Cursor, OperationDigest, Prints;
    HeadPrinted("noura.sync.checkpoint", 1);
    OnePrinted(c.generation);
    OnePrinted(OperationDigest(f, c.payload));
    var rest := [Text(c.generation)] + [Cursor(c.covered)] + [Text(OperationDigest(f, c.payload))];
    var texts := [Q(c.generation)] + [Q(Decimal(c.covered))] + [Q(OperationDigest(f, c.payload))];
    GroupsPrint([Text(c.generation)], [Q(c.generation)], [Cursor(c.covered)], [Q(Decimal(c.covered))],
                [Text(OperationDigest(f, c.payload))], [Q(OperationDigest(f, c.payload))]);
    PrintsMore([Text("noura.sync.checkpoint"), Number(1)], [Q("noura.sync.checkpoint"), "1"], rest, texts);
    assert CheckpointFields(f, c) == [Text("noura.sync.checkpoint"), Number(1)] + rest;
  }

  /** A checkpoint's signing text is its tuple, with the covered sequence as a string. */
  lemma CheckpointPrinted(f: Format, c: Checkpoint)
    requires Plainly(c.generation) && Plainly(OperationDigest(f, c.payload))
    ensures Print(Array(List(CheckpointFields(f, c)))) == Tuple(
      [Q("noura.sync.checkpoint"), "1"] + ([Q(c.generation)] + [Q(Decimal(c.covered))] + [Q(OperationDigest(f, c.payload))]))
  {
    CheckpointPrints(f, c);
    hide Print, List, Tuple, CheckpointFields, Q, Decimal;
    ArrayPrinted(CheckpointFields(f, c),
      [Q("noura.sync.checkpoint"), "1"] + ([Q(c.generation)] + [Q(Decimal(c.covered))] + [Q(OperationDigest(f, c.payload))]));
  }

  // ----- the other tuples, element by element -----

  /** The items of a JSON array, in order. */
  function ItemsOf(items: Items): seq<Json> {
    match items
    case Nil => []
    case Cons(head, tail) => [head] + ItemsOf(tail)
  }

  function Elements(j: Json): seq<Json> { if j.Array? then ItemsOf(j.items) else [] }

  lemma {:induction false} ItemsOfList(values: seq<Json>)
    ensures ItemsOf(List(values)) == values
  {
    if values != [] {
      ItemsOfList(values[1..]);
      assert values == [values[0]] + values[1..];
    }
  }

  lemma {:induction false} ItemsOfEach<T>(values: seq<T>, one: T -> Json)
    ensures |ItemsOf(Each(values, one))| == |values|
    ensures forall i | 0 <= i < |values| :: ItemsOf(Each(values, one))[i] == one(values[i])
  {
    if values != [] { ItemsOfEach(values[1..], one); }
  }

  /** The words for roles and grants. */
  lemma Words()
    ensures RoleText(Owner) == Text("owner") && RoleText(Admin) == Text("admin")
    ensures RoleText(Editor) == Text("editor") && RoleText(Viewer) == Text("viewer")
    ensures GrantText(GrantEditor) == Text("editor") && GrantText(GrantViewer) == Text("viewer")
  {
  }

  lemma DocumentTuple(d: Document)
    ensures Elements(DocumentJson(d)) ==
      [Text(d.generation)] + if d.mode.AttachmentMode? then [Text("attachment")] else [Text("text")]
  {
    ItemsOfList([Text(d.generation), Text(if d.mode == TextMode then "text" else "attachment")]);
    hide List, ItemsOf;
  }

  /** An envelope: device, wrapped key and signature, and for a browser its construction. */
  lemma EnvelopeTuple(v: Envelope)
    ensures var x := Elements(EnvelopeJson(v));
      && |x| >= 3 && x[..3] == [Text(v.device), Text(v.wrapped), Text(v.signature)]
      && x[3..] == (if v.wrap.Age? then []
           else [Text("web"), Text(v.wrap.recipientKey), Text(v.wrap.ephemeralKey), Text(v.wrap.salt), Text(v.wrap.nonce)])
  {
    ItemsOfList(EnvelopeFields(v));
    hide List, ItemsOf;
  }

  /** A policy: its name and version, workspace, revision, the digest before or null, device,
      its members, and its objects. */
  lemma PolicyTuple(f: Format, p: Policy)
    ensures var x := PolicyFields(f, p);
      && |x| == 8 && x[0] == Text("noura.sync.access") && x[1] == Number(p.version) && x[2] == Text(p.workspace)
      && x[3] == Text(Decimal(p.revision)) && x[4] == (if p.previous == None then Null else Text(p.previous.value))
      && x[5] == Text(p.device)
      && |Elements(x[6])| == |Listed(f, p.members)| && |Elements(x[7])| == |p.objects|
      && (forall i | 0 <= i < |Elements(x[6])| ::
            Elements(Elements(x[6])[i]) == [Text(Listed(f, p.members)[i].0), RoleText(Listed(f, p.members)[i].1)])
      && (forall i | 0 <= i < |p.objects| :: Elements(Elements(x[7])[i]) == ObjectFields(f, p.version, p.objects[i]))
  {
    ItemsOfEach(Listed(f, p.members), MemberJson);
    ItemsOfEach(p.objects, ObjectJson(f, p.version));
    forall pair: (Id, Role) { ItemsOfList([Text(pair.0), RoleText(pair.1)]); }
    forall o: PolicyObject { ItemsOfList(ObjectFields(f, p.version, o)); }
    hide List, ItemsOf, Each, Listed, RoleText, ObjectFields, Decimal;
  }

  /** An object of a policy: its ID, epoch, grants and envelopes, and in version 2 its document. */
  lemma ObjectTuple(f: Format, version: nat, o: PolicyObject)
    ensures var x := ObjectFields(f, version, o);
      && |x| >= 4 && x[0] == Text(o.id) && x[1] == Number(o.epoch)
      && |Elements(x[2])| == |Listed(f, o.grants)| && |Elements(x[3])| == |o.envelopes|
      && (forall i | 0 <= i < |Elements(x[2])| ::
            Elements(Elements(x[2])[i]) == [Text(Listed(f, o.grants)[i].0), GrantText(Listed(f, o.grants)[i].1)])
      && (forall i | 0 <= i < |o.envelopes| :: Elements(x[3])[i] == EnvelopeJson(o.envelopes[i]))
      && x[4..] == (if version == 2 && o.document.Some? then [DocumentJson(o.document.value)] else [])
  {
    ItemsOfEach(Listed(f, o.grants), GrantJson);
    ItemsOfEach(o.envelopes, EnvelopeJson);
    forall pair: (Id, GrantRole) { ItemsOfList([Text(pair.0), GrantText(pair.1)]); }
    hide List, ItemsOf, Each, Listed, GrantText, EnvelopeJson, DocumentJson;
  }

  /** The manifest that version 2 appends: each blob's object, epoch, digest and size. */
  lemma ManifestTuple(version: nat, blobs: seq<BlobEntry>)
    ensures |Manifest(version, blobs)| == if version == 2 then 1 else 0
    ensures version == 2 ==>
      var x := Elements(Manifest(version, blobs)[0]);
      |x| == |blobs| && forall i | 0 <= i < |blobs| ::
        Elements(x[i]) == [Text(blobs[i].objectId), Number(blobs[i].epoch), Text(blobs[i].digest), Number(blobs[i].size)]
  {
    ItemsOfEach(blobs, BlobJson);
    forall b: BlobEntry { ItemsOfList(BlobFields(b)); }
    hide List, ItemsOf, Each;
  }

  /** A transition: name and version, its ID, the covered sequence, the policy's digest, its
      checkpoints' digests, and the manifest. */
  lemma TransitionTuple(f: Format, t: Transition)
    ensures var x := TransitionFields(f, t);
      && x[..5] == [Text("noura.sync.transition"), Number(t.version), Text(t.id), Text(Decimal(t.covered)), Text(PolicyDigest(f, t.policy))]
      && |Elements(x[5])| == |t.checkpoints|
      && (forall i | 0 <= i < |t.checkpoints| :: Elements(x[5])[i] == Text(CheckpointDigest(f, t.checkpoints[i])))
      && x[6..] == Manifest(t.version, t.blobs)
  {
    ItemsOfEach(t.checkpoints, DigestJson(f));
    hide ItemsOf, Each, Manifest, PolicyDigest, CheckpointDigest, Decimal;
  }

  /** An object activation: name and version, its ID, workspace, policy revision, covered
      sequence, the capability's digest, device, document, envelopes, the checkpoint's digest,
      and the manifest. */
  lemma ActivationTuple(f: Format, a: Activation)
    ensures var x := ActivationFields(f, a);
      && x[..9] == [Text("noura.sync.object-activation"), Number(a.version), Text(a.id), Text(a.workspace),
                    Text(Decimal(a.policyRevision)), Text(Decimal(a.covered)), Text(a.capability), Text(a.device),
                    DocumentJson(a.document)]
      && |Elements(x[9])| == |a.envelopes|
      && (forall i | 0 <= i < |a.envelopes| :: Elements(x[9])[i] == EnvelopeJson(a.envelopes[i]))
      && x[10] == Text(CheckpointDigest(f, a.checkpoint)) && x[11..] == Manifest(a.version, a.blobs)
  {
    ItemsOfEach(a.envelopes, EnvelopeJson);
    hide ItemsOf, Each, Manifest, EnvelopeJson, DocumentJson, CheckpointDigest, Decimal;
  }

  /** A key envelope of either construction, and a workspace's capability. */
  lemma KeyTuple(k: OwnKey, c: Capability)
    ensures KeyFields(k) ==
      [Text(if k.wrap == Age then "noura.sync.key" else "noura.sync.key.web"), Number(1), Text(k.workspace), Text(k.objectId),
       Number(k.epoch), Text(k.signer), Text(k.device)]
      + (if k.wrap == Age then []
         else [Text(k.wrap.recipientKey), Text(k.wrap.ephemeralKey), Text(k.wrap.salt), Text(k.wrap.nonce)])
      + [Text(k.wrapped)]
    ensures CapabilityFields(c) ==
      [Text("noura.sync.workspace-capability"), Number(1), Text(c.workspace)] + [Number(1), Number(1), Number(1)] + [Text(c.device)]
  {
  }
}
