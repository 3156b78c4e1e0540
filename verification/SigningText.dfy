/** The canonical arrays that signatures and digests cover, as the text the server prints. */
module SigningText {
  import opened SyncTypes
  import opened SyncRules
  import opened CanonicalJson

  /** SHA-256 in hexadecimal, base64 both ways, and the order in which the lists of a
      policy name accounts. */
  datatype Format = Format(
    hash: string -> Id, decode: string -> string, encode: string -> string, order: set<Id> -> seq<Id>)
  {
    /** No two texts share a hash, and a list names each account of the set it is for. */
    ghost predicate Faithful() {
      && (forall a, b :: hash(a) == hash(b) ==> a == b)
      && (forall accounts :: (set a | a in order(accounts)) == accounts)
    }

    /** The signatures that parse: the canonical base64 of 64 bytes. */
    predicate Signature(text: string) {
      encode(decode(text)) == text && |decode(text)| == 64
    }

    /** What every digest covers: the signing text, then the signature's bytes. */
    function Digest(fields: seq<Json>, signature: string): Id {
      hash(Print(Array(List(fields))) + decode(signature))
    }

    lemma SameDigest(a: seq<Json>, b: seq<Json>, x: string, y: string)
      requires Faithful() && Signature(x) && Signature(y) && Digest(a, x) == Digest(b, y)
      ensures a == b && x == y
    {
      var text, other := Print(Array(List(a))), Print(Array(List(b)));
      hide Print;
      var left, right := text + decode(x), other + decode(y);
      assert left == right;
      assert left[..|left| - 64] == text && right[..|right| - 64] == other;
      assert left[|left| - 64..] == decode(x) && right[|right| - 64..] == decode(y);
      SameFields(a, b);
    }
  }

  // ----- pieces -----

  function Cursor(n: nat): Json { Text(Decimal(n)) }

  function RoleText(r: Role): Json {
    Text(match r case Owner => "owner" case Admin => "admin" case Editor => "editor" case Viewer => "viewer")
  }

  function GrantText(r: GrantRole): Json {
    Text(if r == GrantEditor then "editor" else "viewer")
  }

  function DocumentJson(d: Document): Json {
    Array(List([Text(d.generation), Text(if d.mode == TextMode then "text" else "attachment")]))
  }

  function EnvelopeFields(e: Envelope): seq<Json> {
    [Text(e.device), Text(e.wrapped), Text(e.signature)]
    + match e.wrap
      case Age => []
      case Web(recipient, ephemeral, salt, nonce) =>
        [Text("web"), Text(recipient), Text(ephemeral), Text(salt), Text(nonce)]
  }

  function EnvelopeJson(e: Envelope): Json { Array(List(EnvelopeFields(e))) }

  function Each<T>(values: seq<T>, one: T -> Json): Items {
    if values == [] then Nil else Cons(one(values[0]), Each(values[1..], one))
  }

  lemma {:induction false} SameEach<T>(a: seq<T>, b: seq<T>, one: T -> Json)
    requires Each(a, one) == Each(b, one)
    requires forall x, y | x in a && y in b && one(x) == one(y) :: x == y
    ensures a == b
  {
    if a != [] && b != [] {
      assert a[0] in a && b[0] in b;
      SameEach(a[1..], b[1..], one);
      assert a == [a[0]] + a[1..] && b == [b[0]] + b[1..];
    }
  }

  /** Cursors are printed as strings, and each number has one. */
  lemma SameCursor(a: nat, b: nat)
    ensures Cursor(a) == Cursor(b) ==> a == b
  {
    ValueOfDecimal(a);
    ValueOfDecimal(b);
  }

  /** Two arrays with one text have the same elements. */
  lemma SameFields(a: seq<Json>, b: seq<Json>)
    requires Print(Array(List(a))) == Print(Array(List(b)))
    ensures a == b
  {
    PrintInjective(Array(List(a)), Array(List(b)));
    ListInjective(a, b);
  }

  // ----- operations -----

  function OperationFields(op: Operation): seq<Json> {
    [Text("noura.sync.operation"), Number(if op.edit.Plain? then 1 else 2), Text(op.workspace), Text(op.objectId),
     Text(op.device), Text(op.id), Number(op.epoch), Cursor(op.policyRevision), Text(op.nonce), Text(op.ciphertext)]
    + match op.edit
      case Plain => []
      case Edit(generation, kind) =>
        [Text(generation),
         Text(match kind case TextKind => "text" case MetadataKind => "metadata" case FileKind => "file")]
  }

  /** Operations of either version with one signing text agree in every signed field. */
  lemma OperationText(a: Operation, b: Operation)
    requires Print(Array(List(OperationFields(a)))) == Print(Array(List(OperationFields(b))))
    ensures a == b.(signature := a.signature)
  {
    var x, y := OperationFields(a), OperationFields(b);
    SameFields(x, y);
    SameCursor(a.policyRevision, b.policyRevision);
    assert forall i | 0 <= i < 10 :: x[i] == y[i];
    assert x[0] == y[0] && x[1] == y[1] && x[2] == y[2] && x[3] == y[3] && x[4] == y[4] && x[5] == y[5] && x[6] == y[6]
      && x[7] == y[7] && x[8] == y[8] && x[9] == y[9];
    if a.edit.Edit? {
      assert x[10] == y[10] && x[11] == y[11];
    }
  }

  predicate OperationSigned(f: Format, op: Operation) { f.Signature(op.signature) }

  function OperationDigest(f: Format, op: Operation): Id { f.Digest(OperationFields(op), op.signature) }

  lemma OperationDigestTells(f: Format, a: Operation, b: Operation)
    requires f.Faithful() && OperationSigned(f, a) && OperationSigned(f, b)
    requires OperationDigest(f, a) == OperationDigest(f, b)
    ensures a == b
  {
    f.SameDigest(OperationFields(a), OperationFields(b), a.signature, b.signature);
    hide OperationFields, Print;
    OperationText(a, b);
  }

  // ----- access policies -----

  /** An account list: each account with its row, in the list's order. */
  function Pairs<R>(names: seq<Id>, rows: map<Id, R>): seq<(Id, R)> {
    if names == [] then []
    else (if names[0] in rows then [(names[0], rows[names[0]])] else []) + Pairs(names[1..], rows)
  }

  lemma {:induction false} PairsAre<R>(names: seq<Id>, rows: map<Id, R>)
    ensures forall n, r :: (n, r) in Pairs(names, rows) <==> n in names && n in rows && r == rows[n]
  {
    if names != [] {
      PairsAre(names[1..], rows);
      assert names == [names[0]] + names[1..];
    }
  }

  function Listed<R>(f: Format, rows: map<Id, R>): seq<(Id, R)> {
    Pairs(f.order(rows.Keys), rows)
  }

  lemma ListedHolds<R>(f: Format, rows: map<Id, R>)
    requires f.Faithful()
    ensures forall n, r :: (n, r) in Listed(f, rows) <==> n in rows && r == rows[n]
  {
    var names := f.order(rows.Keys);
    PairsAre(names, rows);
    assert forall n :: n in names <==> n in (set a | a in names);
  }

  lemma SameListed<R>(f: Format, a: map<Id, R>, b: map<Id, R>)
    requires f.Faithful() && Listed(f, a) == Listed(f, b)
    ensures a == b
  {
    hide Listed;
    ListedHolds(f, a);
    ListedHolds(f, b);
    forall n ensures n in a <==> n in b
      ensures n in a ==> a[n] == b[n]
    {
      if n in a { assert (n, a[n]) in Listed(f, b); }
      if n in b { assert (n, b[n]) in Listed(f, a); }
    }
  }

  function MemberJson(pair: (Id, Role)): Json { Array(List([Text(pair.0), RoleText(pair.1)])) }

  function GrantJson(pair: (Id, GrantRole)): Json { Array(List([Text(pair.0), GrantText(pair.1)])) }

  function ObjectFields(f: Format, version: nat, o: PolicyObject): seq<Json> {
    [Text(o.id), Number(o.epoch), Array(Each(Listed(f, o.grants), GrantJson)), Array(Each(o.envelopes, EnvelopeJson))]
    + if version == 2 && o.document.Some? then [DocumentJson(o.document.value)] else []
  }

  function ObjectJson(f: Format, version: nat): PolicyObject -> Json {
    o => Array(List(ObjectFields(f, version, o)))
  }

  function PolicyFields(f: Format, p: Policy): seq<Json> {
    [Text("noura.sync.access"), Number(p.version), Text(p.workspace), Cursor(p.revision),
     if p.previous.None? then Null else Text(p.previous.value), Text(p.device),
     Array(Each(Listed(f, p.members), MemberJson)), Array(Each(p.objects, ObjectJson(f, p.version)))]
  }

  lemma SameObject(f: Format, version: nat, a: PolicyObject, b: PolicyObject)
    requires f.Faithful() && (version == 2 <==> a.document.Some?) && (version == 2 <==> b.document.Some?)
    requires ObjectJson(f, version)(a) == ObjectJson(f, version)(b)
    ensures a == b
  {
    var x, y := ObjectFields(f, version, a), ObjectFields(f, version, b);
    ListInjective(x, y);
    hide List;
    assert x[0] == y[0] && x[1] == y[1] && x[2] == y[2] && x[3] == y[3];
    SameEach(Listed(f, a.grants), Listed(f, b.grants), GrantJson) by { PairsDiffer(); }
    SameListed(f, a.grants, b.grants);
    SameEach(a.envelopes, b.envelopes, EnvelopeJson) by { EnvelopesDiffer(); }
    if version == 2 {
      assert x[4] == y[4];
      DocumentsDiffer(a.document.value, b.document.value);
    }
  }

  lemma PairsDiffer()
    ensures forall x, y | GrantJson(x) == GrantJson(y) :: x == y
    ensures forall x, y | MemberJson(x) == MemberJson(y) :: x == y
  {
    forall x, y | GrantJson(x) == GrantJson(y) ensures x == y {
      var a, b := [Text(x.0), GrantText(x.1)], [Text(y.0), GrantText(y.1)];
      ListInjective(a, b);
      assert a[0] == b[0] && a[1] == b[1];
    }
    forall x, y | MemberJson(x) == MemberJson(y) ensures x == y {
      var a, b := [Text(x.0), RoleText(x.1)], [Text(y.0), RoleText(y.1)];
      ListInjective(a, b);
      assert a[0] == b[0] && a[1] == b[1];
    }
  }

  lemma EnvelopesDiffer()
    ensures forall x, y | EnvelopeJson(x) == EnvelopeJson(y) :: x == y
  {
    forall x, y | EnvelopeJson(x) == EnvelopeJson(y) ensures x == y {
      var a, b := EnvelopeFields(x), EnvelopeFields(y);
      ListInjective(a, b);
      assert a[0] == b[0] && a[1] == b[1] && a[2] == b[2];
      if x.wrap.Web? {
        assert a[4] == b[4] && a[5] == b[5] && a[6] == b[6] && a[7] == b[7];
      }
    }
  }

  lemma DocumentsDiffer(a: Document, b: Document)
    requires DocumentJson(a) == DocumentJson(b)
    ensures a == b
  {
    var x := [Text(a.generation), Text(if a.mode == TextMode then "text" else "attachment")];
    var y := [Text(b.generation), Text(if b.mode == TextMode then "text" else "attachment")];
    ListInjective(x, y);
    assert x[0] == y[0] && x[1] == y[1];
  }

  /** A list of policy entries reads back in one way. */
  lemma SameObjects(f: Format, version: nat, a: seq<PolicyObject>, b: seq<PolicyObject>)
    requires f.Faithful() && Each(a, ObjectJson(f, version)) == Each(b, ObjectJson(f, version))
    requires forall o <- a + b :: version == 2 <==> o.document.Some?
    ensures a == b
  {
    hide Each, ObjectJson;
    forall o, q | o in a && q in b && ObjectJson(f, version)(o) == ObjectJson(f, version)(q)
      ensures o == q
    {
      assert o in a + b && q in a + b;
      SameObject(f, version, o, q);
    }
    SameEach(a, b, ObjectJson(f, version));
  }

  lemma SameMembers(f: Format, a: map<Id, Role>, b: map<Id, Role>)
    requires f.Faithful() && Each(Listed(f, a), MemberJson) == Each(Listed(f, b), MemberJson)
    ensures a == b
  {
    PairsDiffer();
    SameEach(Listed(f, a), Listed(f, b), MemberJson);
    SameListed(f, a, b);
  }

  /** Policies of either version, with envelopes of either construction, that print one
      signing text agree in every signed field. */
  lemma PolicyText(f: Format, a: Policy, b: Policy)
    requires f.Faithful() && PolicyShape(a) && PolicyShape(b)
    requires Print(Array(List(PolicyFields(f, a)))) == Print(Array(List(PolicyFields(f, b))))
    ensures a == b.(signature := a.signature)
  {
    assert forall o <- a.objects :: a.version == 2 <==> o.document.Some?;
    assert forall o <- b.objects :: b.version == 2 <==> o.document.Some?;
    hide PolicyShape;
    SameFields(PolicyFields(f, a), PolicyFields(f, b));
    SamePolicy(f, a, b);
  }

  lemma SamePolicy(f: Format, a: Policy, b: Policy)
    requires f.Faithful() && PolicyFields(f, a) == PolicyFields(f, b)
    requires forall o <- a.objects :: a.version == 2 <==> o.document.Some?
    requires forall o <- b.objects :: b.version == 2 <==> o.document.Some?
    ensures a == b.(signature := a.signature)
  {
    hide List, Each;
    var x, y := PolicyFields(f, a), PolicyFields(f, b);
    assert x[1] == y[1] && x[2] == y[2] && x[3] == y[3] && x[4] == y[4] && x[5] == y[5] && x[6] == y[6] && x[7] == y[7];
    SameCursor(a.revision, b.revision);
    SameMembers(f, a.members, b.members);
    SameObjects(f, a.version, a.objects, b.objects);
  }

  function PolicyDigest(f: Format, p: Policy): Id { f.Digest(PolicyFields(f, p), p.signature) }

  lemma PolicyDigestTells(f: Format, a: Policy, b: Policy)
    requires f.Faithful() && PolicyShape(a) && PolicyShape(b) && f.Signature(a.signature) && f.Signature(b.signature)
    requires PolicyDigest(f, a) == PolicyDigest(f, b)
    ensures a == b
  {
    f.SameDigest(PolicyFields(f, a), PolicyFields(f, b), a.signature, b.signature);
    hide PolicyFields, PolicyShape, Print;
    PolicyText(f, a, b);
  }

  // ----- checkpoints -----

  predicate CheckpointSigned(f: Format, c: Checkpoint) {
    f.Signature(c.signature) && f.Signature(c.payload.signature)
  }

  function CheckpointFields(f: Format, c: Checkpoint): seq<Json> {
    [Text("noura.sync.checkpoint"), Number(1), Text(c.generation), Cursor(c.covered), Text(OperationDigest(f, c.payload))]
  }

  function CheckpointDigest(f: Format, c: Checkpoint): Id { f.Digest(CheckpointFields(f, c), c.signature) }

  /** A checkpoint's signing text fixes the whole operation it carries, signature and all. */
  lemma CheckpointText(f: Format, a: Checkpoint, b: Checkpoint)
    requires f.Faithful() && CheckpointSigned(f, a) && CheckpointSigned(f, b)
    requires Print(Array(List(CheckpointFields(f, a)))) == Print(Array(List(CheckpointFields(f, b))))
    ensures a == b.(signature := a.signature)
  {
    var x, y := CheckpointFields(f, a), CheckpointFields(f, b);
    SameFields(x, y);
    assert x[2] == y[2] && x[3] == y[3] && x[4] == y[4];
    SameCursor(a.covered, b.covered);
    OperationDigestTells(f, a.payload, b.payload);
  }

  lemma CheckpointDigestTells(f: Format, a: Checkpoint, b: Checkpoint)
    requires f.Faithful() && CheckpointSigned(f, a) && CheckpointSigned(f, b)
    requires CheckpointDigest(f, a) == CheckpointDigest(f, b)
    ensures a == b
  {
    f.SameDigest(CheckpointFields(f, a), CheckpointFields(f, b), a.signature, b.signature);
    hide CheckpointFields, Print;
    CheckpointText(f, a, b);
  }

  // ----- transitions -----

  function BlobFields(b: BlobEntry): seq<Json> { [Text(b.objectId), Number(b.epoch), Text(b.digest), Number(b.size)] }

  function BlobJson(b: BlobEntry): Json { Array(List(BlobFields(b))) }

  function DigestJson(f: Format): Checkpoint -> Json { c => Text(CheckpointDigest(f, c)) }

  /** The manifest that version 2 appends. */
  function Manifest(version: nat, blobs: seq<BlobEntry>): seq<Json> {
    if version == 2 then [Array(Each(blobs, BlobJson))] else []
  }

  lemma SameManifest(version: nat, a: seq<BlobEntry>, b: seq<BlobEntry>)
    requires Manifest(version, a) == Manifest(version, b) && (version != 2 ==> a == b)
    ensures a == b
  {
    if version == 2 {
      assert Manifest(version, a)[0] == Manifest(version, b)[0];
      forall x, y | BlobJson(x) == BlobJson(y) ensures x == y {
        var p, q := BlobFields(x), BlobFields(y);
        ListInjective(p, q);
        assert p[0] == q[0] && p[1] == q[1] && p[2] == q[2] && p[3] == q[3];
      }
      SameEach(a, b, BlobJson);
    }
  }

  predicate TransitionSigned(f: Format, t: Transition) {
    f.Signature(t.signature) && f.Signature(t.policy.signature) && forall c <- t.checkpoints :: CheckpointSigned(f, c)
  }

  function TransitionFields(f: Format, t: Transition): seq<Json> {
    [Text("noura.sync.transition"), Number(t.version), Text(t.id), Cursor(t.covered), Text(PolicyDigest(f, t.policy)),
     Array(Each(t.checkpoints, DigestJson(f)))] + Manifest(t.version, t.blobs)
  }

  function TransitionDigest(f: Format, t: Transition): Id { f.Digest(TransitionFields(f, t), t.signature) }

  lemma SameCheckpoints(f: Format, a: seq<Checkpoint>, b: seq<Checkpoint>)
    requires f.Faithful() && Each(a, DigestJson(f)) == Each(b, DigestJson(f))
    requires (forall c <- a :: CheckpointSigned(f, c)) && (forall c <- b :: CheckpointSigned(f, c))
    ensures a == b
  {
    hide CheckpointDigest, CheckpointSigned, Each;
    forall c, d | c in a && d in b && DigestJson(f)(c) == DigestJson(f)(d) ensures c == d {
      CheckpointDigestTells(f, c, d);
    }
    SameEach(a, b, DigestJson(f));
  }

  /** A transition's signing text fixes its whole policy, its checkpoints and its manifest. */
  lemma TransitionText(f: Format, a: Transition, b: Transition)
    requires f.Faithful() && TransitionShape(a) && TransitionShape(b) && TransitionSigned(f, a) && TransitionSigned(f, b)
    requires Print(Array(List(TransitionFields(f, a)))) == Print(Array(List(TransitionFields(f, b))))
    ensures a == b.(signature := a.signature)
  {
    assert a.version in {1, 2} && PolicyShape(a.policy) && (a.version == 1 ==> a.blobs == []);
    assert b.version in {1, 2} && PolicyShape(b.policy) && (b.version == 1 ==> b.blobs == []);
    hide TransitionShape, PolicyShape, PolicyDigest, CheckpointSigned, Each, Manifest, Print;
    var x, y := TransitionFields(f, a), TransitionFields(f, b);
    SameFields(x, y);
    assert x[1] == y[1] && x[2] == y[2] && x[3] == y[3] && x[4] == y[4] && x[5] == y[5];
    assert Manifest(a.version, a.blobs) == x[6..] && Manifest(b.version, b.blobs) == y[6..];
    SameCursor(a.covered, b.covered);
    PolicyDigestTells(f, a.policy, b.policy);
    SameCheckpoints(f, a.checkpoints, b.checkpoints);
    SameManifest(a.version, a.blobs, b.blobs);
  }

  /** So does its digest, which stands for the signature too. */
  lemma TransitionDigestTells(f: Format, a: Transition, b: Transition)
    requires f.Faithful() && TransitionShape(a) && TransitionShape(b) && TransitionSigned(f, a) && TransitionSigned(f, b)
    requires TransitionDigest(f, a) == TransitionDigest(f, b)
    ensures a == b
  {
    assert f.Signature(a.signature) && f.Signature(b.signature);
    hide TransitionShape, TransitionSigned, TransitionFields, Print;
    f.SameDigest(TransitionFields(f, a), TransitionFields(f, b), a.signature, b.signature);
    TransitionText(f, a, b);
  }

  // ----- activations -----

  predicate ActivationSigned(f: Format, a: Activation) {
    f.Signature(a.signature) && CheckpointSigned(f, a.checkpoint)
  }

  function ActivationFields(f: Format, a: Activation): seq<Json> {
    [Text("noura.sync.object-activation"), Number(a.version), Text(a.id), Text(a.workspace), Cursor(a.policyRevision),
     Cursor(a.covered), Text(a.capability), Text(a.device), DocumentJson(a.document),
     Array(Each(a.envelopes, EnvelopeJson)), Text(CheckpointDigest(f, a.checkpoint))] + Manifest(a.version, a.blobs)
  }

  function ActivationDigest(f: Format, a: Activation): Id { f.Digest(ActivationFields(f, a), a.signature) }

  lemma ActivationText(f: Format, a: Activation, b: Activation)
    requires f.Faithful() && ActivationShape(a) && ActivationShape(b) && ActivationSigned(f, a) && ActivationSigned(f, b)
    requires Print(Array(List(ActivationFields(f, a)))) == Print(Array(List(ActivationFields(f, b))))
    ensures a == b.(signature := a.signature)
  {
    assert a.version in {1, 2} && (a.version == 1 ==> a.blobs == []);
    assert b.version in {1, 2} && (b.version == 1 ==> b.blobs == []);
    hide ActivationShape, CheckpointDigest, CheckpointSigned, Each, Manifest, Print, DocumentJson;
    var x, y := ActivationFields(f, a), ActivationFields(f, b);
    SameFields(x, y);
    assert x[1] == y[1] && x[2] == y[2] && x[3] == y[3] && x[4] == y[4] && x[5] == y[5];
    assert x[6] == y[6] && x[7] == y[7] && x[8] == y[8] && x[9] == y[9] && x[10] == y[10];
    assert Manifest(a.version, a.blobs) == x[11..] && Manifest(b.version, b.blobs) == y[11..];
    SameCursor(a.covered, b.covered);
    SameCursor(a.policyRevision, b.policyRevision);
    DocumentsDiffer(a.document, b.document);
    EnvelopesDiffer();
    SameEach(a.envelopes, b.envelopes, EnvelopeJson);
    CheckpointDigestTells(f, a.checkpoint, b.checkpoint);
    SameManifest(a.version, a.blobs, b.blobs);
  }

  lemma ActivationDigestTells(f: Format, a: Activation, b: Activation)
    requires f.Faithful() && ActivationShape(a) && ActivationShape(b) && ActivationSigned(f, a) && ActivationSigned(f, b)
    requires ActivationDigest(f, a) == ActivationDigest(f, b)
    ensures a == b
  {
    assert f.Signature(a.signature) && f.Signature(b.signature);
    hide ActivationShape, ActivationSigned, ActivationFields, Print;
    f.SameDigest(ActivationFields(f, a), ActivationFields(f, b), a.signature, b.signature);
    ActivationText(f, a, b);
  }

  // ----- keys and capabilities -----

  function KeyFields(k: OwnKey): seq<Json> {
    [Text(if k.wrap.Age? then "noura.sync.key" else "noura.sync.key.web"), Number(1), Text(k.workspace),
     Text(k.objectId), Number(k.epoch), Text(k.signer), Text(k.device)]
    + match k.wrap
      case Age => [Text(k.wrapped)]
      case Web(recipient, ephemeral, salt, nonce) =>
        [Text(recipient), Text(ephemeral), Text(salt), Text(nonce), Text(k.wrapped)]
  }

  /** Envelopes of either construction with one signing text agree in every signed field. */
  lemma KeyText(a: OwnKey, b: OwnKey)
    requires Print(Array(List(KeyFields(a)))) == Print(Array(List(KeyFields(b))))
    ensures a == b.(signature := a.signature)
  {
    var x, y := KeyFields(a), KeyFields(b);
    SameFields(x, y);
    assert x[0] == y[0] && x[2] == y[2] && x[3] == y[3] && x[4] == y[4] && x[5] == y[5] && x[6] == y[6] && x[7] == y[7];
    assert |x| == (if a.wrap.Age? then 8 else 12) && |y| == (if b.wrap.Age? then 8 else 12);
    if a.wrap.Web? {
      assert x[8] == y[8] && x[9] == y[9] && x[10] == y[10] && x[11] == y[11];
    }
  }

  function CapabilityFields(c: Capability): seq<Json> {
    [Text("noura.sync.workspace-capability"), Number(1), Text(c.workspace), Number(1), Number(1), Number(1),
     Text(c.device)]
  }

  // ----- all of them -----

  datatype Signed =
    | OfOperation(op: Operation) | OfPolicy(policy: Policy) | OfCheckpoint(checkpoint: Checkpoint)
    | OfTransition(transition: Transition) | OfActivation(activation: Activation) | OfKey(key: OwnKey)
    | OfCapability(capability: Capability)

  function Fields(f: Format, x: Signed): seq<Json> {
    match x
    case OfOperation(op) => OperationFields(op)
    case OfPolicy(p) => PolicyFields(f, p)
    case OfCheckpoint(c) => CheckpointFields(f, c)
    case OfTransition(t) => TransitionFields(f, t)
    case OfActivation(a) => ActivationFields(f, a)
    case OfKey(k) => KeyFields(k)
    case OfCapability(c) => CapabilityFields(c)
  }

  function SigningText(f: Format, x: Signed): string { Print(Array(List(Fields(f, x)))) }

  /** The value without its own signature. */
  function Unsigned(x: Signed): Signed {
    match x
    case OfOperation(op) => OfOperation(op.(signature := ""))
    case OfPolicy(p) => OfPolicy(p.(signature := ""))
    case OfCheckpoint(c) => OfCheckpoint(c.(signature := ""))
    case OfTransition(t) => OfTransition(t.(signature := ""))
    case OfActivation(a) => OfActivation(a.(signature := ""))
    case OfKey(k) => OfKey(k.(signature := ""))
    case OfCapability(c) => OfCapability(c.(signature := ""))
  }

  /** What the server's parsers accept, as far as signing depends on it. */
  predicate Accepted(f: Format, x: Signed) {
    match x
    case OfPolicy(p) => PolicyShape(p)
    case OfCheckpoint(c) => CheckpointSigned(f, c)
    case OfTransition(t) => TransitionShape(t) && TransitionSigned(f, t)
    case OfActivation(a) => ActivationShape(a) && ActivationSigned(f, a)
    case _ => true
  }

  /** The first element of each tuple. */
  function Domain(x: Signed): string {
    match x
    case OfOperation(_) => "noura.sync.operation"
    case OfPolicy(_) => "noura.sync.access"
    case OfCheckpoint(_) => "noura.sync.checkpoint"
    case OfTransition(_) => "noura.sync.transition"
    case OfActivation(_) => "noura.sync.object-activation"
    case OfKey(k) => if k.wrap.Age? then "noura.sync.key" else "noura.sync.key.web"
    case OfCapability(_) => "noura.sync.workspace-capability"
  }

  lemma FieldsStart(f: Format, x: Signed)
    ensures Fields(f, x) != [] && Fields(f, x)[0] == Text(Domain(x))
  {
  }

  /** Domains are told apart by a length or a letter. */
  lemma DomainsDiffer(x: Signed, y: Signed)
    requires Domain(x) == Domain(y)
    ensures x.OfOperation? == y.OfOperation? && x.OfPolicy? == y.OfPolicy? && x.OfCheckpoint? == y.OfCheckpoint?
    ensures x.OfTransition? == y.OfTransition? && x.OfActivation? == y.OfActivation? && x.OfKey? == y.OfKey?
  {
    var a, b := Domain(x), Domain(y);
    assert |a| == |b| && (|a| > 11 ==> a[11] == b[11]);
  }

  /** Whatever two accepted values are, one signing text means one value, up to its own
      signature: kinds, versions and envelope constructions never meet. */
  lemma SigningInjective(f: Format, x: Signed, y: Signed)
    requires f.Faithful() && Accepted(f, x) && Accepted(f, y) && SigningText(f, x) == SigningText(f, y)
    ensures Unsigned(x) == Unsigned(y)
  {
    SameFields(Fields(f, x), Fields(f, y));
    FieldsStart(f, x);
    FieldsStart(f, y);
    DomainsDiffer(x, y);
    hide PolicyShape, TransitionShape, ActivationShape, Print, OperationFields, PolicyFields, CheckpointFields,
         TransitionFields, ActivationFields, KeyFields;
    match x
    case OfOperation(op) => OperationText(op, y.op);
    case OfPolicy(p) => PolicyText(f, p, y.policy);
    case OfCheckpoint(c) => CheckpointText(f, c, y.checkpoint);
    case OfTransition(t) => TransitionText(f, t, y.transition);
    case OfActivation(a) => ActivationText(f, a, y.activation);
    case OfKey(k) => KeyText(k, y.key);
    case OfCapability(c) =>
      assert Fields(f, x)[2] == Fields(f, y)[2] && Fields(f, x)[6] == Fields(f, y)[6];
  }
}
