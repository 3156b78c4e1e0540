/** What a push takes, what it refuses, and the bytes it uses, read off the rows alone. */
module SyncPushes {
  import opened SyncTypes
  import opened SyncRules
  import opened SyncOperations

  /** The account is a member other than a viewer, or an editor of the object. */
  ghost predicate Writer(s: State, account: Id, o: Id) {
    || (account in s.members && s.members[account].role in {Owner, Admin, Editor})
    || (o in s.objects && account in s.objects[o].grants && s.objects[o].grants[account].role == GrantEditor)
  }

  /** The device belongs to the account, with this key, and was not revoked. */
  ghost predicate Current(s: State, actor: Actor) {
    exists device :: actor.device in s.devices && s.devices[actor.device] == device
      && device == Device(actor.account, actor.publicKey, device.recipient, false)
  }

  ghost predicate Known(s: State, id: Id) { exists row <- s.ops :: row.op.id == id }

  /** An operation not seen before fits its object as it is, and the quota. */
  ghost predicate FitsNow(s: State, op: Operation)
    requires op.objectId in s.objects
  {
    var target := s.objects[op.objectId];
    && op.epoch == target.epoch && op.policyRevision <= s.revision
    && (match target.document
        case None => op.edit == Plain
        case Some(Document(generation, mode)) =>
          && op.edit.Edit? && op.edit.generation == generation
          && (mode == AttachmentMode || op.edit.kind in {TextKind, MetadataKind}))
    && s.used + DecodedLength(op.ciphertext) <= s.quota
  }

  /** One operation of a batch. A known one must be the one there is, and answers its
      sequence; a new one must fit, and is sequenced next with the bytes it stands for. */
  lemma PushOneExactly(h: Codec, s: State, actor: Actor, op: Operation)
    requires Numbered(s)
    ensures PushOne(h, s, actor, op).Ok? <==>
      && op.objectId in s.objects && Writer(s, actor.account, op.objectId)
      && if Known(s, op.id) then exists row <- s.ops :: row.op.id == op.id && row.digest == h.op(op)
         else FitsNow(s, op)
    ensures PushOne(h, s, actor, op).Ok? && Known(s, op.id) ==>
      var done := PushOne(h, s, actor, op).value;
      done.0 == s && 1 <= done.1 <= |s.ops| && s.ops[done.1 - 1].op.id == op.id
    ensures PushOne(h, s, actor, op).Ok? && !Known(s, op.id) ==>
      var done := PushOne(h, s, actor, op).value;
      && done.1 == s.sequence + 1 == done.0.sequence
      && done.0.ops == s.ops + [OpRow(op, s.sequence + 1, h.op(op), DecodedLength(op.ciphertext))]
      && done.0.used == s.used + DecodedLength(op.ciphertext)
  {
    hide DecodedLength, FindOp;
    assert MayWrite(s, actor.account, op.objectId) == Writer(s, actor.account, op.objectId);
    if FindOp(s.ops, op.id).Some? {
      FoundNumbered(s, op.id);
      OnlyRow(s, op.id);
    }
  }

  lemma OnlyRow(s: State, id: Id)
    requires Numbered(s) && FindOp(s.ops, id).Some?
    ensures forall row <- s.ops | row.op.id == id :: row == FindOp(s.ops, id).value
  {
    FoundNumbered(s, id);
    hide FindOp;
  }

  // ----- a batch -----

  /** A batch is sequenced exactly when the device is current, signed each operation for
      itself and this workspace, and each in turn is taken after those before it. */
  lemma PushExactly(h: Codec, s: State, actor: Actor, ops: seq<Operation>, signed: Operation -> bool)
    ensures Push(h, s, actor, ops, signed).Ok? <==>
      && (forall op <- ops :: op.workspace == s.id && op.device == actor.device && signed(op))
      && Current(s, actor)
      && forall k | 0 <= k < |ops| ::
           PushAll(h, s, actor, ops[..k]).Ok? && PushOne(h, PushAll(h, s, actor, ops[..k]).value.0, actor, ops[k]).Ok?
    ensures Push(h, s, actor, ops, signed).Ok? ==> Push(h, s, actor, ops, signed) == PushAll(h, s, actor, ops)
  {
    ScreenExactly(s, actor, ops, signed);
    TakenInTurn(h, s, actor, ops);
    CurrentExactly(s, actor);
    hide PushAll, Screen, Active, Current;
  }

  lemma CurrentExactly(s: State, actor: Actor)
    ensures Active(s, actor) <==> Current(s, actor)
  {
  }

  lemma {:induction false} ScreenExactly(s: State, actor: Actor, ops: seq<Operation>, signed: Operation -> bool)
    ensures Screen(s, actor, ops, signed).None? <==>
      forall op <- ops :: op.workspace == s.id && op.device == actor.device && signed(op)
  {
    if ops != [] {
      ScreenExactly(s, actor, ops[..|ops| - 1], signed);
      assert ops == ops[..|ops| - 1] + [ops[|ops| - 1]];
    }
  }

  lemma {:induction false} TakenInTurn(h: Codec, s: State, actor: Actor, ops: seq<Operation>)
    ensures PushAll(h, s, actor, ops).Ok? <==> forall k | 0 <= k < |ops| ::
      PushAll(h, s, actor, ops[..k]).Ok? && PushOne(h, PushAll(h, s, actor, ops[..k]).value.0, actor, ops[k]).Ok?
  {
    hide PushOne;
    if ops != [] {
      var n := |ops| - 1;
      TakenInTurn(h, s, actor, ops[..n]);
      forall k | 0 <= k < n ensures ops[..n][..k] == ops[..k] && ops[..n][k] == ops[k] {}
    }
  }

  /** The bytes some operations' ciphertexts stand for. */
  function Lengths(rows: seq<OpRow>): nat {
    if rows == [] then 0 else Lengths(rows[..|rows| - 1]) + DecodedLength(rows[|rows| - 1].op.ciphertext)
  }

  /** A batch uses the bytes of what it adds, and leaves the quota. */
  lemma {:induction false} PushUses(h: Codec, s: State, actor: Actor, ops: seq<Operation>)
    requires Numbered(s) && EpochsOrdered(s) && PushAll(h, s, actor, ops).Ok? && s.used <= s.quota
    ensures var next := PushAll(h, s, actor, ops).value.0;
      && s.ops <= next.ops && next.used == s.used + Lengths(next.ops[|s.ops|..]) && next.used <= s.quota
    ensures forall op <- ops :: Known(PushAll(h, s, actor, ops).value.0, op.id)
  {
    hide PushOne, EpochsOrdered, Numbered, Known;
    var next := PushAll(h, s, actor, ops).value.0;
    if ops != [] {
      var n := |ops| - 1;
      var before := PushAll(h, s, actor, ops[..n]).value.0;
      PushUses(h, s, actor, ops[..n]);
      PushAllKeepsLog(h, s, actor, ops[..n]);
      PushOneUses(h, before, actor, ops[n]);
      assert ops == ops[..n] + [ops[n]];
      forall op <- ops[..n] { KnownStays(before, next, op.id); }
      var added := before.ops[|s.ops|..];
      assert next.ops != before.ops ==> next.ops[|s.ops|..] == added + [next.ops[|before.ops|]];
    } else {
      assert next.ops[|s.ops|..] == [];
    }
  }

  lemma PushOneUses(h: Codec, s: State, actor: Actor, op: Operation)
    requires Numbered(s) && PushOne(h, s, actor, op).Ok? && s.used <= s.quota
    ensures var next := PushOne(h, s, actor, op).value.0;
      && Known(next, op.id) && next.quota == s.quota && next.used <= s.quota
      && (if Known(s, op.id) then next == s
          else |next.ops| == |s.ops| + 1 && next.ops == s.ops + [next.ops[|s.ops|]] && next.ops[|s.ops|].op == op
               && next.used == s.used + DecodedLength(op.ciphertext))
  {
    PushOneExactly(h, s, actor, op);
    hide PushOne, DecodedLength, Writer, Numbered;
    var next := PushOne(h, s, actor, op).value.0;
    if !Known(s, op.id) { assert next.ops[|s.ops|] in next.ops; }
  }

  lemma KnownStays(s: State, next: State, id: Id)
    requires Known(s, id) && s.ops <= next.ops
    ensures Known(next, id)
  {
    var row :| row in s.ops && row.op.id == id;
    assert row in next.ops;
  }
}
