/** A refusal names a check that really fails. */
module SyncRefusals {
  import opened Wrappers
  import opened SyncTypes
  import opened SyncRules
  import opened SyncPushes
  import opened SyncAdmission
  import opened SyncAnswers

  // ----- pushing -----

  /** Why an operation of a batch may be refused with this error. */
  ghost predicate PushRefused(h: Codec, s: State, actor: Actor, op: Operation, error: Error) {
    match error
    case Forbidden => op.objectId !in s.objects || !Writer(s, actor.account, op.objectId)
    case OperationIdReused => exists row <- s.ops :: row.op.id == op.id && row.digest != h.op(op)
    case StaleEpoch => op.objectId in s.objects && op.epoch != s.objects[op.objectId].epoch
    case GenerationChanged => op.objectId in s.objects && s.objects[op.objectId].document.Some?
      && !(op.edit.Edit? && op.edit.generation == s.objects[op.objectId].document.value.generation)
    case WholeFileReplacement => op.objectId in s.objects && s.objects[op.objectId].document.Some?
      && s.objects[op.objectId].document.value.mode == TextMode && op.edit.Edit? && op.edit.kind == FileKind
    case CheckpointRequired => op.objectId in s.objects && s.objects[op.objectId].document.None? && op.edit.Edit?
    case StalePolicy => op.policyRevision > s.revision
    case QuotaExceeded => s.used + DecodedLength(op.ciphertext) > s.quota
    case _ => false
  }

  lemma PushNamesCheck(h: Codec, s: State, actor: Actor, op: Operation)
    requires PushOne(h, s, actor, op).Err?
    ensures PushRefused(h, s, actor, op, PushOne(h, s, actor, op).error)
  {
    WriterExactly(s, actor.account, op.objectId);
    hide MayWrite, Writer, FindOp, DecodedLength;
  }

  // ----- access policies -----

  ghost predicate EntryRefused(s: State, p: Policy, t: Option<Transition>, target: Object, e: PolicyObject, error: Error) {
    match error
    case AccessTransitionRequired => s.capability.Some? && Joins(s, p, target, e) && t.None?
    case KeyRotationRequired =>
      || e.epoch < target.epoch || e.epoch > target.epoch + 1
      || (e.epoch == target.epoch && (Leaves(s, p, target, e) || Joins(s, p, target, e)))
    case CheckpointRequired => !Brought(t, e.id)
    case InvalidGeneration => Brought(t, e.id) && p.version == 2
    case CheckpointEpochUnchanged => Brought(t, e.id) && e.epoch == target.epoch
    case GenerationReused => Brought(t, e.id) && t.Some? && exists c, epoch ::
      c in t.value.checkpoints && epoch in target.checkpoints && c.generation == target.checkpoints[epoch].generation
    case KeyEnvelopesIncomplete => !forall d :: Gets(e, d) <==> Live(s, d) && WillRead(p, e, s.devices[d].account)
    case InvalidRecipient => exists v <- e.envelopes :: !MadeFor(s, v.device, v.wrap)
    case KeyEpochImmutable => e.epoch == target.epoch && exists v <- e.envelopes :: Held(target, v.device)
    case _ => false
  }

  lemma {:induction false} EnvelopeNamesCheck(s: State, target: Object, epoch: nat, envelopes: seq<Envelope>)
    requires EnvelopeError(s, target, epoch, envelopes).Some?
    ensures match EnvelopeError(s, target, epoch, envelopes).value
      case InvalidRecipient => exists v <- envelopes :: !MadeFor(s, v.device, v.wrap)
      case KeyEpochImmutable => epoch == target.epoch && exists v <- envelopes :: Held(target, v.device)
      case _ => false
  {
    var n := |envelopes| - 1;
    if EnvelopeError(s, target, epoch, envelopes[..n]).Some? {
      EnvelopeNamesCheck(s, target, epoch, envelopes[..n]);
      assert forall v <- envelopes[..n] :: v in envelopes;
    } else {
      assert envelopes[n] in envelopes;
    }
  }

  /** What the server found, in its own terms. */
  lemma EntryErrorIs(s: State, p: Policy, t: Option<Transition>, e: PolicyObject)
    requires e.id in s.objects && ObjectError(s, p, t, e).Some?
    ensures var target := s.objects[e.id];
      var joins := !(NextAccounts(p, e) <= s.members.Keys + target.grants.Keys)
                   || !(EnvelopeDevices(e.envelopes) <= target.KeyDevices());
      var leaves := !(s.members.Keys + target.grants.Keys <= NextAccounts(p, e))
                    || !(target.KeyDevices() <= ActiveDevices(s, s.members.Keys + PolicyAccounts(p)));
      var checkpoint := CheckpointFor(t, e.id);
      var recipients := set d | d in ActiveDevices(s, s.members.Keys + PolicyAccounts(p))
                                && s.devices[d].account in NextAccounts(p, e);
      match ObjectError(s, p, t, e).value
      case AccessTransitionRequired => s.capability.Some? && joins && t.None?
      case KeyRotationRequired =>
        e.epoch < target.epoch || e.epoch > target.epoch + 1 || (e.epoch == target.epoch && (leaves || joins))
      case CheckpointRequired => checkpoint.None?
      case InvalidGeneration => checkpoint.Some? && p.version == 2
      case CheckpointEpochUnchanged => checkpoint.Some? && e.epoch == target.epoch
      case GenerationReused => checkpoint.Some? && exists epoch <- target.checkpoints ::
        target.checkpoints[epoch].generation == checkpoint.value.generation
      case KeyEnvelopesIncomplete => recipients != EnvelopeDevices(e.envelopes)
      case _ => EnvelopeError(s, target, e.epoch, e.envelopes) == ObjectError(s, p, t, e)
                && ObjectError(s, p, t, e).value in {InvalidRecipient, KeyEpochImmutable}
  {
    if EnvelopeError(s, s.objects[e.id], e.epoch, e.envelopes).Some? {
      EnvelopeNamesCheck(s, s.objects[e.id], e.epoch, e.envelopes);
    }
    hide NextAccounts, ActiveDevices, PolicyAccounts, EnvelopeDevices, EnvelopeError, PriorDocument, CheckpointFor, Held, MadeFor;
  }

  lemma EntryNamesCheck(s: State, p: Policy, t: Option<Transition>, e: PolicyObject)
    requires e.id in s.objects && Parsed(s, p, t, e) && ObjectError(s, p, t, e).Some?
    ensures EntryRefused(s, p, t, s.objects[e.id], e, ObjectError(s, p, t, e).value)
  {
    var target := s.objects[e.id];
    BroughtExactly(t, e.id);
    JoinsExactly(s, p, target, e);
    LeavesExactly(s, p, target, e);
    RecipientsExactly(s, p, e);
    EntryErrorIs(s, p, t, e);
    if EnvelopeError(s, target, e.epoch, e.envelopes).Some? { EnvelopeNamesCheck(s, target, e.epoch, e.envelopes); }
    hide ObjectError, Parsed, Joins, Leaves, NextAccounts, ActiveDevices, PolicyAccounts, EnvelopeDevices, EnvelopeError,
         CheckpointFor, Brought, Gets, Live, WillRead, MadeFor;
  }

  /** What is wrong with who asks, or with what was parsed. */
  ghost predicate AskRefused(h: Codec, s: State, actor: Actor, p: Policy, t: Option<Transition>, verified: bool, error: Error) {
    match error
    case Malformed => !PolicyShape(p) || (t.Some? && !TransitionShape(t.value))
    case IdentityMismatch => p.device != actor.device
    case InvalidSignature => !verified
    case InvalidTransition => t.Some? && h.policy(t.value.policy) != h.policy(p)
    case NotFound => p.workspace != s.id
    case Unauthorized => !Current(s, actor)
    case TransitionNotStaged => t.Some? && !Staged(h, s, t.value)
    case TransitionStale => t.Some? && t.value.covered != s.sequence
    case TransitionBlobIncomplete => t.Some? && !Uploaded(s, t.value)
    case _ => false
  }

  /** What is wrong with the policy as a whole. */
  ghost predicate GateRefused(h: Codec, s: State, actor: Actor, p: Policy, error: Error) {
    match error
    case Forbidden => !HasRole(s, actor.account, {Owner, Admin})
    case PolicyRevisionChanged => p.revision != s.revision + 1
    case ClientUpgradeRequired => s.log != [] && s.log[|s.log| - 1].version == 2 && p.version != 2
    case PolicyChainChanged =>
      p.previous != if s.log == [] then None else Some(h.policy(s.log[|s.log| - 1]))
    case OwnerRequired => !HasRole(s, actor.account, {Owner})
    case PolicyObjectsChanged => !forall o :: o in s.objects <==> exists e <- p.objects :: e.id == o
    case RecipientDeviceRequired => exists a: Id :: Named(p, a) && !exists d: Id :: Live(s, d) && s.devices[d].account == a
    case _ => false
  }

  lemma {:induction false} FirstNamesCheck(s: State, p: Policy, t: Option<Transition>, entries: seq<PolicyObject>)
    requires forall e <- entries :: e.id in s.objects
    requires FirstObjectError(s, p, t, entries).Some?
    ensures exists e <- entries :: ObjectError(s, p, t, e) == FirstObjectError(s, p, t, entries)
  {
    hide ObjectError;
    var n := |entries| - 1;
    if FirstObjectError(s, p, t, entries[..n]).Some? {
      FirstNamesCheck(s, p, t, entries[..n]);
      assert forall e <- entries[..n] :: e in entries;
    } else {
      assert entries[n] in entries;
    }
  }

  lemma GateNamesCheck(h: Codec, s: State, actor: Actor, p: Policy)
    requires PolicyGate(h, s, actor, p).Refuse?
    ensures GateRefused(h, s, actor, p, PolicyGate(h, s, actor, p).error)
  {
    NamedExactly(p);
    forall a | Named(p, a)
      ensures ActiveDevices(s, s.members.Keys + PolicyAccounts(p)) * ActiveDevices(s, {a}) != {} <==>
        exists d :: Live(s, d) && s.devices[d].account == a
    {
      LiveDevices(s, p, a);
    }
    ObjectsSame(s, p);
    hide Named, PolicyAccounts, ActiveDevices, Live;
  }

  lemma TransitionNamesCheck(h: Codec, s: State, actor: Actor, p: Policy, t: Option<Transition>, verified: bool)
    requires t.Some? && TransitionPlan(h, s, t.value).Some? && TransitionPlan(h, s, t.value).value.Refuse?
    ensures AskRefused(h, s, actor, p, t, verified, TransitionPlan(h, s, t.value).value.error)
  {
    StoredExactly(s, ForTransition(t.value.id), t.value.blobs);
    hide PolicyShape, TransitionShape, Current, BlobStored, StoredFor;
  }

  lemma AskNamesCheck(h: Codec, s: State, actor: Actor, p: Policy, t: Option<Transition>, verified: bool)
    requires Plan(h, s, actor, p, t, verified).Refuse?
    ensures var error := Plan(h, s, actor, p, t, verified).error;
      || AskRefused(h, s, actor, p, t, verified, error)
      || (PolicyShape(p) && (t.Some? ==> TransitionShape(t.value)) && PolicyPlan(h, s, actor, p, t) == Refuse(error))
  {
    CurrentExactly(s, actor);
    if t.Some? && TransitionPlan(h, s, t.value).Some? && TransitionPlan(h, s, t.value).value.Refuse? {
      TransitionNamesCheck(h, s, actor, p, t, verified);
    }
    hide PolicyPlan, PolicyShape, TransitionShape, TransitionPlan, Active, Current, Staged, Uploaded;
  }

  /** Whatever error a policy is refused with, that is what is wrong with it. */
  lemma PolicyNamesCheck(h: Codec, s: State, actor: Actor, p: Policy, t: Option<Transition>, verified: bool)
    requires s.log != [] ==> DistinctObjects(s.log[|s.log| - 1].objects)
    requires Plan(h, s, actor, p, t, verified).Refuse?
    ensures var error := Plan(h, s, actor, p, t, verified).error;
      || AskRefused(h, s, actor, p, t, verified, error) || GateRefused(h, s, actor, p, error)
      || exists e <- p.objects :: e.id in s.objects && EntryRefused(s, p, t, s.objects[e.id], e, error)
  {
    AskNamesCheck(h, s, actor, p, t, verified);
    if PolicyGate(h, s, actor, p).Refuse? { GateNamesCheck(h, s, actor, p); }
    if PolicyShape(p) && (t.Some? ==> TransitionShape(t.value)) && PolicyGate(h, s, actor, p) == Apply {
      EntriesNameCheck(s, p, t);
    }
    hide Plan, AskRefused, GateRefused, EntryRefused, ObjectError, FirstObjectError, PolicyGate, PolicyShape, TransitionShape,
         DistinctObjects;
  }

  lemma EntriesNameCheck(s: State, p: Policy, t: Option<Transition>)
    requires PolicyShape(p) && (t.Some? ==> TransitionShape(t.value)) && forall e <- p.objects :: e.id in s.objects
    requires s.log != [] ==> DistinctObjects(s.log[|s.log| - 1].objects)
    ensures FirstObjectError(s, p, t, p.objects).Some? ==> exists e <- p.objects ::
      e.id in s.objects && EntryRefused(s, p, t, s.objects[e.id], e, FirstObjectError(s, p, t, p.objects).value)
  {
    hide EntryRefused, ObjectError, FirstObjectError;
    if FirstObjectError(s, p, t, p.objects).Some? {
      FirstNamesCheck(s, p, t, p.objects);
      var e :| e in p.objects && ObjectError(s, p, t, e) == FirstObjectError(s, p, t, p.objects);
      EntryParsed(s, p, t, e);
      EntryNamesCheck(s, p, t, e);
    }
  }

  // ----- activations -----

  ghost predicate ActivationRefused(h: Codec, s: State, actor: Actor, a: Activation, verified: bool, error: Error) {
    match error
    case Forbidden => !HasRole(s, actor.account, {Owner, Admin, Editor})
    case ActivationStale => a.policyRevision != s.revision || a.covered != s.sequence
    case CapabilityRequired =>
      s.capability.None? || !(1 <= a.policyRevision <= |s.log| && s.log[a.policyRevision - 1].version == 2)
    case CapabilityChanged => s.capability.Some? && a.capability != h.capability(s.capability.value)
    case InvalidSignature => !verified
    case ObjectAlreadyExists => a.checkpoint.payload.objectId in s.objects
    case KeyEnvelopesIncomplete =>
      !forall d :: (exists v <- a.envelopes :: v.device == d) <==> Live(s, d) && s.devices[d].account in s.members
    case InvalidRecipient => exists v <- a.envelopes :: !MadeFor(s, v.device, v.wrap)
    case _ => false
  }

  lemma RecipientsNamed(s: State, a: Activation)
    ensures ActiveDevices(s, s.members.Keys) != EnvelopeDevices(a.envelopes) ==>
      !forall d :: (exists v <- a.envelopes :: v.device == d) <==> Live(s, d) && s.devices[d].account in s.members
  {
    var devices, held := ActiveDevices(s, s.members.Keys), EnvelopeDevices(a.envelopes);
    assert forall d :: d in held <==> exists v <- a.envelopes :: v.device == d;
    assert forall d :: d in devices <==> Live(s, d) && s.devices[d].account in s.members;
    hide EnvelopeDevices, ActiveDevices, Live;
    if devices != held {
      var d :| (d in devices && d !in held) || (d in held && d !in devices);
    }
  }

  lemma ActivationNamesCheck(h: Codec, s: State, actor: Actor, a: Activation, verified: bool)
    requires ActivationError(h, s, actor, a, verified).Some?
    ensures ActivationRefused(h, s, actor, a, verified, ActivationError(h, s, actor, a, verified).value)
  {
    WriterExactly(s, actor.account, "");
    RecipientsNamed(s, a);
    assert forall v <- a.envelopes :: RecipientMatches(s, v) <==> MadeFor(s, v.device, v.wrap);
    hide ActiveDevices, Live, RecipientMatches, MadeFor, EnvelopeDevices, HasRole, Writes;
  }

  lemma CommitNamesCheck(h: Codec, s: State, actor: Actor, id: Id, verified: bool)
    requires CommitActivation(h, s, actor, id, verified).Err?
    ensures match CommitActivation(h, s, actor, id, verified).error
      case Unauthorized => !Current(s, actor)
      case NotFound => id !in s.activations || s.activations[id].device != actor.device
      case Malformed => id in s.activations
        && !(ActivationShape(s.activations[id].body) && s.activations[id].body.workspace == s.id
             && h.activation(s.activations[id].body) == s.activations[id].digest)
      case ActivationBlobIncomplete => id in s.activations
        && exists b <- s.activations[id].body.blobs :: !StoredFor(s, ForActivation(id), b)
      case error => id in s.activations && ActivationRefused(h, s, actor, s.activations[id].body, verified, error)
  {
    CurrentExactly(s, actor);
    if id in s.activations {
      var a := s.activations[id].body;
      StoredExactly(s, ForActivation(id), a.blobs);
      if ActivationError(h, s, actor, a, verified).Some? { ActivationNamesCheck(h, s, actor, a, verified); }
    }
    hide Active, Current, ActivationShape, BlobStored, StoredFor, ActivationError, ActivationRefused, Activated;
  }

  // ----- links and blobs -----

  ghost predicate LinkRefused(s: State, actor: Actor, snapshot: Operation, verified: bool, freed: nat, error: Error) {
    match error
    case IdentityMismatch => snapshot.device != actor.device
    case InvalidSignature => !verified
    case Unauthorized => !Current(s, actor)
    case Forbidden => !HasRole(s, actor.account, {Owner, Admin})
    case StaleEpoch => !AtEpoch(s, snapshot)
    case QuotaExceeded => s.used - freed + DecodedLength(snapshot.ciphertext) > s.quota
    case _ => false
  }

  lemma LinksNameCheck(h: Codec, s: State, actor: Actor, id: Id, expected: nat, snapshot: Operation, live: bool, verified: bool)
    ensures match CreateLink(s, actor, id, snapshot, verified)
      case Ok(_) => true
      case Err(NotFound) => snapshot.workspace != s.id
      case Err(UniqueViolation) => id in s.links
      case Err(e) => LinkRefused(s, actor, snapshot, verified, 0, e)
    ensures match UpdateLink(h, s, actor, id, expected, snapshot, live, verified)
      case Ok(_) => true
      case Err(NotFound) => snapshot.workspace != s.id || id !in s.links || s.links[id].objectId != snapshot.objectId
        || s.links[id].revoked || !live
      case Err(LinkRevisionChanged) => id in s.links && s.links[id].revision != expected
      case Err(e) => LinkRefused(s, actor, snapshot, verified, if id in s.links then s.links[id].bytes else 0, e)
    ensures match RevokeLink(s, actor, id)
      case Ok(_) => true
      case Err(NotFound) => id !in s.links
      case Err(Unauthorized) => !Current(s, actor)
      case Err(e) => e == Forbidden && !HasRole(s, actor.account, {Owner, Admin})
  {
    CurrentExactly(s, actor);
    WriterExactly(s, actor.account, "");
    hide Active, Current, Administers, HasRole, DecodedLength;
  }

  /** What is wrong with a transfer: nobody may make it, or not at this epoch. */
  ghost predicate TransferRefused(s: State, actor: Actor, key: BlobKey, owner: BlobOwner, epoch: nat, size: nat, error: Error) {
    match error
    case Unauthorized => !Current(s, actor)
    case StaleEpoch => owner == Direct && !MayTransfer(s, actor, key, owner, epoch, size, epoch)
    case NotFound => owner == Direct && key.objectId !in s.objects
    case Forbidden =>
      if owner.Direct? then !Writer(s, actor.account, key.objectId)
      else if owner.ForTransition? then !HasRole(s, actor.account, {Owner, Admin})
      else !HasRole(s, actor.account, {Owner, Admin, Editor})
    case TransitionNotStaged =>
      && owner.ForTransition?
      && !(owner.id in s.transitions && s.transitions[owner.id].device == actor.device && !s.transitions[owner.id].committed)
    case ActivationNotStaged =>
      && owner.ForActivation?
      && !(owner.id in s.activations && s.activations[owner.id].device == actor.device && !s.activations[owner.id].committed)
    case Malformed => owner != Direct && !MayTransfer(s, actor, key, owner, epoch, size, epoch)
    case _ => false
  }

  lemma EpochNamesCheck(s: State, actor: Actor, key: BlobKey, owner: BlobOwner, epoch: nat, size: nat)
    ensures BlobEpoch(s, actor, key, owner, epoch, size).Err? ==>
      TransferRefused(s, actor, key, owner, epoch, size, BlobEpoch(s, actor, key, owner, epoch, size).error)
    ensures BlobEpoch(s, actor, key, owner, epoch, size).Ok? && BlobEpoch(s, actor, key, owner, epoch, size).value != epoch ==>
      TransferRefused(s, actor, key, owner, epoch, size, StaleEpoch)
  {
    WriterExactly(s, actor.account, key.objectId);
    hide MayWrite, Writer, Writes, Administers, HasRole;
  }

  lemma CreateBlobNamesCheck(s: State, actor: Actor, key: BlobKey, owner: BlobOwner, epoch: nat, size: nat, upload: Id)
    requires CreateBlob(s, actor, key, owner, epoch, size, upload).Err?
    ensures var error := CreateBlob(s, actor, key, owner, epoch, size, upload).error;
      || (error == Malformed && !(epoch >= 1 && 1 <= size <= 1073741824))
      || (error == BlobChanged && key in s.blobs)
      || (error == QuotaExceeded && s.used + size > s.quota)
      || (error == UniqueViolation && exists other <- s.blobs :: s.blobs[other].upload == upload)
      || TransferRefused(s, actor, key, owner, epoch, size, error)
  {
    CurrentExactly(s, actor);
    EpochNamesCheck(s, actor, key, owner, epoch, size);
    hide Active, BlobEpoch, TransferRefused;
    if !Current(s, actor) { NotCurrent(s, actor, key, owner, epoch, size); }
    hide Current;
  }

  lemma NotCurrent(s: State, actor: Actor, key: BlobKey, owner: BlobOwner, epoch: nat, size: nat)
    requires !Current(s, actor)
    ensures TransferRefused(s, actor, key, owner, epoch, size, Unauthorized)
  {
    hide Current, MayTransfer, Writer, HasRole;
  }

  lemma FinishBlobNamesCheck(s: State, actor: Actor, key: BlobKey, finish: Finish, valid: bool, storage: Storage)
    requires FinishBlob(s, actor, key, finish, valid, storage).Err?
    ensures var error := FinishBlob(s, actor, key, finish, valid, storage).error;
      || (error == Unauthorized && !Current(s, actor))
      || (error == BlobChanged
          && !(key in s.blobs && s.blobs[key].upload == finish.upload && s.blobs[key].device == actor.device
               && s.blobs[key].size == finish.size))
      || (key in s.blobs && TransferRefused(s, actor, key, s.blobs[key].owner, finish.epoch, finish.size, error))
  {
    CurrentExactly(s, actor);
    if key in s.blobs { EpochNamesCheck(s, actor, key, s.blobs[key].owner, finish.epoch, finish.size); }
    hide Active, Current, BlobEpoch, TransferRefused;
  }
}
