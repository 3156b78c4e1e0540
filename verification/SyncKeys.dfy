/** Who holds a key for an object's current epoch. */
module SyncKeys {
  import opened Wrappers
  import opened SyncTypes
  import opened SyncRules
  import opened SyncRuns
  import opened SyncPolicies

  /** Every envelope names a known device and an epoch the object has reached, and one
      for the current epoch belongs to an account with a row on the object. */
  ghost predicate KeysHeld(s: State) {
    forall o, slot | o in s.objects && slot in s.objects[o].keys ::
      && slot.device in s.devices && slot.epoch <= s.objects[o].epoch
      && (slot.epoch == s.objects[o].epoch ==> HasRow(s, s.devices[slot.device].account, o))
  }

  /** The non-revoked devices of the accounts with a row on the object. */
  function EntitledDevices(s: State, o: Id): set<Id> {
    set d | d in s.devices && !s.devices[d].revoked && HasRow(s, s.devices[d].account, o)
  }

  lemma {:induction false} NewKeysHold(epoch: nat, signer: Id, envelopes: seq<Envelope>)
    ensures forall slot :: slot in NewKeys(epoch, signer, envelopes) <==>
      slot.epoch == epoch && slot.device in EnvelopeDevices(envelopes)
  {
    if envelopes != [] {
      var n := |envelopes| - 1;
      NewKeysHold(epoch, signer, envelopes[..n]);
      assert envelopes == envelopes[..n] + [envelopes[n]];
    }
  }

  /** After a policy is applied, the current-epoch envelopes of an object go to exactly
      the entitled devices. */
  lemma AppliedKeysExact(h: Codec, s: State, actor: Actor, p: Policy, t: Option<Transition>, o: Id)
    requires KeysHeld(s) && Accepted(h, s, actor, p, t) && o in s.objects
    ensures Applied(s, actor, p, t).objects[o].KeyDevices() == EntitledDevices(Applied(s, actor, p, t), o)
    ensures forall slot <- Applied(s, actor, p, t).objects[o].keys ::
      slot.device in s.devices && slot.epoch <= Applied(s, actor, p, t).objects[o].epoch
  {
    hide Accepted, ObjectError, Applied, Entry, NewKeys, CheckpointFor;
    AcceptedEntry(h, s, actor, p, t, o);
    AppliedRows(s, actor, p, t);
    var next := Entry(p.objects, o).value;
    EntryPassed(s, p, t, next);
    RecipientsPassed(s, p, t, next);
    NewKeysHold(next.epoch, actor.device, next.envelopes);
    var before, after := s.objects[o], Applied(s, actor, p, t);
    forall d ensures d in after.objects[o].KeyDevices() <==> d in EnvelopeDevices(next.envelopes) {
      var slot := Slot(next.epoch, d);
      assert d in after.objects[o].KeyDevices() <==> slot in after.objects[o].keys;
      if slot in before.keys {
        assert d in before.KeyDevices();
        assert HasRow(s, s.devices[d].account, o);
      }
    }
  }

  lemma AppliedKeepsKeys(h: Codec, s: State, actor: Actor, p: Policy, t: Option<Transition>)
    requires KeysHeld(s) && Accepted(h, s, actor, p, t)
    ensures KeysHeld(Applied(s, actor, p, t))
  {
    hide Accepted, Applied, ObjectError, NextRow, Entry;
    AppliedRows(s, actor, p, t);
    var after := Applied(s, actor, p, t);
    forall o, slot | o in after.objects && slot in after.objects[o].keys
      ensures slot.device in after.devices && slot.epoch <= after.objects[o].epoch
      ensures slot.epoch == after.objects[o].epoch ==> HasRow(after, after.devices[slot.device].account, o)
    {
      AppliedKeysExact(h, s, actor, p, t, o);
      if slot.epoch == after.objects[o].epoch {
        assert slot.device in after.objects[o].KeyDevices();
      }
    }
  }

  lemma StoredKeyHeld(s: State, actor: Actor, share: bool, k: OwnKey, verified: bool)
    requires KeysHeld(s) && StoreOwnKey(s, actor, share, k, verified).Ok?
    ensures KeysHeld(StoreOwnKey(s, actor, share, k, verified).value)
  {
    hide MayWrite, RecipientMatches, Active;
  }

  lemma ActivatedKeysHeld(h: Codec, s: State, actor: Actor, id: Id, verified: bool)
    requires KeysHeld(s) && CommitActivation(h, s, actor, id, verified).Ok?
    ensures KeysHeld(CommitActivation(h, s, actor, id, verified).value)
  {
    hide ActivationShape, BlobStored, LogAt, NewKeys, RecipientMatches, Active;
    NewKeysHold(1, actor.device, s.activations[id].body.envelopes);
  }

  lemma SetAccessKeepsKeys(h: Codec, s: State, actor: Actor, p: Policy, t: Option<Transition>, verified: bool)
    requires KeysHeld(s)
    ensures KeysHeld(Committed(s, SetAccess(h, s, actor, p, t, verified)))
  {
    hide Plan, Applied, Accepted;
    if Plan(h, s, actor, p, t, verified) == Apply {
      PlanAccepts(h, s, actor, p, t, verified);
      AppliedKeepsKeys(h, s, actor, p, t);
    }
  }

  lemma AccessKeepsKeys(h: Codec, s: State, step: Step)
    requires KeysHeld(s)
    ensures KeysHeld(NextAccess(h, s, step))
  {
    hide PutCapability, StageTransition, SetAccess;
    if step.AccessSet? { SetAccessKeepsKeys(h, s, step.actor, step.policy, step.under, step.verified); }
  }

  lemma ObjectsKeepKeys(h: Codec, s: State, step: Step)
    requires KeysHeld(s)
    ensures KeysHeld(NextObject(h, s, step))
  {
    hide StoreOwnKey, StageActivation, CommitActivation, Active;
    match step
    case ActivationCommitted(actor, id, verified) =>
      if CommitActivation(h, s, actor, id, verified).Ok? { ActivatedKeysHeld(h, s, actor, id, verified); }
    case KeyStored(actor, share, k, verified) =>
      if StoreOwnKey(s, actor, share, k, verified).Ok? { StoredKeyHeld(s, actor, share, k, verified); }
    case _ =>
  }

  lemma NextKeepsKeys(h: Codec, s: State, step: Step)
    requires KeysHeld(s)
    ensures KeysHeld(Next(h, s, step))
  {
    hide NextAccess, NextObject, NextContent;
    AccessKeepsKeys(h, s, step);
    ObjectsKeepKeys(h, s, step);
  }

  /** The envelope is where it was. */
  predicate Holds(before: map<Id, Object>, after: map<Id, Object>, o: Id, slot: Slot)
    requires o in before && slot in before[o].keys
  {
    o in after && slot in after[o].keys && after[o].keys[slot] == before[o].keys[slot]
  }

  lemma AppliedKeepsEnvelopes(s: State, actor: Actor, p: Policy, t: Option<Transition>, o: Id, slot: Slot)
    requires o in s.objects && slot in s.objects[o].keys
    ensures Holds(s.objects, Applied(s, actor, p, t).objects, o, slot)
  {
    hide Applied, Entry, NextGrants, NewKeys;
    AppliedRows(s, actor, p, t);
  }

  lemma AccessKeepsEnvelopes(h: Codec, s: State, step: Step, o: Id, slot: Slot)
    requires o in s.objects && slot in s.objects[o].keys
    ensures Holds(s.objects, NextAccess(h, s, step).objects, o, slot)
  {
    hide SetAccess, Applied, Accepted;
    if step.AccessSet? {
      SetAccessOutcome(h, s, step.actor, step.policy, step.under, step.verified);
      AppliedKeepsEnvelopes(s, step.actor, step.policy, step.under, o, slot);
    } else {
      hide NextAccess;
    }
  }

  lemma ObjectKeepsEnvelopes(h: Codec, s: State, step: Step, o: Id, slot: Slot)
    requires o in s.objects && slot in s.objects[o].keys
    ensures Holds(s.objects, NextObject(h, s, step).objects, o, slot)
  {
    hide StageActivation, RecipientMatches, BlobStored, LogAt, HasRow, MayWrite, Active, ActivationShape, Activated;
  }

  /** An envelope, once stored, is never replaced or taken back. */
  lemma KeysImmutable(h: Codec, s: State, step: Step, o: Id, slot: Slot)
    requires o in s.objects && slot in s.objects[o].keys
    ensures Holds(s.objects, Next(h, s, step).objects, o, slot)
  {
    hide NextAccess, NextObject, NextContent;
    AccessKeepsEnvelopes(h, s, step, o, slot);
    ObjectKeepsEnvelopes(h, s, step, o, slot);
  }
}
