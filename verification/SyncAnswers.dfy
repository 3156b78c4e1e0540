/** When each of the smaller transactions succeeds and what it leaves, read off the rows. */
module SyncAnswers {
  import opened Wrappers
  import opened SyncTypes
  import opened SyncRules
  import opened SyncKeys
  import opened SyncPushes
  import opened SyncAdmission
  import SyncAccess

  lemma WriterExactly(s: State, a: Id, o: Id)
    ensures MayWrite(s, a, o) <==> Writer(s, a, o)
    ensures Writes(RoleOf(s, a)) <==> HasRole(s, a, {Owner, Admin, Editor})
    ensures Administers(RoleOf(s, a)) <==> HasRole(s, a, {Owner, Admin})
  {
  }

  ghost predicate Reads(s: State, a: Id, o: Id) {
    a in s.members || (o in s.objects && a in s.objects[o].grants)
  }

  /** A browser's envelope is made for the key its device enrolled. */
  ghost predicate MadeFor(s: State, d: Id, wrap: Wrap) {
    wrap.Web? ==> d in s.devices && s.devices[d].recipient == Some("x25519:" + wrap.recipientKey)
  }

  // ----- devices -----

  /** An account revokes its own device and no other, and the device is not current again. */
  lemma RevokeExactly(s: State, account: Id, id: Id)
    ensures Revoke(s, account, id).Ok? <==> id in s.devices && s.devices[id].account == account
    ensures Revoke(s, account, id).Ok? ==>
      var next := Revoke(s, account, id).value;
      && next == s.(devices := next.devices) && next.devices.Keys == s.devices.Keys && !Live(next, id)
      && (forall d <- s.devices | d != id :: next.devices[d] == s.devices[d])
      && (forall actor: Actor | actor.device == id :: !Current(next, actor))
  {
  }

  /** Enrolling adds a device, current for its account and key, and changes no other. */
  lemma EnrollExactly(s: State, id: Id, device: Device)
    ensures var next := Enroll(s, id, device);
      && next == s.(devices := next.devices) && s.devices.Keys <= next.devices.Keys
      && (forall d <- s.devices :: next.devices[d] == s.devices[d])
      && (id in s.devices || device.revoked ==> next == s)
      && (id !in s.devices && !device.revoked ==>
            Live(next, id) && next.devices[id] == device && Current(next, Actor(id, device.account, device.publicKey)))
  {
  }

  // ----- objects and keys -----

  lemma CreateExactly(s: State, actor: Actor, id: Id)
    ensures CreateObject(s, actor, id).Ok? <==>
      && Current(s, actor)
      && if id in s.objects then Reads(s, actor.account, id)
         else HasRole(s, actor.account, {Owner, Admin, Editor}) && !(s.capability.Some? && exists p <- s.log :: p.version == 2)
    ensures CreateObject(s, actor, id).Ok? ==>
      CreateObject(s, actor, id).value ==
        if id in s.objects then (s, s.objects[id].epoch)
        else (s.(objects := s.objects[id := Object(1, None, map[], map[], map[], map[])]), 1)
  {
    CurrentExactly(s, actor);
    WriterExactly(s, actor.account, id);
    hide Active, Current, HasRole, Writes;
  }

  /** A device's own envelope, or one shared with another device. */
  lemma OwnKeyExactly(s: State, actor: Actor, share: bool, k: OwnKey, verified: bool)
    ensures StoreOwnKey(s, actor, share, k, verified).Ok? <==>
      && (share || k.device == actor.device) && k.signer == actor.device && verified && k.workspace == s.id
      && Current(s, actor) && Writer(s, actor.account, k.objectId)
      && k.objectId in s.objects && k.epoch == s.objects[k.objectId].epoch
      && Live(s, k.device) && Reads(s, s.devices[k.device].account, k.objectId) && MadeFor(s, k.device, k.wrap)
      && var target := s.objects[k.objectId];
         if Held(target, k.device) then
           target.keys[Slot(k.epoch, k.device)].wrapped == k.wrapped && target.keys[Slot(k.epoch, k.device)].wrap == k.wrap
         else target.checkpoints == map[]
    ensures StoreOwnKey(s, actor, share, k, verified).Ok? ==>
      var target := s.objects[k.objectId];
      StoreOwnKey(s, actor, share, k, verified).value ==
        if Held(target, k.device) then s
        else s.(objects := s.objects[k.objectId := target.(keys :=
                  target.keys[Slot(k.epoch, k.device) := KeyRow(k.wrapped, k.signer, k.signature, k.wrap)])])
  {
    CurrentExactly(s, actor);
    WriterExactly(s, actor.account, k.objectId);
    hide Active, Current, MayWrite, Writer;
  }

  lemma CapabilityExactly(s: State, actor: Actor, c: Capability, verified: bool)
    ensures PutCapability(s, actor, c, verified).Ok? <==>
      && c.device == actor.device && verified && c.workspace == s.id && Current(s, actor)
      && HasRole(s, actor.account, {Owner}) && s.capability in {None, Some(c)}
    ensures PutCapability(s, actor, c, verified).Ok? ==>
      PutCapability(s, actor, c, verified).value == s.(capability := Some(c))
  {
    CurrentExactly(s, actor);
    hide Active, Current;
  }

  // ----- staging and activations -----

  lemma StageExactly(h: Codec, s: State, actor: Actor, t: Transition, verified: bool)
    ensures StageTransition(h, s, actor, t, verified).Ok? <==>
      && TransitionShape(t) && t.policy.device == actor.device && verified && t.policy.workspace == s.id
      && Current(s, actor) && HasRole(s, actor.account, {Owner, Admin}) && s.capability.Some?
      && if t.id in s.transitions then Staged(h, s, t)
         else t.policy.revision == s.revision + 1 && t.covered == s.sequence && s.used + h.transitionBytes(t) <= s.quota
    ensures StageTransition(h, s, actor, t, verified).Ok? ==>
      StageTransition(h, s, actor, t, verified).value ==
        if t.id in s.transitions then s
        else s.(transitions := s.transitions[t.id :=
                  TransitionRow(actor.device, h.transition(t), t, h.transitionBytes(t), false)],
                used := s.used + h.transitionBytes(t))
  {
    CurrentExactly(s, actor);
    WriterExactly(s, actor.account, "");
    hide Active, Current, TransitionShape, Administers, HasRole;
  }

  /** What an activation needs of the rows: a writer, the boundary and the version 2 policy
      it was made at, the workspace's capability, an object that is new, and an envelope for
      exactly the live devices of the members. */
  ghost predicate Stands(h: Codec, s: State, actor: Actor, a: Activation) {
    && HasRole(s, actor.account, {Owner, Admin, Editor})
    && a.policyRevision == s.revision && a.covered == s.sequence
    && 1 <= s.revision <= |s.log| && s.log[s.revision - 1].version == 2
    && s.capability.Some? && a.capability == h.capability(s.capability.value)
    && a.checkpoint.payload.objectId !in s.objects
    && (forall d :: (exists v <- a.envelopes :: v.device == d) <==> Live(s, d) && s.devices[d].account in s.members)
    && (forall v <- a.envelopes :: MadeFor(s, v.device, v.wrap))
  }

  lemma StandsExactly(h: Codec, s: State, actor: Actor, a: Activation, verified: bool)
    ensures ActivationError(h, s, actor, a, verified).None? <==> verified && Stands(h, s, actor, a)
  {
    WriterExactly(s, actor.account, "");
    SyncAccess.Devices(a.envelopes);
    hide EnvelopeDevices, Writes, HasRole;
    var devices := ActiveDevices(s, s.members.Keys);
    assert forall d :: d in devices <==> Live(s, d) && s.devices[d].account in s.members;
    assert forall v <- a.envelopes :: RecipientMatches(s, v) <==> MadeFor(s, v.device, v.wrap);
    hide ActiveDevices, Live, RecipientMatches, MadeFor;
    var held := set v | v in a.envelopes :: v.device;
    assert devices == held <==> forall d :: d in held <==> d in devices;
  }

  lemma StageActivationExactly(h: Codec, s: State, actor: Actor, a: Activation, verified: bool)
    ensures StageActivation(h, s, actor, a, verified).Ok? <==>
      && ActivationShape(a) && a.device == actor.device && a.workspace == s.id && Current(s, actor)
      && if a.id in s.activations then s.activations[a.id].digest == h.activation(a)
         else verified && Stands(h, s, actor, a) && s.used + h.activationBytes(a) <= s.quota
    ensures StageActivation(h, s, actor, a, verified).Ok? ==>
      StageActivation(h, s, actor, a, verified).value ==
        if a.id in s.activations then s
        else s.(activations := s.activations[a.id :=
                  ActivationRow(actor.device, h.activation(a), a, h.activationBytes(a), false)],
                used := s.used + h.activationBytes(a))
  {
    CurrentExactly(s, actor);
    StandsExactly(h, s, actor, a, verified);
    hide Active, Current, ActivationShape, ActivationError, Stands;
  }

  /** The object an activation publishes: its document at epoch 1, its envelopes, and its
      checkpoint; no grants. */
  ghost predicate Publishes(a: Activation, signer: Id, published: Object) {
    && published.epoch == 1 && published.document == Some(a.document) && published.grants == map[]
    && published.checkpoints == map[]
    && published.activated == map[1 := CheckpointRow(a.id, a.document.generation, a.covered, a.checkpoint)]
    && (forall slot :: slot in published.keys <==> slot.epoch == 1 && exists v <- a.envelopes :: v.device == slot.device)
    && (forall v <- a.envelopes ::
          && Slot(1, v.device) in published.keys
          && published.keys[Slot(1, v.device)] == KeyRow(v.wrapped, signer, v.signature, v.wrap))
  }

  lemma ActivatedPublishes(a: Activation, signer: Id)
    requires DistinctEnvelopes(a.envelopes)
    ensures Publishes(a, signer, Activated(a, signer))
  {
    NewKeysHold(1, signer, a.envelopes);
    SyncAccess.Devices(a.envelopes);
    forall j | 0 <= j < |a.envelopes| { SyncAccess.NewKeyRow(1, signer, a.envelopes, j); }
    hide NewKeys, EnvelopeDevices, DistinctEnvelopes;
  }

  /** Committing an activation publishes its object, or answers that it was committed. */
  lemma CommitExactly(h: Codec, s: State, actor: Actor, id: Id, verified: bool)
    ensures CommitActivation(h, s, actor, id, verified).Ok? <==>
      && Current(s, actor) && id in s.activations && s.activations[id].device == actor.device
      && (s.activations[id].committed
          || var a := s.activations[id].body;
             && ActivationShape(a) && a.workspace == s.id && h.activation(a) == s.activations[id].digest
             && verified && Stands(h, s, actor, a) && forall b <- a.blobs :: StoredFor(s, ForActivation(id), b))
    ensures CommitActivation(h, s, actor, id, verified).Ok? ==>
      var next := CommitActivation(h, s, actor, id, verified).value;
      if s.activations[id].committed then next == s
      else
        var o := s.activations[id].body.checkpoint.payload.objectId;
        && o !in s.objects && o in next.objects && Publishes(s.activations[id].body, actor.device, next.objects[o])
        && next == s.(objects := s.objects[o := next.objects[o]],
                      activations := s.activations[id := s.activations[id].(committed := true)])
  {
    CurrentExactly(s, actor);
    if id in s.activations {
      var a := s.activations[id].body;
      StandsExactly(h, s, actor, a, verified);
      StoredExactly(s, ForActivation(id), a.blobs);
      if ActivationShape(a) { ActivatedPublishes(a, actor.device); }
    }
    hide Active, Current, ActivationError, Publishes, Activated, BlobStored, StoredFor, DistinctEnvelopes;
  }

  lemma StoredExactly(s: State, owner: BlobOwner, blobs: seq<BlobEntry>)
    ensures forall b <- blobs :: BlobStored(s, owner, b) <==> StoredFor(s, owner, b)
  {
  }

  // ----- public links -----

  /** What a snapshot for a public link needs: a current device of an administrator. */
  ghost predicate MayLink(s: State, actor: Actor, snapshot: Operation, verified: bool) {
    && snapshot.device == actor.device && verified && snapshot.workspace == s.id && Current(s, actor)
    && HasRole(s, actor.account, {Owner, Admin})
  }

  ghost predicate AtEpoch(s: State, snapshot: Operation) {
    snapshot.objectId in s.objects && s.objects[snapshot.objectId].epoch == snapshot.epoch
  }

  lemma CreateLinkExactly(h: Codec, s: State, actor: Actor, id: Id, snapshot: Operation, verified: bool)
    ensures CreateLink(s, actor, id, snapshot, verified).Ok? <==>
      && MayLink(s, actor, snapshot, verified) && AtEpoch(s, snapshot)
      && s.used + DecodedLength(snapshot.ciphertext) <= s.quota && id !in s.links
    ensures CreateLink(s, actor, id, snapshot, verified).Ok? ==>
      var bytes := DecodedLength(snapshot.ciphertext);
      CreateLink(s, actor, id, snapshot, verified).value ==
        s.(links := s.links[id := LinkRow(snapshot.objectId, snapshot, 1, bytes, false)], used := s.used + bytes)
  {
    CurrentExactly(s, actor);
    WriterExactly(s, actor.account, "");
    hide Active, Current, Administers, HasRole, DecodedLength;
  }

  /** An update of a live link answers a snapshot it holds; any other must name the link's
      revision, and takes the place of the one there was. */
  lemma UpdateLinkExactly(h: Codec, s: State, actor: Actor, id: Id, expected: nat, snapshot: Operation, live: bool, verified: bool)
    ensures UpdateLink(h, s, actor, id, expected, snapshot, live, verified).Ok? <==>
      && MayLink(s, actor, snapshot, verified) && live
      && id in s.links && s.links[id].objectId == snapshot.objectId && !s.links[id].revoked
      && (h.op(s.links[id].snapshot) == h.op(snapshot)
          || (s.links[id].revision == expected && AtEpoch(s, snapshot)
              && s.used - s.links[id].bytes + DecodedLength(snapshot.ciphertext) <= s.quota))
    ensures UpdateLink(h, s, actor, id, expected, snapshot, live, verified).Ok? ==>
      var link, bytes := s.links[id], DecodedLength(snapshot.ciphertext);
      UpdateLink(h, s, actor, id, expected, snapshot, live, verified).value ==
        if h.op(link.snapshot) == h.op(snapshot) then (s, link.revision)
        else (s.(links := s.links[id := LinkRow(link.objectId, snapshot, link.revision + 1, bytes, false)],
                 used := s.used - link.bytes + bytes), link.revision + 1)
  {
    CurrentExactly(s, actor);
    WriterExactly(s, actor.account, "");
    hide Active, Current, Administers, HasRole, DecodedLength;
  }

  /** Revoking a link that exists leaves it revoked, and nothing else changes. */
  lemma RevokeLinkExactly(s: State, actor: Actor, id: Id)
    ensures RevokeLink(s, actor, id).Ok? <==>
      Current(s, actor) && HasRole(s, actor.account, {Owner, Admin}) && id in s.links
    ensures RevokeLink(s, actor, id).Ok? ==>
      var next := RevokeLink(s, actor, id).value;
      && id in next.links && next.links[id].revoked
      && next == s.(links := s.links[id := s.links[id].(revoked := true)])
  {
    CurrentExactly(s, actor);
    WriterExactly(s, actor.account, "");
    hide Active, Current, Administers, HasRole;
  }

  // ----- blobs -----

  /** Who may transfer a blob, and at which epoch: for a staged transition or activation its
      own device, while its manifest names the blob; otherwise a writer, at the object's. */
  ghost predicate MayTransfer(s: State, actor: Actor, key: BlobKey, owner: BlobOwner, epoch: nat, size: nat, at: nat) {
    match owner
    case Direct =>
      Writer(s, actor.account, key.objectId) && key.objectId in s.objects && at == s.objects[key.objectId].epoch
    case ForTransition(id) =>
      && HasRole(s, actor.account, {Owner, Admin}) && at == epoch
      && id in s.transitions && s.transitions[id].device == actor.device && !s.transitions[id].committed
      && BlobEntry(key.objectId, epoch, key.id, size) in s.transitions[id].body.blobs
    case ForActivation(id) =>
      && HasRole(s, actor.account, {Owner, Admin, Editor}) && at == epoch
      && id in s.activations && s.activations[id].device == actor.device && !s.activations[id].committed
      && s.activations[id].body.checkpoint.payload.objectId == key.objectId
      && BlobEntry(key.objectId, epoch, key.id, size) in s.activations[id].body.blobs
  }

  lemma EpochExactly(s: State, actor: Actor, key: BlobKey, owner: BlobOwner, epoch: nat, size: nat)
    ensures forall at: nat :: BlobEpoch(s, actor, key, owner, epoch, size) == Ok(at) <==>
      MayTransfer(s, actor, key, owner, epoch, size, at)
  {
    WriterExactly(s, actor.account, key.objectId);
    hide MayWrite, Writer, Writes, Administers, HasRole;
  }

  /** A reservation of 1 byte to 1 GiB takes its declared size, or answers an equal one. */
  lemma CreateBlobExactly(s: State, actor: Actor, key: BlobKey, owner: BlobOwner, epoch: nat, size: nat, upload: Id)
    ensures CreateBlob(s, actor, key, owner, epoch, size, upload).Ok? <==>
      && epoch >= 1 && 1 <= size <= 1073741824 && Current(s, actor) && MayTransfer(s, actor, key, owner, epoch, size, epoch)
      && if key in s.blobs then
           var row := s.blobs[key];
           row == BlobRow(epoch, size, row.upload, actor.device, owner, row.complete, row.failed, row.storage)
         else s.used + size <= s.quota && forall other <- s.blobs :: s.blobs[other].upload != upload
    ensures CreateBlob(s, actor, key, owner, epoch, size, upload).Ok? ==>
      CreateBlob(s, actor, key, owner, epoch, size, upload).value ==
        if key in s.blobs then s
        else s.(blobs := s.blobs[key := BlobRow(epoch, size, upload, actor.device, owner, false, false, Local)],
                used := s.used + size)
  {
    CurrentExactly(s, actor);
    EpochExactly(s, actor, key, owner, epoch, size);
    hide Active, Current, BlobEpoch, MayTransfer;
  }

  /** Deleting removes an unfinished blob of the device's own, and gives back its size. */
  lemma DeleteBlobExactly(s: State, actor: Actor, key: BlobKey)
    ensures DeleteBlob(s, actor, key).Ok? <==>
      && Current(s, actor) && key in s.blobs && s.blobs[key].device == actor.device && !s.blobs[key].complete
      && exists at: nat :: MayTransfer(s, actor, key, s.blobs[key].owner, s.blobs[key].epoch, s.blobs[key].size, at)
    ensures DeleteBlob(s, actor, key).Ok? ==>
      DeleteBlob(s, actor, key).value == s.(blobs := s.blobs - {key}, used := s.used - s.blobs[key].size)
  {
    CurrentExactly(s, actor);
    if key in s.blobs {
      var row := s.blobs[key];
      EpochExactly(s, actor, key, row.owner, row.epoch, row.size);
      var allowed := BlobEpoch(s, actor, key, row.owner, row.epoch, row.size);
      assert allowed.Ok? ==> MayTransfer(s, actor, key, row.owner, row.epoch, row.size, allowed.value);
    }
    hide Active, Current, BlobEpoch, MayTransfer;
  }

  /** Finishing publishes a valid upload with where it is stored, and fails any other, when
      it is still the upload that was hashed and still allowed. */
  lemma FinishBlobExactly(s: State, actor: Actor, key: BlobKey, finish: Finish, valid: bool, storage: Storage)
    ensures FinishBlob(s, actor, key, finish, valid, storage).Ok? <==>
      && Current(s, actor) && key in s.blobs && s.blobs[key].upload == finish.upload
      && s.blobs[key].device == actor.device && s.blobs[key].size == finish.size
      && MayTransfer(s, actor, key, s.blobs[key].owner, finish.epoch, finish.size, finish.epoch)
    ensures FinishBlob(s, actor, key, finish, valid, storage).Ok? ==>
      var next, row := FinishBlob(s, actor, key, finish, valid, storage).value, s.blobs[key];
      next == s.(blobs := s.blobs[key :=
        if valid then BlobRow(row.epoch, row.size, row.upload, row.device, row.owner, true, row.failed, storage)
        else BlobRow(row.epoch, row.size, row.upload, row.device, row.owner, row.complete, true, row.storage)])
  {
    CurrentExactly(s, actor);
    if key in s.blobs { EpochExactly(s, actor, key, s.blobs[key].owner, finish.epoch, finish.size); }
    hide Active, Current, BlobEpoch, MayTransfer;
  }
}
