/** The server's tables, changed step by step inside each transaction. Every method is
    proved to do what its rule says, and to put every row back when it fails. */
module SyncStore {
  import opened Wrappers
  import opened SyncTypes
  import Rules = SyncRules
  import Tables = SyncTables

  class SyncStore {
    const h: Codec
    const id: Id
    const quota: nat
    var devices: map<Id, Device>
    var members: map<Id, MemberRow>
    var objects: map<Id, Object>
    var ops: seq<OpRow>
    var sequence: nat
    var used: int
    var revision: nat
    var log: seq<Policy>
    var capability: Option<Capability>
    var transitions: map<Id, TransitionRow>
    var activations: map<Id, ActivationRow>
    var links: map<Id, LinkRow>
    var blobs: map<BlobKey, BlobRow>

    function Snapshot(): State
      reads this
    {
      State(id, quota, devices, members, objects, ops, sequence, used, revision, log, capability,
            transitions, activations, links, blobs)
    }

    constructor (h: Codec, id: Id, quota: nat, devices: map<Id, Device>, owner: Id)
      ensures this.h == h
      ensures Snapshot() == State(id, quota, devices, map[owner := MemberRow(Owner, 0)], map[], [], 0, 0, 0, [],
                                  None, map[], map[], map[], map[])
    {
      this.h, this.id, this.quota, this.devices := h, id, quota, devices;
      members, objects, ops, sequence, used := map[owner := MemberRow(Owner, 0)], map[], [], 0, 0;
      revision, log, capability, transitions, activations := 0, [], None, map[], map[];
      links, blobs := map[], map[];
    }

    // ----- operations -----

    method CheckBatch(actor: Actor, batch: seq<Operation>, signed: Operation -> bool) returns (refused: Option<Error>)
      ensures refused == Rules.Screen(Snapshot(), actor, batch, signed)
    {
      refused := None;
      for i := 0 to |batch|
        invariant refused.None? && Rules.Screen(Snapshot(), actor, batch[..i], signed) == None
      {
        assert batch[..i + 1][..i] == batch[..i];
        if batch[i].workspace != id || batch[i].device != actor.device {
          refused := Some(IdentityMismatch);
        } else if !signed(batch[i]) {
          refused := Some(InvalidSignature);
        }
        if refused.Some? {
          Tables.ScreenStops(Snapshot(), actor, batch, i + 1, signed);
          return;
        }
      }
      assert batch[..|batch|] == batch;
    }

    /** Sequence one operation after `last`, with `taken` bytes in use before it. */
    method PushOp(actor: Actor, op: Operation, last: nat, taken: int)
      returns (error: Option<Error>, next: nat, bytes: int, answer: nat)
      modifies this`ops
      ensures match Rules.PushOne(h, old(Snapshot()).(sequence := last, used := taken), actor, op)
        case Ok(done) =>
          error.None? && done.0 == old(Snapshot()).(ops := ops, sequence := next, used := bytes) && done.1 == answer
        case Err(e) => error == Some(e) && ops == old(ops)
    {
      hide Rules.MayWrite, Rules.FindOp, DecodedLength;
      ghost var now := Snapshot().(sequence := last, used := taken);
      Tables.MayWriteFrame(now, Snapshot(), actor.account, op.objectId);
      error, next, bytes, answer := None, last, taken, 0;
      if op.objectId !in objects || !Rules.MayWrite(Snapshot(), actor.account, op.objectId) {
        return Some(Forbidden), last, taken, 0;
      }
      var target, existing := objects[op.objectId], Rules.FindOp(ops, op.id);
      if existing.Some? {
        if existing.value.digest != h.op(op) { return Some(OperationIdReused), last, taken, 0; }
        return None, last, taken, existing.value.sequence;
      }
      if target.epoch != op.epoch {
        error := Some(StaleEpoch);
      } else if target.document.Some? && op.Generation() != Some(target.document.value.generation) {
        error := Some(GenerationChanged);
      } else if target.document.Some? && target.document.value.mode == TextMode && op.edit.kind == FileKind {
        error := Some(WholeFileReplacement);
      } else if target.document.None? && op.edit.Edit? {
        error := Some(CheckpointRequired);
      } else if op.policyRevision > revision {
        error := Some(StalePolicy);
      } else {
        var size := DecodedLength(op.ciphertext);
        bytes := bytes + size;
        if bytes > quota { return Some(QuotaExceeded), last, taken, 0; }
        next := next + 1;
        ops := ops + [OpRow(op, next, h.op(op), size)];
        answer := next;
      }
    }

    /** Sequence the operations of a batch, or none of them. */
    method PushOps(actor: Actor, batch: seq<Operation>)
      returns (error: Option<Error>, next: nat, bytes: int, sequences: seq<nat>)
      modifies this`ops
      ensures match Rules.PushAll(h, old(Snapshot()), actor, batch)
        case Ok(done) =>
          error.None? && done == (old(Snapshot()).(ops := ops, sequence := next, used := bytes), sequences)
        case Err(e) => error == Some(e) && ops == old(ops)
    {
      hide Rules.PushOne;
      ghost var before := Snapshot();
      error, next, bytes, sequences := None, sequence, used, [];
      var rows := ops;
      for i := 0 to |batch|
        invariant error.None?
        invariant Rules.PushAll(h, before, actor, batch[..i])
               == Ok((before.(ops := ops, sequence := next, used := bytes), sequences))
      {
        assert batch[..i + 1][..i] == batch[..i];
        var answer;
        error, next, bytes, answer := PushOp(actor, batch[i], next, bytes);
        if error.Some? {
          ops := rows;
          Tables.PushStops(h, before, actor, batch, i + 1);
          return;
        }
        sequences := sequences + [answer];
      }
      assert batch[..|batch|] == batch;
    }

    method Push(actor: Actor, batch: seq<Operation>, signed: Operation -> bool)
      returns (r: Result<seq<nat>, Error>)
      modifies this`ops, this`sequence, this`used
      ensures match Rules.Push(h, old(Snapshot()), actor, batch, signed)
        case Ok(done) => r == Ok(done.1) && Snapshot() == done.0
        case Err(e) => r == Err(e) && Snapshot() == old(Snapshot())
    {
      hide Rules.Active, Rules.Screen, Rules.PushAll;
      var refused := CheckBatch(actor, batch, signed);
      if refused.Some? { return Err(refused.value); }
      if !Rules.Active(Snapshot(), actor) { return Err(Unauthorized); }
      var error, next, bytes, sequences := PushOps(actor, batch);
      if error.Some? { return Err(error.value); }
      sequence, used := next, bytes;
      return Ok(sequences);
    }

    // ----- access policies -----

    /** The key rows of one object with a policy's envelopes stored over those it had. */
    method StoreEnvelopes(prior: Object, epoch: nat, envelopes: seq<Envelope>, signer: Id)
      returns (error: Option<Error>, keys: map<Slot, KeyRow>)
      requires Rules.DistinctEnvelopes(envelopes)
      ensures error == Rules.EnvelopeError(Snapshot(), prior, epoch, envelopes)
      ensures error.None? ==> keys == Rules.NewKeys(epoch, signer, envelopes) + prior.keys
    {
      hide Rules.RecipientMatches, Rules.NewKeys, Rules.DistinctEnvelopes;
      Tables.NothingInserted(prior.keys, epoch, signer, envelopes);
      error, keys := None, prior.keys;
      for j := 0 to |envelopes|
        invariant error.None? && Rules.EnvelopeError(Snapshot(), prior, epoch, envelopes[..j]) == None
        invariant keys == Rules.NewKeys(epoch, signer, envelopes[..j]) + prior.keys
      {
        var e := envelopes[j];
        assert envelopes[..j + 1][..j] == envelopes[..j];
        var existing := Slot(prior.epoch, e.device);
        if !Rules.RecipientMatches(Snapshot(), e) {
          error := Some(InvalidRecipient);
        } else if epoch == prior.epoch && existing in prior.keys
                  && (prior.keys[existing].wrapped != e.wrapped || prior.keys[existing].wrap.Web? != e.wrap.Web?) {
          error := Some(KeyEpochImmutable);
        }
        if error.Some? {
          Tables.EnvelopeStops(Snapshot(), prior, epoch, envelopes, j + 1);
          return;
        }
        Tables.KeyInserted(prior.keys, epoch, signer, envelopes, j);
        var slot := Slot(epoch, e.device);
        if slot !in keys {
          keys := keys[slot := KeyRow(e.wrapped, signer, e.signature, e.wrap)];
        }
      }
      assert envelopes[..|envelopes|] == envelopes;
    }

    /** An object's grants replaced by a policy's, each keeping the bound of the row it had. */
    method StoreGrants(prior: Object, next: PolicyObject, t: Option<Transition>) returns (grants: map<Id, GrantRow>)
      ensures grants == Rules.NextGrants(prior, next, t)
    {
      hide Rules.Bound;
      grants := map[];
      var left := next.grants.Keys;
      while left != {}
        invariant left <= next.grants.Keys
        invariant grants == map a | a in next.grants.Keys - left :: Rules.NextGrants(prior, next, t)[a]
      {
        var a :| a in left;
        var bound := if a in prior.grants then Some(prior.grants[a].historyAfter) else None;
        grants := grants[a := GrantRow(next.grants[a], Rules.Bound(bound, t))];
        left := left - {a};
      }
    }

    method StoreMembers(prior: map<Id, MemberRow>, p: Policy, t: Option<Transition>)
      requires prior == members
      modifies this`members
      ensures members == Rules.NextMembers(old(Snapshot()), p, t)
    {
      hide Rules.Bound;
      ghost var next := Rules.NextMembers(Snapshot(), p, t);
      members := map[];
      var left := p.members.Keys;
      while left != {}
        invariant left <= p.members.Keys
        invariant members == map a | a in p.members.Keys - left :: next[a]
      {
        var a :| a in left;
        var bound := if a in prior then Some(prior[a].historyAfter) else None;
        members := members[a := MemberRow(p.members[a], Rules.Bound(bound, t))];
        left := left - {a};
      }
    }

    /** Check a policy's entry for one object, and store it. */
    method SetObject(signer: Id, p: Policy, t: Option<Transition>, next: PolicyObject)
      returns (error: Option<Error>)
      requires next.id in objects && Rules.DistinctEnvelopes(next.envelopes)
      modifies this`objects, this`links
      ensures error == Rules.ObjectError(old(Snapshot()), p, t, next)
      ensures error.None? ==>
        && objects == old(objects)[next.id := Rules.NextRow(old(objects)[next.id], t, signer, next)]
        && links == if next.epoch == old(objects)[next.id].epoch then old(links)
                    else Tables.RevokedFor(old(links), next.id)
    {
      hide Rules.PolicyAccounts, Rules.NextAccounts, Rules.PriorDocument, Rules.CheckpointFor,
           Rules.EnvelopeError, Rules.NextGrants, Rules.NewKeys, Rules.EnvelopeDevices, Rules.DistinctEnvelopes;
      var o, prior := next.id, objects[next.id];
      var oldAccounts, nextAccounts := members.Keys + prior.grants.Keys, Rules.NextAccounts(p, next);
      var active := Rules.ActiveDevices(Snapshot(), members.Keys + Rules.PolicyAccounts(p));
      var changesReaders :=
        !(nextAccounts <= oldAccounts) || !(Rules.EnvelopeDevices(next.envelopes) <= prior.KeyDevices());
      var removesAccess := !(oldAccounts <= nextAccounts) || !(prior.KeyDevices() <= active);
      if capability.Some? && changesReaders && t.None? { return Some(AccessTransitionRequired); }
      if next.epoch < prior.epoch || next.epoch > prior.epoch + 1
         || ((removesAccess || ((t.Some? || prior.Enrolled()) && changesReaders)) && next.epoch != prior.epoch + 1) {
        return Some(KeyRotationRequired);
      }
      var rotates, checkpoint := next.epoch != prior.epoch, Rules.CheckpointFor(t, o);
      if (t.Some? || prior.Enrolled()) && rotates && checkpoint.None? { return Some(CheckpointRequired); }
      if p.version == 2 && Rules.PriorDocument(Snapshot(), o) != next.document && checkpoint.None? {
        return Some(CheckpointRequired);
      }
      if checkpoint.Some? && p.version == 2
         && (next.document.None? || checkpoint.value.generation != next.document.value.generation) {
        return Some(InvalidGeneration);
      }
      if checkpoint.Some? && !rotates { return Some(CheckpointEpochUnchanged); }
      var checkpoints := prior.checkpoints;
      if checkpoint.Some? {
        if exists e <- prior.checkpoints :: prior.checkpoints[e].generation == checkpoint.value.generation {
          return Some(GenerationReused);
        }
        Tables.CheckpointNeedsTransition(t, o);
        checkpoints := checkpoints[next.epoch :=
          CheckpointRow(t.value.id, checkpoint.value.generation, checkpoint.value.covered, checkpoint.value)];
      }
      if (set d | d in active && devices[d].account in nextAccounts) != Rules.EnvelopeDevices(next.envelopes) {
        return Some(KeyEnvelopesIncomplete);
      }
      var keys;
      error, keys := StoreEnvelopes(prior, next.epoch, next.envelopes, signer);
      if error.Some? { return; }
      var grants := StoreGrants(prior, next, t);
      objects := objects[o := Object(next.epoch, next.document, grants, keys, checkpoints, prior.activated)];
      if rotates {
        links := Tables.RevokedFor(links, o);
      }
    }

    /** Check and store the next entry of a policy, whose others before it are stored. */
    method SetEntry(ghost before: State, signer: Id, p: Policy, t: Option<Transition>, i: nat)
      returns (error: Option<Error>)
      requires i < |p.objects| && Tables.Distinct(p)
      requires p.objects[i].id in before.objects && Snapshot() == before.(objects := objects, links := links)
      requires objects == Rules.NextObjects(before, t, signer, p.objects[..i])
      requires links == Rules.NextLinks(before, p.objects[..i])
      modifies this`objects, this`links
      ensures error == Rules.ObjectError(before, p, t, p.objects[i])
      ensures error.None? ==>
        && objects == Rules.NextObjects(before, t, signer, p.objects[..i + 1])
        && links == Rules.NextLinks(before, p.objects[..i + 1])
    {
      hide Rules.ObjectError, Rules.NextObjects, Rules.NextLinks, Rules.NextRow, Rules.DistinctEnvelopes,
           Rules.DistinctObjects, Tables.RevokedFor;
      Tables.EntryStored(before, t, signer, p.objects, i);
      Tables.ObjectErrorFrame(before, Snapshot(), p, t, p.objects[i]);
      error := SetObject(signer, p, t, p.objects[i]);
    }

    /** Check and store a policy's entries in order, up to one that is refused. */
    method SetObjects(signer: Id, p: Policy, t: Option<Transition>) returns (error: Option<Error>)
      requires Tables.Distinct(p) && forall e <- p.objects :: e.id in objects
      modifies this`objects, this`links
      ensures error == Rules.FirstObjectError(old(Snapshot()), p, t, p.objects)
      ensures error.None? ==>
        && objects == Rules.NextObjects(old(Snapshot()), t, signer, p.objects)
        && links == Rules.NextLinks(old(Snapshot()), p.objects)
    {
      ghost var before := Snapshot();
      hide Tables.Distinct, Rules.ObjectError, Rules.NextObjects, Rules.NextLinks, Rules.FirstObjectError;
      Tables.NoEntriesStored(before, p, t, signer);
      error := None;
      for i := 0 to |p.objects|
        invariant error.None? && Rules.FirstObjectError(before, p, t, p.objects[..i]) == None
        invariant objects == Rules.NextObjects(before, t, signer, p.objects[..i])
        invariant links == Rules.NextLinks(before, p.objects[..i])
      {
        Tables.EntryChecked(before, p, t, p.objects, i);
        error := SetEntry(before, signer, p, t, i);
        if error.Some? {
          Tables.EntriesStop(before, p, t, p.objects, i + 1);
          return;
        }
      }
      assert p.objects[..|p.objects|] == p.objects;
    }

    /** Why a transition cannot be committed now, or that it already was. */
    method CheckTransition(t: Transition) returns (plan: Option<Rules.AccessPlan>)
      ensures plan == Rules.TransitionPlan(h, Snapshot(), t)
    {
      hide Rules.BlobStored;
      if t.id !in transitions || transitions[t.id].digest != h.transition(t) {
        return Some(Rules.Refuse(TransitionNotStaged));
      }
      if transitions[t.id].committed { return Some(Rules.Keep); }
      if t.covered != sequence { return Some(Rules.Refuse(TransitionStale)); }
      for i := 0 to |t.blobs|
        invariant forall b <- t.blobs[..i] :: Rules.BlobStored(Snapshot(), ForTransition(t.id), b)
      {
        if !Rules.BlobStored(Snapshot(), ForTransition(t.id), t.blobs[i]) {
          return Some(Rules.Refuse(TransitionBlobIncomplete));
        }
      }
      assert t.blobs[..|t.blobs|] == t.blobs;
      return None;
    }

    /** What a policy that follows the log would change before its objects are looked at. */
    method CheckPolicy(actor: Actor, p: Policy) returns (plan: Rules.AccessPlan)
      ensures plan == Rules.PolicyGate(h, Snapshot(), actor, p)
    {
      hide Rules.ActiveDevices, Rules.PolicyAccounts;
      var role := Rules.RoleOf(Snapshot(), actor.account);
      if !Rules.Administers(role) { return Rules.Refuse(Forbidden); }
      if p.revision == revision {
        var prior := Rules.LogAt(Snapshot(), p.revision);
        if prior == Some(p) { return Rules.Keep; }
      }
      if p.revision != revision + 1 { return Rules.Refuse(PolicyRevisionChanged); }
      var previous := Rules.Latest(Snapshot());
      if previous.Some? && previous.value.version == 2 && p.version != 2 {
        return Rules.Refuse(ClientUpgradeRequired);
      }
      var expected := if previous.Some? then Some(h.policy(previous.value)) else None;
      if p.previous != expected { return Rules.Refuse(PolicyChainChanged); }
      if (map a | a in members :: members[a].role) != p.members && role != Some(Owner) {
        return Rules.Refuse(OwnerRequired);
      }
      if objects.Keys != (set e | e in p.objects :: e.id) { return Rules.Refuse(PolicyObjectsChanged); }
      var left, active := Rules.PolicyAccounts(p), Rules.ActiveDevices(Snapshot(), members.Keys + Rules.PolicyAccounts(p));
      while left != {}
        invariant left <= Rules.PolicyAccounts(p)
        invariant forall a <- Rules.PolicyAccounts(p) - left :: active * Rules.ActiveDevices(Snapshot(), {a}) != {}
      {
        var a :| a in left;
        if active * Rules.ActiveDevices(Snapshot(), {a}) == {} { return Rules.Refuse(RecipientDeviceRequired); }
        left := left - {a};
      }
      return Rules.Apply;
    }

    /** Apply a policy that passed its gate, under the transition it commits, if any. */
    method ApplyPolicy(actor: Actor, p: Policy, t: Option<Transition>) returns (error: Option<Error>)
      requires Rules.PolicyShape(p) && forall e <- p.objects :: e.id in objects
      modifies this`objects, this`links, this`members, this`log, this`revision, this`transitions
      ensures error == Rules.FirstObjectError(old(Snapshot()), p, t, p.objects)
      ensures Snapshot() == if error.None? then Rules.Applied(old(Snapshot()), actor, p, t) else old(Snapshot())
    {
      hide Rules.PolicyShape, Rules.NextObjects, Rules.NextLinks, Rules.NextMembers, Rules.FirstObjectError, Rules.Applied;
      ghost var before := Snapshot();
      var savedObjects, savedLinks := objects, links;
      Tables.ShapeDistinct(p);
      error := SetObjects(actor.device, p, t);
      if error.Some? {
        objects, links := savedObjects, savedLinks;
        return;
      }
      Tables.MembersFrame(before, Snapshot(), p, t);
      StoreMembers(members, p, t);
      Log(p, t);
      Tables.AppliedTables(before, Snapshot(), actor, p, t);
    }

    method Log(p: Policy, t: Option<Transition>)
      modifies this`log, this`revision, this`transitions
      ensures log == old(log) + [p] && revision == p.revision
      ensures transitions == if t.None? || t.value.id !in old(transitions) then old(transitions)
                             else old(transitions)[t.value.id := old(transitions)[t.value.id].(committed := true)]
    {
      log, revision := log + [p], p.revision;
      if t.Some? && t.value.id in transitions {
        transitions := transitions[t.value.id := transitions[t.value.id].(committed := true)];
      }
    }

    /** Apply an access policy, committing its transition when it comes with one. */
    method SetAccess(actor: Actor, p: Policy, t: Option<Transition>, verified: bool) returns (r: Result<(), Error>)
      modifies this`objects, this`links, this`members, this`log, this`revision, this`transitions
      ensures match Rules.SetAccess(h, old(Snapshot()), actor, p, t, verified)
        case Ok(next) => r == Ok(()) && Snapshot() == next
        case Err(e) => r == Err(e) && Snapshot() == old(Snapshot())
    {
      hide Rules.PolicyShape, Rules.TransitionShape, Rules.TransitionPlan, Rules.PolicyGate, Rules.Active, Rules.Applied,
           Rules.FirstObjectError;
      if !Rules.PolicyShape(p) || (t.Some? && !Rules.TransitionShape(t.value)) { return Err(Malformed); }
      if p.device != actor.device { return Err(IdentityMismatch); }
      if !verified { return Err(InvalidSignature); }
      if t.Some? && h.policy(t.value.policy) != h.policy(p) { return Err(InvalidTransition); }
      if p.workspace != id { return Err(NotFound); }
      if !Rules.Active(Snapshot(), actor) { return Err(Unauthorized); }
      if t.Some? {
        var plan := CheckTransition(t.value);
        if plan.Some? { return if plan.value.Refuse? then Err(plan.value.error) else Ok(()); }
      }
      var plan := CheckPolicy(actor, p);
      if plan.Refuse? { return Err(plan.error); }
      if plan.Keep? { return Ok(()); }
      var error := ApplyPolicy(actor, p, t);
      return if error.Some? then Err(error.value) else Ok(());
    }

    // ----- devices, objects and keys -----

    method EnrollDevice(device: Id, row: Device) returns (r: Result<(), Error>)
      modifies this`devices
      ensures Snapshot() == Rules.Enroll(old(Snapshot()), device, row)
      ensures r.Ok? <==> !row.revoked && (device in old(devices) ==> old(devices)[device] == row)
      ensures r.Err? ==> r == Err(DeviceUnavailable) && Snapshot() == old(Snapshot())
    {
      if device !in devices && !row.revoked { devices := devices[device := row]; }
      return if device in devices && devices[device] == row && !row.revoked then Ok(()) else Err(DeviceUnavailable);
    }

    method RevokeDevice(account: Id, device: Id) returns (r: Result<(), Error>)
      modifies this`devices
      ensures match Rules.Revoke(old(Snapshot()), account, device)
        case Ok(next) => r == Ok(()) && Snapshot() == next
        case Err(e) => r == Err(e) && Snapshot() == old(Snapshot())
    {
      if device !in devices || devices[device].account != account { return Err(NotFound); }
      devices := devices[device := devices[device].(revoked := true)];
      return Ok(());
    }

    method CreateObject(actor: Actor, o: Id) returns (r: Result<nat, Error>)
      modifies this`objects
      ensures match Rules.CreateObject(old(Snapshot()), actor, o)
        case Ok(done) => r == Ok(done.1) && Snapshot() == done.0
        case Err(e) => r == Err(e) && Snapshot() == old(Snapshot())
    {
      hide Rules.Active;
      if !Rules.Active(Snapshot(), actor) { return Err(Unauthorized); }
      if o in objects {
        if !Rules.HasRow(Snapshot(), actor.account, o) { return Err(Forbidden); }
        return Ok(objects[o].epoch);
      }
      if !Rules.Writes(Rules.RoleOf(Snapshot(), actor.account)) { return Err(Forbidden); }
      if capability.Some? && exists p <- log :: p.version == 2 { return Err(ActivationRequired); }
      objects := objects[o := Object(1, None, map[], map[], map[], map[])];
      return Ok(1);
    }

    method StoreOwnKey(actor: Actor, share: bool, k: OwnKey, verified: bool) returns (r: Result<(), Error>)
      modifies this`objects
      ensures match Rules.StoreOwnKey(old(Snapshot()), actor, share, k, verified)
        case Ok(next) => r == Ok(()) && Snapshot() == next
        case Err(e) => r == Err(e) && Snapshot() == old(Snapshot())
    {
      hide Rules.Active, Rules.MayWrite, Rules.HasRow, Rules.RecipientMatches;
      if (!share && k.device != actor.device) || k.signer != actor.device { return Err(Forbidden); }
      if !verified { return Err(InvalidSignature); }
      if k.workspace != id { return Err(NotFound); }
      if !Rules.Active(Snapshot(), actor) { return Err(Unauthorized); }
      if !Rules.MayWrite(Snapshot(), actor.account, k.objectId) { return Err(Forbidden); }
      if k.objectId !in objects || objects[k.objectId].epoch != k.epoch { return Err(StaleEpoch); }
      if k.device !in devices || devices[k.device].revoked { return Err(Forbidden); }
      if !Rules.HasRow(Snapshot(), devices[k.device].account, k.objectId) { return Err(Forbidden); }
      if !Rules.RecipientMatches(Snapshot(), Envelope(k.device, k.wrapped, k.signature, k.wrap)) {
        return Err(InvalidRecipient);
      }
      var target, slot := objects[k.objectId], Slot(k.epoch, k.device);
      if slot in target.keys {
        var row := target.keys[slot];
        return if row.wrapped != k.wrapped || row.wrap != k.wrap then Err(KeyChanged) else Ok(());
      }
      if target.Enrolled() { return Err(KeyRotationRequired); }
      var row := KeyRow(k.wrapped, actor.device, k.signature, k.wrap);
      objects := objects[k.objectId := target.(keys := target.keys[slot := row])];
      return Ok(());
    }

    method PutCapability(actor: Actor, c: Capability, verified: bool) returns (r: Result<(), Error>)
      modifies this`capability
      ensures match Rules.PutCapability(old(Snapshot()), actor, c, verified)
        case Ok(next) => r == Ok(()) && Snapshot() == next
        case Err(e) => r == Err(e) && Snapshot() == old(Snapshot())
    {
      hide Rules.Active;
      if c.device != actor.device { return Err(IdentityMismatch); }
      if !verified { return Err(InvalidSignature); }
      if c.workspace != id { return Err(NotFound); }
      if !Rules.Active(Snapshot(), actor) { return Err(Unauthorized); }
      if Rules.RoleOf(Snapshot(), actor.account) != Some(Owner) { return Err(OwnerRequired); }
      if capability.Some? && capability.value != c { return Err(CapabilityChanged); }
      capability := Some(c);
      return Ok(());
    }

    // ----- transitions and activations -----

    method StageTransition(actor: Actor, t: Transition, verified: bool) returns (r: Result<(), Error>)
      modifies this`transitions, this`used
      ensures match Rules.StageTransition(h, old(Snapshot()), actor, t, verified)
        case Ok(next) => r == Ok(()) && Snapshot() == next
        case Err(e) => r == Err(e) && Snapshot() == old(Snapshot())
    {
      hide Rules.Active, Rules.TransitionShape;
      if !Rules.TransitionShape(t) { return Err(Malformed); }
      if t.policy.device != actor.device { return Err(IdentityMismatch); }
      if !verified { return Err(InvalidSignature); }
      if t.policy.workspace != id { return Err(NotFound); }
      if !Rules.Active(Snapshot(), actor) { return Err(Unauthorized); }
      if !Rules.Administers(Rules.RoleOf(Snapshot(), actor.account)) { return Err(Forbidden); }
      if capability.None? { return Err(CapabilityRequired); }
      var digest := h.transition(t);
      if t.id in transitions {
        return if transitions[t.id].digest != digest then Err(TransitionIdReused) else Ok(());
      }
      if t.policy.revision != revision + 1 || t.covered != sequence { return Err(TransitionStale); }
      var bytes := h.transitionBytes(t);
      if used + bytes > quota { return Err(QuotaExceeded); }
      transitions := transitions[t.id := TransitionRow(actor.device, digest, t, bytes, false)];
      used := used + bytes;
      return Ok(());
    }

    /** Check an activation against the rows as they are now. */
    method ValidateActivation(actor: Actor, a: Activation, verified: bool) returns (error: Option<Error>)
      ensures error == Rules.ActivationError(h, Snapshot(), actor, a, verified)
    {
      hide Rules.ActiveDevices, Rules.EnvelopeDevices, Rules.RecipientMatches;
      if !Rules.Writes(Rules.RoleOf(Snapshot(), actor.account)) { return Some(Forbidden); }
      if a.policyRevision != revision || a.covered != sequence { return Some(ActivationStale); }
      var latest := Rules.LogAt(Snapshot(), a.policyRevision);
      if latest.None? || latest.value.version != 2 { return Some(CapabilityRequired); }
      if capability.None? { return Some(CapabilityRequired); }
      if a.capability != h.capability(capability.value) { return Some(CapabilityChanged); }
      if !verified { return Some(InvalidSignature); }
      if a.Object() in objects { return Some(ObjectAlreadyExists); }
      if Rules.ActiveDevices(Snapshot(), members.Keys) != Rules.EnvelopeDevices(a.envelopes) {
        return Some(KeyEnvelopesIncomplete);
      }
      for i := 0 to |a.envelopes|
        invariant forall e <- a.envelopes[..i] :: Rules.RecipientMatches(Snapshot(), e)
      {
        if !Rules.RecipientMatches(Snapshot(), a.envelopes[i]) { return Some(InvalidRecipient); }
      }
      assert a.envelopes[..|a.envelopes|] == a.envelopes;
      return None;
    }

    method StageActivation(actor: Actor, a: Activation, verified: bool) returns (r: Result<(), Error>)
      modifies this`activations, this`used
      ensures match Rules.StageActivation(h, old(Snapshot()), actor, a, verified)
        case Ok(next) => r == Ok(()) && Snapshot() == next
        case Err(e) => r == Err(e) && Snapshot() == old(Snapshot())
    {
      hide Rules.Active, Rules.ActivationShape, Rules.ActivationError;
      if !Rules.ActivationShape(a) { return Err(Malformed); }
      if a.device != actor.device { return Err(IdentityMismatch); }
      if a.workspace != id { return Err(NotFound); }
      if !Rules.Active(Snapshot(), actor) { return Err(Unauthorized); }
      var digest := h.activation(a);
      if a.id in activations {
        return if activations[a.id].digest != digest then Err(ActivationIdReused) else Ok(());
      }
      var error := ValidateActivation(actor, a, verified);
      if error.Some? { return Err(error.value); }
      var bytes := h.activationBytes(a);
      if used + bytes > quota { return Err(QuotaExceeded); }
      activations := activations[a.id := ActivationRow(actor.device, digest, a, bytes, false)];
      used := used + bytes;
      return Ok(());
    }

    /** Publish a staged activation's object, envelopes and checkpoint. */
    method CommitActivation(actor: Actor, activation: Id, verified: bool) returns (r: Result<(), Error>)
      modifies this`objects, this`activations
      ensures match Rules.CommitActivation(h, old(Snapshot()), actor, activation, verified)
        case Ok(next) => r == Ok(()) && Snapshot() == next
        case Err(e) => r == Err(e) && Snapshot() == old(Snapshot())
    {
      hide Rules.Active, Rules.ActivationShape, Rules.ActivationError, Rules.BlobStored, Rules.NewKeys;
      if !Rules.Active(Snapshot(), actor) { return Err(Unauthorized); }
      if activation !in activations || activations[activation].device != actor.device { return Err(NotFound); }
      var row := activations[activation];
      if row.committed { return Ok(()); }
      var a := row.body;
      if !Rules.ActivationShape(a) || a.workspace != id || h.activation(a) != row.digest { return Err(Malformed); }
      var error := ValidateActivation(actor, a, verified);
      if error.Some? { return Err(error.value); }
      for i := 0 to |a.blobs|
        invariant forall b <- a.blobs[..i] :: Rules.BlobStored(Snapshot(), ForActivation(activation), b)
      {
        if !Rules.BlobStored(Snapshot(), ForActivation(activation), a.blobs[i]) {
          return Err(ActivationBlobIncomplete);
        }
      }
      assert a.blobs[..|a.blobs|] == a.blobs;
      assert forall b <- a.blobs :: Rules.BlobStored(Snapshot(), ForActivation(activation), b);
      var keys := PublishKeys(1, actor.device, a.envelopes);
      var checkpoint := CheckpointRow(a.id, a.document.generation, a.covered, a.checkpoint);
      objects := objects[a.Object() := Object(1, Some(a.document), map[], keys, map[], map[1 := checkpoint])];
      activations := activations[activation := row.(committed := true)];
      return Ok(());
    }

    method PublishKeys(epoch: nat, signer: Id, envelopes: seq<Envelope>) returns (keys: map<Slot, KeyRow>)
      ensures keys == Rules.NewKeys(epoch, signer, envelopes)
    {
      keys := map[];
      for j := 0 to |envelopes|
        invariant keys == Rules.NewKeys(epoch, signer, envelopes[..j])
      {
        hide Rules.NewKeys;
        var e := envelopes[j];
        Tables.NewKeysAfter(epoch, signer, envelopes, j);
        keys := keys[Slot(epoch, e.device) := KeyRow(e.wrapped, signer, e.signature, e.wrap)];
      }
      assert envelopes[..|envelopes|] == envelopes;
    }

    // ----- public links -----

    method CreateLink(actor: Actor, link: Id, snapshot: Operation, verified: bool) returns (r: Result<(), Error>)
      modifies this`links, this`used
      ensures match Rules.CreateLink(old(Snapshot()), actor, link, snapshot, verified)
        case Ok(next) => r == Ok(()) && Snapshot() == next
        case Err(e) => r == Err(e) && Snapshot() == old(Snapshot())
    {
      hide Rules.Active, DecodedLength;
      if snapshot.device != actor.device { return Err(IdentityMismatch); }
      if !verified { return Err(InvalidSignature); }
      if snapshot.workspace != id { return Err(NotFound); }
      if !Rules.Active(Snapshot(), actor) { return Err(Unauthorized); }
      if !Rules.Administers(Rules.RoleOf(Snapshot(), actor.account)) { return Err(Forbidden); }
      var o := snapshot.objectId;
      if o !in objects || objects[o].epoch != snapshot.epoch { return Err(StaleEpoch); }
      var bytes := DecodedLength(snapshot.ciphertext);
      if used + bytes > quota { return Err(QuotaExceeded); }
      if link in links { return Err(UniqueViolation); }
      links := links[link := LinkRow(o, snapshot, 1, bytes, false)];
      used := used + bytes;
      return Ok(());
    }

    method UpdateLink(actor: Actor, link: Id, expected: nat, snapshot: Operation, live: bool, verified: bool)
      returns (r: Result<nat, Error>)
      modifies this`links, this`used
      ensures match Rules.UpdateLink(h, old(Snapshot()), actor, link, expected, snapshot, live, verified)
        case Ok(done) => r == Ok(done.1) && Snapshot() == done.0
        case Err(e) => r == Err(e) && Snapshot() == old(Snapshot())
    {
      hide Rules.Active, DecodedLength;
      if snapshot.device != actor.device { return Err(IdentityMismatch); }
      if !verified { return Err(InvalidSignature); }
      if snapshot.workspace != id { return Err(NotFound); }
      if !Rules.Active(Snapshot(), actor) { return Err(Unauthorized); }
      if !Rules.Administers(Rules.RoleOf(Snapshot(), actor.account)) { return Err(Forbidden); }
      var o := snapshot.objectId;
      if link !in links || links[link].objectId != o || links[link].revoked || !live { return Err(NotFound); }
      var row := links[link];
      if h.op(row.snapshot) == h.op(snapshot) { return Ok(row.revision); }
      if row.revision != expected { return Err(LinkRevisionChanged); }
      if o !in objects || objects[o].epoch != snapshot.epoch { return Err(StaleEpoch); }
      var bytes := DecodedLength(snapshot.ciphertext);
      var next := used - row.bytes + bytes;
      if next > quota { return Err(QuotaExceeded); }
      links := links[link := row.(snapshot := snapshot, revision := row.revision + 1, bytes := bytes)];
      used := next;
      return Ok(row.revision + 1);
    }

    method RevokeLink(actor: Actor, link: Id) returns (r: Result<(), Error>)
      modifies this`links
      ensures match Rules.RevokeLink(old(Snapshot()), actor, link)
        case Ok(next) => r == Ok(()) && Snapshot() == next
        case Err(e) => r == Err(e) && Snapshot() == old(Snapshot())
    {
      hide Rules.Active;
      if !Rules.Active(Snapshot(), actor) { return Err(Unauthorized); }
      if !Rules.Administers(Rules.RoleOf(Snapshot(), actor.account)) { return Err(Forbidden); }
      if link !in links { return Err(NotFound); }
      links := links[link := links[link].(revoked := true)];
      return Ok(());
    }

    // ----- blob rows -----

    method CreateBlob(actor: Actor, key: BlobKey, owner: BlobOwner, epoch: nat, size: nat, upload: Id)
      returns (r: Result<(), Error>)
      modifies this`blobs, this`used
      ensures match Rules.CreateBlob(old(Snapshot()), actor, key, owner, epoch, size, upload)
        case Ok(next) => r == Ok(()) && Snapshot() == next
        case Err(e) => r == Err(e) && Snapshot() == old(Snapshot())
    {
      hide Rules.Active, Rules.BlobEpoch;
      if epoch < 1 || size < 1 || size > Rules.MAX_BLOB { return Err(Malformed); }
      if !Rules.Active(Snapshot(), actor) { return Err(Unauthorized); }
      var allowed := Rules.BlobEpoch(Snapshot(), actor, key, owner, epoch, size);
      if allowed.Err? { return Err(allowed.error); }
      if allowed.value != epoch { return Err(StaleEpoch); }
      if key in blobs {
        var row := blobs[key];
        return if row.size != size || row.epoch != epoch || row.device != actor.device || row.owner != owner
          then Err(BlobChanged) else Ok(());
      }
      if used + size > quota { return Err(QuotaExceeded); }
      if exists k <- blobs :: blobs[k].upload == upload { return Err(UniqueViolation); }
      blobs := blobs[key := BlobRow(epoch, size, upload, actor.device, owner, false, false, Local)];
      used := used + size;
      return Ok(());
    }

    method DeleteBlob(actor: Actor, key: BlobKey) returns (r: Result<(), Error>)
      modifies this`blobs, this`used
      ensures match Rules.DeleteBlob(old(Snapshot()), actor, key)
        case Ok(next) => r == Ok(()) && Snapshot() == next
        case Err(e) => r == Err(e) && Snapshot() == old(Snapshot())
    {
      hide Rules.BlobEpoch, Rules.Active;
      var error := Rules.TransferError(Snapshot(), actor, key);
      if error.Some? { return Err(error.value); }
      if blobs[key].complete { return Err(BlobImmutable); }
      used := used - blobs[key].size;
      blobs := blobs - {key};
      return Ok(());
    }

    /** Publish or fail an upload that was hashed outside the lock, unless it changed meanwhile. */
    method FinishBlob(actor: Actor, key: BlobKey, finish: Rules.Finish, valid: bool, storage: Storage)
      returns (r: Result<(), Error>)
      modifies this`blobs
      ensures match Rules.FinishBlob(old(Snapshot()), actor, key, finish, valid, storage)
        case Ok(next) => r == Ok(()) && Snapshot() == next
        case Err(e) => r == Err(e) && Snapshot() == old(Snapshot())
    {
      hide Rules.Active, Rules.BlobEpoch;
      if !Rules.Active(Snapshot(), actor) { return Err(Unauthorized); }
      if key !in blobs || blobs[key].upload != finish.upload || blobs[key].device != actor.device
         || blobs[key].size != finish.size { return Err(BlobChanged); }
      var row := blobs[key];
      var allowed := Rules.BlobEpoch(Snapshot(), actor, key, row.owner, finish.epoch, finish.size);
      if allowed.Err? { return Err(allowed.error); }
      if allowed.value != finish.epoch { return Err(StaleEpoch); }
      blobs := blobs[key := if valid then row.(complete := true, storage := storage) else row.(failed := true)];
      return Ok(());
    }
  }
}
