/** Facts about the rules that the store's loops need. */
module SyncTables {
  import opened Wrappers
  import opened SyncTypes
  import opened SyncRules
  import opened SyncKeys

  /** An error in a prefix of a batch is the batch's. */
  lemma {:induction false} ScreenStops(s: State, actor: Actor, batch: seq<Operation>, i: nat, signed: Operation -> bool)
    requires i <= |batch| && Screen(s, actor, batch[..i], signed).Some?
    ensures Screen(s, actor, batch, signed) == Screen(s, actor, batch[..i], signed)
    decreases |batch|
  {
    if i < |batch| {
      var n := |batch| - 1;
      assert batch[..n][..i] == batch[..i];
      ScreenStops(s, actor, batch[..n], i, signed);
    } else {
      assert batch[..i] == batch;
    }
  }

  lemma {:induction false} PushStops(h: Codec, s: State, actor: Actor, batch: seq<Operation>, i: nat)
    requires i <= |batch| && PushAll(h, s, actor, batch[..i]).Err?
    ensures PushAll(h, s, actor, batch) == PushAll(h, s, actor, batch[..i])
    decreases |batch|
  {
    hide PushOne;
    if i < |batch| {
      var n := |batch| - 1;
      assert batch[..n][..i] == batch[..i];
      PushStops(h, s, actor, batch[..n], i);
    } else {
      assert batch[..i] == batch;
    }
  }

  lemma MayWriteFrame(s: State, next: State, account: Id, o: Id)
    requires s.members == next.members && s.objects == next.objects
    ensures MayWrite(s, account, o) == MayWrite(next, account, o)
  {
  }

  lemma {:induction false} EnvelopeStops(s: State, target: Object, epoch: nat, envelopes: seq<Envelope>, j: nat)
    requires j <= |envelopes| && EnvelopeError(s, target, epoch, envelopes[..j]).Some?
    ensures EnvelopeError(s, target, epoch, envelopes) == EnvelopeError(s, target, epoch, envelopes[..j])
    decreases |envelopes|
  {
    hide RecipientMatches;
    if j < |envelopes| {
      var n := |envelopes| - 1;
      assert envelopes[..n][..j] == envelopes[..j];
      EnvelopeStops(s, target, epoch, envelopes[..n], j);
    } else {
      assert envelopes[..j] == envelopes;
    }
  }

  lemma NothingInserted(keys: map<Slot, KeyRow>, epoch: nat, signer: Id, envelopes: seq<Envelope>)
    ensures NewKeys(epoch, signer, envelopes[..0]) + keys == keys
  {
  }

  /** Inserting an envelope's row unless its slot is taken. */
  lemma KeyInserted(keys: map<Slot, KeyRow>, epoch: nat, signer: Id, envelopes: seq<Envelope>, j: nat)
    requires DistinctEnvelopes(envelopes) && j < |envelopes|
    ensures var done := NewKeys(epoch, signer, envelopes[..j]) + keys;
      var e := envelopes[j];
      var slot := Slot(epoch, e.device);
      NewKeys(epoch, signer, envelopes[..j + 1]) + keys ==
        if slot in done then done else done[slot := KeyRow(e.wrapped, signer, e.signature, e.wrap)]
  {
    var first, e := envelopes[..j + 1], envelopes[j];
    assert first[..j] == envelopes[..j];
    var done, slot := NewKeys(epoch, signer, envelopes[..j]), Slot(epoch, e.device);
    assert slot !in done by {
      NewKeysHold(epoch, signer, envelopes[..j]);
    }
    hide NewKeys;
    UnionPut(done, keys, slot, KeyRow(e.wrapped, signer, e.signature, e.wrap));
  }

  lemma UnionPut<K, V>(m: map<K, V>, over: map<K, V>, k: K, v: V)
    requires k !in m
    ensures m[k := v] + over == if k in m + over then m + over else (m + over)[k := v]
  {
  }

  lemma CheckpointNeedsTransition(t: Option<Transition>, o: Id)
    requires CheckpointFor(t, o).Some?
    ensures t.Some?
  {
  }

  /** An object's public links, all revoked. */
  function RevokedFor(links: map<Id, LinkRow>, o: Id): map<Id, LinkRow> {
    map l | l in links :: links[l].(revoked := links[l].revoked || links[l].objectId == o)
  }

  /** A policy names each object once, and each recipient once per object. */
  predicate Distinct(p: Policy) {
    DistinctObjects(p.objects) && forall e <- p.objects :: DistinctEnvelopes(e.envelopes)
  }

  lemma ShapeDistinct(p: Policy)
    requires PolicyShape(p)
    ensures Distinct(p)
  {
    hide DistinctEnvelopes, DistinctObjects;
  }

  lemma NoEntriesStored(s: State, p: Policy, t: Option<Transition>, signer: Id)
    ensures NextObjects(s, t, signer, p.objects[..0]) == s.objects && NextLinks(s, p.objects[..0]) == s.links
    ensures FirstObjectError(s, p, t, p.objects[..0]).None?
  {
  }

  lemma {:induction false} EntryAfter(entries: seq<PolicyObject>, i: nat, o: Id)
    requires DistinctObjects(entries) && i < |entries|
    ensures Entry(entries[..i + 1], o) == if o == entries[i].id then Some(entries[i]) else Entry(entries[..i], o)
    ensures Entry(entries[..i], entries[i].id).None?
  {
    assert entries[..i + 1][..i] == entries[..i];
    assert forall e <- entries[..i] :: e.id != entries[i].id;
  }

  /** Storing one more entry replaces that object's row, and revokes its links if it rotates. */
  lemma EntryStored(s: State, t: Option<Transition>, signer: Id, entries: seq<PolicyObject>, i: nat)
    requires DistinctObjects(entries) && i < |entries| && entries[i].id in s.objects
    ensures var before, o := NextObjects(s, t, signer, entries[..i]), entries[i].id;
      && o in before && before[o] == s.objects[o]
      && NextObjects(s, t, signer, entries[..i + 1]) == before[o := NextRow(s.objects[o], t, signer, entries[i])]
    ensures NextLinks(s, entries[..i + 1]) ==
      if entries[i].epoch == s.objects[entries[i].id].epoch then NextLinks(s, entries[..i])
      else RevokedFor(NextLinks(s, entries[..i]), entries[i].id)
  {
    hide Entry, NextRow;
    forall o { EntryAfter(entries, i, o); }
  }

  /** An entry's checks read only its own object's row, the members, the devices, the log
      and the capability. */
  lemma ObjectErrorFrame(s: State, now: State, p: Policy, t: Option<Transition>, next: PolicyObject)
    requires next.id in s.objects && next.id in now.objects && now.objects[next.id] == s.objects[next.id]
    requires now.members == s.members && now.devices == s.devices && now.log == s.log && now.capability == s.capability
    ensures ObjectError(now, p, t, next) == ObjectError(s, p, t, next)
  {
    hide NextAccounts, PolicyAccounts, CheckpointFor, EnvelopeDevices, EnvelopeError;
    EnvelopeErrorFrame(s, now, s.objects[next.id], next.epoch, next.envelopes);
  }

  lemma {:induction false} EnvelopeErrorFrame(s: State, now: State, target: Object, epoch: nat, envelopes: seq<Envelope>)
    requires now.devices == s.devices
    ensures EnvelopeError(now, target, epoch, envelopes) == EnvelopeError(s, target, epoch, envelopes)
  {
    if envelopes != [] {
      EnvelopeErrorFrame(s, now, target, epoch, envelopes[..|envelopes| - 1]);
    }
  }

  /** Checking one more entry. */
  lemma EntryChecked(s: State, p: Policy, t: Option<Transition>, entries: seq<PolicyObject>, i: nat)
    requires i < |entries| && (forall e <- entries :: e.id in s.objects)
    requires FirstObjectError(s, p, t, entries[..i]).None?
    ensures FirstObjectError(s, p, t, entries[..i + 1]) == ObjectError(s, p, t, entries[i])
  {
    hide ObjectError;
    assert entries[..i + 1][..i] == entries[..i];
  }

  lemma {:induction false} EntriesStop(s: State, p: Policy, t: Option<Transition>, entries: seq<PolicyObject>, i: nat)
    requires i <= |entries| && forall e <- entries :: e.id in s.objects
    requires FirstObjectError(s, p, t, entries[..i]).Some?
    ensures FirstObjectError(s, p, t, entries) == FirstObjectError(s, p, t, entries[..i])
    decreases |entries|
  {
    hide ObjectError;
    if i < |entries| {
      var n := |entries| - 1;
      assert entries[..n][..i] == entries[..i];
      EntriesStop(s, p, t, entries[..n], i);
    } else {
      assert entries[..i] == entries;
    }
  }

  /** The tables of an applied policy, one by one. */
  lemma AppliedTables(s: State, now: State, actor: Actor, p: Policy, t: Option<Transition>)
    requires now == s.(objects := now.objects, members := now.members, links := now.links, log := now.log,
                       revision := now.revision, transitions := now.transitions)
    requires now.objects == NextObjects(s, t, actor.device, p.objects) && now.links == NextLinks(s, p.objects)
    requires now.members == NextMembers(s, p, t) && now.log == s.log + [p] && now.revision == p.revision
    requires now.transitions == if t.None? || t.value.id !in s.transitions then s.transitions
                                else s.transitions[t.value.id := s.transitions[t.value.id].(committed := true)]
    ensures now == Applied(s, actor, p, t)
  {
    hide NextObjects, NextMembers, NextLinks;
  }

  lemma MembersFrame(s: State, now: State, p: Policy, t: Option<Transition>)
    requires now.members == s.members
    ensures NextMembers(now, p, t) == NextMembers(s, p, t)
  {
  }

  /** Every envelope of an activation goes into a slot of its own. */
  lemma {:induction false} NewKeysAfter(epoch: nat, signer: Id, envelopes: seq<Envelope>, j: nat)
    requires j < |envelopes|
    ensures NewKeys(epoch, signer, envelopes[..j + 1]) ==
      NewKeys(epoch, signer, envelopes[..j])
        [Slot(epoch, envelopes[j].device) :=
          KeyRow(envelopes[j].wrapped, signer, envelopes[j].signature, envelopes[j].wrap)]
  {
    assert envelopes[..j + 1][..j] == envelopes[..j];
  }
}
