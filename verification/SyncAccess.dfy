/** What an applied policy leaves, row by row, and who may write after it. */
module SyncAccess {
  import opened Wrappers
  import opened SyncTypes
  import opened SyncRules
  import opened SyncPolicies
  import opened SyncHistory
  import opened SyncKeys
  import opened SyncPushes

  /** A row that stays keeps its history bound; a new one starts at the transition's
      boundary, or at 0 without one. */
  ghost predicate Starts(prior: Option<nat>, t: Option<Transition>, after: nat) {
    match prior
    case Some(bound) => after == bound
    case None => after == match t case Some(transition) => transition.covered case None => 0
  }

  /** The members are those of the policy, with its roles. */
  ghost predicate MembersSet(s: State, next: State, p: Policy, t: Option<Transition>) {
    && (forall a :: a in next.members <==> a in p.members)
    && forall a <- p.members ::
         && a in next.members && next.members[a].role == p.members[a]
         && Starts(if a in s.members then Some(s.members[a].historyAfter) else None, t, next.members[a].historyAfter)
  }

  /** The grants on an object are those of its entry, with their roles. */
  ghost predicate GrantsSet(before: Object, after: Object, e: PolicyObject, t: Option<Transition>) {
    && (forall a :: a in after.grants <==> a in e.grants)
    && forall a <- e.grants ::
         && a in after.grants && after.grants[a].role == e.grants[a]
         && Starts(if a in before.grants then Some(before.grants[a].historyAfter) else None, t, after.grants[a].historyAfter)
  }

  /** Every envelope there was stays, and each of the entry's is stored for its epoch unless
      its slot was taken. */
  ghost predicate KeysAdded(before: Object, after: Object, e: PolicyObject, signer: Id) {
    && (forall slot <- before.keys :: slot in after.keys && after.keys[slot] == before.keys[slot])
    && (forall v <- e.envelopes | Slot(e.epoch, v.device) !in before.keys ::
          && Slot(e.epoch, v.device) in after.keys
          && after.keys[Slot(e.epoch, v.device)] == KeyRow(v.wrapped, signer, v.signature, v.wrap))
    && (forall slot <- after.keys ::
          slot in before.keys || (slot.epoch == e.epoch && exists v <- e.envelopes :: v.device == slot.device))
  }

  /** The checkpoint the transition brings for the object, when it brings one. */
  ghost predicate CheckpointAdded(before: Object, after: Object, e: PolicyObject, t: Option<Transition>) {
    && after.activated == before.activated
    && (forall epoch <- before.checkpoints | epoch != e.epoch ::
          epoch in after.checkpoints && after.checkpoints[epoch] == before.checkpoints[epoch])
    && (forall epoch <- after.checkpoints | epoch != e.epoch :: epoch in before.checkpoints)
    && (match t
        case None => after.checkpoints == before.checkpoints
        case Some(transition) =>
          if exists c <- transition.checkpoints :: c.payload.objectId == e.id then
            && e.epoch in after.checkpoints
            && exists c <- transition.checkpoints :: c.payload.objectId == e.id
                 && after.checkpoints[e.epoch] == CheckpointRow(transition.id, c.generation, c.covered, c)
          else after.checkpoints == before.checkpoints)
  }

  /** The object's row after its entry was stored. */
  ghost predicate ObjectSet(before: Object, after: Object, e: PolicyObject, t: Option<Transition>, signer: Id) {
    && after.epoch == e.epoch && after.document == e.document
    && GrantsSet(before, after, e, t) && KeysAdded(before, after, e, signer) && CheckpointAdded(before, after, e, t)
  }

  ghost predicate Rotated(s: State, p: Policy, o: Id) {
    exists e <- p.objects :: e.id == o && o in s.objects && e.epoch != s.objects[o].epoch
  }

  /** The links of the objects that rotate are revoked, and nothing else of a link changes. */
  ghost predicate LinksSet(s: State, next: State, p: Policy) {
    && next.links.Keys == s.links.Keys
    && forall l <- s.links ::
         next.links[l] == s.links[l].(revoked := next.links[l].revoked)
         && (next.links[l].revoked <==> (s.links[l].revoked || Rotated(s, p, s.links[l].objectId)))
  }

  /** Only the transition that came with the policy is committed now. */
  ghost predicate TransitionSet(s: State, next: State, t: Option<Transition>) {
    && next.transitions.Keys == s.transitions.Keys
    && forall id <- s.transitions ::
         next.transitions[id] == s.transitions[id].(committed := s.transitions[id].committed || (t.Some? && t.value.id == id))
  }

  lemma NextRowSet(before: Object, t: Option<Transition>, signer: Id, e: PolicyObject)
    requires DistinctEnvelopes(e.envelopes)
    ensures ObjectSet(before, NextRow(before, t, signer, e), e, t, signer)
  {
    NextGrantsSet(before, t, signer, e);
    NextKeysSet(before, t, signer, e);
    NextCheckpointSet(before, t, signer, e);
    hide GrantsSet, KeysAdded, CheckpointAdded, NextGrants, NewKeys, CheckpointFor, DistinctEnvelopes;
  }

  lemma NextGrantsSet(before: Object, t: Option<Transition>, signer: Id, e: PolicyObject)
    ensures GrantsSet(before, NextRow(before, t, signer, e), e, t)
  {
    hide NewKeys, CheckpointFor;
  }

  lemma NextKeysSet(before: Object, t: Option<Transition>, signer: Id, e: PolicyObject)
    requires DistinctEnvelopes(e.envelopes)
    ensures KeysAdded(before, NextRow(before, t, signer, e), e, signer)
  {
    NewKeysHold(e.epoch, signer, e.envelopes);
    forall j | 0 <= j < |e.envelopes| { NewKeyRow(e.epoch, signer, e.envelopes, j); }
    Devices(e.envelopes);
    hide NewKeys, DistinctEnvelopes, EnvelopeDevices, NextGrants, CheckpointFor;
  }

  lemma NextCheckpointSet(before: Object, t: Option<Transition>, signer: Id, e: PolicyObject)
    ensures CheckpointAdded(before, NextRow(before, t, signer, e), e, t)
  {
    hide NewKeys, NextGrants, FindCheckpoint;
  }

  lemma Devices(envelopes: seq<Envelope>)
    ensures EnvelopeDevices(envelopes) == (set v | v in envelopes :: v.device)
  {
  }

  lemma {:induction false} NewKeyRow(epoch: nat, signer: Id, envelopes: seq<Envelope>, j: nat)
    requires DistinctEnvelopes(envelopes) && j < |envelopes|
    ensures var slot, v := Slot(epoch, envelopes[j].device), envelopes[j];
      slot in NewKeys(epoch, signer, envelopes)
      && NewKeys(epoch, signer, envelopes)[slot] == KeyRow(v.wrapped, signer, v.signature, v.wrap)
  {
    var n := |envelopes| - 1;
    if j < n { NewKeyRow(epoch, signer, envelopes[..n], j); }
  }

  /** Everything an applied policy leaves: members and grants with the roles it gives, its
      epochs, documents, envelopes and checkpoints, the links of what rotates revoked, its own
      transition committed, the policy last in the log, and the rest as it was. */
  lemma AppliedExactly(h: Codec, s: State, actor: Actor, p: Policy, t: Option<Transition>)
    requires Accepted(h, s, actor, p, t)
    ensures var next := Applied(s, actor, p, t);
      && MembersSet(s, next, p, t) && LinksSet(s, next, p) && TransitionSet(s, next, t)
      && next.objects.Keys == s.objects.Keys
      && (forall e <- p.objects ::
            && e.id in s.objects && e.id in next.objects
            && ObjectSet(s.objects[e.id], next.objects[e.id], e, t, actor.device))
      && next.log == s.log + [p] && next.revision == p.revision == s.revision + 1
      && next == s.(members := next.members, links := next.links, transitions := next.transitions,
                    objects := next.objects, log := next.log, revision := next.revision)
  {
    var next := Applied(s, actor, p, t);
    AppliedMembers(s, actor, p, t);
    AppliedLinksSet(h, s, actor, p, t);
    AppliedTransition(h, s, actor, p, t);
    AppliedRows(s, actor, p, t);
    AppliedLog(s, actor, p, t);
    assert p.revision == s.revision + 1;
    assert next == s.(members := next.members, links := next.links, transitions := next.transitions,
                      objects := next.objects, log := next.log, revision := next.revision);
    forall e <- p.objects
      ensures e.id in s.objects && ObjectSet(s.objects[e.id], next.objects[e.id], e, t, actor.device)
    {
      AcceptedNames(h, s, actor, p, t, e);
      AcceptedEnvelopes(h, s, actor, p, t, e);
      EntryFound(p.objects, e);
      NextRowSet(s.objects[e.id], t, actor.device, e);
      hide Accepted, Applied, ObjectSet, NextRow, Entry, DistinctObjects, DistinctEnvelopes;
    }
    hide Accepted, Applied, ObjectSet, NextRow, Entry, MembersSet, LinksSet, TransitionSet;
  }

  lemma AcceptedEnvelopes(h: Codec, s: State, actor: Actor, p: Policy, t: Option<Transition>, e: PolicyObject)
    requires Accepted(h, s, actor, p, t) && e in p.objects
    ensures DistinctEnvelopes(e.envelopes)
  {
    hide ObjectError, TransitionShape, DistinctEnvelopes, DistinctObjects;
  }

  lemma AppliedMembers(s: State, actor: Actor, p: Policy, t: Option<Transition>)
    ensures MembersSet(s, Applied(s, actor, p, t), p, t)
  {
    hide NextObjects, NextLinks;
  }

  lemma AppliedLinksSet(h: Codec, s: State, actor: Actor, p: Policy, t: Option<Transition>)
    requires Accepted(h, s, actor, p, t)
    ensures LinksSet(s, Applied(s, actor, p, t), p)
  {
    forall o <- s.objects { AcceptedEntry(h, s, actor, p, t, o); }
    forall e <- p.objects ensures Entry(p.objects, e.id) == Some(e) && e.id in s.objects {
      AcceptedNames(h, s, actor, p, t, e);
      EntryFound(p.objects, e);
    }
    hide Accepted, NextObjects, NextMembers, Entry;
  }

  lemma AppliedTransition(h: Codec, s: State, actor: Actor, p: Policy, t: Option<Transition>)
    ensures TransitionSet(s, Applied(s, actor, p, t), t)
  {
    hide NextObjects, NextLinks, NextMembers;
  }

  lemma AppliedAccess(h: Codec, s: State, actor: Actor, p: Policy, t: Option<Transition>, e: PolicyObject)
    requires Accepted(h, s, actor, p, t) && e in p.objects
    ensures var next := Applied(s, actor, p, t);
      && MembersSet(s, next, p, t) && e.id in s.objects && e.id in next.objects
      && GrantsSet(s.objects[e.id], next.objects[e.id], e, t)
  {
    AppliedExactly(h, s, actor, p, t);
    hide Accepted, Applied, KeysAdded, CheckpointAdded, LinksSet, TransitionSet, MembersSet, GrantsSet;
  }

  lemma WritersFrom(s: State, next: State, p: Policy, t: Option<Transition>, e: PolicyObject, a: Id)
    requires MembersSet(s, next, p, t) && e.id in s.objects && e.id in next.objects
    requires GrantsSet(s.objects[e.id], next.objects[e.id], e, t)
    ensures Writer(next, a, e.id) <==>
      || (a in p.members && p.members[a] != Viewer)
      || (a in e.grants && e.grants[a] == GrantEditor)
  {
    hide Starts;
    assert a in next.members <==> a in p.members;
    assert a in next.objects[e.id].grants <==> a in e.grants;
  }

  /** After a policy exactly its members other than viewers, and its editors of the object,
      may push to the object. */
  lemma WritersAfter(h: Codec, s: State, actor: Actor, p: Policy, t: Option<Transition>, e: PolicyObject, a: Id)
    requires Accepted(h, s, actor, p, t) && e in p.objects
    ensures Writer(Applied(s, actor, p, t), a, e.id) <==>
      || (a in p.members && p.members[a] != Viewer)
      || (a in e.grants && e.grants[a] == GrantEditor)
  {
    AppliedAccess(h, s, actor, p, t, e);
    hide Accepted, Applied, MembersSet, GrantsSet, Writer;
    WritersFrom(s, Applied(s, actor, p, t), p, t, e, a);
  }
}
