/** Documents, checkpoints and the epochs of operations. */
module SyncDocuments {
  import opened Wrappers
  import opened SyncTypes
  import opened SyncRules
  import opened SyncRuns
  import opened SyncPolicies

  predicate InForce(s: State, version: nat) {
    Latest(s).Some? && Latest(s).value.version == version
  }

  /** The latest policy's entry for an object, when it has one. */
  function EntryInForce(s: State, o: Id): Option<PolicyObject> {
    if Latest(s).None? then None else Entry(Latest(s).value.objects, o)
  }

  /** The policy in force names only objects that exist. An object's document is the one
      that policy gives it, and no object has a document before a version 2 policy. */
  ghost predicate DocumentsInForce(s: State) {
    && (Latest(s).Some? ==>
          Latest(s).value.version in {1, 2} && forall e <- Latest(s).value.objects :: e.id in s.objects)
    && (forall o <- s.objects ::
          && (EntryInForce(s, o).Some? ==> EntryInForce(s, o).value.document == s.objects[o].document)
          && (!InForce(s, 2) ==> s.objects[o].document.None?))
  }

  /** One object's checkpoints. An object once enrolled has a checkpoint for its epoch. An
      activated object has its activation's until the first policy that covers it, and is
      enrolled from then on. */
  ghost predicate CheckpointsCurrent(s: State, o: Id)
    requires o in s.objects
  {
    var target := s.objects[o];
    && target.epoch >= 1
    && (forall e <- target.checkpoints :: 2 <= e <= target.epoch)
    && (target.Enrolled() ==> target.epoch in target.checkpoints)
    && target.activated.Keys <= {1}
    && (target.activated != map[] && !target.Enrolled() ==>
          target.epoch == 1 && InForce(s, 2) && EntryInForce(s, o).None?)
  }

  /** Each committed activation published its object, and no other activation did. */
  ghost predicate ActivationsPublished(s: State) {
    && (forall a <- s.activations | s.activations[a].committed ::
          var o := s.activations[a].body.Object();
          o in s.objects && 1 in s.objects[o].activated && s.objects[o].activated[1].source == a)
    && (forall o <- s.objects | 1 in s.objects[o].activated ::
          var a := s.objects[o].activated[1].source;
          a in s.activations && s.activations[a].committed && s.activations[a].body.Object() == o)
    && (forall a <- s.activations :: s.activations[a].body.id == a)
  }

  ghost predicate CheckpointsKept(s: State) {
    && (forall o <- s.objects :: CheckpointsCurrent(s, o))
    && ActivationsPublished(s)
  }

  /** How many checkpoints the two tables hold for an object's current epoch. */
  function CurrentCheckpoints(target: Object): nat {
    (if target.epoch in target.checkpoints then 1 else 0) + (if target.epoch in target.activated then 1 else 0)
  }

  /** An object with any checkpoint has exactly one for its current epoch; any other has none. */
  lemma OneCurrentCheckpoint(s: State, o: Id)
    requires CheckpointsKept(s) && o in s.objects
    ensures CurrentCheckpoints(s.objects[o]) ==
      if s.objects[o].Enrolled() || s.objects[o].activated != map[] then 1 else 0
    ensures (exists a <- s.activations :: s.activations[a].committed && s.activations[a].body.Object() == o) ==>
      CurrentCheckpoints(s.objects[o]) == 1
  {
    var target := s.objects[o];
    assert CheckpointsCurrent(s, o);
    if target.activated != map[] {
      var e :| e in target.activated;
      assert e == 1;
    }
  }

  /** What a policy leaves of one object: a document that changes, or a checkpoint that
      arrives, moves the epoch. */
  lemma AppliedDocument(h: Codec, s: State, actor: Actor, p: Policy, t: Option<Transition>, o: Id)
    requires DocumentsInForce(s) && Accepted(h, s, actor, p, t) && o in s.objects
    ensures var before, after := s.objects[o], Applied(s, actor, p, t).objects[o];
      && before.epoch <= after.epoch <= before.epoch + 1
      && (after.epoch == before.epoch ==> after.document == before.document && after.checkpoints == before.checkpoints)
      && (after.epoch != before.epoch && (t.Some? || before.Enrolled()) ==> after.epoch in after.checkpoints)
      && (forall e <- after.checkpoints :: e in before.checkpoints || e == after.epoch != before.epoch)
      && before.checkpoints.Keys <= after.checkpoints.Keys
      && (EntryInForce(s, o).None? && p.version == 2 ==> after.epoch in after.checkpoints)
      && after.activated == before.activated
      && (p.version == 2 <==> after.document.Some?)
      && after.document == Entry(p.objects, o).value.document
  {
    hide Accepted, Applied, ObjectError, Entry, NextGrants, NewKeys, CheckpointFor;
    AcceptedEntry(h, s, actor, p, t, o);
    AppliedRows(s, actor, p, t);
    var next := Entry(p.objects, o).value;
    EntryPassed(s, p, t, next);
    AcceptedVersion(h, s, actor, p, t);
    assert EntryInForce(s, o).Some? ==> PriorDocument(s, o) == s.objects[o].document;
    assert EntryInForce(s, o).None? ==> PriorDocument(s, o) == None;
  }

  lemma AcceptedVersion(h: Codec, s: State, actor: Actor, p: Policy, t: Option<Transition>)
    requires Accepted(h, s, actor, p, t)
    ensures p.version in {1, 2} && (InForce(s, 2) ==> p.version == 2)
    ensures Latest(Applied(s, actor, p, t)) == Some(p)
    ensures forall e <- p.objects :: e.id in s.objects
  {
    hide ObjectError, TransitionShape, NextObjects, NextMembers, NextLinks;
  }

  lemma AppliedKeepsDocuments(h: Codec, s: State, actor: Actor, p: Policy, t: Option<Transition>)
    requires DocumentsInForce(s) && Accepted(h, s, actor, p, t)
    ensures DocumentsInForce(Applied(s, actor, p, t))
  {
    hide Accepted, Applied, NextRow, Entry;
    AppliedRows(s, actor, p, t);
    AcceptedVersion(h, s, actor, p, t);
    forall o <- s.objects { AppliedDocument(h, s, actor, p, t, o); }
  }

  lemma AppliedCheckpointsCurrent(h: Codec, s: State, actor: Actor, p: Policy, t: Option<Transition>, o: Id)
    requires DocumentsInForce(s) && Accepted(h, s, actor, p, t) && o in s.objects && CheckpointsCurrent(s, o)
    ensures o in Applied(s, actor, p, t).objects && CheckpointsCurrent(Applied(s, actor, p, t), o)
  {
    hide Accepted, Applied, NextRow, Entry;
    AppliedRows(s, actor, p, t);
    AcceptedVersion(h, s, actor, p, t);
    AppliedDocument(h, s, actor, p, t, o);
    var after := Applied(s, actor, p, t).objects[o];
    if after.Enrolled() {
      var e :| e in after.checkpoints;
    }
  }

  lemma AppliedKeepsPublished(h: Codec, s: State, actor: Actor, p: Policy, t: Option<Transition>)
    requires ActivationsPublished(s) && Accepted(h, s, actor, p, t)
    ensures ActivationsPublished(Applied(s, actor, p, t))
  {
    hide Accepted, Entry, NextGrants, NewKeys, NextObjects, NextMembers, NextLinks;
    AppliedRows(s, actor, p, t);
    assert forall o <- s.objects :: Applied(s, actor, p, t).objects[o].activated == s.objects[o].activated;
  }

  lemma SetAccessKeepsDocuments(h: Codec, s: State, actor: Actor, p: Policy, t: Option<Transition>, verified: bool)
    requires DocumentsInForce(s) && CheckpointsKept(s)
    ensures var next := Committed(s, SetAccess(h, s, actor, p, t, verified));
      DocumentsInForce(next) && CheckpointsKept(next)
  {
    hide Plan, Applied, Accepted, DocumentsInForce, CheckpointsCurrent, ActivationsPublished;
    if Plan(h, s, actor, p, t, verified) == Apply {
      PlanAccepts(h, s, actor, p, t, verified);
      AppliedKeepsDocuments(h, s, actor, p, t);
      AppliedKeepsPublished(h, s, actor, p, t);
      AppliedRows(s, actor, p, t);
      forall o <- s.objects { AppliedCheckpointsCurrent(h, s, actor, p, t, o); }
    }
  }

  /** The same objects, down to what the invariants read of them. */
  ghost predicate Alike(s: State, next: State) {
    && next.log == s.log && next.objects.Keys == s.objects.Keys
    && forall o <- s.objects ::
         var a, b := s.objects[o], next.objects[o];
         a.epoch == b.epoch && a.document == b.document && a.checkpoints == b.checkpoints && a.activated == b.activated
  }

  lemma DocumentsFrame(s: State, next: State)
    requires DocumentsInForce(s) && Alike(s, next)
    ensures DocumentsInForce(next)
    ensures (forall o <- s.objects :: CheckpointsCurrent(s, o)) ==> forall o <- next.objects :: CheckpointsCurrent(next, o)
    ensures ActivationsPublished(s) && next.activations == s.activations ==> ActivationsPublished(next)
  {
    hide Entry;
    forall o <- s.objects ensures CheckpointsCurrent(s, o) ==> CheckpointsCurrent(next, o) {}
  }

  lemma AccessKeepsDocuments(h: Codec, s: State, step: Step)
    requires DocumentsInForce(s) && CheckpointsKept(s)
    ensures DocumentsInForce(NextAccess(h, s, step)) && CheckpointsKept(NextAccess(h, s, step))
  {
    hide DocumentsInForce, CheckpointsCurrent, ActivationsPublished;
    if step.AccessSet? {
      hide SetAccess;
      SetAccessKeepsDocuments(h, s, step.actor, step.policy, step.under, step.verified);
    } else {
      hide NextAccess;
      DocumentsFrame(s, NextAccess(h, s, step));
    }
  }

  // ----- the transactions on objects -----

  /** A new object the policy in force doesn't name. */
  lemma ObjectAdded(s: State, next: State, o: Id, target: Object)
    requires DocumentsInForce(s) && o !in s.objects
    requires next.objects == s.objects[o := target] && next.log == s.log
    requires target.epoch == 1 && target.checkpoints == map[] && target.activated.Keys <= {1}
    requires if InForce(s, 2) then true else target.document.None? && target.activated == map[]
    ensures DocumentsInForce(next)
    ensures forall id <- s.objects | CheckpointsCurrent(s, id) :: CheckpointsCurrent(next, id)
    ensures CheckpointsCurrent(next, o)
  {
    assert EntryInForce(s, o).None?;
    assert forall id :: EntryInForce(next, id) == EntryInForce(s, id);
  }

  lemma CreateKeepsDocuments(s: State, actor: Actor, id: Id)
    requires DocumentsInForce(s) && CheckpointsKept(s)
    ensures var next := CommittedWith(s, CreateObject(s, actor, id));
      DocumentsInForce(next) && CheckpointsKept(next)
  {
    hide DocumentsInForce, CheckpointsCurrent, HasRow, Writes, Active;
    var next := CommittedWith(s, CreateObject(s, actor, id));
    if id !in s.objects && next != s {
      ObjectAdded(s, next, id, next.objects[id]);
    }
  }

  lemma StoreKeepsDocuments(s: State, actor: Actor, share: bool, k: OwnKey, verified: bool)
    requires DocumentsInForce(s) && CheckpointsKept(s)
    ensures var next := Committed(s, StoreOwnKey(s, actor, share, k, verified));
      DocumentsInForce(next) && CheckpointsKept(next)
  {
    hide DocumentsInForce, ActivationsPublished, CheckpointsCurrent, HasRow, MayWrite, Active, RecipientMatches;
    DocumentsFrame(s, Committed(s, StoreOwnKey(s, actor, share, k, verified)));
  }

  lemma CommitKeepsDocuments(h: Codec, s: State, actor: Actor, id: Id, verified: bool)
    requires DocumentsInForce(s) && CheckpointsKept(s) && |s.log| == s.revision
    requires CommitActivation(h, s, actor, id, verified).Ok?
    ensures var next := CommitActivation(h, s, actor, id, verified).value;
      DocumentsInForce(next) && CheckpointsKept(next)
  {
    CommitOutcome(h, s, actor, id, verified);
    hide DocumentsInForce, CheckpointsCurrent, CommitActivation, Activated;
    var next := CommitActivation(h, s, actor, id, verified).value;
    if next != s {
      var a := s.activations[id].body;
      ActivatedRow(a, actor.device);
      ObjectAdded(s, next, a.Object(), Activated(a, actor.device));
      PublishedOne(s, id, Activated(a, actor.device));
    }
  }

  /** What committing an activation leaves, and what let it commit. */
  lemma CommitOutcome(h: Codec, s: State, actor: Actor, id: Id, verified: bool)
    requires CommitActivation(h, s, actor, id, verified).Ok? && |s.log| == s.revision
    ensures var next := CommitActivation(h, s, actor, id, verified).value;
      next != s ==>
        && id in s.activations && !s.activations[id].committed && InForce(s, 2)
        && s.activations[id].body.Object() !in s.objects
        && next == s.(objects := s.objects[s.activations[id].body.Object() := Activated(s.activations[id].body, actor.device)],
                      activations := s.activations[id := s.activations[id].(committed := true)])
  {
    hide HasRow, Active, RecipientMatches, Activated, ActivationShape, BlobStored, ActiveDevices, EnvelopeDevices;
  }

  lemma ActivatedRow(a: Activation, signer: Id)
    ensures var target := Activated(a, signer);
      && target.epoch == 1 && target.checkpoints == map[] && target.activated.Keys == {1}
      && target.activated[1].source == a.id
  {
    hide NewKeys;
  }

  lemma PublishedOne(s: State, id: Id, target: Object)
    requires ActivationsPublished(s) && id in s.activations && !s.activations[id].committed
    requires s.activations[id].body.Object() !in s.objects
    requires target.activated.Keys == {1} && target.activated[1].source == s.activations[id].body.id
    ensures ActivationsPublished(s.(
      objects := s.objects[s.activations[id].body.Object() := target],
      activations := s.activations[id := s.activations[id].(committed := true)]))
  {
  }

  lemma StageKeepsDocuments(h: Codec, s: State, actor: Actor, a: Activation, verified: bool)
    requires DocumentsInForce(s) && CheckpointsKept(s)
    ensures var next := Committed(s, StageActivation(h, s, actor, a, verified));
      DocumentsInForce(next) && CheckpointsKept(next)
  {
    hide DocumentsInForce, CheckpointsCurrent, ActivationError, ActivationShape, Active;
    DocumentsFrame(s, Committed(s, StageActivation(h, s, actor, a, verified)));
  }

  lemma ObjectsKeepDocuments(h: Codec, s: State, step: Step)
    requires DocumentsInForce(s) && CheckpointsKept(s) && |s.log| == s.revision
    ensures DocumentsInForce(NextObject(h, s, step)) && CheckpointsKept(NextObject(h, s, step))
  {
    hide DocumentsInForce, CheckpointsKept, CreateObject, StoreOwnKey, StageActivation, CommitActivation;
    match step
    case Create(actor, id) => CreateKeepsDocuments(s, actor, id);
    case KeyStored(actor, share, k, verified) => StoreKeepsDocuments(s, actor, share, k, verified);
    case ActivationStaged(actor, a, verified) => StageKeepsDocuments(h, s, actor, a, verified);
    case ActivationCommitted(actor, id, verified) =>
      if CommitActivation(h, s, actor, id, verified).Ok? { CommitKeepsDocuments(h, s, actor, id, verified); }
    case _ =>
  }

  lemma NextKeepsDocuments(h: Codec, s: State, step: Step)
    requires DocumentsInForce(s) && CheckpointsKept(s) && |s.log| == s.revision
    ensures DocumentsInForce(Next(h, s, step)) && CheckpointsKept(Next(h, s, step))
  {
    hide DocumentsInForce, CheckpointsCurrent, ActivationsPublished, NextAccess, NextObject, NextContent;
    AccessKeepsDocuments(h, s, step);
    ObjectsKeepDocuments(h, s, step);
    DocumentsFrame(s, NextContent(h, s, step));
  }
}
