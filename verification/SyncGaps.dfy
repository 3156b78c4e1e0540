/** Where the server keeps less than docs/workspace-format/checkpoints.md says, with the
    exact condition under which it does keep it. */
module SyncGaps {
  import opened Wrappers
  import opened SyncTypes
  import opened SyncRules
  import opened SyncRuns
  import opened SyncPolicies
  import opened SyncDocuments
  import opened SyncHistory

  // ----- checkpoint generations -----

  /** No two of an object's checkpoints in one table share a generation. */
  ghost predicate Distinct(table: map<nat, CheckpointRow>) {
    forall a, b | a in table && b in table && table[a].generation == table[b].generation :: a == b
  }

  /** No two of an object's checkpoints in either table share a generation. */
  ghost predicate NeverReused(target: Object) {
    && Distinct(target.checkpoints) && Distinct(target.activated)
    && forall a, b | a in target.checkpoints && b in target.activated ::
         target.checkpoints[a].generation != target.activated[b].generation
  }

  ghost predicate GenerationsDistinct(s: State) {
    forall o <- s.objects :: Distinct(s.objects[o].checkpoints)
  }

  /** What a policy does to one object's checkpoints. */
  lemma AppliedCheckpoint(h: Codec, s: State, actor: Actor, p: Policy, t: Option<Transition>, o: Id)
    requires Accepted(h, s, actor, p, t) && o in s.objects
    ensures var before, after := s.objects[o], Applied(s, actor, p, t).objects[o];
      var added := CheckpointFor(t, o);
      && after.activated == before.activated
      && (added.None? ==> after.checkpoints == before.checkpoints)
      && (added.Some? ==>
            && t.Some?
            && (forall e <- before.checkpoints :: before.checkpoints[e].generation != added.value.generation)
            && after.checkpoints == before.checkpoints[after.epoch :=
                 CheckpointRow(t.value.id, added.value.generation, added.value.covered, added.value)])
  {
    hide Accepted, Applied, ObjectError, Entry, NextGrants, NewKeys, FindCheckpoint;
    AcceptedEntry(h, s, actor, p, t, o);
    AppliedRows(s, actor, p, t);
    EntryPassed(s, p, t, Entry(p.objects, o).value);
  }

  /** A policy keeps an object's generations unused before exactly when the checkpoint it
      brings, if any, does not take the generation of the object's own activation. */
  lemma ReusedExactly(h: Codec, s: State, actor: Actor, p: Policy, t: Option<Transition>, o: Id)
    requires Accepted(h, s, actor, p, t) && CheckpointsKept(s) && o in s.objects && NeverReused(s.objects[o])
    ensures o in Applied(s, actor, p, t).objects
    ensures NeverReused(Applied(s, actor, p, t).objects[o]) <==>
      !(CheckpointFor(t, o).Some? && 1 in s.objects[o].activated
        && CheckpointFor(t, o).value.generation == s.objects[o].activated[1].generation)
  {
    hide Accepted, Applied, CheckpointFor, ActivationsPublished, NeverReused, NextRow, Entry;
    assert CheckpointsCurrent(s, o);
    AppliedRows(s, actor, p, t);
    AppliedCheckpoint(h, s, actor, p, t, o);
    var added, after := CheckpointFor(t, o), Applied(s, actor, p, t).objects[o];
    if added.Some? {
      var row := CheckpointRow(t.value.id, added.value.generation, added.value.covered, added.value);
      ReusedInTable(s.objects[o], after, after.epoch, row);
    } else {
      SameTables(s.objects[o], after);
    }
  }

  lemma SameTables(before: Object, after: Object)
    requires NeverReused(before) && after.checkpoints == before.checkpoints && after.activated == before.activated
    ensures NeverReused(after)
  {
  }

  lemma ReusedInTable(before: Object, after: Object, e: nat, row: CheckpointRow)
    requires NeverReused(before) && before.activated.Keys <= {1}
    requires after.checkpoints == before.checkpoints[e := row] && after.activated == before.activated
    requires forall c <- before.checkpoints :: before.checkpoints[c].generation != row.generation
    ensures NeverReused(after) <==> !(1 in before.activated && row.generation == before.activated[1].generation)
  {
    if NeverReused(after) && 1 in before.activated {
      assert e in after.checkpoints;
    }
  }

  lemma AccessKeepsGenerations(h: Codec, s: State, step: Step)
    requires GenerationsDistinct(s) && step.AccessSet?
    ensures GenerationsDistinct(Next(h, s, step))
  {
    hide Accepted, Applied, SetAccess, Next, CheckpointFor, NextRow, Entry;
    AccessIsNext(h, s, step);
    SetAccessOutcome(h, s, step.actor, step.policy, step.under, step.verified);
    if Accepted(h, s, step.actor, step.policy, step.under) {
      AppliedRows(s, step.actor, step.policy, step.under);
      forall o <- s.objects { AppliedCheckpoint(h, s, step.actor, step.policy, step.under, o); }
    }
  }

  lemma ActivationCheckpointsStay(h: Codec, s: State, actor: Actor, id: Id, verified: bool)
    requires CommitActivation(h, s, actor, id, verified).Ok?
    ensures var next := CommitActivation(h, s, actor, id, verified).value;
      forall o <- next.objects :: next.objects[o].checkpoints == if o in s.objects then s.objects[o].checkpoints else map[]
  {
    hide Active, NewKeys, ActivationShape, BlobStored, LogAt;
  }

  lemma ObjectCheckpointsStay(h: Codec, s: State, step: Step)
    ensures forall o <- NextObject(h, s, step).objects ::
      NextObject(h, s, step).objects[o].checkpoints == if o in s.objects then s.objects[o].checkpoints else map[]
  {
    hide StageActivation, CommitActivation, Active, HasRow, MayWrite, RecipientMatches;
    if step.ActivationCommitted? && CommitActivation(h, s, step.actor, step.id, step.verified).Ok? {
      ActivationCheckpointsStay(h, s, step.actor, step.id, step.verified);
    }
  }

  lemma CheckpointsStay(h: Codec, s: State, step: Step)
    requires !step.AccessSet?
    ensures forall o <- Next(h, s, step).objects ::
      Next(h, s, step).objects[o].checkpoints == if o in s.objects then s.objects[o].checkpoints else map[]
  {
    hide NextAccess, NextObject, NextContent;
    ObjectCheckpointsStay(h, s, step);
  }

  lemma NextKeepsGenerations(h: Codec, s: State, step: Step)
    requires GenerationsDistinct(s)
    ensures GenerationsDistinct(Next(h, s, step))
  {
    hide Next;
    if step.AccessSet? {
      AccessKeepsGenerations(h, s, step);
    } else {
      CheckpointsStay(h, s, step);
    }
  }

  lemma {:induction false} RunKeepsGenerations(h: Codec, s: State, steps: seq<Step>)
    requires GenerationsDistinct(s)
    ensures GenerationsDistinct(Run(h, s, steps))
  {
    hide Next;
    if steps != [] {
      RunKeepsGenerations(h, s, steps[..|steps| - 1]);
      NextKeepsGenerations(h, Run(h, s, steps[..|steps| - 1]), steps[|steps| - 1]);
    }
  }

  /** In every reachable state the checkpoints that transitions committed for one object
      have different generations. */
  lemma TransitionGenerationsDistinct(h: Codec, s: State)
    requires Reachable(h, s)
    ensures GenerationsDistinct(s)
  {
    hide Run;
    var id: Id, quota: nat, devices: map<Id, Device>, owner: Id, steps: seq<Step> :|
      s == Run(h, Created(id, quota, devices, owner), steps);
    RunKeepsGenerations(h, Created(id, quota, devices, owner), steps);
  }

  // ----- recipients between policies -----

  /** Storing one more envelope adds a recipient exactly when the object has no checkpoint
      from a transition; its activation's own checkpoint does not count. */
  lemma RecipientAddedExactly(s: State, actor: Actor, share: bool, k: OwnKey)
    requires Active(s, actor) && (share || k.device == actor.device) && k.signer == actor.device
    requires k.workspace == s.id && MayWrite(s, actor.account, k.objectId)
    requires k.objectId in s.objects && s.objects[k.objectId].epoch == k.epoch
    requires k.device in s.devices && !s.devices[k.device].revoked && HasRow(s, s.devices[k.device].account, k.objectId)
    requires RecipientMatches(s, Envelope(k.device, k.wrapped, k.signature, k.wrap))
    requires k.device !in s.objects[k.objectId].KeyDevices()
    ensures var next := Committed(s, StoreOwnKey(s, actor, share, k, true));
      k.objectId in next.objects
      && (k.device in next.objects[k.objectId].KeyDevices() <==> s.objects[k.objectId].checkpoints == map[])
  {
    hide Active, MayWrite, HasRow, RecipientMatches;
    var slot := Slot(k.epoch, k.device);
    assert slot !in s.objects[k.objectId].keys;
    if s.objects[k.objectId].checkpoints == map[] {
      var next := Committed(s, StoreOwnKey(s, actor, share, k, true));
      assert slot in next.objects[k.objectId].keys;
    }
  }
}
