/** What holds in every state a workspace can reach, and between any two of them. */
module SyncTheorems {
  import opened Wrappers
  import opened SyncTypes
  import opened SyncRules
  import opened SyncRuns
  import opened SyncPolicies
  import opened SyncKeys
  import opened SyncDocuments
  import opened SyncOperations
  import opened SyncChain
  import opened SyncQuota
  import opened SyncHistory
  import opened SyncReading

  ghost predicate Sound(h: Codec, s: State) {
    && KeysHeld(s) && DocumentsInForce(s) && CheckpointsKept(s) && Numbered(s) && EpochsOrdered(s)
    && StagedHonestly(h, s) && WithinQuota(s)
  }

  lemma CreatedSound(h: Codec, id: Id, quota: nat, devices: map<Id, Device>, owner: Id)
    ensures Sound(h, Created(id, quota, devices, owner))
  {
    var s := Created(id, quota, devices, owner);
    assert TransitionSizes(s.transitions) == map[] && ActivationSizes(s.activations) == map[]
      && LinkSizes(s.links) == map[] && BlobSizes(s.blobs) == map[];
  }

  lemma NextSound(h: Codec, s: State, step: Step)
    requires h.Injective() && Sound(h, s)
    ensures Sound(h, Next(h, s, step))
  {
    assert |s.log| == s.revision;
    hide Next, KeysHeld, DocumentsInForce, CheckpointsKept, Numbered, EpochsOrdered, StagedHonestly, WithinQuota;
    NextKeepsKeys(h, s, step);
    NextKeepsDocuments(h, s, step);
    NextKeepsLog(h, s, step);
    NextKeepsStaged(h, s, step);
    NextWithinQuota(h, s, step);
  }

  lemma {:induction false} RunSound(h: Codec, s: State, steps: seq<Step>)
    requires h.Injective() && Sound(h, s)
    ensures Sound(h, Run(h, s, steps))
  {
    hide Sound, Next;
    if steps != [] {
      RunSound(h, s, steps[..|steps| - 1]);
      NextSound(h, Run(h, s, steps[..|steps| - 1]), steps[|steps| - 1]);
    }
  }

  /** Every reachable state is sound. */
  lemma ReachableSound(h: Codec, s: State)
    requires h.Injective() && Reachable(h, s)
    ensures Sound(h, s)
  {
    hide Sound, Run, Created;
    var id: Id, quota: nat, devices: map<Id, Device>, owner: Id, steps: seq<Step> :|
      s == Run(h, Created(id, quota, devices, owner), steps);
    CreatedSound(h, id, quota, devices, owner);
    RunSound(h, Created(id, quota, devices, owner), steps);
  }

  // ----- keys -----

  /** In every reachable state a current-epoch envelope belongs to a device of an account
      with a row on its object, and no envelope is ahead of its object. Whenever a policy
      is applied, the current-epoch recipients are exactly the entitled devices. */
  lemma KeysFollowAccess(h: Codec, s: State, o: Id)
    requires h.Injective() && Reachable(h, s) && o in s.objects
    ensures forall slot <- s.objects[o].keys ::
      && slot.device in s.devices && slot.epoch <= s.objects[o].epoch
      && (slot.epoch == s.objects[o].epoch ==> HasRow(s, s.devices[slot.device].account, o))
    ensures forall actor, p, t | Accepted(h, s, actor, p, t) ::
      o in Applied(s, actor, p, t).objects
      && Applied(s, actor, p, t).objects[o].KeyDevices() == EntitledDevices(Applied(s, actor, p, t), o)
  {
    ReachableSound(h, s);
    hide Accepted, Applied, DocumentsInForce, CheckpointsKept, Numbered, EpochsOrdered, StagedHonestly, WithinQuota;
    forall actor, p, t | Accepted(h, s, actor, p, t)
      ensures o in Applied(s, actor, p, t).objects
      ensures Applied(s, actor, p, t).objects[o].KeyDevices() == EntitledDevices(Applied(s, actor, p, t), o)
    {
      AppliedRows(s, actor, p, t);
      AppliedKeysExact(h, s, actor, p, t, o);
    }
  }

  // ----- checkpoints and operations -----

  /** In every reachable state an object that a committed activation created has exactly
      one checkpoint for its current epoch; so does any object that ever got one, and any
      other object has none. */
  lemma CheckpointsFollowEpochs(h: Codec, s: State, o: Id)
    requires h.Injective() && Reachable(h, s) && o in s.objects
    ensures (exists a <- s.activations :: s.activations[a].committed && s.activations[a].body.Object() == o)
      ==> CurrentCheckpoints(s.objects[o]) == 1
    ensures CurrentCheckpoints(s.objects[o]) ==
      if s.objects[o].Enrolled() || s.objects[o].activated != map[] then 1 else 0
  {
    ReachableSound(h, s);
    OneCurrentCheckpoint(s, o);
  }

  /** In every reachable state sequences are 1 to the workspace's, one object's epochs never
      fall along them, and one epoch of it has one generation. */
  lemma OperationsOrdered(h: Codec, s: State)
    requires h.Injective() && Reachable(h, s)
    ensures |s.ops| == s.sequence && forall k | 0 <= k < |s.ops| :: s.ops[k].sequence == k + 1
    ensures forall i, j | 0 <= i < j < |s.ops| && s.ops[i].op.objectId == s.ops[j].op.objectId ::
      && s.ops[i].op.epoch <= s.ops[j].op.epoch
      && (s.ops[i].op.epoch == s.ops[j].op.epoch ==> s.ops[i].op.Generation() == s.ops[j].op.Generation())
  {
    ReachableSound(h, s);
    hide KeysHeld, DocumentsInForce, CheckpointsKept, StagedHonestly, WithinQuota;
  }

  /** In every reachable state the bytes in use are the bytes stored, within the quota. */
  lemma QuotaKept(h: Codec, s: State)
    requires h.Injective() && Reachable(h, s)
    ensures 0 <= s.used == Stored(s) <= s.quota
  {
    ReachableSound(h, s);
    hide Stored, KeysHeld, DocumentsInForce, CheckpointsKept, StagedHonestly, Numbered, EpochsOrdered;
  }

  // ----- the policy log and staging -----

  /** In every reachable state the policy log is a digest chain over revisions 1 to the
      workspace's, and a committed transition's policy is the one at its revision, which no
      other committed transition has. */
  lemma LogChained(h: Codec, s: State)
    requires h.Injective() && Reachable(h, s)
    ensures |s.log| == s.revision && Chain(h, s.log)
    ensures forall a, b | a in s.transitions && b in s.transitions
                          && s.transitions[a].committed && s.transitions[b].committed
                          && s.transitions[a].body.policy.revision == s.transitions[b].body.policy.revision :: a == b
  {
    ReachableSound(h, s);
    hide KeysHeld, DocumentsInForce, CheckpointsKept, Numbered, EpochsOrdered, WithinQuota;
  }

  /** From the step that stages a transition to the step that commits it, no operation was
      sequenced and no policy applied. */
  lemma TransitionWindow(h: Codec, s: State, stage: Step, steps: seq<Step>, commit: Step, id: Id)
    requires h.Injective() && Reachable(h, s)
    requires id !in s.transitions && id in Next(h, s, stage).transitions
    requires var ready := Run(h, Next(h, s, stage), steps);
      id in ready.transitions && !ready.transitions[id].committed
      && id in Next(h, ready, commit).transitions && Next(h, ready, commit).transitions[id].committed
    ensures var ready := Run(h, Next(h, s, stage), steps); ready.ops == s.ops && ready.log == s.log
  {
    hide Next, Sound;
    ReachableSound(h, s);
    NextSound(h, s, stage);
    var staged := Next(h, s, stage);
    RunSound(h, staged, steps);
    var ready := Run(h, staged, steps);
    SoundCounts(h, s);
    SoundCounts(h, ready);
    TransitionBoundary(h, s, stage, id);
    TransitionBoundary(h, ready, commit, id);
    TransitionKept(h, ready, commit, id);
    NextGrows(h, s, stage);
    RunGrows(h, staged, steps);
    assert ready.ops[..|s.ops|] == s.ops && ready.log[..|s.log|] == s.log;
  }

  /** The same for an object activation. */
  lemma ActivationWindow(h: Codec, s: State, stage: Step, steps: seq<Step>, commit: Step, id: Id)
    requires h.Injective() && Reachable(h, s)
    requires id !in s.activations && id in Next(h, s, stage).activations
    requires var ready := Run(h, Next(h, s, stage), steps);
      id in ready.activations && !ready.activations[id].committed
      && id in Next(h, ready, commit).activations && Next(h, ready, commit).activations[id].committed
    ensures var ready := Run(h, Next(h, s, stage), steps); ready.ops == s.ops && ready.log == s.log
  {
    hide Next, Sound;
    ReachableSound(h, s);
    NextSound(h, s, stage);
    var staged := Next(h, s, stage);
    RunSound(h, staged, steps);
    var ready := Run(h, staged, steps);
    SoundCounts(h, s);
    SoundCounts(h, ready);
    ActivationBoundary(h, s, stage, id);
    ActivationBoundary(h, ready, commit, id);
    ActivationKept(h, ready, commit, id);
    NextGrows(h, s, stage);
    RunGrows(h, staged, steps);
    assert ready.ops[..|s.ops|] == s.ops && ready.log[..|s.log|] == s.log;
  }

  lemma SoundCounts(h: Codec, s: State)
    requires Sound(h, s)
    ensures Numbered(s) && EpochsOrdered(s) && StagedHonestly(h, s) && DocumentsInForce(s) && CheckpointsKept(s)
    ensures |s.ops| == s.sequence && |s.log| == s.revision
  {
    hide KeysHeld, DocumentsInForce, CheckpointsKept, EpochsOrdered, WithinQuota, Chain;
  }

  // ----- pushing again -----

  /** An accepted batch pushed again, whatever happened since, answers the same sequences
      and changes nothing, while the device may still write to its objects. */
  lemma PushedAgain(h: Codec, s: State, actor: Actor, ops: seq<Operation>, signed: Operation -> bool, steps: seq<Step>)
    requires h.Injective() && Reachable(h, s) && Push(h, s, actor, ops, signed).Ok?
    requires var later := Run(h, Push(h, s, actor, ops, signed).value.0, steps);
      Active(later, actor) && forall op <- ops :: op.objectId in later.objects && MayWrite(later, actor.account, op.objectId)
    ensures var first := Push(h, s, actor, ops, signed).value;
      var later := Run(h, first.0, steps);
      Push(h, later, actor, ops, signed) == Ok((later, first.1))
  {
    hide Sound, Run, Active, MayWrite, Recorded, Numbered, EpochsOrdered, StagedHonestly, DocumentsInForce, CheckpointsKept;
    var first := Push(h, s, actor, ops, signed).value;
    var later := Run(h, first.0, steps);
    assert first.0 == Next(h, s, Pushed(actor, ops, signed));
    hide Next, Push, Screen;
    ReachableSound(h, s);
    NextSound(h, s, Pushed(actor, ops, signed));
    RunSound(h, first.0, steps);
    SoundCounts(h, s);
    SoundCounts(h, later);
    RunGrows(h, first.0, steps);
    RunKeepsID(h, first.0, steps);
    PushRecords(h, s, actor, ops, signed);
    ScreenReadsWorkspace(s, later, actor, ops, signed);
    forall i | 0 <= i < |ops| ensures Recorded(h, later.ops, ops[i], first.1[i]) {
      RecordedStays(h, first.0.ops, later.ops, ops[i], first.1[i]);
    }
    RecordedBatch(h, later, actor, ops, signed, first.1);
  }

  lemma RecordedStays(h: Codec, rows: seq<OpRow>, more: seq<OpRow>, op: Operation, sequence: nat)
    requires rows <= more && Recorded(h, rows, op, sequence)
    ensures Recorded(h, more, op, sequence)
  {
  }

  lemma PushRecords(h: Codec, s: State, actor: Actor, ops: seq<Operation>, signed: Operation -> bool)
    requires Numbered(s) && EpochsOrdered(s) && Push(h, s, actor, ops, signed).Ok?
    ensures var done := Push(h, s, actor, ops, signed).value;
      && Screen(s, actor, ops, signed).None? && |done.1| == |ops|
      && forall i | 0 <= i < |ops| :: Recorded(h, done.0.ops, ops[i], done.1[i])
  {
    hide PushAll, Screen, Numbered, EpochsOrdered, Active;
    PushAllRecords(h, s, actor, ops);
  }

  lemma {:induction false} RunKeepsID(h: Codec, s: State, steps: seq<Step>)
    ensures Run(h, s, steps).id == s.id
  {
    hide NextAccess, NextObject, NextContent;
    if steps != [] { RunKeepsID(h, s, steps[..|steps| - 1]); }
  }

  // ----- reading -----

  /** The reader's rows and device as they are at each of its pulls. */
  ghost predicate ReaderSteady(h: Codec, s: State, actor: Actor, rounds: seq<seq<Step>>) {
    forall k | 0 <= k <= |rounds| ::
      var now := Run(h, s, Concat(rounds[..k]));
      Active(now, actor) && SameView(s, now, actor.account)
  }

  lemma SteadyPrefix(h: Codec, s: State, actor: Actor, rounds: seq<seq<Step>>)
    requires rounds != [] && ReaderSteady(h, s, actor, rounds)
    ensures ReaderSteady(h, s, actor, rounds[..|rounds| - 1])
    ensures Active(Run(h, s, Concat(rounds)), actor) && SameView(s, Run(h, s, Concat(rounds)), actor.account)
  {
    hide Active, Run, Concat, SameView;
    var n := |rounds| - 1;
    forall k | 0 <= k <= n ensures rounds[..n][..k] == rounds[..k] {}
    assert rounds[..n + 1] == rounds;
  }

  lemma SameViewReads(s: State, now: State, actor: Actor)
    requires SameView(s, now, actor.account) && CanRead(s, actor.account)
    ensures CanRead(now, actor.account)
  {
    if actor.account !in s.members {
      var o :| o in s.objects && actor.account in s.objects[o].grants;
      assert Granted(s, actor.account, o) == Granted(now, actor.account, o);
    }
  }

  /** A reader whose rows stay fixed and who follows the cursors it is given, through any
      steps of the server, always gets a page, and has received exactly the visible
      operations from its first cursor to its last, each once and in order. */
  lemma {:induction false} FollowExact(h: Codec, s: State, actor: Actor, start: nat, rounds: seq<seq<Step>>)
    requires h.Injective() && Sound(h, s) && start <= s.sequence && CanRead(s, actor.account)
    requires ReaderSteady(h, s, actor, rounds)
    ensures var session := Follow(h, s, actor, start, rounds);
      && session.Ok?
      && session.value.state == Run(h, s, Concat(rounds))
      && start <= session.value.cursor <= session.value.state.sequence
      && |session.value.state.ops| == session.value.state.sequence
      && session.value.received ==
           Readable(s, actor.account, session.value.state.ops[..session.value.cursor], start)
  {
    hide Next, Sound, Active, Visible, Readable, Pull, SameView, CanRead;
    SoundCounts(h, s);
    if rounds == [] {
      ReadNothing(s, actor.account, start);
    } else {
      var n := |rounds| - 1;
      SteadyPrefix(h, s, actor, rounds);
      FollowExact(h, s, actor, start, rounds[..n]);
      var before := Follow(h, s, actor, start, rounds[..n]).value;
      RunSplits(h, s, Concat(rounds[..n]), rounds[n]);
      var now := Run(h, before.state, rounds[n]);
      RunSound(h, s, Concat(rounds));
      SoundCounts(h, now);
      RunGrows(h, before.state, rounds[n]);
      SameViewReads(s, now, actor);
      PageExact(now, actor, before.cursor);
      var page := Pull(now, actor, before.cursor).value;
      FollowOn(s, now, actor.account, before.state.ops, start, before.cursor, page.cursor);
    }
  }

  /** A reader that keeps pulling while nothing else happens reaches the workspace's last
      sequence: 100 operations a page, and one pull more. */
  lemma {:induction false} CatchesUp(h: Codec, s: State, actor: Actor, start: nat, rounds: seq<seq<Step>>)
    requires h.Injective() && Sound(h, s) && start <= s.sequence && CanRead(s, actor.account) && Active(s, actor)
    requires forall round <- rounds :: round == []
    ensures var session := Follow(h, s, actor, start, rounds);
      && session.Ok? && session.value.state == s && start <= session.value.cursor <= s.sequence
      && (session.value.cursor == s.sequence
          || |Readable(s, actor.account, s.ops, start)| ==
               PAGE * |rounds| + |Readable(s, actor.account, s.ops, session.value.cursor)|)
      && (rounds != [] && |Readable(s, actor.account, s.ops, start)| <= PAGE * |rounds| ==> session.value.cursor == s.sequence)
  {
    hide Sound, Active, Readable, Pull, CanRead;
    SoundCounts(h, s);
    if rounds != [] {
      var n := |rounds| - 1;
      assert rounds[n] in rounds && forall round <- rounds[..n] :: round in rounds;
      CatchesUp(h, s, actor, start, rounds[..n]);
      assert Run(h, s, []) == s;
      PageLeaves(s, actor, Follow(h, s, actor, start, rounds[..n]).value.cursor);
    }
  }

  lemma ReadNothing(s: State, a: Id, start: nat)
    requires Numbered(s) && start <= s.sequence
    ensures Readable(s, a, s.ops[..start], start) == []
  {
    NothingAfter(s, a, s.ops[..start], start);
  }

  lemma FollowOn(s: State, now: State, a: Id, before: seq<OpRow>, start: nat, middle: nat, end: nat)
    requires Numbered(now) && before <= now.ops && SameView(s, now, a)
    requires start <= middle <= end <= |now.ops| && middle <= |before|
    ensures Readable(s, a, before[..middle], start) + Readable(now, a, now.ops[..end], middle)
         == Readable(s, a, now.ops[..end], start)
  {
    hide SameView, Readable, Visible;
    SameReadable(s, now, a, now.ops[..end], middle);
    ReadableSplits(s, a, now.ops[..end], start, middle);
    assert before[..middle] == now.ops[..end][..middle];
  }

  // ----- history -----

  ghost predicate GainsOnlyWithTransition(h: Codec, s: State, a: Id, steps: seq<Step>) {
    forall i | 0 <= i < |steps| ::
      var before := Run(h, s, steps[..i]);
      GainsRow(before, Next(h, before, steps[i]), a) ==> steps[i].AccessSet? && steps[i].under.Some?
  }

  /** A floor holds through any run in which no policy without a transition gives the
      account another row. */
  lemma {:induction false} FloorHolds(h: Codec, s: State, a: Id, n: nat, steps: seq<Step>)
    requires h.Injective() && Sound(h, s)
    requires Floor(s, a, n) && n <= s.sequence && GainsOnlyWithTransition(h, s, a, steps)
    ensures Floor(Run(h, s, steps), a, n) && n <= Run(h, s, steps).sequence
  {
    hide Next, Sound, GainsRow, Floor;
    if steps != [] {
      var k := |steps| - 1;
      forall i | 0 <= i <= k ensures steps[..k][..i] == steps[..i] {}
      FloorHolds(h, s, a, n, steps[..k]);
      var before := Run(h, s, steps[..k]);
      RunSound(h, s, steps[..k]);
      RunSound(h, s, steps);
      SoundCounts(h, before);
      SoundCounts(h, Run(h, s, steps));
      NextGrows(h, before, steps[k]);
      FloorStep(h, before, steps[k], a, n);
    }
  }

  /** With a capability, an account with no row before a policy reads, in every later state
      of such a run, only operations sequenced after that policy. */
  lemma NewReaderReadsOnward(h: Codec, s: State, access: Step, a: Id, steps: seq<Step>, rows: seq<OpRow>, after: nat)
    requires h.Injective() && Reachable(h, s) && s.capability.Some? && NoRow(s, a) && access.AccessSet?
    requires GainsOnlyWithTransition(h, Next(h, s, access), a, steps)
    ensures forall row <- Readable(Run(h, Next(h, s, access), steps), a, rows, after) :: row.sequence > s.sequence
  {
    hide Accepted, Applied, Sound, Run, Next;
    ReachableSound(h, s);
    SoundCounts(h, s);
    NextSound(h, s, access);
    FirstPolicyFloor(h, s, access, a);
    FloorHolds(h, Next(h, s, access), a, s.sequence, steps);
    FloorHides(Run(h, Next(h, s, access), steps), a, s.sequence, rows, after);
  }

  lemma FirstPolicyFloor(h: Codec, s: State, access: Step, a: Id)
    requires Numbered(s) && s.capability.Some? && NoRow(s, a) && access.AccessSet?
    ensures Floor(Next(h, s, access), a, s.sequence) && Next(h, s, access).sequence == s.sequence
  {
    assert Next(h, s, access) == NextAccess(h, s, access);
    RowsMoveByPolicy(h, s, access);
    hide Accepted, Applied, Numbered, Next, NextAccess;
    if Accepted(h, s, access.actor, access.policy, access.under) {
      NewReaderBound(h, s, access.actor, access.policy, access.under, a);
    }
  }
}
