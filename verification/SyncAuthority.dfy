/** Who could have changed what. */
module SyncAuthority {
  import opened Wrappers
  import opened SyncTypes
  import opened SyncRules
  import opened SyncRuns
  import opened SyncPolicies
  import opened SyncHistory
  import opened SyncOperations

  function Roles(members: map<Id, MemberRow>): map<Id, Role> { map a | a in members :: members[a].role }

  ghost predicate HasOwner(s: State) { exists a <- s.members :: s.members[a].role == Owner }

  /** What a policy's signer was when it was applied. */
  lemma AppliedBy(h: Codec, s: State, actor: Actor, p: Policy, t: Option<Transition>, verified: bool)
    requires Plan(h, s, actor, p, t, verified) == Apply
    ensures verified && p.device == actor.device && p.workspace == s.id && Active(s, actor)
    ensures Administers(RoleOf(s, actor.account)) && (Roles(s.members) != p.members ==> RoleOf(s, actor.account) == Some(Owner))
  {
    hide PolicyShape, TransitionShape, Active, ActiveDevices, PolicyAccounts, FirstObjectError;
  }

  lemma AppliedRoles(s: State, actor: Actor, p: Policy, t: Option<Transition>)
    ensures Roles(Applied(s, actor, p, t).members) == p.members
  {
    hide NextObjects, NextLinks, Bound;
    assert Applied(s, actor, p, t).members == NextMembers(s, p, t);
    hide Applied;
  }

  /** The same grants and epoch of every object there was. */
  ghost predicate AccessStays(s: State, next: State) {
    forall o <- s.objects ::
      o in next.objects && next.objects[o].grants == s.objects[o].grants && next.objects[o].epoch == s.objects[o].epoch
  }

  /** The policy log, roles, and any object's grants and epoch change only by a verified
      policy of an active device of an owner or an administrator; roles, only of an owner. */
  lemma AccessByAdministrators(h: Codec, s: State, step: Step)
    requires Next(h, s, step).log != s.log || Roles(Next(h, s, step).members) != Roles(s.members)
      || !AccessStays(s, Next(h, s, step))
    ensures step.AccessSet? && step.verified && step.policy.device == step.actor.device
    ensures Active(s, step.actor) && Administers(RoleOf(s, step.actor.account))
    ensures Roles(Next(h, s, step).members) != Roles(s.members) ==> RoleOf(s, step.actor.account) == Some(Owner)
  {
    hide Active, Administers, Roles, Plan, Applied, Next, AccessStays;
    if step.AccessSet? {
      AccessIsNext(h, s, step);
      OnlyApplied(h, s, step.actor, step.policy, step.under, step.verified);
      StaysItself(s);
      if Plan(h, s, step.actor, step.policy, step.under, step.verified) == Apply {
        AppliedBy(h, s, step.actor, step.policy, step.under, step.verified);
        AppliedRoles(s, step.actor, step.policy, step.under);
      }
    } else {
      OthersLeaveRoles(h, s, step);
      OthersLeaveAccess(h, s, step);
    }
  }

  lemma StaysItself(s: State)
    ensures AccessStays(s, s)
  {
  }

  lemma OthersLeaveAccess(h: Codec, s: State, step: Step)
    requires !step.AccessSet?
    ensures AccessStays(s, Next(h, s, step))
  {
    hide NextAccess, NextObject, NextContent;
    ObjectsKept(h, s, step);
    ObjectGrantsStay(h, s, step);
  }

  lemma OnlyApplied(h: Codec, s: State, actor: Actor, p: Policy, t: Option<Transition>, verified: bool)
    ensures Plan(h, s, actor, p, t, verified) == Apply || Committed(s, SetAccess(h, s, actor, p, t, verified)) == s
  {
    hide Plan, Applied;
  }

  lemma OthersLeaveRoles(h: Codec, s: State, step: Step)
    requires !step.AccessSet?
    ensures Next(h, s, step).log == s.log && Next(h, s, step).members == s.members
  {
    hide NextAccess, NextObject, NextContent;
  }

  lemma AcceptedOwner(h: Codec, s: State, actor: Actor, p: Policy, t: Option<Transition>)
    requires Accepted(h, s, actor, p, t)
    ensures HasOwner(Applied(s, actor, p, t))
  {
    hide ObjectError, TransitionShape, NextObjects, NextLinks, Bound;
    var a :| a in p.members && p.members[a] == Owner;
    assert a in Applied(s, actor, p, t).members;
  }

  lemma NextKeepsOwner(h: Codec, s: State, step: Step)
    requires HasOwner(s)
    ensures HasOwner(Next(h, s, step))
  {
    hide Accepted, Applied, Next, HasOwner;
    RowsMoveByPolicy(h, s, step);
    if step.AccessSet? && Accepted(h, s, step.actor, step.policy, step.under) {
      AcceptedOwner(h, s, step.actor, step.policy, step.under);
    }
    SameOwner(s, Next(h, s, step));
  }

  lemma SameOwner(s: State, next: State)
    requires HasOwner(s)
    ensures next.members == s.members ==> HasOwner(next)
  {
  }

  lemma {:induction false} RunKeepsOwner(h: Codec, s: State, steps: seq<Step>)
    requires HasOwner(s)
    ensures HasOwner(Run(h, s, steps))
  {
    hide Next, HasOwner;
    if steps != [] {
      RunKeepsOwner(h, s, steps[..|steps| - 1]);
      NextKeepsOwner(h, Run(h, s, steps[..|steps| - 1]), steps[|steps| - 1]);
    }
  }

  /** No run leaves a workspace without an owner. */
  lemma OwnerRemains(h: Codec, s: State)
    requires Reachable(h, s)
    ensures HasOwner(s)
  {
    hide Run;
    var id: Id, quota: nat, devices: map<Id, Device>, owner: Id, steps: seq<Step> :|
      s == Run(h, Created(id, quota, devices, owner), steps);
    assert HasOwner(Created(id, quota, devices, owner)) by {
      assert owner in Created(id, quota, devices, owner).members;
    }
    hide HasOwner, Created;
    RunKeepsOwner(h, Created(id, quota, devices, owner), steps);
  }

  // ----- operations -----

  lemma {:induction false} ScreenPasses(s: State, actor: Actor, ops: seq<Operation>, signed: Operation -> bool)
    requires Screen(s, actor, ops, signed).None?
    ensures forall op <- ops :: op.workspace == s.id && op.device == actor.device && signed(op)
  {
    if ops != [] {
      ScreenPasses(s, actor, ops[..|ops| - 1], signed);
      assert ops == ops[..|ops| - 1] + [ops[|ops| - 1]];
    }
  }

  /** A row that the log may get from one operation. */
  ghost predicate RowFits(h: Codec, s: State, account: Id, row: OpRow) {
    && row.op.objectId in s.objects && MayWrite(s, account, row.op.objectId)
    && row.op.epoch == s.objects[row.op.objectId].epoch && row.op.policyRevision <= s.revision
    && row.digest == h.op(row.op)
  }

  lemma PushedRow(h: Codec, s: State, actor: Actor, op: Operation)
    requires PushOne(h, s, actor, op).Ok?
    ensures var next := PushOne(h, s, actor, op).value.0;
      next.ops == s.ops
      || (|next.ops| == |s.ops| + 1 && next.ops == s.ops + [next.ops[|s.ops|]]
          && next.ops[|s.ops|].op == op && RowFits(h, s, actor.account, next.ops[|s.ops|]))
  {
    hide DecodedLength, FindOp, MayWrite;
  }

  lemma {:induction false} PushedRows(h: Codec, s: State, actor: Actor, ops: seq<Operation>)
    requires PushAll(h, s, actor, ops).Ok?
    ensures forall row <- PushAll(h, s, actor, ops).value.0.ops | row !in s.ops ::
      row.op in ops && RowFits(h, s, actor.account, row)
  {
    hide PushOne, RowFits;
    if ops != [] {
      var n := |ops| - 1;
      PushedRows(h, s, actor, ops[..n]);
      var before := PushAll(h, s, actor, ops[..n]).value.0;
      PushedRow(h, before, actor, ops[n]);
      forall row { SameFit(h, s, before, actor.account, row); }
      assert ops == ops[..n] + [ops[n]];
    }
  }

  lemma SameFit(h: Codec, s: State, now: State, account: Id, row: OpRow)
    requires now.members == s.members && now.objects == s.objects && now.revision == s.revision
    ensures RowFits(h, now, account, row) == RowFits(h, s, account, row)
  {
  }

  /** Whatever a step adds to the log was pushed, and signed, by an active device of an
      account that may write to its object, at the object's epoch then. */
  lemma OperationsByWriters(h: Codec, s: State, step: Step, row: OpRow)
    requires row in Next(h, s, step).ops && row !in s.ops
    ensures step.Pushed? && Active(s, step.actor) && step.signed(row.op)
    ensures row.op in step.ops && row.op.workspace == s.id && row.op.device == step.actor.device
    ensures row.op.objectId in s.objects && MayWrite(s, step.actor.account, row.op.objectId)
    ensures row.op.epoch == s.objects[row.op.objectId].epoch
  {
    hide NextAccess, NextObject, Active, MayWrite, Screen, PushAll;
    assert step.Pushed? by { hide NextContent; }
    ScreenPasses(s, step.actor, step.ops, step.signed);
    PushedRows(h, s, step.actor, step.ops);
  }
}
