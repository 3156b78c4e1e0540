/** What a policy passed before it was applied, and what applying it leaves. */
module SyncPolicies {
  import opened Wrappers
  import opened SyncTypes
  import opened SyncRules
  import opened SyncRuns

  /** The checks an applied policy passed. */
  ghost predicate Accepted(h: Codec, s: State, actor: Actor, p: Policy, t: Option<Transition>) {
    && PolicyShape(p) && p.revision == s.revision + 1
    && (Latest(s).Some? && Latest(s).value.version == 2 ==> p.version == 2)
    && p.previous == (if Latest(s).None? then None else Some(h.policy(Latest(s).value)))
    && s.objects.Keys == (set e | e in p.objects :: e.id)
    && (forall e <- p.objects :: ObjectError(s, p, t, e).None?)
    && (t.Some? ==>
          && TransitionShape(t.value) && h.policy(t.value.policy) == h.policy(p)
          && t.value.id in s.transitions && s.transitions[t.value.id].digest == h.transition(t.value)
          && !s.transitions[t.value.id].committed && t.value.covered == s.sequence)
  }

  lemma PlanAccepts(h: Codec, s: State, actor: Actor, p: Policy, t: Option<Transition>, verified: bool)
    requires Plan(h, s, actor, p, t, verified) == Apply
    ensures Accepted(h, s, actor, p, t)
  {
    hide PolicyShape, TransitionShape, ObjectError, ActiveDevices;
  }

  /** The bookkeeping of one entry that passed: the epoch moves by at most one, and moves
      whenever a reader loses access or a checkpoint comes with it. */
  lemma EntryPassed(s: State, p: Policy, t: Option<Transition>, next: PolicyObject)
    requires next.id in s.objects && ObjectError(s, p, t, next).None?
    ensures var target := s.objects[next.id];
      var checkpoint := CheckpointFor(t, next.id);
      && target.epoch <= next.epoch <= target.epoch + 1
      && (checkpoint.Some? ==> next.epoch == target.epoch + 1)
      && (next.epoch != target.epoch && (t.Some? || target.Enrolled()) ==> checkpoint.Some?)
      && (p.version == 2 && PriorDocument(s, next.id) != next.document ==> checkpoint.Some?)
      && (checkpoint.Some? && p.version == 2 ==>
            next.document.Some? && checkpoint.value.generation == next.document.value.generation)
      && (checkpoint.Some? ==>
            forall e <- target.checkpoints :: target.checkpoints[e].generation != checkpoint.value.generation)
  {
    hide ActiveDevices, EnvelopeError, NextAccounts, PolicyAccounts, EnvelopeDevices, PriorDocument, CheckpointFor;
  }

  /** Who can read after one entry that passed: the recipients are the active devices of
      the accounts it names, and an epoch that stays keeps every reader. */
  lemma RecipientsPassed(s: State, p: Policy, t: Option<Transition>, next: PolicyObject)
    requires next.id in s.objects && ObjectError(s, p, t, next).None? && next in p.objects
    ensures var target := s.objects[next.id];
      var accounts := NextAccounts(p, next);
      && EnvelopeDevices(next.envelopes) ==
           (set d | d in s.devices && !s.devices[d].revoked && s.devices[d].account in accounts)
      && (next.epoch == target.epoch ==>
            && s.members.Keys + target.grants.Keys <= accounts
            && forall d <- target.KeyDevices() :: d in s.devices && !s.devices[d].revoked)
  {
    hide EnvelopeError, EnvelopeDevices, PriorDocument, CheckpointFor;
    assert NextAccounts(p, next) <= PolicyAccounts(p);
  }

  /** The transition an addition of readers needs once the workspace has a capability. */
  lemma AdditionNeedsTransition(s: State, p: Policy, t: Option<Transition>, next: PolicyObject, account: Id)
    requires next.id in s.objects && ObjectError(s, p, t, next).None? && s.capability.Some?
    requires account in NextAccounts(p, next)
    requires account !in s.members && account !in s.objects[next.id].grants
    ensures t.Some?
  {
    hide ActiveDevices, EnvelopeError, PolicyAccounts, EnvelopeDevices, PriorDocument, CheckpointFor;
  }

  /** An accepted policy's entry for an object. */
  lemma AcceptedEntry(h: Codec, s: State, actor: Actor, p: Policy, t: Option<Transition>, o: Id)
    requires Accepted(h, s, actor, p, t) && o in s.objects
    ensures var entry := Entry(p.objects, o);
      && entry.Some? && entry.value in p.objects && entry.value.id == o
      && ObjectError(s, p, t, entry.value).None?
      && entry.value.epoch >= 1 && (p.version == 2 <==> entry.value.document.Some?)
  {
    hide ObjectError, TransitionShape, DistinctEnvelopes;
    var e :| e in p.objects && e.id == o;
  }

  /** The rows an applied policy leaves, read one object at a time. */
  lemma AppliedRows(s: State, actor: Actor, p: Policy, t: Option<Transition>)
    ensures var next := Applied(s, actor, p, t);
      && next.objects.Keys == s.objects.Keys && next.members.Keys == p.members.Keys && next.devices == s.devices
      && (forall o <- s.objects :: next.objects[o] ==
            match Entry(p.objects, o)
            case None => s.objects[o]
            case Some(entry) => NextRow(s.objects[o], t, actor.device, entry))
  {
    hide NextRow, NextLinks, Entry;
  }

  /** What else an applied policy leaves. */
  lemma AppliedLog(s: State, actor: Actor, p: Policy, t: Option<Transition>)
    ensures var next := Applied(s, actor, p, t);
      && next.ops == s.ops && next.sequence == s.sequence
      && next.log == s.log + [p] && next.revision == p.revision
      && next.transitions == (if t.None? || t.value.id !in s.transitions then s.transitions
                              else s.transitions[t.value.id := s.transitions[t.value.id].(committed := true)])
  {
    hide NextObjects, NextMembers, NextLinks;
  }

  /** Setting access keeps every row, or applies a policy that passed. */
  lemma SetAccessOutcome(h: Codec, s: State, actor: Actor, p: Policy, t: Option<Transition>, verified: bool)
    ensures var next := Committed(s, SetAccess(h, s, actor, p, t, verified));
      next == s || (Accepted(h, s, actor, p, t) && next == Applied(s, actor, p, t))
  {
    hide Plan, Applied, Accepted;
    if Plan(h, s, actor, p, t, verified) == Apply {
      PlanAccepts(h, s, actor, p, t, verified);
    }
  }
}
