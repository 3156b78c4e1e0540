/** The policy log as a digest chain, and what happens between staging a transition or an
    activation and committing it. */
module SyncChain {
  import opened Wrappers
  import opened SyncTypes
  import opened SyncRules
  import opened SyncRuns
  import opened SyncPolicies

  ghost predicate Link(h: Codec, log: seq<Policy>, i: nat)
    requires i < |log|
  {
    && log[i].revision == i + 1
    && log[i].previous == if i == 0 then None else Some(h.policy(log[i - 1]))
  }

  /** Policies numbered from 1, each naming the digest of the one before. */
  ghost predicate Chain(h: Codec, log: seq<Policy>) {
    forall i | 0 <= i < |log| :: Link(h, log, i)
  }

  ghost predicate RowHonest(h: Codec, log: seq<Policy>, id: Id, row: TransitionRow) {
    && row.body.id == id && row.digest == h.transition(row.body)
    && (row.committed ==> 1 <= row.body.policy.revision <= |log| && log[row.body.policy.revision - 1] == row.body.policy)
  }

  /** The staged rows say what was staged, no later than now, and at most one transition
      per policy revision ever committed: the one whose policy is in the log. */
  ghost predicate StagedHonestly(h: Codec, s: State) {
    && |s.log| == s.revision && Chain(h, s.log)
    && (forall id <- s.transitions :: RowHonest(h, s.log, id, s.transitions[id]))
    && (forall a, b | a in s.transitions && b in s.transitions
                      && s.transitions[a].committed && s.transitions[b].committed
                      && s.transitions[a].body.policy.revision == s.transitions[b].body.policy.revision :: a == b)
  }

  lemma ChainPrefix(h: Codec, log: seq<Policy>)
    requires Chain(h, log) && log != []
    ensures Chain(h, log[..|log| - 1])
  {
    var cut := log[..|log| - 1];
    forall i | 0 <= i < |cut| ensures Link(h, cut, i) {
      assert Link(h, log, i);
    }
  }

  /** One head digest fixes the whole history. */
  lemma {:induction false} ChainDetermines(h: Codec, x: seq<Policy>, y: seq<Policy>)
    requires h.Injective() && Chain(h, x) && Chain(h, y) && x != [] && y != []
    requires h.policy(x[|x| - 1]) == h.policy(y[|y| - 1])
    ensures x == y
  {
    var n := |x| - 1;
    assert x[n] == y[|y| - 1] && Link(h, x, n) && Link(h, y, |y| - 1);
    assert |y| == |x|;
    if n > 0 {
      ChainPrefix(h, x);
      ChainPrefix(h, y);
      ChainDetermines(h, x[..n], y[..n]);
    }
    assert x == x[..n] + [x[n]] && y == y[..n] + [y[n]];
  }

  lemma AppliedKeepsStaged(h: Codec, s: State, actor: Actor, p: Policy, t: Option<Transition>)
    requires h.Injective() && StagedHonestly(h, s) && Accepted(h, s, actor, p, t)
    ensures StagedHonestly(h, Applied(s, actor, p, t))
  {
    hide Applied, Chain, RowHonest;
    AppliedLog(s, actor, p, t);
    AcceptedLink(h, s, actor, p, t);
    ChainGrows(h, s.log, p);
    if t.Some? { AcceptedBoundary(h, s, actor, p, t); }
    hide Accepted;
    var next := Applied(s, actor, p, t);
    forall id <- next.transitions ensures RowHonest(h, next.log, id, next.transitions[id]) {
      RowGrows(h, s.log, p, id, s.transitions[id]);
      if t.Some? && id == t.value.id { RowCommits(h, s.log, p, id, s.transitions[id]); }
    }
    forall a, b | a in next.transitions && b in next.transitions
                  && next.transitions[a].committed && next.transitions[b].committed
                  && next.transitions[a].body.policy.revision == next.transitions[b].body.policy.revision
      ensures a == b
    {
      CommittedBelow(h, s.log, a, s.transitions[a]);
      CommittedBelow(h, s.log, b, s.transitions[b]);
    }
  }

  lemma RowGrows(h: Codec, log: seq<Policy>, p: Policy, id: Id, row: TransitionRow)
    requires RowHonest(h, log, id, row)
    ensures RowHonest(h, log + [p], id, row)
  {
  }

  lemma RowCommits(h: Codec, log: seq<Policy>, p: Policy, id: Id, row: TransitionRow)
    requires RowHonest(h, log, id, row) && row.body.policy == p && p.revision == |log| + 1
    ensures RowHonest(h, log + [p], id, row.(committed := true))
  {
  }

  lemma CommittedBelow(h: Codec, log: seq<Policy>, id: Id, row: TransitionRow)
    requires RowHonest(h, log, id, row)
    ensures row.committed ==> row.body.policy.revision <= |log|
  {
  }

  lemma AcceptedLink(h: Codec, s: State, actor: Actor, p: Policy, t: Option<Transition>)
    requires Accepted(h, s, actor, p, t)
    ensures p.revision == s.revision + 1
    ensures p.previous == if s.log == [] then None else Some(h.policy(s.log[|s.log| - 1]))
  {
    hide ObjectError, PolicyShape, TransitionShape;
  }

  lemma ChainGrows(h: Codec, log: seq<Policy>, p: Policy)
    requires Chain(h, log) && p.revision == |log| + 1
    requires p.previous == if log == [] then None else Some(h.policy(log[|log| - 1]))
    ensures Chain(h, log + [p])
  {
    forall i | 0 <= i < |log| ensures Link(h, log + [p], i) {
      assert Link(h, log, i);
    }
  }

  lemma AcceptedBoundary(h: Codec, s: State, actor: Actor, p: Policy, t: Option<Transition>)
    requires h.Injective() && StagedHonestly(h, s) && Accepted(h, s, actor, p, t) && t.Some?
    ensures t.value.id in s.transitions && s.transitions[t.value.id].body == t.value
    ensures t.value.covered == s.sequence && t.value.policy == p && p.revision == s.revision + 1
  {
    hide PolicyShape, TransitionShape, ObjectError, Chain;
  }

  /** What staging leaves. */
  ghost predicate Staged(h: Codec, s: State, next: State, t: Transition) {
    && t.id !in s.transitions && t.policy.revision == s.revision + 1 && t.covered == s.sequence
    && next.transitions.Keys == s.transitions.Keys + {t.id}
    && (forall id <- s.transitions :: next.transitions[id] == s.transitions[id])
    && next.transitions[t.id].body == t && next.transitions[t.id].digest == h.transition(t)
    && !next.transitions[t.id].committed
  }

  lemma StageOutcome(h: Codec, s: State, actor: Actor, t: Transition, verified: bool)
    ensures var next := Committed(s, StageTransition(h, s, actor, t, verified));
      next == s || (Staged(h, s, next, t) && next.log == s.log && next.revision == s.revision)
  {
    hide TransitionShape, Active;
  }

  /** How the transitions and the log can move in one step. */
  lemma AccessOutcome(h: Codec, s: State, step: Step)
    ensures var next := NextAccess(h, s, step);
      || (next.transitions == s.transitions && next.log == s.log && next.revision == s.revision)
      || (step.TransitionStaged? && Staged(h, s, next, step.transition) && next.log == s.log
          && next.revision == s.revision)
      || (step.AccessSet? && Accepted(h, s, step.actor, step.policy, step.under)
          && next == Applied(s, step.actor, step.policy, step.under))
  {
    hide Staged, Accepted, Applied, SetAccess, StageTransition, Enroll, Revoke, PutCapability;
    if step.AccessSet? {
      SetAccessOutcome(h, s, step.actor, step.policy, step.under, step.verified);
    } else if step.TransitionStaged? {
      StageOutcome(h, s, step.actor, step.transition, step.verified);
    } else {
      hide NextAccess;
    }
  }

  lemma StagedRowHonest(h: Codec, s: State, next: State, t: Transition)
    requires StagedHonestly(h, s) && Staged(h, s, next, t) && next.log == s.log && next.revision == s.revision
    ensures StagedHonestly(h, next)
  {
    hide Chain;
  }

  lemma SameStaged(h: Codec, s: State, next: State)
    requires StagedHonestly(h, s)
    requires next.transitions == s.transitions && next.log == s.log && next.revision == s.revision
    ensures StagedHonestly(h, next)
  {
    hide Chain;
  }

  lemma AccessKeepsStaged(h: Codec, s: State, step: Step)
    requires h.Injective() && StagedHonestly(h, s)
    ensures StagedHonestly(h, NextAccess(h, s, step))
  {
    hide NextAccess, Accepted, Applied, Chain, Staged, StagedHonestly;
    AccessOutcome(h, s, step);
    var next := NextAccess(h, s, step);
    if step.AccessSet? && Accepted(h, s, step.actor, step.policy, step.under)
       && next == Applied(s, step.actor, step.policy, step.under) {
      AppliedKeepsStaged(h, s, step.actor, step.policy, step.under);
    } else if step.TransitionStaged? && Staged(h, s, next, step.transition) && next.log == s.log && next.revision == s.revision {
      StagedRowHonest(h, s, next, step.transition);
    } else {
      SameStaged(h, s, next);
    }
  }

  lemma NextKeepsStaged(h: Codec, s: State, step: Step)
    requires h.Injective() && StagedHonestly(h, s)
    ensures StagedHonestly(h, Next(h, s, step))
  {
    hide NextAccess, NextObject, NextContent, StagedHonestly;
    AccessKeepsStaged(h, s, step);
    SameStaged(h, s, NextObject(h, s, step));
    SameStaged(h, s, NextContent(h, s, step));
  }

  // ----- between staging and committing -----

  /** A staged transition's row keeps its body, and once committed stays committed. */
  lemma TransitionKept(h: Codec, s: State, step: Step, id: Id)
    requires id in s.transitions
    ensures var next := Next(h, s, step).transitions;
      id in next && next[id].body == s.transitions[id].body && (s.transitions[id].committed ==> next[id].committed)
  {
    hide NextAccess, NextObject, NextContent, Accepted, Applied;
    AccessOutcome(h, s, step);
    if step.AccessSet? { AppliedLog(s, step.actor, step.policy, step.under); }
  }

  /** A transition is staged and committed only at its own boundary: the operation it
      covers last, and the policy right before its own. */
  lemma TransitionBoundary(h: Codec, s: State, step: Step, id: Id)
    requires h.Injective() && StagedHonestly(h, s) && id in Next(h, s, step).transitions
    requires id in s.transitions ==> !s.transitions[id].committed && Next(h, s, step).transitions[id].committed
    ensures var body := Next(h, s, step).transitions[id].body;
      body.covered == s.sequence && body.policy.revision == s.revision + 1
  {
    hide NextAccess, NextObject, NextContent, Accepted, Applied, Chain;
    AccessOutcome(h, s, step);
    if step.AccessSet? {
      AppliedLog(s, step.actor, step.policy, step.under);
      if Accepted(h, s, step.actor, step.policy, step.under) && step.under.Some? {
        AcceptedBoundary(h, s, step.actor, step.policy, step.under);
      }
    }
  }

  lemma ActivationBoundary(h: Codec, s: State, step: Step, id: Id)
    requires id in Next(h, s, step).activations
    requires id in s.activations ==> !s.activations[id].committed && Next(h, s, step).activations[id].committed
    ensures var body := Next(h, s, step).activations[id].body;
      body.covered == s.sequence && body.policyRevision == s.revision
  {
    hide NextAccess, NextContent, CreateObject, StoreOwnKey, ActivationShape, LogAt, RecipientMatches, BlobStored,
         Active, Activated;
  }

  lemma ActivationKept(h: Codec, s: State, step: Step, id: Id)
    requires id in s.activations
    ensures var next := Next(h, s, step).activations;
      id in next && next[id].body == s.activations[id].body && (s.activations[id].committed ==> next[id].committed)
  {
    hide NextAccess, NextContent, CreateObject, StoreOwnKey, ActivationShape, ActivationError, BlobStored, Active,
         Activated;
  }

  /** Operations and policies are only ever added. */
  lemma NextGrows(h: Codec, s: State, step: Step)
    ensures s.ops <= Next(h, s, step).ops && s.log <= Next(h, s, step).log
  {
    hide NextAccess, NextObject, NextContent, Accepted, Applied;
    AccessOutcome(h, s, step);
    if step.AccessSet? { AppliedLog(s, step.actor, step.policy, step.under); }
  }

  lemma {:induction false} RunGrows(h: Codec, s: State, steps: seq<Step>)
    ensures s.ops <= Run(h, s, steps).ops && s.log <= Run(h, s, steps).log
    ensures forall id <- s.transitions ::
      id in Run(h, s, steps).transitions && Run(h, s, steps).transitions[id].body == s.transitions[id].body
    ensures forall id <- s.activations ::
      id in Run(h, s, steps).activations && Run(h, s, steps).activations[id].body == s.activations[id].body
  {
    hide Next;
    if steps != [] {
      var n := |steps| - 1;
      RunGrows(h, s, steps[..n]);
      var before := Run(h, s, steps[..n]);
      NextGrows(h, before, steps[n]);
      forall id <- s.transitions { TransitionKept(h, before, steps[n], id); }
      forall id <- s.activations { ActivationKept(h, before, steps[n], id); }
    }
  }
}
