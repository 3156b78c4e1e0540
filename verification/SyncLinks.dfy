/** Public links follow their object's epoch, and an update is never lost. */
module SyncLinks {
  import opened Wrappers
  import opened SyncTypes
  import opened SyncRules
  import opened SyncRuns
  import opened SyncPolicies
  import opened SyncOperations

  /** A link that is not revoked shows its object at the object's current epoch. */
  ghost predicate LinksCurrent(s: State) {
    forall l <- s.links | !s.links[l].revoked ::
      var link := s.links[l];
      && link.objectId in s.objects && link.snapshot.objectId == link.objectId
      && link.snapshot.epoch == s.objects[link.objectId].epoch
  }

  lemma AppliedKeepsLinks(h: Codec, s: State, actor: Actor, p: Policy, t: Option<Transition>)
    requires LinksCurrent(s) && Accepted(h, s, actor, p, t)
    ensures LinksCurrent(Applied(s, actor, p, t))
  {
    hide Accepted, Entry, NextGrants, NewKeys, CheckpointFor, NextMembers;
    AppliedRows(s, actor, p, t);
    assert Applied(s, actor, p, t).links == NextLinks(s, p.objects);
    hide Applied;
    forall l <- s.links { AcceptedLinkEntry(h, s, actor, p, t, s.links[l].objectId); }
  }

  lemma AcceptedLinkEntry(h: Codec, s: State, actor: Actor, p: Policy, t: Option<Transition>, o: Id)
    requires Accepted(h, s, actor, p, t)
    ensures o in s.objects ==> Entry(p.objects, o).Some?
  {
    hide Accepted, Entry;
    if o in s.objects { AcceptedEntry(h, s, actor, p, t, o); }
  }

  lemma LinksFrame(s: State, next: State)
    requires LinksCurrent(s) && next.links == s.links
    requires forall o <- s.objects :: o in next.objects && next.objects[o].epoch == s.objects[o].epoch
    ensures LinksCurrent(next)
  {
  }

  lemma ContentKeepsLinks(h: Codec, s: State, step: Step)
    requires LinksCurrent(s)
    ensures LinksCurrent(NextContent(h, s, step))
  {
    hide DecodedLength, Active;
    if !step.LinkCreated? && !step.LinkUpdated? && !step.LinkRevoked? {
      hide NextContent;
      LinksFrame(s, NextContent(h, s, step));
    }
  }

  lemma AccessKeepsLinks(h: Codec, s: State, step: Step)
    requires LinksCurrent(s)
    ensures LinksCurrent(NextAccess(h, s, step))
  {
    hide SetAccess, Applied, Accepted, LinksCurrent;
    if step.AccessSet? {
      SetAccessOutcome(h, s, step.actor, step.policy, step.under, step.verified);
      if Accepted(h, s, step.actor, step.policy, step.under) {
        AppliedKeepsLinks(h, s, step.actor, step.policy, step.under);
      }
    } else {
      hide NextAccess;
      LinksFrame(s, NextAccess(h, s, step));
    }
  }

  lemma NextKeepsLinks(h: Codec, s: State, step: Step)
    requires LinksCurrent(s)
    ensures LinksCurrent(Next(h, s, step))
  {
    hide NextAccess, NextObject, NextContent, LinksCurrent;
    AccessKeepsLinks(h, s, step);
    ContentKeepsLinks(h, s, step);
    ObjectsKept(h, s, step);
    LinksFrame(s, NextObject(h, s, step));
  }

  lemma {:induction false} RunKeepsLinks(h: Codec, s: State, steps: seq<Step>)
    requires LinksCurrent(s)
    ensures LinksCurrent(Run(h, s, steps))
  {
    hide Next, LinksCurrent;
    if steps != [] {
      RunKeepsLinks(h, s, steps[..|steps| - 1]);
      NextKeepsLinks(h, Run(h, s, steps[..|steps| - 1]), steps[|steps| - 1]);
    }
  }

  /** In every reachable state a link that is not revoked holds a snapshot of its own object
      at the object's current epoch: every rotation revoked the links before it. */
  lemma LinksFollowEpochs(h: Codec, s: State, l: Id)
    requires Reachable(h, s) && l in s.links && !s.links[l].revoked
    ensures var link := s.links[l];
      && link.objectId in s.objects && link.snapshot.objectId == link.objectId
      && link.snapshot.epoch == s.objects[link.objectId].epoch
  {
    hide Run;
    var id: Id, quota: nat, devices: map<Id, Device>, owner: Id, steps: seq<Step> :|
      s == Run(h, Created(id, quota, devices, owner), steps);
    RunKeepsLinks(h, Created(id, quota, devices, owner), steps);
  }

  lemma AppliedLinks(s: State, actor: Actor, p: Policy, t: Option<Transition>)
    ensures Applied(s, actor, p, t).links == NextLinks(s, p.objects)
  {
    hide NextObjects, NextMembers, NextLinks;
  }

  /** A link goes on: its revision never falls, and one revision has one snapshot. */
  predicate GoesOn(link: LinkRow, next: LinkRow) {
    next.revision >= link.revision && (next.revision == link.revision ==> next.snapshot == link.snapshot)
  }

  lemma AccessKeepsLink(h: Codec, s: State, step: Step, l: Id)
    requires l in s.links
    ensures l in NextAccess(h, s, step).links && GoesOn(s.links[l], NextAccess(h, s, step).links[l])
  {
    hide SetAccess, Applied, Accepted;
    if step.AccessSet? {
      SetAccessOutcome(h, s, step.actor, step.policy, step.under, step.verified);
      AppliedLinks(s, step.actor, step.policy, step.under);
    } else {
      hide NextAccess;
    }
  }

  lemma ContentKeepsLink(h: Codec, s: State, step: Step, l: Id)
    requires l in s.links
    ensures l in NextContent(h, s, step).links && GoesOn(s.links[l], NextContent(h, s, step).links[l])
  {
    hide DecodedLength, Active, Administers;
    if !step.LinkCreated? && !step.LinkUpdated? && !step.LinkRevoked? { hide NextContent; }
  }

  lemma {:induction false} RunKeepsLink(h: Codec, s: State, steps: seq<Step>, l: Id)
    requires l in s.links
    ensures l in Run(h, s, steps).links && GoesOn(s.links[l], Run(h, s, steps).links[l])
  {
    hide NextAccess, NextObject, NextContent;
    if steps != [] {
      var before, last := Run(h, s, steps[..|steps| - 1]), steps[|steps| - 1];
      RunKeepsLink(h, s, steps[..|steps| - 1], l);
      AccessKeepsLink(h, before, last, l);
      ContentKeepsLink(h, before, last, l);
    }
  }

  /** Of two updates made from one revision at most one is stored, whatever happens between
      them: the second is refused, or it finds the link holding its very snapshot already and
      changes nothing. */
  lemma NoLostUpdate(h: Codec, s: State, first: Actor, second: Actor, l: Id, expected: nat, x: Operation, y: Operation,
                     steps: seq<Step>, live: bool, verified: bool)
    requires var r := UpdateLink(h, s, first, l, expected, x, true, true); r.Ok? && r.value.0 != s
    ensures var later := Run(h, UpdateLink(h, s, first, l, expected, x, true, true).value.0, steps);
      var r := UpdateLink(h, later, second, l, expected, y, live, verified);
      && l in later.links && later.links[l].revision > expected
      && (r.Ok? ==> r.value.0 == later && h.op(later.links[l].snapshot) == h.op(y))
      && (later.links[l].revision == expected + 1 && h.op(y) != h.op(x) ==> r.Err?)
  {
    hide Active, Administers, DecodedLength, Run;
    var after := UpdateLink(h, s, first, l, expected, x, true, true).value.0;
    assert after.links[l].revision == expected + 1 && after.links[l].snapshot == x;
    RunKeepsLink(h, after, steps, l);
  }

  lemma StepKeepsRevoked(h: Codec, s: State, step: Step, l: Id)
    requires l in s.links && s.links[l].revoked
    ensures l in Next(h, s, step).links && Next(h, s, step).links[l].revoked
  {
    hide NextAccess, NextObject, NextContent;
    AccessKeepsRevoked(h, s, step, l);
    ContentKeepsRevoked(h, s, step, l);
  }

  lemma AccessKeepsRevoked(h: Codec, s: State, step: Step, l: Id)
    requires l in s.links && s.links[l].revoked
    ensures l in NextAccess(h, s, step).links && NextAccess(h, s, step).links[l].revoked
  {
    hide SetAccess, Applied, Accepted;
    if step.AccessSet? {
      SetAccessOutcome(h, s, step.actor, step.policy, step.under, step.verified);
      AppliedLinks(s, step.actor, step.policy, step.under);
    } else {
      hide NextAccess;
    }
  }

  lemma ContentKeepsRevoked(h: Codec, s: State, step: Step, l: Id)
    requires l in s.links && s.links[l].revoked
    ensures l in NextContent(h, s, step).links && NextContent(h, s, step).links[l].revoked
  {
    hide DecodedLength, Active, Administers;
    if !step.LinkCreated? && !step.LinkUpdated? && !step.LinkRevoked? { hide NextContent; }
  }

  /** A revoked link stays revoked through any later steps. */
  lemma {:induction false} RevokedForGood(h: Codec, s: State, steps: seq<Step>, l: Id)
    requires l in s.links && s.links[l].revoked
    ensures l in Run(h, s, steps).links && Run(h, s, steps).links[l].revoked
  {
    hide Next;
    if steps != [] {
      RevokedForGood(h, s, steps[..|steps| - 1], l);
      StepKeepsRevoked(h, Run(h, s, steps[..|steps| - 1]), steps[|steps| - 1], l);
    }
  }
}
