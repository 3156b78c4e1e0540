/** How far back an account may read. */
module SyncHistory {
  import opened Wrappers
  import opened SyncTypes
  import opened SyncRules
  import opened SyncRuns
  import opened SyncPolicies
  import opened SyncOperations

  /** Whether every row of the account starts at `n` or later. */
  ghost predicate Floor(s: State, a: Id, n: nat) {
    && (a in s.members ==> n <= s.members[a].historyAfter)
    && (forall o <- s.objects | a in s.objects[o].grants :: n <= s.objects[o].grants[a].historyAfter)
  }

  ghost predicate NoRow(s: State, a: Id) {
    a !in s.members && forall o <- s.objects :: a !in s.objects[o].grants
  }

  /** Whether `next` gives the account a member row, or a grant row on an object, that it
      did not have in `s`. */
  ghost predicate GainsRow(s: State, next: State, a: Id) {
    || (a in next.members && a !in s.members)
    || exists o <- next.objects :: a in next.objects[o].grants && (o !in s.objects || a !in s.objects[o].grants)
  }

  /** Every row that stays keeps its bound. */
  ghost predicate BoundsKept(s: State, next: State) {
    && (forall a | a in s.members && a in next.members :: next.members[a].historyAfter == s.members[a].historyAfter)
    && (forall o, a | o in s.objects && o in next.objects
                      && a in s.objects[o].grants && a in next.objects[o].grants ::
          next.objects[o].grants[a].historyAfter == s.objects[o].grants[a].historyAfter)
  }

  /** A page holds nothing at or below the reader's floor. */
  lemma {:induction false} FloorHides(s: State, a: Id, n: nat, rows: seq<OpRow>, after: nat)
    requires Floor(s, a, n)
    ensures forall row <- Readable(s, a, rows, after) :: row.sequence > n
  {
    if rows != [] {
      FloorHides(s, a, n, rows[..|rows| - 1], after);
    }
  }

  /** An applied policy's member and grant rows. */
  lemma AppliedBounds(h: Codec, s: State, actor: Actor, p: Policy, t: Option<Transition>)
    requires Accepted(h, s, actor, p, t)
    ensures var next := Applied(s, actor, p, t);
      && BoundsKept(s, next)
      && (forall a <- next.members | a !in s.members :: next.members[a].historyAfter == Bound(None, t))
      && (forall o <- next.objects ::
            && o in s.objects
            && forall a <- next.objects[o].grants | a !in s.objects[o].grants ::
                 next.objects[o].grants[a].historyAfter == Bound(None, t))
  {
    hide Accepted, NextLinks, NewKeys, CheckpointFor, NextObjects;
    AppliedRows(s, actor, p, t);
    forall o <- s.objects { AcceptedEntry(h, s, actor, p, t, o); }
  }

  /** With a capability, whoever gains a first row can read only what is sequenced after
      the policy that gave it. */
  lemma NewReaderBound(h: Codec, s: State, actor: Actor, p: Policy, t: Option<Transition>, a: Id)
    requires Numbered(s) && Accepted(h, s, actor, p, t) && s.capability.Some? && NoRow(s, a)
    ensures Floor(Applied(s, actor, p, t), a, s.sequence)
  {
    hide Numbered, ObjectError, PolicyShape, TransitionShape, Applied, NextRow, Entry;
    AppliedBounds(h, s, actor, p, t);
    AppliedRows(s, actor, p, t);
    var next := Applied(s, actor, p, t);
    if t.None? && GainsRow(s, next, a) {
      if o: Id :| o in s.objects && a in next.objects[o].grants {
        AddedGranteeNeedsTransition(h, s, actor, p, t, o, a);
      } else if s.objects != map[] {
        var o :| o in s.objects;
        AddedMemberNeedsTransition(h, s, actor, p, t, o, a);
      } else if s.sequence > 0 {
        SequencedObject(s);
      }
    }
  }

  lemma SequencedObject(s: State)
    requires Numbered(s) && s.sequence > 0
    ensures s.objects != map[]
  {
    assert s.ops[0] in s.ops;
  }

  lemma AddedGranteeNeedsTransition(h: Codec, s: State, actor: Actor, p: Policy, t: Option<Transition>, o: Id, a: Id)
    requires Accepted(h, s, actor, p, t) && s.capability.Some? && NoRow(s, a)
    requires o in s.objects && o in Applied(s, actor, p, t).objects && a in Applied(s, actor, p, t).objects[o].grants
    ensures t.Some?
  {
    hide Accepted, ObjectError, Applied, NewKeys, CheckpointFor, Entry;
    AcceptedEntry(h, s, actor, p, t, o);
    AppliedRows(s, actor, p, t);
    AdditionNeedsTransition(s, p, t, Entry(p.objects, o).value, a);
  }

  lemma AddedMemberNeedsTransition(h: Codec, s: State, actor: Actor, p: Policy, t: Option<Transition>, o: Id, a: Id)
    requires Accepted(h, s, actor, p, t) && s.capability.Some? && NoRow(s, a)
    requires o in s.objects && a in Applied(s, actor, p, t).members
    ensures t.Some?
  {
    hide Accepted, ObjectError, Applied, NewKeys, CheckpointFor, Entry;
    AcceptedEntry(h, s, actor, p, t, o);
    AppliedRows(s, actor, p, t);
    AdditionNeedsTransition(s, p, t, Entry(p.objects, o).value, a);
  }

  /** Whether a policy gives the account a member row, or a grant row on an object, that it
      does not have. */
  ghost predicate GivesRow(s: State, p: Policy, a: Id) {
    || (a in p.members && a !in s.members)
    || exists e <- p.objects :: a in e.grants && (e.id !in s.objects || a !in s.objects[e.id].grants)
  }

  lemma {:induction false} EntryFound(entries: seq<PolicyObject>, e: PolicyObject)
    requires DistinctObjects(entries) && e in entries
    ensures Entry(entries, e.id) == Some(e)
  {
    var n := |entries| - 1;
    if entries[n].id != e.id {
      assert entries == entries[..n] + [entries[n]];
      EntryFound(entries[..n], e);
    } else {
      assert forall x <- entries | x.id == e.id :: x == entries[n];
    }
  }

  /** The grants of an applied policy are those of its entries. */
  lemma AppliedGrants(h: Codec, s: State, actor: Actor, p: Policy, t: Option<Transition>, e: PolicyObject)
    requires Accepted(h, s, actor, p, t) && e in p.objects
    ensures e.id in s.objects && e.id in Applied(s, actor, p, t).objects
    ensures Applied(s, actor, p, t).objects[e.id].grants.Keys == e.grants.Keys
  {
    AcceptedNames(h, s, actor, p, t, e);
    hide Accepted, Applied, NewKeys, CheckpointFor, Entry, DistinctObjects, Bound;
    EntryFound(p.objects, e);
    AppliedRows(s, actor, p, t);
  }

  lemma AcceptedNames(h: Codec, s: State, actor: Actor, p: Policy, t: Option<Transition>, e: PolicyObject)
    requires Accepted(h, s, actor, p, t) && e in p.objects
    ensures DistinctObjects(p.objects) && e.id in s.objects
  {
    hide ObjectError, TransitionShape, DistinctEnvelopes;
    assert e.id in (set x | x in p.objects :: x.id);
  }

  /** An applied policy gives exactly the rows that it names and that were not there. */
  lemma GivesExactly(h: Codec, s: State, actor: Actor, p: Policy, t: Option<Transition>, a: Id)
    requires Accepted(h, s, actor, p, t)
    ensures GainsRow(s, Applied(s, actor, p, t), a) <==> GivesRow(s, p, a)
  {
    hide Accepted, Applied, Entry;
    AppliedRows(s, actor, p, t);
    forall e <- p.objects { AppliedGrants(h, s, actor, p, t, e); }
    forall o <- s.objects { AcceptedEntry(h, s, actor, p, t, o); }
    hide NextRow;
    if o :| o in Applied(s, actor, p, t).objects && a in Applied(s, actor, p, t).objects[o].grants && a !in s.objects[o].grants {
      var e := Entry(p.objects, o).value;
      assert e in p.objects && e.id == o && a in e.grants;
    }
  }

  /** A floor at or below the last sequence survives a policy exactly when the policy gives
      the account no new row, or commits a transition, or the floor is 0. */
  lemma FloorUnderPolicy(h: Codec, s: State, actor: Actor, p: Policy, t: Option<Transition>, a: Id, n: nat)
    requires Floor(s, a, n) && n <= s.sequence && Accepted(h, s, actor, p, t)
    ensures Floor(Applied(s, actor, p, t), a, n) <==> n == 0 || t.Some? || !GivesRow(s, p, a)
  {
    GivesExactly(h, s, actor, p, t, a);
    if t.None? && n > 0 && GainsRow(s, Applied(s, actor, p, t), a) {
      FloorGone(h, s, actor, p, t, a, n);
    } else {
      FloorKept(h, s, actor, p, t, a, n);
    }
    hide Accepted, Applied, Floor, GainsRow, GivesRow;
  }

  lemma FloorKept(h: Codec, s: State, actor: Actor, p: Policy, t: Option<Transition>, a: Id, n: nat)
    requires Floor(s, a, n) && n <= s.sequence && Accepted(h, s, actor, p, t)
    requires n == 0 || t.Some? || !GainsRow(s, Applied(s, actor, p, t), a)
    ensures Floor(Applied(s, actor, p, t), a, n)
  {
    AppliedBounds(h, s, actor, p, t);
    AcceptedCovers(h, s, actor, p, t);
    hide Accepted, Applied;
  }

  lemma FloorGone(h: Codec, s: State, actor: Actor, p: Policy, t: Option<Transition>, a: Id, n: nat)
    requires Accepted(h, s, actor, p, t) && t.None? && n > 0 && GainsRow(s, Applied(s, actor, p, t), a)
    ensures !Floor(Applied(s, actor, p, t), a, n)
  {
    AppliedBounds(h, s, actor, p, t);
    hide Accepted, Applied;
    var next := Applied(s, actor, p, t);
    if !(a in next.members && a !in s.members) {
      var o :| o in next.objects && a in next.objects[o].grants && (o !in s.objects || a !in s.objects[o].grants);
      assert next.objects[o].grants[a].historyAfter == 0;
    }
  }

  /** A step keeps a floor when it gives the account no row, or commits a transition. */
  lemma FloorStep(h: Codec, s: State, step: Step, a: Id, n: nat)
    requires Floor(s, a, n) && n <= s.sequence
    requires GainsRow(s, Next(h, s, step), a) ==> step.AccessSet? && step.under.Some?
    ensures Floor(Next(h, s, step), a, n)
  {
    RowsMoveByPolicy(h, s, step);
    hide Accepted, Applied, Next, GainsRow;
    if RowsStay(s, Next(h, s, step)) {
      FloorStays(s, Next(h, s, step), a, n);
    } else {
      FloorKept(h, s, step.actor, step.policy, step.under, a, n);
    }
    hide Floor, RowsStay;
  }

  lemma FloorStays(s: State, next: State, a: Id, n: nat)
    requires Floor(s, a, n) && RowsStay(s, next)
    ensures Floor(next, a, n)
  {
  }

  lemma AcceptedCovers(h: Codec, s: State, actor: Actor, p: Policy, t: Option<Transition>)
    requires Accepted(h, s, actor, p, t)
    ensures t.Some? ==> t.value.covered == s.sequence
  {
    hide ObjectError, PolicyShape, TransitionShape;
  }

  /** The same member and grant rows; an object that is new has none. */
  ghost predicate RowsStay(s: State, next: State) {
    && next.members == s.members
    && (forall o <- next.objects ::
          if o in s.objects then next.objects[o].grants == s.objects[o].grants else next.objects[o].grants == map[])
    && (forall o <- s.objects :: o in next.objects)
  }

  lemma AccessIsNext(h: Codec, s: State, step: Step)
    requires step.AccessSet?
    ensures Next(h, s, step) == Committed(s, SetAccess(h, s, step.actor, step.policy, step.under, step.verified))
  {
    hide SetAccess;
  }

  /** Only an applied policy moves a member or grant row. */
  lemma RowsMoveByPolicy(h: Codec, s: State, step: Step)
    ensures var next := Next(h, s, step);
      || RowsStay(s, next)
      || (step.AccessSet? && Accepted(h, s, step.actor, step.policy, step.under)
          && next == Applied(s, step.actor, step.policy, step.under))
  {
    hide Accepted, Applied, SetAccess, Next;
    if step.AccessSet? {
      AccessIsNext(h, s, step);
      SetAccessOutcome(h, s, step.actor, step.policy, step.under, step.verified);
    } else {
      GrantsStay(h, s, step);
    }
  }

  lemma GrantsStay(h: Codec, s: State, step: Step)
    requires !step.AccessSet?
    ensures RowsStay(s, Next(h, s, step))
  {
    hide NextAccess, NextContent, NextObject;
    ObjectGrantsStay(h, s, step);
  }

  lemma ObjectGrantsStay(h: Codec, s: State, step: Step)
    ensures RowsStay(s, NextObject(h, s, step))
  {
    hide CreateObject, StoreOwnKey, CommitActivation, StageActivation, RowsStay;
    SameRows(s);
    match step
    case Create(actor, id) => CreateRows(s, actor, id);
    case KeyStored(actor, share, k, verified) => KeyRows(s, actor, share, k, verified);
    case ActivationStaged(actor, a, verified) => StageRows(h, s, actor, a, verified);
    case ActivationCommitted(actor, id, verified) => CommitRows(h, s, actor, id, verified);
    case _ =>
  }

  lemma SameRows(s: State)
    ensures RowsStay(s, s)
  {
  }

  lemma CreateRows(s: State, actor: Actor, id: Id)
    ensures RowsStay(s, CommittedWith(s, CreateObject(s, actor, id)))
  {
    hide Active, HasRow;
  }

  lemma KeyRows(s: State, actor: Actor, share: bool, k: OwnKey, verified: bool)
    ensures RowsStay(s, Committed(s, StoreOwnKey(s, actor, share, k, verified)))
  {
    hide Active, HasRow, MayWrite, RecipientMatches;
  }

  lemma StageRows(h: Codec, s: State, actor: Actor, a: Activation, verified: bool)
    ensures RowsStay(s, Committed(s, StageActivation(h, s, actor, a, verified)))
  {
    hide StageActivation;
  }

  lemma CommitRows(h: Codec, s: State, actor: Actor, id: Id, verified: bool)
    ensures RowsStay(s, Committed(s, CommitActivation(h, s, actor, id, verified)))
  {
    hide Active, NewKeys, ActivationShape, BlobStored, LogAt, RecipientMatches;
  }

  /** Every step keeps the bound of every row that stays. */
  lemma NextKeepsBounds(h: Codec, s: State, step: Step)
    ensures BoundsKept(s, Next(h, s, step))
  {
    RowsMoveByPolicy(h, s, step);
    hide Next, Accepted, Applied;
    if step.AccessSet? && Accepted(h, s, step.actor, step.policy, step.under) {
      AppliedBounds(h, s, step.actor, step.policy, step.under);
    }
  }
}
