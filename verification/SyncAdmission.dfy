/** Which access policies the server takes, read off the rows, the policy and its transition. */
module SyncAdmission {
  import opened Wrappers
  import opened SyncTypes
  import opened SyncRules
  import opened SyncHistory
  import opened SyncPushes

  // ----- who reads before and after -----

  ghost predicate HadRow(s: State, target: Object, a: Id) { a in s.members || a in target.grants }

  ghost predicate WillRead(p: Policy, e: PolicyObject, a: Id) { a in p.members || a in e.grants }

  ghost predicate Held(target: Object, d: Id) { Slot(target.epoch, d) in target.keys }

  ghost predicate Gets(e: PolicyObject, d: Id) { exists v <- e.envelopes :: v.device == d }

  ghost predicate Named(p: Policy, a: Id) { a in p.members || exists e <- p.objects :: a in e.grants }

  ghost predicate Live(s: State, d: Id) { d in s.devices && !s.devices[d].revoked }

  /** An account or a device begins to read. */
  ghost predicate Joins(s: State, p: Policy, target: Object, e: PolicyObject) {
    || (exists a: Id :: WillRead(p, e, a) && !HadRow(s, target, a))
    || (exists d: Id :: Gets(e, d) && !Held(target, d))
  }

  /** An account stops reading, or a device that reads is no one's any more. */
  ghost predicate Leaves(s: State, p: Policy, target: Object, e: PolicyObject) {
    || (exists a: Id :: HadRow(s, target, a) && !WillRead(p, e, a))
    || (exists d: Id :: Held(target, d)
          && !(Live(s, d) && (s.devices[d].account in s.members || Named(p, s.devices[d].account))))
  }

  // ----- one object -----

  ghost predicate Brought(t: Option<Transition>, o: Id) {
    t.Some? && exists c <- t.value.checkpoints :: c.payload.objectId == o
  }

  /** The policy in force gives the object this document. */
  ghost predicate Unchanged(s: State, e: PolicyObject) {
    s.log != [] && exists before <- s.log[|s.log| - 1].objects :: before.id == e.id && before.document == e.document
  }

  /** The rules about epochs, checkpoints and transitions. */
  ghost predicate Rotated(s: State, p: Policy, t: Option<Transition>, target: Object, e: PolicyObject) {
    && (s.capability.Some? && Joins(s, p, target, e) ==> t.Some?)
    && (e.epoch == target.epoch || e.epoch == target.epoch + 1)
    && (Leaves(s, p, target, e) ==> e.epoch != target.epoch)
    && (t.Some? || target.checkpoints != map[] ==>
          && (Joins(s, p, target, e) ==> e.epoch != target.epoch)
          && (e.epoch != target.epoch ==> Brought(t, e.id)))
  }

  ghost predicate Documented(s: State, p: Policy, t: Option<Transition>, target: Object, e: PolicyObject) {
    && (p.version == 2 && !Brought(t, e.id) ==> Unchanged(s, e))
    && (Brought(t, e.id) ==>
          && e.epoch != target.epoch
          && forall c <- t.value.checkpoints | c.payload.objectId == e.id ::
               && (e.document.Some? ==> c.generation == e.document.value.generation)
               && forall epoch <- target.checkpoints :: target.checkpoints[epoch].generation != c.generation)
  }

  /** Exactly the live devices of the accounts that will read get an envelope, made for the
      key they enrolled; and an epoch that stays keeps the envelopes there are. */
  ghost predicate Enveloped(s: State, p: Policy, target: Object, e: PolicyObject) {
    && (forall d :: Gets(e, d) <==> Live(s, d) && WillRead(p, e, s.devices[d].account))
    && (forall v <- e.envelopes | v.wrap.Web? ::
          v.device in s.devices && s.devices[v.device].recipient == Some("x25519:" + v.wrap.recipientKey))
    && (e.epoch == target.epoch ==>
          forall v <- e.envelopes | Held(target, v.device) ::
            var row := target.keys[Slot(target.epoch, v.device)];
            row.wrapped == v.wrapped && (row.wrap.Age? <==> v.wrap.Age?))
  }

  ghost predicate Taken(s: State, p: Policy, t: Option<Transition>, target: Object, e: PolicyObject) {
    Rotated(s, p, t, target, e) && Documented(s, p, t, target, e) && Enveloped(s, p, target, e)
  }

  /** What the parsers promise of the values an entry is checked with. */
  ghost predicate Parsed(s: State, p: Policy, t: Option<Transition>, e: PolicyObject) {
    && e in p.objects && p.version in {1, 2} && (p.version == 2 <==> e.document.Some?)
    && (t.Some? ==> forall i, j | 0 <= i < j < |t.value.checkpoints| ::
          t.value.checkpoints[i].payload.objectId != t.value.checkpoints[j].payload.objectId)
    && (s.log != [] ==> DistinctObjects(s.log[|s.log| - 1].objects))
  }

  // ----- the server's sets are these readers -----

  lemma JoinsExactly(s: State, p: Policy, target: Object, e: PolicyObject)
    ensures Joins(s, p, target, e) <==>
      !(NextAccounts(p, e) <= s.members.Keys + target.grants.Keys) || !(EnvelopeDevices(e.envelopes) <= target.KeyDevices())
  {
    GetsExactly(e);
    HeldExactly(target);
    hide EnvelopeDevices, Gets, Held;
    forall a: Id ensures WillRead(p, e, a) <==> a in NextAccounts(p, e) {}
    forall a: Id ensures HadRow(s, target, a) <==> a in s.members.Keys + target.grants.Keys {}
    hide NextAccounts, WillRead, HadRow;
  }

  lemma GetsExactly(e: PolicyObject)
    ensures forall d :: Gets(e, d) <==> d in EnvelopeDevices(e.envelopes)
  {
  }

  lemma HeldExactly(target: Object)
    ensures forall d :: Held(target, d) <==> d in target.KeyDevices()
  {
    forall d ensures Held(target, d) <==> d in target.KeyDevices() {
      if Held(target, d) { assert Slot(target.epoch, d) in target.keys; }
      if d in target.KeyDevices() {
        var slot :| slot in target.keys && slot.epoch == target.epoch && slot.device == d;
        assert slot == Slot(target.epoch, d);
      }
    }
  }

  lemma NamedExactly(p: Policy)
    ensures forall a :: Named(p, a) <==> a in PolicyAccounts(p)
  {
  }

  lemma LeavesExactly(s: State, p: Policy, target: Object, e: PolicyObject)
    ensures Leaves(s, p, target, e) <==>
      || !(s.members.Keys + target.grants.Keys <= NextAccounts(p, e))
      || !(target.KeyDevices() <= ActiveDevices(s, s.members.Keys + PolicyAccounts(p)))
  {
    HeldExactly(target);
    NamedExactly(p);
    hide Named, Held, PolicyAccounts;
    forall a: Id ensures WillRead(p, e, a) <==> a in NextAccounts(p, e) {}
    forall a: Id ensures HadRow(s, target, a) <==> a in s.members.Keys + target.grants.Keys {}
    forall d ensures d in ActiveDevices(s, s.members.Keys + PolicyAccounts(p)) <==>
      Live(s, d) && (s.devices[d].account in s.members || Named(p, s.devices[d].account))
    {
    }
    hide NextAccounts, WillRead, HadRow, ActiveDevices, Live;
  }

  lemma RecipientsExactly(s: State, p: Policy, e: PolicyObject)
    requires e in p.objects
    ensures (forall d :: Gets(e, d) <==> Live(s, d) && WillRead(p, e, s.devices[d].account)) <==>
      (set d | d in ActiveDevices(s, s.members.Keys + PolicyAccounts(p)) && s.devices[d].account in NextAccounts(p, e))
        == EnvelopeDevices(e.envelopes)
  {
    GetsExactly(e);
    NamedExactly(p);
    hide EnvelopeDevices, Gets, PolicyAccounts;
    var all := s.members.Keys + PolicyAccounts(p);
    forall d ensures d in ActiveDevices(s, all) && s.devices[d].account in NextAccounts(p, e) <==>
      Live(s, d) && WillRead(p, e, s.devices[d].account)
    {
      assert d in s.devices && s.devices[d].account in NextAccounts(p, e) ==> Named(p, s.devices[d].account);
    }
    hide ActiveDevices, Live, WillRead, NextAccounts, Named;
    var wanted := set d | d in ActiveDevices(s, all) && s.devices[d].account in NextAccounts(p, e);
    assert forall d :: d in wanted <==> Live(s, d) && WillRead(p, e, s.devices[d].account);
  }

  lemma {:induction false} EnvelopesExactly(s: State, target: Object, epoch: nat, envelopes: seq<Envelope>)
    ensures EnvelopeError(s, target, epoch, envelopes).None? <==>
      && (forall v <- envelopes | v.wrap.Web? ::
            v.device in s.devices && s.devices[v.device].recipient == Some("x25519:" + v.wrap.recipientKey))
      && (epoch == target.epoch ==>
            forall v <- envelopes | Held(target, v.device) ::
              var row := target.keys[Slot(target.epoch, v.device)];
              row.wrapped == v.wrapped && (row.wrap.Age? <==> v.wrap.Age?))
  {
    if envelopes != [] {
      var n := |envelopes| - 1;
      EnvelopesExactly(s, target, epoch, envelopes[..n]);
      assert envelopes == envelopes[..n] + [envelopes[n]];
    }
  }

  lemma {:induction false} FoundFirst(checkpoints: seq<Checkpoint>, o: Id)
    requires forall i, j | 0 <= i < j < |checkpoints| :: checkpoints[i].payload.objectId != checkpoints[j].payload.objectId
    ensures FindCheckpoint(checkpoints, o).Some? <==> exists c <- checkpoints :: c.payload.objectId == o
    ensures forall c <- checkpoints | c.payload.objectId == o :: FindCheckpoint(checkpoints, o) == Some(c)
  {
    if checkpoints != [] && checkpoints[0].payload.objectId != o {
      FoundFirst(checkpoints[1..], o);
      assert checkpoints == [checkpoints[0]] + checkpoints[1..];
    }
  }

  lemma PriorExactly(s: State, p: Policy, t: Option<Transition>, e: PolicyObject)
    requires Parsed(s, p, t, e) && p.version == 2
    ensures Unchanged(s, e) <==> PriorDocument(s, e.id) == e.document
  {
    if s.log != [] {
      var before := s.log[|s.log| - 1].objects;
      forall x <- before { EntryFound(before, x); }
    }
    hide Entry, DistinctObjects;
  }

  lemma RotatedExactly(s: State, p: Policy, t: Option<Transition>, target: Object, e: PolicyObject, joins: bool, leaves: bool)
    requires joins == Joins(s, p, target, e) && leaves == Leaves(s, p, target, e)
    requires CheckpointFor(t, e.id).Some? <==> Brought(t, e.id)
    ensures Rotated(s, p, t, target, e) <==>
      && !(s.capability.Some? && joins && t.None?)
      && !(e.epoch < target.epoch || e.epoch > target.epoch + 1
           || ((leaves || ((t.Some? || target.Enrolled()) && joins)) && e.epoch != target.epoch + 1))
      && !((t.Some? || target.Enrolled()) && e.epoch != target.epoch && CheckpointFor(t, e.id).None?)
  {
    hide Joins, Leaves, Brought, CheckpointFor;
  }

  lemma BroughtExactly(t: Option<Transition>, o: Id)
    requires t.Some? ==> forall i, j | 0 <= i < j < |t.value.checkpoints| ::
      t.value.checkpoints[i].payload.objectId != t.value.checkpoints[j].payload.objectId
    ensures CheckpointFor(t, o).Some? <==> Brought(t, o)
    ensures t.Some? ==> forall c <- t.value.checkpoints | c.payload.objectId == o :: CheckpointFor(t, o) == Some(c)
    ensures CheckpointFor(t, o).Some? ==>
      t.Some? && CheckpointFor(t, o).value in t.value.checkpoints && CheckpointFor(t, o).value.payload.objectId == o
  {
    if t.Some? { FoundFirst(t.value.checkpoints, o); }
  }

  lemma DocumentedExactly(s: State, p: Policy, t: Option<Transition>, target: Object, e: PolicyObject)
    requires Parsed(s, p, t, e)
    ensures var checkpoint := CheckpointFor(t, e.id);
      Documented(s, p, t, target, e) <==>
      && !(p.version == 2 && PriorDocument(s, e.id) != e.document && checkpoint.None?)
      && !(checkpoint.Some? && p.version == 2
           && (e.document.None? || checkpoint.value.generation != e.document.value.generation))
      && !(checkpoint.Some? && e.epoch == target.epoch)
      && !(checkpoint.Some? && exists epoch <- target.checkpoints ::
             target.checkpoints[epoch].generation == checkpoint.value.generation)
  {
    BroughtExactly(t, e.id);
    if p.version == 2 { PriorExactly(s, p, t, e); }
    hide CheckpointFor, PriorDocument, Unchanged, DistinctObjects;
  }

  /** An entry passes the server's checks if and only if it is taken in this sense. */
  lemma EntryTakenExactly(s: State, p: Policy, t: Option<Transition>, e: PolicyObject)
    requires e.id in s.objects && Parsed(s, p, t, e)
    ensures ObjectError(s, p, t, e).None? <==> Taken(s, p, t, s.objects[e.id], e)
  {
    var target := s.objects[e.id];
    BroughtExactly(t, e.id);
    JoinsExactly(s, p, target, e);
    LeavesExactly(s, p, target, e);
    RotatedExactly(s, p, t, target, e, Joins(s, p, target, e), Leaves(s, p, target, e));
    DocumentedExactly(s, p, t, target, e);
    RecipientsExactly(s, p, e);
    EnvelopesExactly(s, target, e.epoch, e.envelopes);
    hide Parsed, Rotated, Documented, Joins, Leaves, NextAccounts, ActiveDevices, PolicyAccounts, EnvelopeDevices,
         EnvelopeError, PriorDocument, CheckpointFor, Brought, Gets, Live, WillRead;
  }

  // ----- what parses -----

  /** The policies that parse: of version 1, or of version 2 with a document for each object;
      with an owner, at most 1000 members and 1000 objects, each named once; and for each
      object at most 1000 grants and 1000 envelopes, one per device. */
  lemma PolicyParses(p: Policy)
    ensures PolicyShape(p) <==>
      && (p.version == 1 || p.version == 2) && p.revision > 0 && |p.members| < 1001 && |p.objects| < 1001
      && !(forall a <- p.members :: p.members[a] in {Admin, Editor, Viewer})
      && (forall i, j | 0 <= i < |p.objects| && 0 <= j < |p.objects| && p.objects[i].id == p.objects[j].id :: i == j)
      && forall e <- p.objects ::
           && e.epoch > 0 && |e.grants| < 1001 && |e.envelopes| < 1001 && (e.document.None? <==> p.version == 1)
           && forall i, j | 0 <= i < |e.envelopes| && 0 <= j < |e.envelopes| && e.envelopes[i].device == e.envelopes[j].device ::
                i == j
  {
    forall e <- p.objects ensures DistinctEnvelopes(e.envelopes) <==>
      forall i, j | 0 <= i < |e.envelopes| && 0 <= j < |e.envelopes| && e.envelopes[i].device == e.envelopes[j].device :: i == j
    {
    }
    hide DistinctEnvelopes;
  }

  /** The transitions that parse: their policy does; they bring at most 1000 checkpoints, each
      for another entry of the policy at its epoch and generation, signed by its device for its
      revision and the covered sequence; and version 2 names blobs of those objects. */
  lemma TransitionParses(t: Transition)
    ensures TransitionShape(t) <==>
      && (t.version == 1 || t.version == 2) && PolicyShape(t.policy)
      && |t.checkpoints| < 1001 && |t.blobs| < 1001 && (t.blobs != [] ==> t.version == 2)
      && (forall i, j | 0 <= i < |t.checkpoints| && 0 <= j < |t.checkpoints|
                        && t.checkpoints[i].payload.objectId == t.checkpoints[j].payload.objectId :: i == j)
      && (forall i, j | 0 <= i < |t.blobs| && 0 <= j < |t.blobs|
                        && t.blobs[i].objectId == t.blobs[j].objectId && t.blobs[i].digest == t.blobs[j].digest :: i == j)
      && (forall c <- t.checkpoints ::
            && c.covered == t.covered && c.payload.workspace == t.policy.workspace
            && c.payload.device == t.policy.device && c.payload.policyRevision == t.policy.revision
            && exists e <- t.policy.objects :: e.id == c.payload.objectId && e.epoch == c.payload.epoch
                 && (e.document.None? || e.document.value.generation == c.generation))
      && (forall b <- t.blobs ::
            && 0 < b.size <= 1073741824
            && (exists e <- t.policy.objects :: e.id == b.objectId && e.epoch == b.epoch)
            && exists c <- t.checkpoints :: c.payload.objectId == b.objectId)
  {
    if PolicyShape(t.policy) {
      forall e <- t.policy.objects ensures Entry(t.policy.objects, e.id) == Some(e) { ShapeFound(t.policy, e); }
    }
    hide PolicyShape, Entry;
  }

  lemma ShapeFound(p: Policy, e: PolicyObject)
    requires PolicyShape(p) && e in p.objects
    ensures Entry(p.objects, e.id) == Some(e)
  {
    EntryFound(p.objects, e);
  }

  lemma ActivationParses(a: Activation)
    ensures ActivationShape(a) <==>
      && (a.version == 1 || a.version == 2) && 0 < |a.envelopes| < 1001
      && (forall i, j | 0 <= i < |a.envelopes| && 0 <= j < |a.envelopes| && a.envelopes[i].device == a.envelopes[j].device :: i == j)
      && (a.blobs == []
          || (a.version == 2 && |a.blobs| == 1 && a.blobs[0].objectId == a.checkpoint.payload.objectId
              && a.blobs[0].epoch == 1 && 0 < a.blobs[0].size <= 1073741824))
      && a.checkpoint.payload.workspace == a.workspace && a.checkpoint.payload.device == a.device
      && a.checkpoint.payload.policyRevision == a.policyRevision && a.checkpoint.payload.epoch == 1
      && a.checkpoint.covered == a.covered && a.checkpoint.generation == a.document.generation
  {
  }

  // ----- the whole policy -----

  ghost predicate HasRole(s: State, a: Id, roles: set<Role>) { a in s.members && s.members[a].role in roles }

  /** The row is this transition's. */
  ghost predicate Staged(h: Codec, s: State, t: Transition) {
    t.id in s.transitions && s.transitions[t.id].digest == h.transition(t)
  }

  /** The blob was uploaded for this owner, whole, and stored. */
  ghost predicate StoredFor(s: State, owner: BlobOwner, b: BlobEntry) {
    var key := BlobKey(b.objectId, b.digest);
    && key in s.blobs
    && s.blobs[key] == BlobRow(b.epoch, b.size, s.blobs[key].upload, s.blobs[key].device, owner, true, false, s.blobs[key].storage)
  }

  /** Every blob the transition names was uploaded for it, whole. */
  ghost predicate Uploaded(s: State, t: Transition) {
    forall b <- t.blobs :: StoredFor(s, ForTransition(t.id), b)
  }

  /** Asked by a current device that signed it, for this workspace and transition. */
  ghost predicate Asked(h: Codec, s: State, actor: Actor, p: Policy, t: Option<Transition>, verified: bool) {
    && PolicyShape(p) && (t.Some? ==> TransitionShape(t.value) && h.policy(t.value.policy) == h.policy(p))
    && p.device == actor.device && verified && p.workspace == s.id && Current(s, actor)
  }

  /** The policy follows the one in force, from someone who may set it. */
  ghost predicate Follows(h: Codec, s: State, actor: Actor, p: Policy) {
    && HasRole(s, actor.account, {Owner, Admin})
    && p.revision == s.revision + 1
    && (if s.log == [] then p.previous == None
        else p.previous == Some(h.policy(s.log[|s.log| - 1])) && (s.log[|s.log| - 1].version == 2 ==> p.version == 2))
    && (HasRole(s, actor.account, {Owner})
        || forall a :: (a in s.members <==> a in p.members) && (a in s.members ==> s.members[a].role == p.members[a]))
    && (forall o :: o in s.objects <==> exists e <- p.objects :: e.id == o)
    && (forall a | Named(p, a) :: exists d :: Live(s, d) && s.devices[d].account == a)
  }

  ghost predicate Ready(h: Codec, s: State, t: Transition) {
    Staged(h, s, t) && !s.transitions[t.id].committed && t.covered == s.sequence && Uploaded(s, t)
  }

  lemma LiveDevices(s: State, p: Policy, a: Id)
    requires Named(p, a)
    ensures ActiveDevices(s, s.members.Keys + PolicyAccounts(p)) * ActiveDevices(s, {a}) != {} <==>
      exists d :: Live(s, d) && s.devices[d].account == a
  {
    NamedExactly(p);
    hide Named, PolicyAccounts;
    var all := s.members.Keys + PolicyAccounts(p);
    forall d ensures d in ActiveDevices(s, all) * ActiveDevices(s, {a}) <==> Live(s, d) && s.devices[d].account == a {}
    hide ActiveDevices, Live;
    var both := ActiveDevices(s, all) * ActiveDevices(s, {a});
    if d :| Live(s, d) && s.devices[d].account == a { assert d in both; }
    if both != {} { var d :| d in both; }
  }

  lemma RolesSame(s: State, p: Policy)
    ensures (map a | a in s.members :: s.members[a].role) == p.members <==>
      forall a :: (a in s.members <==> a in p.members) && (a in s.members ==> s.members[a].role == p.members[a])
  {
    var roles := map a | a in s.members :: s.members[a].role;
    assert forall a :: a in roles <==> a in s.members;
    assert roles == p.members <==> roles.Keys == p.members.Keys && forall a <- roles :: roles[a] == p.members[a];
  }

  lemma ObjectsSame(s: State, p: Policy)
    ensures s.objects.Keys == (set e | e in p.objects :: e.id) <==>
      forall o :: o in s.objects <==> exists e <- p.objects :: e.id == o
  {
    var ids := set e | e in p.objects :: e.id;
    assert forall o :: o in ids <==> exists e <- p.objects :: e.id == o;
  }

  lemma GateExactly(h: Codec, s: State, actor: Actor, p: Policy)
    ensures PolicyGate(h, s, actor, p) == Apply <==> Follows(h, s, actor, p)
    ensures PolicyGate(h, s, actor, p) == Keep <==>
      HasRole(s, actor.account, {Owner, Admin}) && p.revision == s.revision && 1 <= p.revision <= |s.log| && s.log[p.revision - 1] == p
  {
    NamedExactly(p);
    forall a | Named(p, a) { LiveDevices(s, p, a); }
    RolesSame(s, p);
    ObjectsSame(s, p);
    hide Named, PolicyAccounts, ActiveDevices, Live;
  }

  lemma TransitionExactly(h: Codec, s: State, t: Transition)
    ensures TransitionPlan(h, s, t).None? <==> Ready(h, s, t)
    ensures TransitionPlan(h, s, t) == Some(Keep) <==> Staged(h, s, t) && s.transitions[t.id].committed
  {
  }

  /** A policy is applied if and only if it was asked for properly, its transition is ready,
      it follows the policy in force, and each of its entries is taken. */
  lemma PolicyTakenExactly(h: Codec, s: State, actor: Actor, p: Policy, t: Option<Transition>, verified: bool)
    requires s.log != [] ==> DistinctObjects(s.log[|s.log| - 1].objects)
    ensures Plan(h, s, actor, p, t, verified) == Apply <==>
      && Asked(h, s, actor, p, t, verified) && (t.Some? ==> Ready(h, s, t.value)) && Follows(h, s, actor, p)
      && forall e <- p.objects :: e.id in s.objects && Taken(s, p, t, s.objects[e.id], e)
  {
    CurrentExactly(s, actor);
    GateExactly(h, s, actor, p);
    if t.Some? { TransitionExactly(h, s, t.value); }
    if Asked(h, s, actor, p, t, verified) && Follows(h, s, actor, p) {
      forall e <- p.objects ensures e.id in s.objects && (ObjectError(s, p, t, e).None? <==> Taken(s, p, t, s.objects[e.id], e)) {
        EntryParsed(s, p, t, e);
        assert e.id in s.objects by { assert exists x <- p.objects :: x.id == e.id; }
        EntryTakenExactly(s, p, t, e);
      }
    }
    hide PolicyShape, TransitionShape, Active, Current, PolicyGate, TransitionPlan, ObjectError, Taken, Ready, Follows;
  }

  lemma EntryParsed(s: State, p: Policy, t: Option<Transition>, e: PolicyObject)
    requires PolicyShape(p) && (t.Some? ==> TransitionShape(t.value)) && e in p.objects
    requires s.log != [] ==> DistinctObjects(s.log[|s.log| - 1].objects)
    ensures Parsed(s, p, t, e)
  {
    hide CheckpointFits, BlobFits, DistinctEnvelopes, DistinctObjects;
  }

  /** Setting access again answers without change exactly when the transition was committed,
      or, without a transition or with one that is ready, the policy is the one in force. */
  lemma PolicyKeptExactly(h: Codec, s: State, actor: Actor, p: Policy, t: Option<Transition>, verified: bool)
    ensures Plan(h, s, actor, p, t, verified) == Keep <==>
      && Asked(h, s, actor, p, t, verified)
      && ((t.Some? && Staged(h, s, t.value) && s.transitions[t.value.id].committed)
          || ((t.Some? ==> Ready(h, s, t.value)) && HasRole(s, actor.account, {Owner, Admin})
              && p.revision == s.revision && 1 <= p.revision <= |s.log| && s.log[p.revision - 1] == p))
  {
    CurrentExactly(s, actor);
    GateExactly(h, s, actor, p);
    if t.Some? { TransitionExactly(h, s, t.value); }
    hide PolicyShape, TransitionShape, Active, Current, PolicyGate, TransitionPlan, ObjectError, Ready, Follows, HasRole;
  }
}
