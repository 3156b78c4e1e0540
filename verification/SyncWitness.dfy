/** Runs, for any digests, in which an object's first rotation takes its activation's
    generation again, and in which an activated object takes another recipient. */
module SyncWitness {
  import opened Wrappers
  import opened SyncTypes
  import opened SyncRules
  import opened SyncRuns
  import opened SyncDocuments
  import opened SyncHistory
  import opened SyncGaps

  const ALICE := Actor("laptop", "alice", "key")
  const DEVICES := map["laptop" := Device("alice", "key", None, false), "phone" := Device("bob", "other", None, false)]
  const AUTHORITY := Capability("w", "laptop", "sig")
  const TEXT := Document("g", TextMode)

  function Wrapped(device: Id, key: string): Envelope { Envelope(device, key, "sig", Age) }

  function Payload(id: Id, epoch: nat, revision: nat): Operation {
    Operation(id, "w", "o", "laptop", epoch, revision, "n", "", Edit("g", TextKind), "sig")
  }

  const FIRST := Policy(2, "w", 1, None, "laptop", map["alice" := Owner], [], "sig")

  function Starting(h: Codec): Activation {
    Activation(1, "a", "w", 1, 0, h.capability(AUTHORITY), "laptop", TEXT, [Wrapped("laptop", "k1")],
               Checkpoint("g", 0, Payload("c1", 1, 1), "sig"), [], "sig")
  }

  function Shared(grants: map<Id, GrantRole>): PolicyObject {
    PolicyObject("o", 2, Some(TEXT), grants, [Wrapped("laptop", "k2"), Wrapped("phone", "k3")])
  }

  const BOTH: map<Id, Role> := map["alice" := Owner, "bob" := Editor]

  function Second(h: Codec): Policy {
    Policy(2, "w", 2, Some(h.policy(FIRST)), "laptop", BOTH, [Shared(map[])], "sig")
  }

  function Rotation(h: Codec): Transition {
    Transition(1, "t", 1, Second(h), [Checkpoint("g", 1, Payload("c2", 2, 2), "sig")], [], "sig")
  }

  // ----- the states of the run -----

  function Quota(h: Codec): nat { h.activationBytes(Starting(h)) + h.transitionBytes(Rotation(h)) }

  function Start(h: Codec): State { Created("w", Quota(h), DEVICES, "alice") }

  function Founded(h: Codec): State {
    Start(h).(capability := Some(AUTHORITY), log := [FIRST], revision := 1)
  }

  function Prepared(h: Codec): State {
    var a := Starting(h);
    Founded(h).(
      activations := map["a" := ActivationRow("laptop", h.activation(a), a, h.activationBytes(a), false)],
      used := h.activationBytes(a))
  }

  function Published(h: Codec): State {
    var s := Prepared(h);
    s.(objects := map["o" := Activated(Starting(h), "laptop")],
       activations := map["a" := s.activations["a"].(committed := true)])
  }

  function Wrote(h: Codec): State {
    var op := Payload("x", 1, 1);
    Published(h).(ops := [OpRow(op, 1, h.op(op), 0)], sequence := 1)
  }

  function Staged(h: Codec): State {
    var t := Rotation(h);
    Wrote(h).(
      transitions := map["t" := TransitionRow("laptop", h.transition(t), t, h.transitionBytes(t), false)],
      used := Wrote(h).used + h.transitionBytes(t))
  }

  const ROW := Object(2, Some(TEXT), map[],
                      map[Slot(1, "laptop") := KeyRow("k1", "laptop", "sig", Age),
                          Slot(2, "laptop") := KeyRow("k2", "laptop", "sig", Age),
                          Slot(2, "phone") := KeyRow("k3", "laptop", "sig", Age)],
                      map[2 := CheckpointRow("t", "g", 1, Checkpoint("g", 1, Payload("c2", 2, 2), "sig"))],
                      map[1 := CheckpointRow("a", "g", 0, Checkpoint("g", 0, Payload("c1", 1, 1), "sig"))])

  const MEMBERS := map["alice" := MemberRow(Owner, 0), "bob" := MemberRow(Editor, 1)]

  function Rotated(h: Codec): State {
    var s := Staged(h);
    s.(objects := map["o" := ROW], members := MEMBERS, log := [FIRST, Second(h)], revision := 2,
       transitions := map["t" := s.transitions["t"].(committed := true)])
  }

  const YES: Operation -> bool := op => true

  // ----- each step of it -----

  lemma AppliedIsNext(h: Codec, s: State, p: Policy, t: Option<Transition>)
    requires Plan(h, s, ALICE, p, t, true) == Apply
    ensures Next(h, s, AccessSet(ALICE, p, t, true)) == Applied(s, ALICE, p, t)
  {
    hide Plan, Applied, Next;
    AccessIsNext(h, s, AccessSet(ALICE, p, t, true));
  }

  function Trusted(h: Codec): State { Start(h).(capability := Some(AUTHORITY)) }

  lemma Trusts(h: Codec)
    ensures Next(h, Start(h), CapabilityPut(ALICE, AUTHORITY, true)) == Trusted(h)
  {
  }

  lemma PlansFirst(h: Codec)
    ensures Plan(h, Trusted(h), ALICE, FIRST, None, true) == Apply
  {
    var s := Trusted(h);
    assert FIRST.members["alice"] == Owner;
    assert "laptop" in ActiveDevices(s, {"alice"}) && "laptop" in ActiveDevices(s, s.members.Keys + PolicyAccounts(FIRST));
  }

  lemma Founds(h: Codec)
    ensures Applied(Trusted(h), ALICE, FIRST, None) == Founded(h)
  {
  }

  lemma Prepares(h: Codec)
    ensures Next(h, Founded(h), ActivationStaged(ALICE, Starting(h), true)) == Prepared(h)
  {
  }

  lemma PublishesRow(h: Codec)
    ensures CommitActivation(h, Prepared(h), ALICE, "a", true) == Ok(Published(h))
  {
    var s, a := Prepared(h), Starting(h);
    assert s.activations["a"].body == a;
    assert ActivationShape(a);
    assert ActivationError(h, s, ALICE, a, true).None?;
    assert s.objects[a.Object() := Activated(a, "laptop")] == Published(h).objects;
    assert s.activations["a" := s.activations["a"].(committed := true)] == Published(h).activations;
  }

  lemma Publishes(h: Codec)
    ensures Next(h, Prepared(h), ActivationCommitted(ALICE, "a", true)) == Published(h)
  {
    PublishesRow(h);
    hide CommitActivation, Prepared, Published;
  }

  lemma WritesOne(h: Codec)
    ensures PushOne(h, Published(h), ALICE, Payload("x", 1, 1)) == Ok((Wrote(h), 1))
  {
    assert DecodedLength("") == 0;
    var s := Published(h);
    assert s.ops + [OpRow(Payload("x", 1, 1), 1, h.op(Payload("x", 1, 1)), 0)] == Wrote(h).ops;
    assert MayWrite(s, "alice", "o") && FindOp(s.ops, "x").None?;
  }

  lemma WritesBatch(h: Codec)
    ensures Push(h, Published(h), ALICE, [Payload("x", 1, 1)], YES) == Ok((Wrote(h), [1]))
  {
    WritesOne(h);
    hide PushOne;
    var op := Payload("x", 1, 1);
    assert [op][..0] == [];
    assert PushAll(h, Published(h), ALICE, []) == Ok((Published(h), []));
    assert PushAll(h, Published(h), ALICE, [op]) == Ok((Wrote(h), [] + [1]));
    assert Screen(Published(h), ALICE, [], YES).None?;
    assert Screen(Published(h), ALICE, [op], YES).None?;
    assert [] + [1] == [1];
  }

  lemma Writing(h: Codec)
    ensures Next(h, Published(h), Pushed(ALICE, [Payload("x", 1, 1)], YES)) == Wrote(h)
  {
    WritesBatch(h);
    hide Push, Published, Wrote;
  }

  lemma RotationFits(h: Codec)
    ensures TransitionShape(Rotation(h)) && PolicyShape(Second(h))
  {
    assert BOTH["alice"] == Owner;
  }

  lemma WroteRows(h: Codec)
    ensures var s := Wrote(h);
      && s.id == "w" && s.devices == DEVICES && s.members == map["alice" := MemberRow(Owner, 0)]
      && s.capability == Some(AUTHORITY) && s.transitions == map[] && s.revision == 1 && s.sequence == 1
      && s.quota == s.used + h.transitionBytes(Rotation(h))
  {
  }

  lemma StagesRow(h: Codec)
    ensures StageTransition(h, Wrote(h), ALICE, Rotation(h), true) == Ok(Staged(h))
  {
    hide TransitionShape, Wrote;
    WroteRows(h);
    RotationFits(h);
  }

  lemma Stages(h: Codec)
    ensures Next(h, Wrote(h), TransitionStaged(ALICE, Rotation(h), true)) == Staged(h)
  {
    StagesRow(h);
    hide StageTransition, Wrote, Staged, Rotation;
  }

  /** The readers of a policy for alice and bob, each with one device. */
  lemma Readers(s: State, p: Policy)
    requires s.devices == DEVICES && s.members.Keys <= {"alice", "bob"}
    requires p.members == BOTH && |p.objects| == 1 && p.objects[0].grants.Keys <= {"bob"}
    ensures PolicyAccounts(p) == {"alice", "bob"}
    ensures ActiveDevices(s, s.members.Keys + PolicyAccounts(p)) == {"laptop", "phone"}
    ensures ActiveDevices(s, {"alice"}) == {"laptop"} && ActiveDevices(s, {"bob"}) == {"phone"}
  {
    assert forall o <- p.objects :: o == p.objects[0];
    var active := ActiveDevices(s, {"alice", "bob"});
    assert "laptop" in active && "phone" in active && active <= DEVICES.Keys;
    assert PolicyAccounts(p) == {"alice", "bob"} by {
      assert "alice" in BOTH && "bob" in BOTH;
    }
    assert s.members.Keys + PolicyAccounts(p) == {"alice", "bob"};
    assert "laptop" in ActiveDevices(s, {"alice"}) && "phone" in ActiveDevices(s, {"bob"});
  }

  lemma StagedRows(h: Codec)
    ensures var s := Staged(h);
      && s.id == "w" && s.devices == DEVICES && s.members == map["alice" := MemberRow(Owner, 0)]
      && s.capability == Some(AUTHORITY) && s.revision == 1 && s.sequence == 1 && s.log == [FIRST]
      && s.transitions == map["t" := s.transitions["t"]] && !s.transitions["t"].committed
      && s.transitions["t"].digest == h.transition(Rotation(h))
      && s.objects == map["o" := Activated(Starting(h), "laptop")] && s.links == map[]
  {
  }

  lemma GatesSecond(h: Codec)
    ensures PolicyGate(h, Staged(h), ALICE, Second(h)) == Apply
  {
    var s, p := Staged(h), Second(h);
    hide ActiveDevices, PolicyAccounts, Staged;
    StagedRows(h);
    Readers(s, p);
    GateReaders(s, p);
    assert {"o"} == (set e | e in p.objects :: e.id);
    assert RoleOf(s, "alice") == Some(Owner) && Latest(s) == Some(FIRST) && p.revision == s.revision + 1;
    assert p.version == 2 && p.previous == Some(h.policy(FIRST));
    hide Second;
  }

  /** Each of the two readers has an active device. */
  lemma GateReaders(s: State, p: Policy)
    requires PolicyAccounts(p) == {"alice", "bob"}
    requires ActiveDevices(s, s.members.Keys + PolicyAccounts(p)) == {"laptop", "phone"}
    requires ActiveDevices(s, {"alice"}) == {"laptop"} && ActiveDevices(s, {"bob"}) == {"phone"}
    ensures forall a <- PolicyAccounts(p) ::
      ActiveDevices(s, s.members.Keys + PolicyAccounts(p)) * ActiveDevices(s, {a}) != {}
  {
    hide ActiveDevices, PolicyAccounts;
    assert "laptop" in {"laptop", "phone"} * {"laptop"} && "phone" in {"laptop", "phone"} * {"phone"};
  }

  lemma SharedDevices(grants: map<Id, GrantRole>)
    ensures EnvelopeDevices(Shared(grants).envelopes) == {"laptop", "phone"}
  {
    var envelopes := Shared(grants).envelopes;
    assert envelopes[0].device == "laptop" && envelopes[1].device == "phone";
  }

  /** Two age envelopes that change no row of the epoch they join. */
  lemma EnvelopesStored(s: State, target: Object, epoch: nat, envelopes: seq<Envelope>)
    requires |envelopes| == 2 && envelopes[0].wrap.Age? && envelopes[1].wrap.Age?
    requires forall e <- envelopes | epoch == target.epoch && Slot(epoch, e.device) in target.keys ::
      target.keys[Slot(epoch, e.device)].wrapped == e.wrapped && target.keys[Slot(epoch, e.device)].wrap == e.wrap
    ensures EnvelopeError(s, target, epoch, envelopes).None?
  {
    var one := envelopes[..1];
    assert one[..0] == [] && one == [envelopes[0]];
    assert EnvelopeError(s, target, epoch, []).None?;
    assert EnvelopeError(s, target, epoch, one).None?;
  }

  lemma AcceptsSecond(h: Codec)
    ensures ObjectError(Staged(h), Second(h), Some(Rotation(h)), Shared(map[])).None?
  {
    var s, entry := Staged(h), Shared(map[]);
    hide Staged, ActiveDevices, PolicyAccounts, EnvelopeDevices;
    StagedRows(h);
    SharedDevices(map[]);
    Readers(s, Second(h));
    assert s.objects["o"].epoch == 1 && s.objects["o"].checkpoints == map[] && s.objects["o"].grants == map[];
    assert CheckpointFor(Some(Rotation(h)), "o") == Some(Rotation(h).checkpoints[0]);
    assert NextAccounts(Second(h), entry) == {"alice", "bob"};
    EnvelopesStored(s, s.objects["o"], 2, entry.envelopes);
    hide NextAccounts, CheckpointFor, EnvelopeError;
    var devices := {"laptop", "phone"};
    assert (set d | d in devices && s.devices[d].account in {"alice", "bob"}) == devices;
  }

  lemma OneObject(s: State, p: Policy, t: Option<Transition>, entry: PolicyObject)
    requires p.objects == [entry] && entry.id in s.objects
    ensures FirstObjectError(s, p, t, p.objects) == ObjectError(s, p, t, entry)
  {
    hide ObjectError;
    assert p.objects[..0] == [];
    assert FirstObjectError(s, p, t, []).None?;
  }

  lemma PlansSecond(h: Codec)
    ensures Plan(h, Staged(h), ALICE, Second(h), Some(Rotation(h)), true) == Apply
  {
    var s := Staged(h);
    hide Staged, PolicyGate, ObjectError, PolicyShape, TransitionShape;
    StagedRows(h);
    RotationFits(h);
    GatesSecond(h);
    AcceptsSecond(h);
    OneObject(s, Second(h), Some(Rotation(h)), Shared(map[]));
    hide FirstObjectError;
    assert Active(s, ALICE);
  }

  lemma RotatesRow(h: Codec)
    ensures NextRow(Activated(Starting(h), "laptop"), Some(Rotation(h)), "laptop", Shared(map[])) == ROW
  {
    var entry := Shared(map[]);
    assert entry.envelopes[..1] == [entry.envelopes[0]] && entry.envelopes[..1][..0] == [];
    assert NewKeys(2, "laptop", entry.envelopes) ==
      map[Slot(2, "laptop") := KeyRow("k2", "laptop", "sig", Age), Slot(2, "phone") := KeyRow("k3", "laptop", "sig", Age)] by {
      assert NewKeys(2, "laptop", []) == map[];
      assert NewKeys(2, "laptop", entry.envelopes[..1]) == map[Slot(2, "laptop") := KeyRow("k2", "laptop", "sig", Age)];
    }
  }

  lemma OneRow(s: State, t: Option<Transition>, entry: PolicyObject, before: Object)
    requires s.objects == map[entry.id := before] && s.links == map[]
    ensures NextObjects(s, t, "laptop", [entry]) == map[entry.id := NextRow(before, t, "laptop", entry)]
    ensures NextLinks(s, [entry]) == map[]
  {
    hide NextRow;
    assert [entry][0] == entry;
  }

  lemma Rotating(h: Codec)
    ensures Applied(Staged(h), ALICE, Second(h), Some(Rotation(h))) == Rotated(h)
  {
    var s, t := Staged(h), Some(Rotation(h));
    hide Staged, NextRow;
    StagedRows(h);
    RotatesRow(h);
    OneRow(s, t, Shared(map[]), Activated(Starting(h), "laptop"));
    assert NextMembers(s, Second(h), t) == MEMBERS;
    hide NextObjects, NextLinks, NextMembers;
    assert [FIRST] + [Second(h)] == [FIRST, Second(h)];
  }

  // ----- the run -----

  function Steps(h: Codec): seq<Step> {
    [CapabilityPut(ALICE, AUTHORITY, true), AccessSet(ALICE, FIRST, None, true),
     ActivationStaged(ALICE, Starting(h), true), ActivationCommitted(ALICE, "a", true),
     Pushed(ALICE, [Payload("x", 1, 1)], YES), TransitionStaged(ALICE, Rotation(h), true),
     AccessSet(ALICE, Second(h), Some(Rotation(h)), true)]
  }

  lemma RunStep(h: Codec, s: State, steps: seq<Step>, k: nat, before: State, after: State)
    requires k < |steps| && Run(h, s, steps[..k]) == before && Next(h, before, steps[k]) == after
    ensures Run(h, s, steps[..k + 1]) == after
  {
    hide Next;
    assert steps[..k + 1][..k] == steps[..k];
  }

  lemma ReachesPublished(h: Codec)
    ensures Run(h, Start(h), Steps(h)[..4]) == Published(h)
  {
    hide Next, Plan, Applied, Start, Trusted, Founded, Prepared, Published, Starting, Rotation, Second;
    var steps := Steps(h);
    assert Run(h, Start(h), steps[..0]) == Start(h);
    Trusts(h);
    RunStep(h, Start(h), steps, 0, Start(h), Trusted(h));
    PlansFirst(h);
    AppliedIsNext(h, Trusted(h), FIRST, None);
    Founds(h);
    RunStep(h, Start(h), steps, 1, Trusted(h), Founded(h));
    Prepares(h);
    RunStep(h, Start(h), steps, 2, Founded(h), Prepared(h));
    Publishes(h);
    RunStep(h, Start(h), steps, 3, Prepared(h), Published(h));
  }

  lemma ReachesRotated(h: Codec)
    ensures Run(h, Start(h), Steps(h)[..7]) == Rotated(h)
  {
    hide Run, Next, Plan, Applied, Start, Published, Wrote, Staged, Rotated, Starting, Rotation, Second;
    var steps := Steps(h);
    ReachesPublished(h);
    Writing(h);
    RunStep(h, Start(h), steps, 4, Published(h), Wrote(h));
    Stages(h);
    RunStep(h, Start(h), steps, 5, Wrote(h), Staged(h));
    PlansSecond(h);
    AppliedIsNext(h, Staged(h), Second(h), Some(Rotation(h)));
    Rotating(h);
    RunStep(h, Start(h), steps, 6, Staged(h), Rotated(h));
  }

  /** A reachable object with one generation in its activation and in its first rotation. */
  lemma GenerationRepeats(h: Codec)
    ensures exists steps: seq<Step> ::
      var s := Run(h, Start(h), steps); "o" in s.objects && !NeverReused(s.objects["o"])
  {
    hide Run, Start;
    ReachesRotated(h);
    assert 2 in ROW.checkpoints && 1 in ROW.activated;
    assert Run(h, Start(h), Steps(h)[..7]).objects["o"] == ROW;
  }

  // ----- a recipient after an activation -----

  const TABLET := Device("alice", "third", None, false)
  const TABLET_KEY := OwnKey("w", "o", 1, "tablet", "k9", "laptop", "sig", Age)

  function Enrolled(h: Codec): State { Published(h).(devices := DEVICES["tablet" := TABLET]) }

  lemma Enrolls(h: Codec)
    ensures Next(h, Published(h), EnrollDevice("tablet", TABLET)) == Enrolled(h)
  {
  }

  lemma EnrolledRows(h: Codec)
    ensures var s := Enrolled(h);
      && s.id == "w" && s.devices == DEVICES["tablet" := TABLET] && s.members == map["alice" := MemberRow(Owner, 0)]
      && s.objects == map["o" := Activated(Starting(h), "laptop")]
  {
  }

  lemma OnlyLaptop(h: Codec)
    ensures Activated(Starting(h), "laptop").KeyDevices() == {"laptop"}
  {
    assert NewKeys(1, "laptop", Starting(h).envelopes) == map[Slot(1, "laptop") := KeyRow("k1", "laptop", "sig", Age)] by {
      assert Starting(h).envelopes[..0] == [];
    }
    assert Slot(1, "laptop") in Activated(Starting(h), "laptop").keys;
  }

  lemma KeyIsNext(h: Codec, s: State, k: OwnKey)
    ensures Next(h, s, KeyStored(ALICE, true, k, true)) == Committed(s, StoreOwnKey(s, ALICE, true, k, true))
  {
    hide StoreOwnKey;
  }

  /** One more device holds the key of an object's epoch, which stays. */
  predicate AddsRecipient(s: State, next: State, o: Id, device: Id) {
    && o in s.objects && o in next.objects && next.objects[o].epoch == s.objects[o].epoch
    && device !in s.objects[o].KeyDevices()
    && next.objects[o].KeyDevices() == s.objects[o].KeyDevices() + {device}
  }

  /** A reachable object that has its current checkpoint from its activation, and the key
      endpoint's step that adds a recipient to it. */
  lemma ActivatedTakesRecipient(h: Codec)
    ensures exists steps: seq<Step>, share: Step ::
      var s := Run(h, Start(h), steps);
      share.KeyStored? && AddsRecipient(s, Next(h, s, share), "o", "tablet") && CurrentCheckpoints(s.objects["o"]) == 1
  {
    hide Run, Start, Published, Enrolled, StoreOwnKey, Next;
    ReachesPublished(h);
    Enrolls(h);
    var steps, share := Steps(h)[..4] + [EnrollDevice("tablet", TABLET)], KeyStored(ALICE, true, TABLET_KEY, true);
    assert Run(h, Start(h), steps) == Enrolled(h) by { RunOneMore(h, Start(h), Steps(h)[..4], EnrollDevice("tablet", TABLET)); }
    TabletAdded(h);
    KeyIsNext(h, Enrolled(h), TABLET_KEY);
    EnrolledRows(h);
    OnlyLaptop(h);
    assert CurrentCheckpoints(Activated(Starting(h), "laptop")) == 1;
    assert AddsRecipient(Enrolled(h), Next(h, Enrolled(h), share), "o", "tablet");
    var s := Run(h, Start(h), steps);
    assert share.KeyStored? && AddsRecipient(s, Next(h, s, share), "o", "tablet") && CurrentCheckpoints(s.objects["o"]) == 1;
  }

  lemma RunOneMore(h: Codec, s: State, steps: seq<Step>, step: Step)
    ensures Run(h, s, steps + [step]) == Next(h, Run(h, s, steps), step)
  {
    hide Next;
    assert (steps + [step])[..|steps|] == steps;
  }

  lemma TabletAdded(h: Codec)
    ensures var next := Committed(Enrolled(h), StoreOwnKey(Enrolled(h), ALICE, true, TABLET_KEY, true));
      && "o" in next.objects && next.objects["o"].epoch == 1
      && next.objects["o"].KeyDevices() == {"laptop", "tablet"}
  {
    var s := Enrolled(h);
    hide Enrolled;
    EnrolledRows(h);
    OnlyLaptop(h);
    var target := Activated(Starting(h), "laptop");
    assert target.epoch == 1 && target.checkpoints == map[];
    assert Slot(1, "tablet") !in target.keys by {
      assert Slot(1, "tablet") in target.keys ==> "tablet" in target.KeyDevices();
    }
    hide Activated, Starting;
    assert Active(s, ALICE) && MayWrite(s, "alice", "o") && HasRow(s, "alice", "o");
    var row := KeyRow("k9", "laptop", "sig", Age);
    var stored := target.(keys := target.keys[Slot(1, "tablet") := row]);
    assert StoreOwnKey(s, ALICE, true, TABLET_KEY, true) == Ok(s.(objects := s.objects["o" := stored]));
    OneMoreKey(target, Slot(1, "tablet"), row);
  }

  lemma OneMoreKey(target: Object, slot: Slot, row: KeyRow)
    requires slot.epoch == target.epoch
    ensures target.(keys := target.keys[slot := row]).KeyDevices() == target.KeyDevices() + {slot.device}
  {
    var after := target.(keys := target.keys[slot := row]);
    assert slot in after.keys;
    forall d | d in target.KeyDevices() ensures d in after.KeyDevices() {
      assert Slot(target.epoch, d) in target.keys;
      assert Slot(target.epoch, d) in after.keys;
    }
  }
}
