/** A run under version 1 policies, for any digests, in which a member's grant opens history
    below the member's floor. */
module SyncFloorWitness {
  import opened Wrappers
  import opened SyncTypes
  import opened SyncRules
  import opened SyncRuns
  import opened SyncHistory
  import opened SyncWitness

  function Plainly(id: Id, epoch: nat, revision: nat): Operation {
    Operation(id, "w", "o", "laptop", epoch, revision, "n", "", Plain, "sig")
  }

  function Given(grants: map<Id, GrantRole>): PolicyObject {
    PolicyObject("o", 2, None, grants, [Wrapped("laptop", "k2"), Wrapped("phone", "k3")])
  }

  /** Bob joins as a member, with a rotation and a checkpoint. */
  const JOINING := Policy(1, "w", 1, None, "laptop", BOTH, [Given(map[])], "sig")

  const MOVE := Transition(1, "t", 1, JOINING, [Checkpoint("g", 1, Plainly("c", 2, 1), "sig")], [], "sig")

  /** Bob, still a member, also gets a grant on the object. */
  function Adding(h: Codec): Policy {
    Policy(1, "w", 2, Some(h.policy(JOINING)), "laptop", BOTH, [Given(map["bob" := GrantViewer])], "sig")
  }

  // ----- the states of the run -----

  function Opening(h: Codec): State { Created("w", h.transitionBytes(MOVE), DEVICES, "alice") }

  function Able(h: Codec): State { Opening(h).(capability := Some(AUTHORITY)) }

  const EMPTY := Object(1, None, map[], map[], map[], map[])

  function Made(h: Codec): State { Able(h).(objects := map["o" := EMPTY]) }

  function Written(h: Codec): State {
    var op := Plainly("x", 1, 0);
    Made(h).(ops := [OpRow(op, 1, h.op(op), 0)], sequence := 1)
  }

  function Ready(h: Codec): State {
    Written(h).(
      transitions := map["t" := TransitionRow("laptop", h.transition(MOVE), MOVE, h.transitionBytes(MOVE), false)],
      used := h.transitionBytes(MOVE))
  }

  const MOVED := Object(2, None, map[],
                        map[Slot(2, "laptop") := KeyRow("k2", "laptop", "sig", Age),
                            Slot(2, "phone") := KeyRow("k3", "laptop", "sig", Age)],
                        map[2 := CheckpointRow("t", "g", 1, Checkpoint("g", 1, Plainly("c", 2, 1), "sig"))], map[])

  function Joined(h: Codec): State {
    var s := Ready(h);
    s.(objects := map["o" := MOVED], members := MEMBERS, log := [JOINING], revision := 1,
       transitions := map["t" := s.transitions["t"].(committed := true)])
  }

  function Opened(h: Codec): State {
    Joined(h).(objects := map["o" := MOVED.(grants := map["bob" := GrantRow(GrantViewer, 0)])],
               log := [JOINING, Adding(h)], revision := 2)
  }

  // ----- each step of it -----

  lemma BecomesAble(h: Codec)
    ensures Next(h, Opening(h), CapabilityPut(ALICE, AUTHORITY, true)) == Able(h)
  {
  }

  lemma Makes(h: Codec)
    ensures Next(h, Able(h), Create(ALICE, "o")) == Made(h)
  {
    assert Able(h).objects["o" := EMPTY] == Made(h).objects;
  }

  lemma WritesOld(h: Codec)
    ensures PushOne(h, Made(h), ALICE, Plainly("x", 1, 0)) == Ok((Written(h), 1))
  {
    assert DecodedLength("") == 0;
    var s := Made(h);
    assert s.ops + [OpRow(Plainly("x", 1, 0), 1, h.op(Plainly("x", 1, 0)), 0)] == Written(h).ops;
    assert MayWrite(s, "alice", "o") && FindOp(s.ops, "x").None?;
  }

  lemma WritesOldBatch(h: Codec)
    ensures Push(h, Made(h), ALICE, [Plainly("x", 1, 0)], YES) == Ok((Written(h), [1]))
  {
    WritesOld(h);
    hide PushOne;
    var op := Plainly("x", 1, 0);
    assert [op][..0] == [];
    assert PushAll(h, Made(h), ALICE, []) == Ok((Made(h), []));
    assert PushAll(h, Made(h), ALICE, [op]) == Ok((Written(h), [] + [1]));
    assert Screen(Made(h), ALICE, [], YES).None?;
    assert Screen(Made(h), ALICE, [op], YES).None?;
    assert [] + [1] == [1];
  }

  lemma Pushes(h: Codec)
    ensures Next(h, Made(h), Pushed(ALICE, [Plainly("x", 1, 0)], YES)) == Written(h)
  {
    WritesOldBatch(h);
    hide Push, Made, Written;
  }

  lemma Shapes(h: Codec)
    ensures TransitionShape(MOVE) && PolicyShape(JOINING) && PolicyShape(Adding(h))
  {
    assert BOTH["alice"] == Owner;
  }

  lemma WrittenRows(h: Codec)
    ensures var s := Written(h);
      && s.id == "w" && s.devices == DEVICES && s.members == map["alice" := MemberRow(Owner, 0)]
      && s.capability == Some(AUTHORITY) && s.transitions == map[] && s.revision == 0 && s.sequence == 1
      && s.used == 0 && s.quota == h.transitionBytes(MOVE)
  {
  }

  lemma ReadiesRow(h: Codec)
    ensures StageTransition(h, Written(h), ALICE, MOVE, true) == Ok(Ready(h))
  {
    hide TransitionShape, Written;
    WrittenRows(h);
    Shapes(h);
  }

  lemma Readies(h: Codec)
    ensures Next(h, Written(h), TransitionStaged(ALICE, MOVE, true)) == Ready(h)
  {
    ReadiesRow(h);
    hide StageTransition, Written, Ready;
  }

  lemma ReadyRows(h: Codec)
    ensures var s := Ready(h);
      && s.id == "w" && s.devices == DEVICES && s.members == map["alice" := MemberRow(Owner, 0)]
      && s.capability == Some(AUTHORITY) && s.revision == 0 && s.sequence == 1 && s.log == []
      && s.transitions == map["t" := s.transitions["t"]] && !s.transitions["t"].committed
      && s.transitions["t"].digest == h.transition(MOVE)
      && s.objects == map["o" := EMPTY] && s.links == map[]
  {
  }

  lemma JoinedRows(h: Codec)
    ensures var s := Joined(h);
      && s.id == "w" && s.devices == DEVICES && s.members == MEMBERS
      && s.capability == Some(AUTHORITY) && s.revision == 1 && s.sequence == 1 && s.log == [JOINING]
      && s.objects == map["o" := MOVED] && s.links == map[]
  {
    hide Written;
    WrittenRows(h);
    ReadyRows(h);
  }

  lemma GatesJoining(h: Codec)
    ensures PolicyGate(h, Ready(h), ALICE, JOINING) == Apply
  {
    var s := Ready(h);
    hide ActiveDevices, PolicyAccounts, Ready;
    ReadyRows(h);
    Readers(s, JOINING);
    GateReaders(s, JOINING);
    assert {"o"} == (set e | e in JOINING.objects :: e.id);
    assert RoleOf(s, "alice") == Some(Owner) && Latest(s) == None;
  }

  lemma GatesAdding(h: Codec)
    ensures PolicyGate(h, Joined(h), ALICE, Adding(h)) == Apply
  {
    var s, p := Joined(h), Adding(h);
    hide ActiveDevices, PolicyAccounts, Joined;
    JoinedRows(h);
    Readers(s, p);
    GateReaders(s, p);
    assert {"o"} == (set e | e in p.objects :: e.id);
    assert RoleOf(s, "alice") == Some(Owner) && Latest(s) == Some(JOINING) && p.revision == s.revision + 1;
    assert p.version == 1 && p.previous == Some(h.policy(JOINING)) && JOINING.version == 1;
    hide Adding;
  }

  lemma GivenDevices(grants: map<Id, GrantRole>)
    ensures EnvelopeDevices(Given(grants).envelopes) == {"laptop", "phone"}
    ensures MOVED.KeyDevices() == {"laptop", "phone"}
  {
    var envelopes := Given(grants).envelopes;
    assert envelopes[0].device == "laptop" && envelopes[1].device == "phone";
    assert Slot(2, "laptop") in MOVED.keys && Slot(2, "phone") in MOVED.keys;
  }

  lemma AcceptsJoining(h: Codec)
    ensures ObjectError(Ready(h), JOINING, Some(MOVE), Given(map[])).None?
  {
    var s, entry := Ready(h), Given(map[]);
    hide Ready, ActiveDevices, PolicyAccounts, EnvelopeDevices;
    ReadyRows(h);
    GivenDevices(map[]);
    Readers(s, JOINING);
    assert CheckpointFor(Some(MOVE), "o") == Some(MOVE.checkpoints[0]);
    assert NextAccounts(JOINING, entry) == {"alice", "bob"};
    EnvelopesStored(s, EMPTY, 2, entry.envelopes);
    hide NextAccounts, CheckpointFor, EnvelopeError;
    var devices := {"laptop", "phone"};
    assert (set d | d in devices && s.devices[d].account in {"alice", "bob"}) == devices;
  }

  lemma AcceptsAdding(h: Codec)
    ensures ObjectError(Joined(h), Adding(h), None, Given(map["bob" := GrantViewer])).None?
  {
    var s, entry := Joined(h), Given(map["bob" := GrantViewer]);
    hide Joined, ActiveDevices, PolicyAccounts, EnvelopeDevices;
    JoinedRows(h);
    GivenDevices(entry.grants);
    Readers(s, Adding(h));
    assert NextAccounts(Adding(h), entry) == {"alice", "bob"};
    EnvelopesStored(s, MOVED, 2, entry.envelopes);
    hide NextAccounts, EnvelopeError;
    var devices := {"laptop", "phone"};
    assert (set d | d in devices && s.devices[d].account in {"alice", "bob"}) == devices;
  }

  lemma PlansJoining(h: Codec)
    ensures Plan(h, Ready(h), ALICE, JOINING, Some(MOVE), true) == Apply
  {
    var s := Ready(h);
    hide Ready, PolicyGate, ObjectError, PolicyShape, TransitionShape;
    ReadyRows(h);
    Shapes(h);
    GatesJoining(h);
    AcceptsJoining(h);
    OneObject(s, JOINING, Some(MOVE), Given(map[]));
    hide FirstObjectError;
    assert Active(s, ALICE);
  }

  lemma PlansAdding(h: Codec)
    ensures Plan(h, Joined(h), ALICE, Adding(h), None, true) == Apply
  {
    var s := Joined(h);
    hide Joined, PolicyGate, ObjectError, PolicyShape, TransitionShape;
    JoinedRows(h);
    Shapes(h);
    GatesAdding(h);
    AcceptsAdding(h);
    OneObject(s, Adding(h), None, Given(map["bob" := GrantViewer]));
    hide FirstObjectError;
    assert Active(s, ALICE);
  }

  lemma GivenKeys(grants: map<Id, GrantRole>)
    ensures NewKeys(2, "laptop", Given(grants).envelopes) == MOVED.keys
  {
    var envelopes := Given(grants).envelopes;
    assert envelopes[..1] == [envelopes[0]] && envelopes[..1][..0] == [];
    assert NewKeys(2, "laptop", []) == map[];
    assert NewKeys(2, "laptop", envelopes[..1]) == map[Slot(2, "laptop") := KeyRow("k2", "laptop", "sig", Age)];
  }

  lemma JoiningRow(h: Codec)
    ensures NextRow(EMPTY, Some(MOVE), "laptop", Given(map[])) == MOVED
  {
    GivenKeys(map[]);
    hide NewKeys;
    assert MOVED.keys + map[] == MOVED.keys;
  }

  lemma AddingRow(h: Codec)
    ensures NextRow(MOVED, None, "laptop", Given(map["bob" := GrantViewer]))
         == MOVED.(grants := map["bob" := GrantRow(GrantViewer, 0)])
  {
    GivenKeys(map["bob" := GrantViewer]);
    hide NewKeys;
    assert MOVED.keys + MOVED.keys == MOVED.keys;
  }

  lemma JoiningMembers(h: Codec)
    ensures NextMembers(Ready(h), JOINING, Some(MOVE)) == MEMBERS
  {
    hide Ready;
    ReadyRows(h);
  }

  lemma Joins(h: Codec)
    ensures Applied(Ready(h), ALICE, JOINING, Some(MOVE)) == Joined(h)
  {
    var s, t := Ready(h), Some(MOVE);
    hide Ready, NextRow, NextMembers;
    ReadyRows(h);
    JoiningRow(h);
    OneRow(s, t, Given(map[]), EMPTY);
    JoiningMembers(h);
    hide NextObjects, NextLinks;
    assert [] + [JOINING] == [JOINING];
  }

  lemma Adds(h: Codec)
    ensures Applied(Joined(h), ALICE, Adding(h), None) == Opened(h)
  {
    var s := Joined(h);
    hide Joined, NextRow;
    JoinedRows(h);
    AddingRow(h);
    OneRow(s, None, Given(map["bob" := GrantViewer]), MOVED);
    assert NextMembers(s, Adding(h), None) == MEMBERS;
    hide NextObjects, NextLinks, NextMembers;
    assert [JOINING] + [Adding(h)] == [JOINING, Adding(h)];
  }

  // ----- the run -----

  const COURSE: seq<Step> :=
    [CapabilityPut(ALICE, AUTHORITY, true), Create(ALICE, "o"), Pushed(ALICE, [Plainly("x", 1, 0)], YES),
     TransitionStaged(ALICE, MOVE, true), AccessSet(ALICE, JOINING, Some(MOVE), true)]

  lemma ReachesReady(h: Codec)
    ensures Run(h, Opening(h), COURSE[..4]) == Ready(h)
  {
    hide Next, Opening, Able, Made, Written, Ready;
    assert Run(h, Opening(h), COURSE[..0]) == Opening(h);
    BecomesAble(h);
    RunStep(h, Opening(h), COURSE, 0, Opening(h), Able(h));
    Makes(h);
    RunStep(h, Opening(h), COURSE, 1, Able(h), Made(h));
    Pushes(h);
    RunStep(h, Opening(h), COURSE, 2, Made(h), Written(h));
    Readies(h);
    RunStep(h, Opening(h), COURSE, 3, Written(h), Ready(h));
  }

  lemma ReachesJoined(h: Codec)
    ensures Run(h, Opening(h), COURSE) == Joined(h)
  {
    hide Run, Next, Plan, Applied, Opening, Ready, Joined;
    ReachesReady(h);
    PlansJoining(h);
    AppliedIsNext(h, Ready(h), JOINING, Some(MOVE));
    Joins(h);
    RunStep(h, Opening(h), COURSE, 4, Ready(h), Joined(h));
    assert COURSE[..5] == COURSE;
  }

  lemma ReadsNothing(h: Codec)
    ensures Floor(Joined(h), "bob", 1) && |Joined(h).ops| == 1
    ensures Readable(Joined(h), "bob", Joined(h).ops, 0) == []
  {
    var s := Joined(h);
    assert Readable(s, "bob", [], 0) == [] && s.ops[..0] == [];
    assert !Visible(s, "bob", s.ops[0]);
  }

  lemma ReadsAll(h: Codec)
    ensures Readable(Opened(h), "bob", Joined(h).ops, 0) == Joined(h).ops
  {
    var s := Opened(h);
    assert Readable(s, "bob", [], 0) == [] && s.ops[..0] == [];
    assert Visible(s, "bob", s.ops[0]);
    assert [] + s.ops == s.ops;
  }

  /** A reachable member whose floor is 1, and an access policy without a transition after
      which the same member reads operation 1. Every policy of the run is of version 1. */
  lemma FloorLost(h: Codec)
    ensures exists steps: seq<Step>, access: Step ::
      var s := Run(h, Opening(h), steps);
      && access.AccessSet? && access.under.None?
      && Floor(s, "bob", 1) && |s.ops| == 1 && Readable(s, "bob", s.ops, 0) == []
      && Readable(Next(h, s, access), "bob", s.ops, 0) == s.ops
  {
    hide Run, Next, Plan, Applied, Opening, Joined, Opened, Floor, Readable, Adding;
    ReachesJoined(h);
    PlansAdding(h);
    AppliedIsNext(h, Joined(h), Adding(h), None);
    Adds(h);
    ReadsNothing(h);
    ReadsAll(h);
    var access := AccessSet(ALICE, Adding(h), None, true);
    assert Run(h, Opening(h), COURSE) == Joined(h) && Next(h, Joined(h), access) == Opened(h);
  }
}
