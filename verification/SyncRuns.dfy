/** A workspace's life: each transaction runs alone under the workspace lock, and one
    that fails leaves every row as it was. */
module SyncRuns {
  import opened Wrappers
  import opened SyncTypes
  import opened SyncRules

  datatype Step =
    | EnrollDevice(id: Id, device: Device)
    | RevokeDevice(account: Id, id: Id)
    | Create(actor: Actor, id: Id)
    | Pushed(actor: Actor, ops: seq<Operation>, signed: Operation -> bool)
    | KeyStored(actor: Actor, share: bool, envelope: OwnKey, verified: bool)
    | CapabilityPut(actor: Actor, capability: Capability, verified: bool)
    | TransitionStaged(actor: Actor, transition: Transition, verified: bool)
    | AccessSet(actor: Actor, policy: Policy, under: Option<Transition>, verified: bool)
    | ActivationStaged(actor: Actor, activation: Activation, verified: bool)
    | ActivationCommitted(actor: Actor, id: Id, verified: bool)
    | LinkCreated(actor: Actor, id: Id, snapshot: Operation, verified: bool)
    | LinkUpdated(actor: Actor, id: Id, expected: nat, snapshot: Operation, live: bool, verified: bool)
    | LinkRevoked(actor: Actor, id: Id)
    | BlobCreated(actor: Actor, key: BlobKey, owner: BlobOwner, epoch: nat, size: nat, upload: Id)
    | BlobDeleted(actor: Actor, key: BlobKey)
    | BlobFinished(actor: Actor, key: BlobKey, finish: Finish, valid: bool, storage: Storage)

  /** The rows a transaction leaves: its own when it commits, the old ones otherwise. */
  function Committed(s: State, r: Result<State, Error>): State {
    if r.Ok? then r.value else s
  }

  function CommittedWith<T>(s: State, r: Result<(State, T), Error>): State {
    if r.Ok? then r.value.0 else s
  }

  /** Transactions on devices, the capability and access. */
  function NextAccess(h: Codec, s: State, step: Step): (next: State)
    ensures next.id == s.id && next.quota == s.quota && next.ops == s.ops && next.sequence == s.sequence
    ensures next.activations == s.activations && next.blobs == s.blobs
    ensures !step.EnrollDevice? && !step.RevokeDevice? ==> next.devices == s.devices
    ensures !step.AccessSet? ==>
      next.members == s.members && next.log == s.log && next.revision == s.revision && next.objects == s.objects
      && next.links == s.links
    ensures !step.CapabilityPut? ==> next.capability == s.capability
    ensures !step.TransitionStaged? && !step.AccessSet? ==> next.transitions == s.transitions
    ensures !step.TransitionStaged? ==> next.used == s.used
  {
    match step
    case EnrollDevice(id, device) => Enroll(s, id, device)
    case RevokeDevice(account, id) => Committed(s, Revoke(s, account, id))
    case CapabilityPut(actor, capability, verified) => Committed(s, PutCapability(s, actor, capability, verified))
    case TransitionStaged(actor, t, verified) => Committed(s, StageTransition(h, s, actor, t, verified))
    case AccessSet(actor, p, under, verified) => Committed(s, SetAccess(h, s, actor, p, under, verified))
    case _ => s
  }

  /** Transactions on objects, their keys and their activations. */
  function NextObject(h: Codec, s: State, step: Step): (next: State)
    ensures next == s.(objects := next.objects, activations := next.activations, used := next.used)
    ensures !step.ActivationCommitted? && !step.KeyStored? && !step.Create? ==> next.objects == s.objects
    ensures !step.ActivationStaged? && !step.ActivationCommitted? ==> next.activations == s.activations
    ensures !step.ActivationStaged? ==> next.used == s.used
  {
    match step
    case Create(actor, id) => CommittedWith(s, CreateObject(s, actor, id))
    case KeyStored(actor, share, k, verified) => Committed(s, StoreOwnKey(s, actor, share, k, verified))
    case ActivationStaged(actor, a, verified) => Committed(s, StageActivation(h, s, actor, a, verified))
    case ActivationCommitted(actor, id, verified) => Committed(s, CommitActivation(h, s, actor, id, verified))
    case _ => s
  }

  /** Transactions on operations, links and blobs. */
  function NextContent(h: Codec, s: State, step: Step): (next: State)
    ensures next == s.(ops := next.ops, sequence := next.sequence, used := next.used, links := next.links,
                       blobs := next.blobs)
    ensures s.ops <= next.ops
    ensures !step.Pushed? ==> next.ops == s.ops && next.sequence == s.sequence
    ensures !step.LinkCreated? && !step.LinkUpdated? && !step.LinkRevoked? ==> next.links == s.links
    ensures !step.BlobCreated? && !step.BlobDeleted? && !step.BlobFinished? ==> next.blobs == s.blobs
  {
    match step
    case Pushed(actor, ops, signed) => CommittedWith(s, Push(h, s, actor, ops, signed))
    case LinkCreated(actor, id, snapshot, verified) => Committed(s, CreateLink(s, actor, id, snapshot, verified))
    case LinkUpdated(actor, id, expected, snapshot, live, verified) =>
      CommittedWith(s, UpdateLink(h, s, actor, id, expected, snapshot, live, verified))
    case LinkRevoked(actor, id) => Committed(s, RevokeLink(s, actor, id))
    case BlobCreated(actor, key, owner, epoch, size, upload) =>
      Committed(s, CreateBlob(s, actor, key, owner, epoch, size, upload))
    case BlobDeleted(actor, key) => Committed(s, DeleteBlob(s, actor, key))
    case BlobFinished(actor, key, finish, valid, storage) =>
      Committed(s, FinishBlob(s, actor, key, finish, valid, storage))
    case _ => s
  }

  function Next(h: Codec, s: State, step: Step): State {
    if step.EnrollDevice? || step.RevokeDevice? || step.CapabilityPut? || step.TransitionStaged? || step.AccessSet? then
      NextAccess(h, s, step)
    else if step.Create? || step.KeyStored? || step.ActivationStaged? || step.ActivationCommitted? then
      NextObject(h, s, step)
    else NextContent(h, s, step)
  }

  /** The rows after `steps`. */
  function Run(h: Codec, s: State, steps: seq<Step>): State {
    if steps == [] then s else Next(h, Run(h, s, steps[..|steps| - 1]), steps[|steps| - 1])
  }

  /** A workspace as its owner creates it. */
  function Created(id: Id, quota: nat, devices: map<Id, Device>, owner: Id): State {
    State(id, quota, devices, map[owner := MemberRow(Owner, 0)], map[], [], 0, 0, 0, [], None,
          map[], map[], map[], map[])
  }

  /** Rows that some run of the server can reach. */
  ghost predicate Reachable(h: Codec, s: State) {
    exists id: Id, quota: nat, devices: map<Id, Device>, owner: Id, steps: seq<Step> ::
      s == Run(h, Created(id, quota, devices, owner), steps)
  }

  /** A run split in two. */
  lemma {:induction false} RunSplits(h: Codec, s: State, first: seq<Step>, more: seq<Step>)
    ensures Run(h, s, first + more) == Run(h, Run(h, s, first), more)
  {
    hide Next;
    if more == [] {
      assert first + more == first;
    } else {
      var all := first + more;
      assert all[..|all| - 1] == first + more[..|more| - 1];
      RunSplits(h, s, first, more[..|more| - 1]);
    }
  }
}
