/** The values the sync server exchanges and the rows it keeps for one workspace.

    Rows of tables that refer to an object by foreign key (grants, key envelopes and
    the two checkpoint tables) are grouped under that object's row. */
module SyncTypes {
  import opened Wrappers

  type Id = string

  datatype Role = Owner | Admin | Editor | Viewer

  datatype GrantRole = GrantEditor | GrantViewer

  datatype Mode = TextMode | AttachmentMode

  datatype Document = Document(generation: Id, mode: Mode)

  datatype Kind = TextKind | MetadataKind | FileKind

  /** What version 2 adds to an operation; version 1 carries neither field. */
  datatype Edit = Plain | Edit(generation: Id, kind: Kind)

  datatype Operation = Operation(
    id: Id, workspace: Id, objectId: Id, device: Id, epoch: nat, policyRevision: nat,
    nonce: string, ciphertext: string, edit: Edit, signature: string)
  {
    function Generation(): Option<Id> {
      if edit.Plain? then None else Some(edit.generation)
    }
  }

  /** The bytes that padded base64 text stands for. */
  function DecodedLength(text: string): nat {
    var n := |text|;
    var n := if n > 0 && text[n - 1] == '=' then n - 1 else n;
    var n := if n > 1 && text[n - 1] == '=' then n - 1 else n;
    n * 3 / 4
  }

  /** How a content key is wrapped for one recipient device. */
  datatype Wrap = Age | Web(recipientKey: string, ephemeralKey: string, salt: string, nonce: string)

  datatype Envelope = Envelope(device: Id, wrapped: string, signature: string, wrap: Wrap)

  datatype PolicyObject = PolicyObject(
    id: Id, epoch: nat, document: Option<Document>, grants: map<Id, GrantRole>, envelopes: seq<Envelope>)

  datatype Policy = Policy(
    version: nat, workspace: Id, revision: nat, previous: Option<Id>, device: Id,
    members: map<Id, Role>, objects: seq<PolicyObject>, signature: string)

  datatype Checkpoint = Checkpoint(generation: Id, covered: nat, payload: Operation, signature: string)

  datatype BlobEntry = BlobEntry(objectId: Id, epoch: nat, digest: Id, size: nat)

  datatype Transition = Transition(
    version: nat, id: Id, covered: nat, policy: Policy, checkpoints: seq<Checkpoint>,
    blobs: seq<BlobEntry>, signature: string)

  datatype Activation = Activation(
    version: nat, id: Id, workspace: Id, policyRevision: nat, covered: nat, capability: Id, device: Id,
    document: Document, envelopes: seq<Envelope>, checkpoint: Checkpoint, blobs: seq<BlobEntry>,
    signature: string)
  {
    function Object(): Id { checkpoint.payload.objectId }
  }

  datatype Capability = Capability(workspace: Id, device: Id, signature: string)

  /** A parsed key envelope for `PUT keys/self`. */
  datatype OwnKey = OwnKey(
    workspace: Id, objectId: Id, epoch: nat, device: Id, wrapped: string, signer: Id, signature: string, wrap: Wrap)

  // ----- rows -----

  datatype Device = Device(account: Id, publicKey: string, recipient: Option<string>, revoked: bool)

  datatype Actor = Actor(device: Id, account: Id, publicKey: string)

  datatype MemberRow = MemberRow(role: Role, historyAfter: nat)

  datatype GrantRow = GrantRow(role: GrantRole, historyAfter: nat)

  datatype Slot = Slot(epoch: nat, device: Id)

  datatype KeyRow = KeyRow(wrapped: string, signer: Id, signature: string, wrap: Wrap)

  /** `source` is the transition or the activation that stored it. */
  datatype CheckpointRow = CheckpointRow(source: Id, generation: Id, covered: nat, checkpoint: Checkpoint)

  datatype Object = Object(
    epoch: nat, document: Option<Document>, grants: map<Id, GrantRow>, keys: map<Slot, KeyRow>,
    checkpoints: map<nat, CheckpointRow>, activated: map<nat, CheckpointRow>)
  {
    /** The devices that hold an envelope for the object's current epoch. */
    function KeyDevices(): set<Id> {
      set slot | slot in keys && slot.epoch == epoch :: slot.device
    }

    predicate Enrolled() { checkpoints != map[] }
  }

  datatype OpRow = OpRow(op: Operation, sequence: nat, digest: Id, bytes: nat)

  datatype TransitionRow = TransitionRow(device: Id, digest: Id, body: Transition, bytes: nat, committed: bool)

  datatype ActivationRow = ActivationRow(device: Id, digest: Id, body: Activation, bytes: nat, committed: bool)

  datatype LinkRow = LinkRow(objectId: Id, snapshot: Operation, revision: nat, bytes: nat, revoked: bool)

  datatype BlobKey = BlobKey(objectId: Id, id: Id)

  /** What a blob upload belongs to. */
  datatype BlobOwner = Direct | ForTransition(id: Id) | ForActivation(id: Id)

  datatype Storage = Local | S3

  datatype BlobRow = BlobRow(
    epoch: nat, size: nat, upload: Id, device: Id, owner: BlobOwner, complete: bool, failed: bool,
    storage: Storage)

  /** Digests and serialized sizes. The server computes them with SHA-256 and JSON. */
  datatype Codec = Codec(
    op: Operation -> Id, policy: Policy -> Id, transition: Transition -> Id, activation: Activation -> Id,
    capability: Capability -> Id, transitionBytes: Transition -> nat, activationBytes: Activation -> nat)
  {
    /** No two values share a digest. */
    ghost predicate Injective() {
      && (forall a, b :: op(a) == op(b) ==> a == b)
      && (forall a, b :: policy(a) == policy(b) ==> a == b)
      && (forall a, b :: transition(a) == transition(b) ==> a == b)
      && (forall a, b :: activation(a) == activation(b) ==> a == b)
    }
  }

  /** One workspace's rows, and the devices every workspace shares. */
  datatype State = State(
    id: Id, quota: nat, devices: map<Id, Device>, members: map<Id, MemberRow>, objects: map<Id, Object>,
    ops: seq<OpRow>, sequence: nat, used: int, revision: nat, log: seq<Policy>,
    capability: Option<Capability>, transitions: map<Id, TransitionRow>,
    activations: map<Id, ActivationRow>, links: map<Id, LinkRow>, blobs: map<BlobKey, BlobRow>)

  datatype Error =
    | Malformed | Unauthorized | IdentityMismatch | InvalidSignature | Forbidden | NotFound | OwnerRequired
    | OperationIdReused | StaleEpoch | GenerationChanged | WholeFileReplacement | CheckpointRequired
    | StalePolicy | QuotaExceeded | CursorAhead | ActivationRequired
    | InvalidTransition | TransitionNotStaged | TransitionStale | TransitionBlobIncomplete
    | TransitionIdReused | PolicyRevisionChanged | ClientUpgradeRequired | PolicyChainChanged
    | PolicyObjectsChanged | RecipientDeviceRequired | AccessTransitionRequired | KeyRotationRequired
    | InvalidGeneration | CheckpointEpochUnchanged | GenerationReused | KeyEnvelopesIncomplete
    | InvalidRecipient | KeyEpochImmutable | KeyChanged | CapabilityRequired | CapabilityChanged
    | ActivationStale | ActivationIdReused | ActivationNotStaged | ObjectAlreadyExists
    | ActivationBlobIncomplete | LinkRevisionChanged | BlobChanged | BlobImmutable | UniqueViolation
    | DeviceUnavailable
}
