/** What each server transaction does to a workspace's rows: the reference the
    `SyncStore` methods are proved against. A function answers the new rows, or the
    error that rolls the transaction back. */
module SyncRules {
  import opened Wrappers
  import opened SyncTypes

  const MAX_LIST := 1000
  const MAX_BLOB := 1024 * 1024 * 1024
  const PAGE := 100

  // ----- lookups -----

  function Entry(entries: seq<PolicyObject>, id: Id): (found: Option<PolicyObject>)
    ensures found.Some? ==> found.value in entries && found.value.id == id
    ensures found.None? ==> forall e <- entries :: e.id != id
  {
    if entries == [] then None
    else if entries[|entries| - 1].id == id then Some(entries[|entries| - 1])
    else Entry(entries[..|entries| - 1], id)
  }

  function FindOp(rows: seq<OpRow>, id: Id): (found: Option<OpRow>)
    ensures found.Some? ==> found.value in rows && found.value.op.id == id
    ensures found.None? ==> forall row <- rows :: row.op.id != id
  {
    if rows == [] then None
    else if rows[|rows| - 1].op.id == id then Some(rows[|rows| - 1])
    else FindOp(rows[..|rows| - 1], id)
  }

  function FindCheckpoint(checkpoints: seq<Checkpoint>, id: Id): (found: Option<Checkpoint>)
    ensures found.Some? ==> found.value in checkpoints && found.value.payload.objectId == id
    ensures found.None? ==> forall c <- checkpoints :: c.payload.objectId != id
  {
    if checkpoints == [] then None
    else if checkpoints[0].payload.objectId == id then Some(checkpoints[0])
    else FindCheckpoint(checkpoints[1..], id)
  }

  function EnvelopeDevices(envelopes: seq<Envelope>): set<Id> {
    set e | e in envelopes :: e.device
  }

  /** The policy in force, if one was ever applied. */
  function Latest(s: State): Option<Policy> {
    if s.log == [] then None else Some(s.log[|s.log| - 1])
  }

  /** The log row at `revision`. */
  function LogAt(s: State, revision: nat): Option<Policy> {
    if 1 <= revision <= |s.log| then Some(s.log[revision - 1]) else None
  }

  // ----- who may do what -----

  predicate Active(s: State, actor: Actor) {
    && actor.device in s.devices
    && s.devices[actor.device].account == actor.account
    && s.devices[actor.device].publicKey == actor.publicKey
    && !s.devices[actor.device].revoked
  }

  function RoleOf(s: State, account: Id): Option<Role> {
    if account in s.members then Some(s.members[account].role) else None
  }

  predicate Administers(role: Option<Role>) {
    role in {Some(Owner), Some(Admin)}
  }

  predicate Writes(role: Option<Role>) {
    role.Some? && role.value != Viewer
  }

  /** Whether `account` has a member row, or a grant row on `object`. */
  predicate HasRow(s: State, account: Id, id: Id) {
    account in s.members || (id in s.objects && account in s.objects[id].grants)
  }

  predicate MayWrite(s: State, account: Id, id: Id) {
    || Writes(RoleOf(s, account))
    || (id in s.objects && account in s.objects[id].grants
        && s.objects[id].grants[account].role == GrantEditor)
  }

  predicate RecipientMatches(s: State, e: Envelope) {
    e.wrap.Web? ==> e.device in s.devices && s.devices[e.device].recipient == Some("x25519:" + e.wrap.recipientKey)
  }

  // ----- shapes the parsers accept -----

  predicate DistinctEnvelopes(envelopes: seq<Envelope>) {
    forall i, j | 0 <= i < j < |envelopes| :: envelopes[i].device != envelopes[j].device
  }

  predicate DistinctObjects(objects: seq<PolicyObject>) {
    forall i, j | 0 <= i < j < |objects| :: objects[i].id != objects[j].id
  }

  predicate PolicyShape(p: Policy) {
    && p.version in {1, 2} && p.revision >= 1
    && |p.members| <= MAX_LIST && |p.objects| <= MAX_LIST
    && (exists a <- p.members :: p.members[a] == Owner)
    && DistinctObjects(p.objects)
    && (forall o <- p.objects ::
          && o.epoch >= 1 && (p.version == 2 <==> o.document.Some?)
          && |o.grants| <= MAX_LIST && |o.envelopes| <= MAX_LIST && DistinctEnvelopes(o.envelopes))
  }

  predicate CheckpointFits(t: Transition, c: Checkpoint) {
    var entry := Entry(t.policy.objects, c.payload.objectId);
    && entry.Some? && entry.value.epoch == c.payload.epoch
    && (entry.value.document.Some? ==> entry.value.document.value.generation == c.generation)
    && c.payload.workspace == t.policy.workspace && c.payload.device == t.policy.device
    && c.payload.policyRevision == t.policy.revision && c.covered == t.covered
  }

  predicate BlobFits(t: Transition, b: BlobEntry) {
    var entry := Entry(t.policy.objects, b.objectId);
    && entry.Some? && entry.value.epoch == b.epoch && 1 <= b.size <= MAX_BLOB
    && exists c <- t.checkpoints :: c.payload.objectId == b.objectId
  }

  predicate TransitionShape(t: Transition) {
    && t.version in {1, 2} && PolicyShape(t.policy)
    && |t.checkpoints| <= MAX_LIST && |t.blobs| <= MAX_LIST && (t.version == 1 ==> t.blobs == [])
    && (forall i, j | 0 <= i < j < |t.checkpoints| ::
          t.checkpoints[i].payload.objectId != t.checkpoints[j].payload.objectId)
    && (forall c <- t.checkpoints :: CheckpointFits(t, c))
    && (forall i, j | 0 <= i < j < |t.blobs| ::
          (t.blobs[i].objectId, t.blobs[i].digest) != (t.blobs[j].objectId, t.blobs[j].digest))
    && (forall b <- t.blobs :: BlobFits(t, b))
  }

  predicate ActivationShape(a: Activation) {
    && a.version in {1, 2} && a.envelopes != [] && |a.envelopes| <= MAX_LIST && DistinctEnvelopes(a.envelopes)
    && |a.blobs| <= 1 && (a.version == 1 ==> a.blobs == [])
    && (forall b <- a.blobs :: b.objectId == a.Object() && b.epoch == 1 && 1 <= b.size <= MAX_BLOB)
    && a.checkpoint.payload.workspace == a.workspace && a.checkpoint.payload.device == a.device
    && a.checkpoint.payload.policyRevision == a.policyRevision && a.checkpoint.payload.epoch == 1
    && a.checkpoint.covered == a.covered && a.checkpoint.generation == a.document.generation
  }

  // ----- devices -----

  /** Enrolling never changes a device that exists. */
  function Enroll(s: State, id: Id, device: Device): (r: State)
    ensures r == s.(devices := r.devices)
  {
    if id in s.devices || device.revoked then s else s.(devices := s.devices[id := device])
  }

  function Revoke(s: State, account: Id, id: Id): (r: Result<State, Error>)
    ensures r.Ok? ==> r.value == s.(devices := r.value.devices)
  {
    if id !in s.devices || s.devices[id].account != account then Err(NotFound)
    else Ok(s.(devices := s.devices[id := s.devices[id].(revoked := true)]))
  }

  // ----- objects and operations -----

  function CreateObject(s: State, actor: Actor, id: Id): (r: Result<(State, nat), Error>)
    ensures r.Ok? ==> r.value.0 == s.(objects := r.value.0.objects)
  {
    if !Active(s, actor) then Err(Unauthorized)
    else if id in s.objects then
      if HasRow(s, actor.account, id) then Ok((s, s.objects[id].epoch)) else Err(Forbidden)
    else if !Writes(RoleOf(s, actor.account)) then Err(Forbidden)
    else if s.capability.Some? && (exists p <- s.log :: p.version == 2) then Err(ActivationRequired)
    else Ok((s.(objects := s.objects[id := Object(1, None, map[], map[], map[], map[])]), 1))
  }

  /** One operation of a pushed batch, inside its transaction. */
  function PushOne(h: Codec, s: State, actor: Actor, op: Operation): (r: Result<(State, nat), Error>)
    ensures r.Ok? ==> r.value.0 == s.(ops := r.value.0.ops, sequence := r.value.0.sequence, used := r.value.0.used)
    ensures r.Ok? ==> s.ops <= r.value.0.ops
  {
    if op.objectId !in s.objects || !MayWrite(s, actor.account, op.objectId) then Err(Forbidden)
    else
      var target := s.objects[op.objectId];
      var existing := FindOp(s.ops, op.id);
      if existing.Some? then
        if existing.value.digest != h.op(op) then Err(OperationIdReused) else Ok((s, existing.value.sequence))
      else if target.epoch != op.epoch then Err(StaleEpoch)
      else if target.document.Some? && op.Generation() != Some(target.document.value.generation) then
        Err(GenerationChanged)
      else if target.document.Some? && target.document.value.mode == TextMode && op.edit.kind == FileKind then
        Err(WholeFileReplacement)
      else if target.document.None? && op.edit.Edit? then Err(CheckpointRequired)
      else if op.policyRevision > s.revision then Err(StalePolicy)
      else
        var bytes := DecodedLength(op.ciphertext);
        if s.used + bytes > s.quota then Err(QuotaExceeded)
        else Ok((s.(ops := s.ops + [OpRow(op, s.sequence + 1, h.op(op), bytes)],
                    sequence := s.sequence + 1, used := s.used + bytes), s.sequence + 1))
  }

  function PushAll(h: Codec, s: State, actor: Actor, ops: seq<Operation>): (r: Result<(State, seq<nat>), Error>)
    ensures r.Ok? ==> r.value.0 == s.(ops := r.value.0.ops, sequence := r.value.0.sequence, used := r.value.0.used)
    ensures r.Ok? ==> s.ops <= r.value.0.ops
  {
    if ops == [] then Ok((s, []))
    else match PushAll(h, s, actor, ops[..|ops| - 1])
      case Err(e) => Err(e)
      case Ok(before) =>
        match PushOne(h, before.0, actor, ops[|ops| - 1])
        case Err(e) => Err(e)
        case Ok(one) => Ok((one.0, before.1 + [one.1]))
  }

  /** The first operation that names another workspace or device, or whose signature
      the actor's key did not make. */
  function Screen(s: State, actor: Actor, ops: seq<Operation>, signed: Operation -> bool): Option<Error> {
    if ops == [] then None
    else
      var before := Screen(s, actor, ops[..|ops| - 1], signed);
      var op := ops[|ops| - 1];
      if before.Some? then before
      else if op.workspace != s.id || op.device != actor.device then Some(IdentityMismatch)
      else if !signed(op) then Some(InvalidSignature)
      else None
  }

  function Push(h: Codec, s: State, actor: Actor, ops: seq<Operation>, signed: Operation -> bool)
    : (r: Result<(State, seq<nat>), Error>)
    ensures r.Ok? ==> r.value.0 == s.(ops := r.value.0.ops, sequence := r.value.0.sequence, used := r.value.0.used)
    ensures r.Ok? ==> s.ops <= r.value.0.ops
  {
    var screened := Screen(s, actor, ops, signed);
    if screened.Some? then Err(screened.value)
    else if !Active(s, actor) then Err(Unauthorized)
    else PushAll(h, s, actor, ops)
  }

  // ----- reading -----

  predicate Visible(s: State, account: Id, row: OpRow) {
    || (account in s.members && row.sequence > s.members[account].historyAfter)
    || (row.op.objectId in s.objects && account in s.objects[row.op.objectId].grants
        && row.sequence > s.objects[row.op.objectId].grants[account].historyAfter)
  }

  function Readable(s: State, account: Id, rows: seq<OpRow>, after: nat): seq<OpRow> {
    if rows == [] then []
    else
      var row := rows[|rows| - 1];
      Readable(s, account, rows[..|rows| - 1], after)
        + if row.sequence > after && Visible(s, account, row) then [row] else []
  }

  datatype Page = Page(operations: seq<OpRow>, cursor: nat, hasMore: bool, revision: nat)

  function Pull(s: State, actor: Actor, after: nat): Result<Page, Error> {
    if !Active(s, actor) then Err(Unauthorized)
    else if actor.account !in s.members && (forall o <- s.objects :: actor.account !in s.objects[o].grants) then
      Err(Forbidden)
    else if after > s.sequence then Err(CursorAhead)
    else
      var rows := Readable(s, actor.account, s.ops, after);
      if |rows| > PAGE then Ok(Page(rows[..PAGE], rows[PAGE - 1].sequence, true, s.revision))
      else Ok(Page(rows, s.sequence, false, s.revision))
  }

  // ----- keys and the capability -----

  function StoreOwnKey(s: State, actor: Actor, share: bool, k: OwnKey, verified: bool): (r: Result<State, Error>)
    ensures r.Ok? ==> r.value == s.(objects := r.value.objects)
  {
    if (!share && k.device != actor.device) || k.signer != actor.device then Err(Forbidden)
    else if !verified then Err(InvalidSignature)
    else if k.workspace != s.id then Err(NotFound)
    else if !Active(s, actor) then Err(Unauthorized)
    else if !MayWrite(s, actor.account, k.objectId) then Err(Forbidden)
    else if k.objectId !in s.objects || s.objects[k.objectId].epoch != k.epoch then Err(StaleEpoch)
    else if k.device !in s.devices || s.devices[k.device].revoked
            || !HasRow(s, s.devices[k.device].account, k.objectId) then Err(Forbidden)
    else if !RecipientMatches(s, Envelope(k.device, k.wrapped, k.signature, k.wrap)) then Err(InvalidRecipient)
    else
      var target := s.objects[k.objectId];
      var slot := Slot(k.epoch, k.device);
      if slot in target.keys then
        if target.keys[slot].wrapped != k.wrapped || target.keys[slot].wrap != k.wrap then Err(KeyChanged) else Ok(s)
      else if target.Enrolled() then Err(KeyRotationRequired)
      else
        var row := KeyRow(k.wrapped, actor.device, k.signature, k.wrap);
        Ok(s.(objects := s.objects[k.objectId := target.(keys := target.keys[slot := row])]))
  }

  function PutCapability(s: State, actor: Actor, c: Capability, verified: bool): (r: Result<State, Error>)
    ensures r.Ok? ==> r.value == s.(capability := r.value.capability)
  {
    if c.device != actor.device then Err(IdentityMismatch)
    else if !verified then Err(InvalidSignature)
    else if c.workspace != s.id then Err(NotFound)
    else if !Active(s, actor) then Err(Unauthorized)
    else if RoleOf(s, actor.account) != Some(Owner) then Err(OwnerRequired)
    else if s.capability.Some? then if s.capability.value != c then Err(CapabilityChanged) else Ok(s)
    else Ok(s.(capability := Some(c)))
  }

  // ----- transitions and access policies -----

  function StageTransition(h: Codec, s: State, actor: Actor, t: Transition, verified: bool): (r: Result<State, Error>)
    ensures r.Ok? ==> r.value == s.(transitions := r.value.transitions, used := r.value.used)
  {
    if !TransitionShape(t) then Err(Malformed)
    else if t.policy.device != actor.device then Err(IdentityMismatch)
    else if !verified then Err(InvalidSignature)
    else if t.policy.workspace != s.id then Err(NotFound)
    else if !Active(s, actor) then Err(Unauthorized)
    else if !Administers(RoleOf(s, actor.account)) then Err(Forbidden)
    else if s.capability.None? then Err(CapabilityRequired)
    else if t.id in s.transitions then
      if s.transitions[t.id].digest != h.transition(t) then Err(TransitionIdReused) else Ok(s)
    else if t.policy.revision != s.revision + 1 || t.covered != s.sequence then Err(TransitionStale)
    else if s.used + h.transitionBytes(t) > s.quota then Err(QuotaExceeded)
    else
      var row := TransitionRow(actor.device, h.transition(t), t, h.transitionBytes(t), false);
      Ok(s.(transitions := s.transitions[t.id := row], used := s.used + row.bytes))
  }

  /** The accounts whose devices a policy looks up: old members, new members, and every grantee. */
  function PolicyAccounts(p: Policy): set<Id> {
    p.members.Keys + (set o, a | o in p.objects && a in o.grants :: a)
  }

  function ActiveDevices(s: State, accounts: set<Id>): set<Id> {
    set d | d in s.devices && !s.devices[d].revoked && s.devices[d].account in accounts
  }

  function NextAccounts(p: Policy, next: PolicyObject): set<Id> {
    p.members.Keys + next.grants.Keys
  }

  function PriorDocument(s: State, id: Id): Option<Document> {
    match Latest(s)
    case None => None
    case Some(p) =>
      match Entry(p.objects, id)
      case None => None
      case Some(entry) => entry.document
  }

  function CheckpointFor(t: Option<Transition>, id: Id): Option<Checkpoint> {
    if t.None? then None else FindCheckpoint(t.value.checkpoints, id)
  }

  /** The first envelope the server refuses to store for `object` at the policy's epoch. */
  function EnvelopeError(s: State, target: Object, epoch: nat, envelopes: seq<Envelope>): (r: Option<Error>)
    ensures r.None? ==> forall e <- envelopes :: RecipientMatches(s, e)
  {
    if envelopes == [] then None
    else
      var before := EnvelopeError(s, target, epoch, envelopes[..|envelopes| - 1]);
      var e := envelopes[|envelopes| - 1];
      var slot := Slot(target.epoch, e.device);
      if before.Some? then before
      else if !RecipientMatches(s, e) then Some(InvalidRecipient)
      else if epoch == target.epoch && slot in target.keys
              && (target.keys[slot].wrapped != e.wrapped || target.keys[slot].wrap.Web? != e.wrap.Web?) then
        Some(KeyEpochImmutable)
      else None
  }

  /** Why the policy's entry for one object is refused. */
  function ObjectError(s: State, p: Policy, t: Option<Transition>, next: PolicyObject): Option<Error>
    requires next.id in s.objects
  {
    var target := s.objects[next.id];
    var oldAccounts := s.members.Keys + target.grants.Keys;
    var nextAccounts := NextAccounts(p, next);
    var devices := ActiveDevices(s, s.members.Keys + PolicyAccounts(p));
    var changesReaders := !(nextAccounts <= oldAccounts) || !(EnvelopeDevices(next.envelopes) <= target.KeyDevices());
    var removesAccess := !(oldAccounts <= nextAccounts) || !(target.KeyDevices() <= devices);
    var rotates := next.epoch != target.epoch;
    var checkpoint := CheckpointFor(t, next.id);
    if s.capability.Some? && changesReaders && t.None? then Some(AccessTransitionRequired)
    else if
      || next.epoch < target.epoch || next.epoch > target.epoch + 1
      || ((removesAccess || ((t.Some? || target.Enrolled()) && changesReaders)) && next.epoch != target.epoch + 1)
    then Some(KeyRotationRequired)
    else if (t.Some? || target.Enrolled()) && rotates && checkpoint.None? then Some(CheckpointRequired)
    else if p.version == 2 && PriorDocument(s, next.id) != next.document && checkpoint.None? then
      Some(CheckpointRequired)
    else if checkpoint.Some? && p.version == 2
            && (next.document.None? || checkpoint.value.generation != next.document.value.generation) then
      Some(InvalidGeneration)
    else if checkpoint.Some? && !rotates then Some(CheckpointEpochUnchanged)
    else if checkpoint.Some? && (exists e <- target.checkpoints ::
              target.checkpoints[e].generation == checkpoint.value.generation) then
      Some(GenerationReused)
    else if (set d | d in devices && s.devices[d].account in nextAccounts) != EnvelopeDevices(next.envelopes) then
      Some(KeyEnvelopesIncomplete)
    else EnvelopeError(s, target, next.epoch, next.envelopes)
  }

  function FirstObjectError(s: State, p: Policy, t: Option<Transition>, entries: seq<PolicyObject>): (r: Option<Error>)
    requires forall e <- entries :: e.id in s.objects
    ensures r.None? <==> forall e <- entries :: ObjectError(s, p, t, e).None?
  {
    if entries == [] then None
    else
      var before := FirstObjectError(s, p, t, entries[..|entries| - 1]);
      if before.Some? then before else ObjectError(s, p, t, entries[|entries| - 1])
  }

  /** The history bound a row starts with: the row it replaces keeps its own, and a new
      row starts at the transition's boundary, or at 0 without one. */
  function Bound(prior: Option<nat>, t: Option<Transition>): nat {
    if prior.Some? then prior.value else if t.Some? then t.value.covered else 0
  }

  function NextMembers(s: State, p: Policy, t: Option<Transition>): map<Id, MemberRow> {
    map a | a in p.members ::
      MemberRow(p.members[a], Bound(if a in s.members then Some(s.members[a].historyAfter) else None, t))
  }

  function NextGrants(target: Object, next: PolicyObject, t: Option<Transition>): map<Id, GrantRow> {
    map a | a in next.grants ::
      GrantRow(next.grants[a], Bound(if a in target.grants then Some(target.grants[a].historyAfter) else None, t))
  }

  function NewKeys(epoch: nat, signer: Id, envelopes: seq<Envelope>): map<Slot, KeyRow> {
    if envelopes == [] then map[]
    else
      var e := envelopes[|envelopes| - 1];
      NewKeys(epoch, signer, envelopes[..|envelopes| - 1])
        [Slot(epoch, e.device) := KeyRow(e.wrapped, signer, e.signature, e.wrap)]
  }

  function NextRow(target: Object, t: Option<Transition>, signer: Id, next: PolicyObject): Object {
    var checkpoint := CheckpointFor(t, next.id);
    Object(
      next.epoch, next.document, NextGrants(target, next, t),
      NewKeys(next.epoch, signer, next.envelopes) + target.keys,
      if checkpoint.None? then target.checkpoints
      else target.checkpoints[next.epoch :=
        CheckpointRow(t.value.id, checkpoint.value.generation, checkpoint.value.covered, checkpoint.value)],
      target.activated)
  }

  function NextObjects(s: State, t: Option<Transition>, signer: Id, entries: seq<PolicyObject>): map<Id, Object> {
    map o | o in s.objects ::
      match Entry(entries, o)
      case None => s.objects[o]
      case Some(next) => NextRow(s.objects[o], t, signer, next)
  }

  predicate Rotates(s: State, entries: seq<PolicyObject>, id: Id) {
    && id in s.objects && Entry(entries, id).Some?
    && Entry(entries, id).value.epoch != s.objects[id].epoch
  }

  function NextLinks(s: State, entries: seq<PolicyObject>): map<Id, LinkRow> {
    map l | l in s.links :: s.links[l].(revoked := s.links[l].revoked || Rotates(s, entries, s.links[l].objectId))
  }

  predicate BlobStored(s: State, owner: BlobOwner, b: BlobEntry) {
    var key := BlobKey(b.objectId, b.digest);
    && key in s.blobs && s.blobs[key].epoch == b.epoch && s.blobs[key].size == b.size
    && s.blobs[key].owner == owner && s.blobs[key].complete && !s.blobs[key].failed
  }

  datatype AccessPlan = Refuse(error: Error) | Keep | Apply

  /** What a staged transition says about committing now: None to go on to the policy. */
  function TransitionPlan(h: Codec, s: State, t: Transition): (plan: Option<AccessPlan>)
    ensures plan != Some(Apply)
  {
    if t.id !in s.transitions || s.transitions[t.id].digest != h.transition(t) then Some(Refuse(TransitionNotStaged))
    else if s.transitions[t.id].committed then Some(Keep)
    else if t.covered != s.sequence then Some(Refuse(TransitionStale))
    else if exists b <- t.blobs :: !BlobStored(s, ForTransition(t.id), b) then Some(Refuse(TransitionBlobIncomplete))
    else None
  }

  /** What a policy meets before its objects are looked at. */
  function PolicyGate(h: Codec, s: State, actor: Actor, p: Policy): (plan: AccessPlan)
    ensures plan == Apply ==> forall e <- p.objects :: e.id in s.objects
  {
    var role := RoleOf(s, actor.account);
    if !Administers(role) then Refuse(Forbidden)
    else if p.revision == s.revision && LogAt(s, p.revision) == Some(p) then Keep
    else if p.revision != s.revision + 1 then Refuse(PolicyRevisionChanged)
    else if Latest(s).Some? && Latest(s).value.version == 2 && p.version != 2 then Refuse(ClientUpgradeRequired)
    else if p.previous != (if Latest(s).None? then None else Some(h.policy(Latest(s).value))) then
      Refuse(PolicyChainChanged)
    else if (map a | a in s.members :: s.members[a].role) != p.members && role != Some(Owner) then Refuse(OwnerRequired)
    else if s.objects.Keys != (set e | e in p.objects :: e.id) then Refuse(PolicyObjectsChanged)
    else if exists a <- PolicyAccounts(p) ::
              ActiveDevices(s, s.members.Keys + PolicyAccounts(p)) * ActiveDevices(s, {a}) == {} then
      Refuse(RecipientDeviceRequired)
    else
      assert forall e <- p.objects :: e.id in (set e | e in p.objects :: e.id);
      Apply
  }

  function PolicyPlan(h: Codec, s: State, actor: Actor, p: Policy, t: Option<Transition>): AccessPlan {
    var gate := PolicyGate(h, s, actor, p);
    if gate != Apply then gate
    else
      var error := FirstObjectError(s, p, t, p.objects);
      if error.Some? then Refuse(error.value) else Apply
  }

  function Plan(h: Codec, s: State, actor: Actor, p: Policy, t: Option<Transition>, verified: bool): AccessPlan {
    if !PolicyShape(p) || (t.Some? && !TransitionShape(t.value)) then Refuse(Malformed)
    else if p.device != actor.device then Refuse(IdentityMismatch)
    else if !verified then Refuse(InvalidSignature)
    else if t.Some? && h.policy(t.value.policy) != h.policy(p) then Refuse(InvalidTransition)
    else if p.workspace != s.id then Refuse(NotFound)
    else if !Active(s, actor) then Refuse(Unauthorized)
    else if t.Some? && TransitionPlan(h, s, t.value).Some? then TransitionPlan(h, s, t.value).value
    else PolicyPlan(h, s, actor, p, t)
  }

  function Applied(s: State, actor: Actor, p: Policy, t: Option<Transition>): State {
    s.(
      objects := NextObjects(s, t, actor.device, p.objects),
      members := NextMembers(s, p, t),
      links := NextLinks(s, p.objects),
      log := s.log + [p],
      revision := p.revision,
      transitions := if t.None? || t.value.id !in s.transitions then s.transitions
                     else s.transitions[t.value.id := s.transitions[t.value.id].(committed := true)])
  }

  function SetAccess(h: Codec, s: State, actor: Actor, p: Policy, t: Option<Transition>, verified: bool)
    : (r: Result<State, Error>)
    ensures r.Ok? ==> r.value == s.(objects := r.value.objects, members := r.value.members, links := r.value.links, log := r.value.log, revision := r.value.revision, transitions := r.value.transitions)
  {
    match Plan(h, s, actor, p, t, verified)
    case Refuse(e) => Err(e)
    case Keep => Ok(s)
    case Apply => Ok(Applied(s, actor, p, t))
  }

  // ----- activations -----

  /** Why an activation cannot be staged or committed against the rows as they are. */
  function ActivationError(h: Codec, s: State, actor: Actor, a: Activation, verified: bool): Option<Error> {
    if !Writes(RoleOf(s, actor.account)) then Some(Forbidden)
    else if a.policyRevision != s.revision || a.covered != s.sequence then Some(ActivationStale)
    else if LogAt(s, a.policyRevision).None? || LogAt(s, a.policyRevision).value.version != 2 then
      Some(CapabilityRequired)
    else if s.capability.None? then Some(CapabilityRequired)
    else if a.capability != h.capability(s.capability.value) then Some(CapabilityChanged)
    else if !verified then Some(InvalidSignature)
    else if a.Object() in s.objects then Some(ObjectAlreadyExists)
    else if ActiveDevices(s, s.members.Keys) != EnvelopeDevices(a.envelopes) then Some(KeyEnvelopesIncomplete)
    else if exists e <- a.envelopes :: !RecipientMatches(s, e) then Some(InvalidRecipient)
    else None
  }

  function StageActivation(h: Codec, s: State, actor: Actor, a: Activation, verified: bool): (r: Result<State, Error>)
    ensures r.Ok? ==> r.value == s.(activations := r.value.activations, used := r.value.used)
  {
    if !ActivationShape(a) then Err(Malformed)
    else if a.device != actor.device then Err(IdentityMismatch)
    else if a.workspace != s.id then Err(NotFound)
    else if !Active(s, actor) then Err(Unauthorized)
    else if a.id in s.activations then
      if s.activations[a.id].digest != h.activation(a) then Err(ActivationIdReused) else Ok(s)
    else
      var error := ActivationError(h, s, actor, a, verified);
      if error.Some? then Err(error.value)
      else if s.used + h.activationBytes(a) > s.quota then Err(QuotaExceeded)
      else
        var row := ActivationRow(actor.device, h.activation(a), a, h.activationBytes(a), false);
        Ok(s.(activations := s.activations[a.id := row], used := s.used + row.bytes))
  }

  /** The object a committed activation publishes. */
  function Activated(a: Activation, signer: Id): Object {
    Object(1, Some(a.document), map[], NewKeys(1, signer, a.envelopes), map[],
           map[1 := CheckpointRow(a.id, a.document.generation, a.covered, a.checkpoint)])
  }

  function CommitActivation(h: Codec, s: State, actor: Actor, id: Id, verified: bool): (r: Result<State, Error>)
    ensures r.Ok? ==> r.value == s.(objects := r.value.objects, activations := r.value.activations)
  {
    if !Active(s, actor) then Err(Unauthorized)
    else if id !in s.activations || s.activations[id].device != actor.device then Err(NotFound)
    else if s.activations[id].committed then Ok(s)
    else
      var row := s.activations[id];
      var a := row.body;
      if !ActivationShape(a) || a.workspace != s.id || h.activation(a) != row.digest then Err(Malformed)
      else
        var error := ActivationError(h, s, actor, a, verified);
        if error.Some? then Err(error.value)
        else if exists b <- a.blobs :: !BlobStored(s, ForActivation(id), b) then Err(ActivationBlobIncomplete)
        else Ok(s.(objects := s.objects[a.Object() := Activated(a, actor.device)],
                   activations := s.activations[id := row.(committed := true)]))
  }

  // ----- public links -----

  function CreateLink(s: State, actor: Actor, id: Id, snapshot: Operation, verified: bool): (r: Result<State, Error>)
    ensures r.Ok? ==> r.value == s.(links := r.value.links, used := r.value.used)
  {
    if snapshot.device != actor.device then Err(IdentityMismatch)
    else if !verified then Err(InvalidSignature)
    else if snapshot.workspace != s.id then Err(NotFound)
    else if !Active(s, actor) then Err(Unauthorized)
    else if !Administers(RoleOf(s, actor.account)) then Err(Forbidden)
    else if snapshot.objectId !in s.objects || s.objects[snapshot.objectId].epoch != snapshot.epoch then Err(StaleEpoch)
    else if s.used + DecodedLength(snapshot.ciphertext) > s.quota then Err(QuotaExceeded)
    else if id in s.links then Err(UniqueViolation)
    else
      var row := LinkRow(snapshot.objectId, snapshot, 1, DecodedLength(snapshot.ciphertext), false);
      Ok(s.(links := s.links[id := row], used := s.used + row.bytes))
  }

  /** `live` says whether the link's expiry is still ahead. */
  function UpdateLink(h: Codec, s: State, actor: Actor, id: Id, expected: nat, snapshot: Operation, live: bool,
                      verified: bool): (r: Result<(State, nat), Error>)
    ensures r.Ok? ==> r.value.0 == s.(links := r.value.0.links, used := r.value.0.used)
  {
    if snapshot.device != actor.device then Err(IdentityMismatch)
    else if !verified then Err(InvalidSignature)
    else if snapshot.workspace != s.id then Err(NotFound)
    else if !Active(s, actor) then Err(Unauthorized)
    else if !Administers(RoleOf(s, actor.account)) then Err(Forbidden)
    else if id !in s.links || s.links[id].objectId != snapshot.objectId || s.links[id].revoked || !live then Err(NotFound)
    else
      var link := s.links[id];
      var bytes := DecodedLength(snapshot.ciphertext);
      if h.op(link.snapshot) == h.op(snapshot) then Ok((s, link.revision))
      else if link.revision != expected then Err(LinkRevisionChanged)
      else if snapshot.objectId !in s.objects || s.objects[snapshot.objectId].epoch != snapshot.epoch then Err(StaleEpoch)
      else if s.used - link.bytes + bytes > s.quota then Err(QuotaExceeded)
      else
        var row := link.(snapshot := snapshot, revision := link.revision + 1, bytes := bytes);
        Ok((s.(links := s.links[id := row], used := s.used - link.bytes + bytes), row.revision))
  }

  function RevokeLink(s: State, actor: Actor, id: Id): (r: Result<State, Error>)
    ensures r.Ok? ==> r.value == s.(links := r.value.links)
  {
    if !Active(s, actor) then Err(Unauthorized)
    else if !Administers(RoleOf(s, actor.account)) then Err(Forbidden)
    else if id !in s.links then Err(NotFound)
    else Ok(s.(links := s.links[id := s.links[id].(revoked := true)]))
  }

  // ----- blob rows -----

  predicate Manifests(blobs: seq<BlobEntry>, key: BlobKey, epoch: nat, size: nat) {
    BlobEntry(key.objectId, epoch, key.id, size) in blobs
  }

  /** Whether the actor may write a blob for `owner`, and at which epoch. */
  function BlobEpoch(s: State, actor: Actor, key: BlobKey, owner: BlobOwner, epoch: nat, size: nat)
    : Result<nat, Error>
  {
    var role := RoleOf(s, actor.account);
    match owner
    case ForTransition(id) =>
      if !Administers(role) then Err(Forbidden)
      else if id !in s.transitions || s.transitions[id].device != actor.device || s.transitions[id].committed then
        Err(TransitionNotStaged)
      else if !Manifests(s.transitions[id].body.blobs, key, epoch, size) then Err(Malformed)
      else Ok(epoch)
    case ForActivation(id) =>
      if !Writes(role) then Err(Forbidden)
      else if id !in s.activations || s.activations[id].device != actor.device || s.activations[id].committed then
        Err(ActivationNotStaged)
      else if s.activations[id].body.Object() != key.objectId
              || !Manifests(s.activations[id].body.blobs, key, epoch, size) then Err(Malformed)
      else Ok(epoch)
    case Direct =>
      if !MayWrite(s, actor.account, key.objectId) then Err(Forbidden)
      else if key.objectId !in s.objects then Err(NotFound)
      else Ok(s.objects[key.objectId].epoch)
  }

  predicate UploadInUse(s: State, upload: Id) {
    exists key <- s.blobs :: s.blobs[key].upload == upload
  }

  function CreateBlob(s: State, actor: Actor, key: BlobKey, owner: BlobOwner, epoch: nat, size: nat, upload: Id)
    : (r: Result<State, Error>)
    ensures r.Ok? ==> r.value == s.(blobs := r.value.blobs, used := r.value.used)
  {
    if epoch < 1 || size < 1 || size > MAX_BLOB then Err(Malformed)
    else if !Active(s, actor) then Err(Unauthorized)
    else
      var allowed := BlobEpoch(s, actor, key, owner, epoch, size);
      if allowed.Err? then Err(allowed.error)
      else if allowed.value != epoch then Err(StaleEpoch)
      else if key in s.blobs then
        var row := s.blobs[key];
        if row.size != size || row.epoch != epoch || row.device != actor.device || row.owner != owner then
          Err(BlobChanged)
        else Ok(s)
      else if s.used + size > s.quota then Err(QuotaExceeded)
      else if UploadInUse(s, upload) then Err(UniqueViolation)
      else Ok(s.(blobs := s.blobs[key := BlobRow(epoch, size, upload, actor.device, owner, false, false, Local)],
                 used := s.used + size))
  }

  /** The checks a transfer request makes before it touches the upload. */
  function TransferError(s: State, actor: Actor, key: BlobKey): Option<Error> {
    if !Active(s, actor) then Some(Unauthorized)
    else if key !in s.blobs then Some(NotFound)
    else
      var row := s.blobs[key];
      var allowed := BlobEpoch(s, actor, key, row.owner, row.epoch, row.size);
      if allowed.Err? then Some(allowed.error)
      else if row.device != actor.device then Some(Forbidden)
      else None
  }

  function DeleteBlob(s: State, actor: Actor, key: BlobKey): (r: Result<State, Error>)
    ensures r.Ok? ==> r.value == s.(blobs := r.value.blobs, used := r.value.used)
  {
    var error := TransferError(s, actor, key);
    if error.Some? then Err(error.value)
    else if s.blobs[key].complete then Err(BlobImmutable)
    else Ok(s.(blobs := s.blobs - {key}, used := s.used - s.blobs[key].size))
  }

  /** An upload whose bytes are all there, as the transfer that filled it saw it. */
  datatype Finish = Finish(upload: Id, size: nat, epoch: nat)

  /** Publish or fail an upload after it was hashed, if nothing about it changed meanwhile. */
  function FinishBlob(s: State, actor: Actor, key: BlobKey, finish: Finish, valid: bool, storage: Storage)
    : (r: Result<State, Error>)
    ensures r.Ok? ==> r.value == s.(blobs := r.value.blobs)
  {
    if !Active(s, actor) then Err(Unauthorized)
    else if key !in s.blobs || s.blobs[key].upload != finish.upload || s.blobs[key].device != actor.device
            || s.blobs[key].size != finish.size then Err(BlobChanged)
    else
      var row := s.blobs[key];
      var allowed := BlobEpoch(s, actor, key, row.owner, finish.epoch, finish.size);
      if allowed.Err? then Err(allowed.error)
      else if allowed.value != finish.epoch then Err(StaleEpoch)
      else
        Ok(s.(blobs := s.blobs[key :=
          if valid then row.(complete := true, storage := storage) else row.(failed := true)]))
  }
}
