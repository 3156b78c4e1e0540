/** Encrypted file uploads: rows change under the workspace lock, but the bytes are hashed
    and stored outside it, so every such step may interleave with every other transaction. */
module BlobUploads {
  import opened Wrappers
  import opened SyncTypes
  import opened SyncRules
  import opened SyncRuns

  type Bytes = seq<bv8>

  const MAX_PATCH := 1024 * 1024

  /** Where a finalization stands: it hashes the upload, may copy it to the object store,
      and then takes the lock again. */
  datatype Phase = Hashing | Hashed(valid: bool, copies: bool) | Copied | Ended

  datatype Finalization = Finalization(actor: Actor, key: BlobKey, finish: Finish, phase: Phase)

  /** `uploads` holds every upload ID ever made; `files` the upload directory by upload;
      `bucket` the object store by blob. */
  datatype World = World(
    rows: State, uploads: set<Id>, files: map<Id, Bytes>, bucket: map<BlobKey, Bytes>, jobs: seq<Finalization>)

  datatype Event =
    | Transaction(step: Step)
    | Create(actor: Actor, key: BlobKey, owner: BlobOwner, epoch: nat, size: nat, upload: Id)
    | Patch(actor: Actor, key: BlobKey, offset: nat, bytes: Bytes)
    | Head(actor: Actor, key: BlobKey)
    | Delete(actor: Actor, key: BlobKey)
    | HashUpload(job: nat, copies: bool)
    | CopyUpload(job: nat)
    | Publish(job: nat)

  /** A transaction that is not about blobs. */
  predicate Other(step: Step) {
    !step.BlobCreated? && !step.BlobDeleted? && !step.BlobFinished?
  }

  /** The random upload ID is new. */
  function Created(w: World, actor: Actor, key: BlobKey, owner: BlobOwner, epoch: nat, size: nat, upload: Id): World {
    match CreateBlob(w.rows, actor, key, owner, epoch, size, upload)
    case Err(_) => w
    case Ok(rows) =>
      if key in w.rows.blobs || upload in w.uploads then w
      else w.(rows := rows, uploads := w.uploads + {upload}, files := w.files[upload := []])
  }

  /** The epoch a transfer to an unfinished upload is authorized for. */
  function TransferEpoch(s: State, actor: Actor, key: BlobKey): Result<nat, Error> {
    var error := TransferError(s, actor, key);
    if error.Some? then Err(error.value)
    else
      var row := s.blobs[key];
      var allowed := BlobEpoch(s, actor, key, row.owner, row.epoch, row.size);
      if row.complete then Err(BlobImmutable)
      else if allowed.Err? then allowed
      else if row.epoch != allowed.value then Err(StaleEpoch)
      else if row.failed then Err(BlobChanged)
      else allowed
  }

  /** Once the whole file is there, the request goes on to finalize it. */
  function Started(w: World, actor: Actor, key: BlobKey, epoch: nat): World
    requires key in w.rows.blobs
  {
    var row := w.rows.blobs[key];
    if row.upload !in w.files || |w.files[row.upload]| != row.size then w
    else w.(jobs := w.jobs + [Finalization(actor, key, Finish(row.upload, row.size, epoch), Hashing)])
  }

  function Patched(w: World, actor: Actor, key: BlobKey, offset: nat, bytes: Bytes): World {
    match TransferEpoch(w.rows, actor, key)
    case Err(_) => w
    case Ok(epoch) =>
      var row := w.rows.blobs[key];
      if row.upload !in w.files || |bytes| > MAX_PATCH then w
      else if offset != |w.files[row.upload]| || offset + |bytes| > row.size then w
      else Started(w.(files := w.files[row.upload := w.files[row.upload] + bytes]), actor, key, epoch)
  }

  function Probed(w: World, actor: Actor, key: BlobKey): World {
    match TransferEpoch(w.rows, actor, key)
    case Err(_) => w
    case Ok(epoch) => Started(w, actor, key, epoch)
  }

  function Deleted(w: World, actor: Actor, key: BlobKey): World {
    match DeleteBlob(w.rows, actor, key)
    case Err(_) => w
    case Ok(rows) => if key !in w.rows.blobs then w else w.(rows := rows, files := w.files - {w.rows.blobs[key].upload})
  }

  /** Hash the upload's file, if it is still there. */
  function HashedJob(digest: Bytes -> Id, w: World, job: Finalization, copies: bool): Finalization {
    if job.phase != Hashing then job
    else if job.finish.upload !in w.files then job.(phase := Ended)
    else job.(phase := Hashed(digest(w.files[job.finish.upload]) == job.key.id, copies))
  }

  function CopiedTo(w: World, i: nat): World
    requires i < |w.jobs|
  {
    var job := w.jobs[i];
    if !(job.phase.Hashed? && job.phase.valid && job.phase.copies) then w
    else if job.finish.upload !in w.files then w.(jobs := w.jobs[i := job.(phase := Ended)])
    else w.(bucket := w.bucket[job.key := w.files[job.finish.upload]], jobs := w.jobs[i := job.(phase := Copied)])
  }

  /** Whether a finalization is ready to take the lock again. */
  predicate Ready(job: Finalization) {
    job.phase == Copied || (job.phase.Hashed? && (!job.phase.valid || !job.phase.copies))
  }

  function Published(w: World, i: nat): World
    requires i < |w.jobs|
  {
    var job := w.jobs[i];
    if !Ready(job) then w
    else
      var valid := job.phase == Copied || job.phase.valid;
      var storage := if job.phase == Copied then S3 else Local;
      w.(rows := Committed(w.rows, FinishBlob(w.rows, job.actor, job.key, job.finish, valid, storage)),
         jobs := w.jobs[i := job.(phase := Ended)])
  }

  function Next(h: Codec, digest: Bytes -> Id, w: World, event: Event): World {
    match event
    case Transaction(step) => if Other(step) then w.(rows := SyncRuns.Next(h, w.rows, step)) else w
    case Create(actor, key, owner, epoch, size, upload) => Created(w, actor, key, owner, epoch, size, upload)
    case Patch(actor, key, offset, bytes) => Patched(w, actor, key, offset, bytes)
    case Head(actor, key) => Probed(w, actor, key)
    case Delete(actor, key) => Deleted(w, actor, key)
    case HashUpload(i, copies) => if i < |w.jobs| then w.(jobs := w.jobs[i := HashedJob(digest, w, w.jobs[i], copies)]) else w
    case CopyUpload(i) => if i < |w.jobs| then CopiedTo(w, i) else w
    case Publish(i) => if i < |w.jobs| then Published(w, i) else w
  }

  function Run(h: Codec, digest: Bytes -> Id, w: World, events: seq<Event>): World {
    if events == [] then w
    else Next(h, digest, Run(h, digest, w, events[..|events| - 1]), events[|events| - 1])
  }

  // ----- what holds throughout -----

  ghost predicate Injective(digest: Bytes -> Id) {
    forall a, b :: digest(a) == digest(b) ==> a == b
  }

  /** The bytes a reader of a complete blob gets. */
  function Content(w: World, key: BlobKey): Option<Bytes> {
    if key !in w.rows.blobs || !w.rows.blobs[key].complete then None
    else if w.rows.blobs[key].storage == S3 then if key in w.bucket then Some(w.bucket[key]) else None
    else if w.rows.blobs[key].upload in w.files then Some(w.files[w.rows.blobs[key].upload])
    else None
  }

  /** One row: its upload is its own, its file is there and no longer than declared. A
      complete row's bytes are whole and match its ID; a failed row's are whole and do not. */
  ghost predicate RowSound(digest: Bytes -> Id, w: World, key: BlobKey)
    requires key in w.rows.blobs
  {
    var row := w.rows.blobs[key];
    && row.upload in w.uploads && row.upload in w.files && |w.files[row.upload]| <= row.size
    && (row.complete || row.failed ==> |w.files[row.upload]| == row.size)
    && (row.complete ==> digest(w.files[row.upload]) == key.id && (row.storage == S3 ==> key in w.bucket))
    && (row.failed ==> digest(w.files[row.upload]) != key.id)
  }

  /** One finalization, while its upload's file is there: the file is whole, and what the
      finalization found is still so. */
  ghost predicate JobSound(digest: Bytes -> Id, w: World, job: Finalization) {
    && job.finish.upload in w.uploads
    && (forall key <- w.rows.blobs | w.rows.blobs[key].upload == job.finish.upload ::
          w.rows.blobs[key].size == job.finish.size)
    && (job.finish.upload in w.files ==>
          && |w.files[job.finish.upload]| == job.finish.size
          && (job.phase.Hashed? ==> (job.phase.valid <==> digest(w.files[job.finish.upload]) == job.key.id))
          && (job.phase == Copied ==> job.key in w.bucket && digest(w.files[job.finish.upload]) == job.key.id))
  }

  ghost predicate RowsSound(digest: Bytes -> Id, w: World) {
    forall key <- w.rows.blobs :: RowSound(digest, w, key)
  }

  ghost predicate OwnUploads(w: World) {
    && w.files.Keys <= w.uploads
    && forall a, b | a in w.rows.blobs && b in w.rows.blobs && w.rows.blobs[a].upload == w.rows.blobs[b].upload :: a == b
  }

  ghost predicate JobsSound(digest: Bytes -> Id, w: World) {
    forall i | 0 <= i < |w.jobs| :: JobSound(digest, w, w.jobs[i])
  }

  /** Whatever the object store holds for a blob has the blob's digest. */
  ghost predicate BucketSound(digest: Bytes -> Id, w: World) {
    forall key <- w.bucket :: digest(w.bucket[key]) == key.id
  }

  /** A whole file whose finalization has begun is never appended to: the only row that
      could is full. */
  ghost predicate Sound(digest: Bytes -> Id, w: World) {
    RowsSound(digest, w) && OwnUploads(w) && JobsSound(digest, w) && BucketSound(digest, w)
  }

  lemma CreatedSound(digest: Bytes -> Id, w: World, actor: Actor, key: BlobKey, owner: BlobOwner, epoch: nat, size: nat,
                     upload: Id)
    requires Sound(digest, w)
    ensures Sound(digest, Created(w, actor, key, owner, epoch, size, upload))
  {
    hide Active, BlobEpoch, UploadInUse;
  }

  /** Adding bytes to an unfinished upload, or none to any. */
  lemma AppendedSound(digest: Bytes -> Id, w: World, key: BlobKey, bytes: Bytes)
    requires Sound(digest, w) && key in w.rows.blobs && !w.rows.blobs[key].complete && !w.rows.blobs[key].failed
    requires w.rows.blobs[key].upload in w.files
    requires |w.files[w.rows.blobs[key].upload]| + |bytes| <= w.rows.blobs[key].size
    ensures var upload := w.rows.blobs[key].upload;
      Sound(digest, w.(files := w.files[upload := w.files[upload] + bytes]))
  {
    var upload := w.rows.blobs[key].upload;
    if bytes == [] {
      assert w.files[upload] + bytes == w.files[upload];
      assert w.files[upload := w.files[upload] + bytes] == w.files;
    }
  }

  lemma StartedSound(digest: Bytes -> Id, w: World, actor: Actor, key: BlobKey, epoch: nat)
    requires Sound(digest, w) && key in w.rows.blobs
    ensures Sound(digest, Started(w, actor, key, epoch))
  {
  }

  lemma PatchedSound(digest: Bytes -> Id, w: World, actor: Actor, key: BlobKey, offset: nat, bytes: Bytes)
    requires Sound(digest, w)
    ensures Sound(digest, Patched(w, actor, key, offset, bytes))
  {
    hide Sound, Started, Active, BlobEpoch;
    var epoch := TransferEpoch(w.rows, actor, key);
    if epoch.Ok? {
      var row := w.rows.blobs[key];
      if row.upload in w.files && |w.files[row.upload]| + |bytes| <= row.size {
        AppendedSound(digest, w, key, bytes);
        StartedSound(digest, w.(files := w.files[row.upload := w.files[row.upload] + bytes]), actor, key, epoch.value);
      }
    }
  }

  lemma DeletedSound(digest: Bytes -> Id, w: World, actor: Actor, key: BlobKey)
    requires Sound(digest, w)
    ensures Sound(digest, Deleted(w, actor, key))
  {
    hide Active, BlobEpoch;
  }

  lemma HashedSound(digest: Bytes -> Id, w: World, i: nat, copies: bool)
    requires Sound(digest, w) && i < |w.jobs|
    ensures Sound(digest, w.(jobs := w.jobs[i := HashedJob(digest, w, w.jobs[i], copies)]))
  {
  }

  lemma CopiedSound(digest: Bytes -> Id, w: World, i: nat)
    requires Sound(digest, w) && i < |w.jobs|
    ensures Sound(digest, CopiedTo(w, i))
  {
  }

  lemma PublishedSound(digest: Bytes -> Id, w: World, i: nat)
    requires Sound(digest, w) && i < |w.jobs|
    ensures Sound(digest, Published(w, i))
  {
    hide Active, BlobEpoch;
  }

  lemma OtherKeepsBlobs(h: Codec, s: State, step: Step)
    requires Other(step)
    ensures SyncRuns.Next(h, s, step).blobs == s.blobs
  {
    hide NextAccess, NextObject, NextContent;
  }

  lemma NextSound(h: Codec, digest: Bytes -> Id, w: World, event: Event)
    requires Sound(digest, w)
    ensures Sound(digest, Next(h, digest, w, event))
  {
    hide Created, Patched, Started, Deleted, HashedJob, CopiedTo, Published, SyncRuns.Next, Active, BlobEpoch;
    match event
    case Transaction(step) => if Other(step) { OtherKeepsBlobs(h, w.rows, step); }
    case Create(actor, key, owner, epoch, size, upload) => CreatedSound(digest, w, actor, key, owner, epoch, size, upload);
    case Patch(actor, key, offset, bytes) => PatchedSound(digest, w, actor, key, offset, bytes);
    case Head(actor, key) =>
      if TransferEpoch(w.rows, actor, key).Ok? {
        StartedSound(digest, w, actor, key, TransferEpoch(w.rows, actor, key).value);
      }
    case Delete(actor, key) => DeletedSound(digest, w, actor, key);
    case HashUpload(i, copies) => if i < |w.jobs| { HashedSound(digest, w, i, copies); }
    case CopyUpload(i) => if i < |w.jobs| { CopiedSound(digest, w, i); }
    case Publish(i) => if i < |w.jobs| { PublishedSound(digest, w, i); }
  }

  lemma {:induction false} RunSound(h: Codec, digest: Bytes -> Id, w: World, events: seq<Event>)
    requires Sound(digest, w)
    ensures Sound(digest, Run(h, digest, w, events))
  {
    hide Sound, Next;
    if events != [] {
      RunSound(h, digest, w, events[..|events| - 1]);
      NextSound(h, digest, Run(h, digest, w, events[..|events| - 1]), events[|events| - 1]);
    }
  }

  // ----- complete blobs -----

  /** A complete blob has bytes of the size it declared and the digest it is named by, and
      did not fail. */
  lemma ContentWhole(digest: Bytes -> Id, w: World, key: BlobKey)
    requires Injective(digest) && Sound(digest, w) && key in w.rows.blobs && w.rows.blobs[key].complete
    ensures Content(w, key).Some? && digest(Content(w, key).value) == key.id
    ensures |Content(w, key).value| == w.rows.blobs[key].size && !w.rows.blobs[key].failed
  {
    assert RowSound(digest, w, key);
  }

  /** The blob is complete, with the size it had. */
  ghost predicate StillComplete(w: World, next: World, key: BlobKey)
    requires key in w.rows.blobs
  {
    key in next.rows.blobs && next.rows.blobs[key].complete && next.rows.blobs[key].size == w.rows.blobs[key].size
  }

  /** What a transaction on blob rows does to a row that is complete. */
  ghost predicate RowKept(s: State, next: Result<State, Error>, key: BlobKey)
    requires key in s.blobs
  {
    next.Ok? ==> key in next.value.blobs && next.value.blobs[key].complete && next.value.blobs[key].size == s.blobs[key].size
  }

  lemma RowsKept(s: State, actor: Actor, k: BlobKey, key: BlobKey)
    requires key in s.blobs && s.blobs[key].complete
    ensures RowKept(s, DeleteBlob(s, actor, k), key)
    ensures forall owner, epoch, size, upload :: RowKept(s, CreateBlob(s, actor, k, owner, epoch, size, upload), key)
    ensures forall finish, valid, storage :: RowKept(s, FinishBlob(s, actor, k, finish, valid, storage), key)
  {
    hide Active, BlobEpoch, UploadInUse;
  }

  lemma CreateKeeps(w: World, actor: Actor, made: BlobKey, owner: BlobOwner, epoch: nat, size: nat, upload: Id, key: BlobKey)
    requires key in w.rows.blobs && w.rows.blobs[key].complete
    ensures StillComplete(w, Created(w, actor, made, owner, epoch, size, upload), key)
  {
    RowsKept(w.rows, actor, made, key);
    hide CreateBlob;
  }

  lemma DeleteKeeps(w: World, actor: Actor, gone: BlobKey, key: BlobKey)
    requires key in w.rows.blobs && w.rows.blobs[key].complete
    ensures StillComplete(w, Deleted(w, actor, gone), key)
  {
    RowsKept(w.rows, actor, gone, key);
    hide DeleteBlob;
  }

  lemma PublishKeeps(w: World, job: nat, key: BlobKey)
    requires key in w.rows.blobs && w.rows.blobs[key].complete && job < |w.jobs|
    ensures StillComplete(w, Published(w, job), key)
  {
    RowsKept(w.rows, w.jobs[job].actor, w.jobs[job].key, key);
    hide FinishBlob;
  }

  lemma FileEventsKeep(w: World, event: Event)
    ensures event.Patch? ==> Patched(w, event.actor, event.key, event.offset, event.bytes).rows == w.rows
    ensures event.Head? ==> Probed(w, event.actor, event.key).rows == w.rows
    ensures event.CopyUpload? && event.job < |w.jobs| ==> CopiedTo(w, event.job).rows == w.rows
  {
    hide Active, BlobEpoch;
  }

  /** No event takes a complete row away. */
  lemma StaysComplete(h: Codec, digest: Bytes -> Id, w: World, event: Event, key: BlobKey)
    requires key in w.rows.blobs && w.rows.blobs[key].complete
    ensures StillComplete(w, Next(h, digest, w, event), key)
  {
    hide SyncRuns.Next, Created, Deleted, Published, Patched, Probed, CopiedTo, HashedJob;
    match event
    case Create(actor, made, owner, epoch, size, upload) => CreateKeeps(w, actor, made, owner, epoch, size, upload, key);
    case Delete(actor, gone) => DeleteKeeps(w, actor, gone, key);
    case Publish(job) => if job < |w.jobs| { PublishKeeps(w, job, key); }
    case Transaction(step) => if Other(step) { OtherKeepsBlobs(h, w.rows, step); }
    case _ => FileEventsKeep(w, event);
  }

  lemma {:induction false} RunStaysComplete(h: Codec, digest: Bytes -> Id, w: World, events: seq<Event>, key: BlobKey)
    requires key in w.rows.blobs && w.rows.blobs[key].complete
    ensures StillComplete(w, Run(h, digest, w, events), key)
  {
    hide Next;
    if events != [] {
      var n := |events| - 1;
      RunStaysComplete(h, digest, w, events[..n], key);
      StaysComplete(h, digest, Run(h, digest, w, events[..n]), events[n], key);
    }
  }

  /** A workspace before its first upload. */
  function Fresh(rows: State): World { World(rows.(blobs := map[]), {}, map[], map[], []) }

  /** However uploads, deletions, new uploads of the same blob, finalizations and other
      transactions interleave: a complete blob has whole bytes of its own digest, did not
      fail, and keeps the very same bytes. */
  lemma CompleteForGood(h: Codec, digest: Bytes -> Id, rows: State, first: seq<Event>, more: seq<Event>, key: BlobKey)
    requires Injective(digest)
    requires var w := Run(h, digest, Fresh(rows), first); key in w.rows.blobs && w.rows.blobs[key].complete
    ensures var w := Run(h, digest, Fresh(rows), first);
      var later := Run(h, digest, w, more);
      && key in later.rows.blobs && later.rows.blobs[key].complete && !later.rows.blobs[key].failed
      && Content(w, key).Some? && digest(Content(w, key).value) == key.id
      && |Content(w, key).value| == w.rows.blobs[key].size
      && Content(later, key) == Content(w, key)
  {
    assert Sound(digest, Fresh(rows));
    hide Run, Sound, Content;
    RunSound(h, digest, Fresh(rows), first);
    var w := Run(h, digest, Fresh(rows), first);
    RunSound(h, digest, w, more);
    RunStaysComplete(h, digest, w, more, key);
    ContentWhole(digest, w, key);
    ContentWhole(digest, Run(h, digest, w, more), key);
  }

  /** No blob is complete and failed, whatever happened. */
  lemma NeverBoth(h: Codec, digest: Bytes -> Id, rows: State, events: seq<Event>, key: BlobKey)
    requires key in Run(h, digest, Fresh(rows), events).rows.blobs
    ensures var row := Run(h, digest, Fresh(rows), events).rows.blobs[key]; !(row.complete && row.failed)
  {
    assert Sound(digest, Fresh(rows));
    hide Run;
    RunSound(h, digest, Fresh(rows), events);
    assert RowSound(digest, Run(h, digest, Fresh(rows), events), key);
  }
}
