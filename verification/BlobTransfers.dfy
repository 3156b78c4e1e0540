/** A whole upload, from its reservation to the bytes a reader gets. */
module BlobTransfers {
  import opened Wrappers
  import opened SyncTypes
  import opened SyncRules
  import opened BlobUploads
  import Answers = SyncAnswers
  import Pushes = SyncPushes
  import SyncRuns

  function Joined(chunks: seq<Bytes>): Bytes {
    if chunks == [] then [] else Joined(chunks[..|chunks| - 1]) + chunks[|chunks| - 1]
  }

  /** The transfer requests of the chunks, each at the offset that was reached. */
  function Patches(actor: Actor, key: BlobKey, chunks: seq<Bytes>): seq<Event> {
    if chunks == [] then []
    else
      var n := |chunks| - 1;
      Patches(actor, key, chunks[..n]) + [Patch(actor, key, |Joined(chunks[..n])|, chunks[n])]
  }

  lemma {:induction false} RunAppends(h: Codec, digest: Bytes -> Id, w: World, a: seq<Event>, b: seq<Event>)
    ensures Run(h, digest, w, a + b) == Run(h, digest, Run(h, digest, w, a), b)
    decreases |b|
  {
    hide Next;
    if b == [] {
      assert a + b == a;
    } else {
      var n := |b| - 1;
      assert (a + b)[..|a + b| - 1] == a + b[..n];
      RunAppends(h, digest, w, a, b[..n]);
    }
  }

  /** An upload under way: its row waits for the whole file, for a device that may send it. */
  ghost predicate Waiting(w: World, actor: Actor, key: BlobKey, size: nat, epoch: nat) {
    && key in w.rows.blobs && TransferEpoch(w.rows, actor, key) == Ok(epoch)
    && w.rows.blobs[key].size == size && w.rows.blobs[key].upload in w.files
  }

  lemma {:induction false} JoinedPrefix(chunks: seq<Bytes>, n: nat)
    requires n <= |chunks|
    ensures |Joined(chunks[..n])| <= |Joined(chunks)|
    decreases |chunks|
  {
    if n < |chunks| {
      assert chunks[..|chunks| - 1][..n] == chunks[..n];
      JoinedPrefix(chunks[..|chunks| - 1], n);
    } else {
      assert chunks[..n] == chunks;
    }
  }

  /** What the upload's file and the finalizations are once these bytes are there. */
  ghost function Filled(w: World, actor: Actor, key: BlobKey, epoch: nat, bytes: Bytes): World
    requires key in w.rows.blobs
  {
    var row := w.rows.blobs[key];
    w.(files := w.files[row.upload := bytes],
       jobs := if |bytes| != row.size then w.jobs
               else w.jobs + [Finalization(actor, key, Finish(row.upload, row.size, epoch), Hashing)])
  }

  /** A current device that reserved the blob, may still transfer it at its own epoch, and
      has not seen it published or failed. */
  ghost predicate MaySend(s: State, actor: Actor, key: BlobKey) {
    && Pushes.Current(s, actor) && key in s.blobs
    && var row := s.blobs[key];
       row.device == actor.device && !row.complete && !row.failed
       && Answers.MayTransfer(s, actor, key, row.owner, row.epoch, row.size, row.epoch)
  }

  lemma SendExactly(s: State, actor: Actor, key: BlobKey)
    ensures TransferEpoch(s, actor, key).Ok? <==> MaySend(s, actor, key)
    ensures TransferEpoch(s, actor, key).Ok? ==> TransferEpoch(s, actor, key).value == s.blobs[key].epoch
  {
    Pushes.CurrentExactly(s, actor);
    if key in s.blobs {
      var row := s.blobs[key];
      Answers.EpochExactly(s, actor, key, row.owner, row.epoch, row.size);
    }
    hide BlobEpoch, Active, Pushes.Current, Answers.MayTransfer;
  }

  /** A chunk of at most 1 MiB at the file's end, within the declared size, is appended, and
      a whole file's finalization begins; any other chunk changes nothing. */
  lemma PatchExactly(h: Codec, digest: Bytes -> Id, w: World, actor: Actor, key: BlobKey, offset: nat, bytes: Bytes)
    ensures Next(h, digest, w, Patch(actor, key, offset, bytes)) ==
      if MaySend(w.rows, actor, key) && w.rows.blobs[key].upload in w.files && |bytes| <= 1048576
         && offset == |w.files[w.rows.blobs[key].upload]| && offset + |bytes| <= w.rows.blobs[key].size
      then Filled(w, actor, key, w.rows.blobs[key].epoch, w.files[w.rows.blobs[key].upload] + bytes)
      else w
  {
    SendExactly(w.rows, actor, key);
    hide TransferEpoch, MaySend;
  }

  /** A probe of a whole file begins its finalization again, and changes nothing else. */
  lemma HeadExactly(h: Codec, digest: Bytes -> Id, w: World, actor: Actor, key: BlobKey)
    ensures Next(h, digest, w, Head(actor, key)) ==
      if MaySend(w.rows, actor, key) && w.rows.blobs[key].upload in w.files
         && |w.files[w.rows.blobs[key].upload]| == w.rows.blobs[key].size
      then w.(jobs := w.jobs + [Finalization(actor, key,
                Finish(w.rows.blobs[key].upload, w.rows.blobs[key].size, w.rows.blobs[key].epoch), Hashing)])
      else w
  {
    SendExactly(w.rows, actor, key);
    hide TransferEpoch, MaySend;
  }

  /** Deleting takes the row and its file away together, or changes nothing. */
  lemma DeleteExactly(h: Codec, digest: Bytes -> Id, w: World, actor: Actor, key: BlobKey)
    ensures var next := Next(h, digest, w, Delete(actor, key));
      if DeleteBlob(w.rows, actor, key).Ok? then
        && key in w.rows.blobs && key !in next.rows.blobs && w.rows.blobs[key].upload !in next.files
        && next.rows == DeleteBlob(w.rows, actor, key).value
        && next == w.(rows := next.rows, files := w.files - {w.rows.blobs[key].upload})
      else next == w
  {
    hide BlobEpoch, Active;
  }

  /** Every other transaction runs on the rows alone. */
  lemma TransactionExactly(h: Codec, digest: Bytes -> Id, w: World, step: SyncRuns.Step)
    ensures Next(h, digest, w, Transaction(step)) ==
      if step.BlobCreated? || step.BlobDeleted? || step.BlobFinished? then w
      else w.(rows := SyncRuns.Next(h, w.rows, step))
  {
    hide SyncRuns.Next;
  }

  /** A finalization whose file is gone ends, and leaves rows, files and bucket as they are. */
  lemma GoneEnds(h: Codec, digest: Bytes -> Id, w: World, i: nat, copies: bool)
    requires i < |w.jobs| && w.jobs[i].phase == Hashing && w.jobs[i].finish.upload !in w.files
    ensures var next := Next(h, digest, w, HashUpload(i, copies));
      && next == w.(jobs := w.jobs[i := w.jobs[i].(phase := Ended)])
      && Next(h, digest, next, CopyUpload(i)) == next && Next(h, digest, next, Publish(i)) == next
  {
  }

  lemma OneChunk(h: Codec, digest: Bytes -> Id, w: World, actor: Actor, key: BlobKey, size: nat, epoch: nat, bytes: Bytes)
    requires Waiting(w, actor, key, size, epoch) && 0 < |bytes| <= MAX_PATCH
    requires |w.files[w.rows.blobs[key].upload]| + |bytes| <= size
    ensures var file := w.files[w.rows.blobs[key].upload];
      Next(h, digest, w, Patch(actor, key, |file|, bytes)) == Filled(w, actor, key, epoch, file + bytes)
  {
    hide TransferEpoch;
  }

  /** A file that is not whole yet goes on to wait. */
  lemma FilledWaits(w: World, actor: Actor, key: BlobKey, size: nat, epoch: nat, bytes: Bytes, more: Bytes)
    requires Waiting(w, actor, key, size, epoch) && |bytes| != size
    ensures var now := Filled(w, actor, key, epoch, bytes);
      && Waiting(now, actor, key, size, epoch) && now.rows == w.rows && now.files[w.rows.blobs[key].upload] == bytes
      && Filled(now, actor, key, epoch, more) == Filled(w, actor, key, epoch, more)
  {
    hide TransferEpoch;
    var upload, now := w.rows.blobs[key].upload, Filled(w, actor, key, epoch, bytes);
    assert now.files[upload := more] == w.files[upload := more];
  }

  lemma NoneFilled(w: World, actor: Actor, key: BlobKey, size: nat, epoch: nat)
    requires Waiting(w, actor, key, size, epoch) && w.files[w.rows.blobs[key].upload] == [] && size > 0
    ensures Filled(w, actor, key, epoch, []) == w
  {
    hide TransferEpoch;
    assert w.files[w.rows.blobs[key].upload := []] == w.files;
  }

  /** After some chunks the file holds them, and the finalization begins with the last. */
  lemma {:induction false} ChunksStored(h: Codec, digest: Bytes -> Id, w: World, actor: Actor, key: BlobKey, size: nat,
                                        epoch: nat, chunks: seq<Bytes>)
    requires Waiting(w, actor, key, size, epoch) && w.files[w.rows.blobs[key].upload] == [] && size > 0
    requires |Joined(chunks)| <= size && forall c <- chunks :: 0 < |c| <= MAX_PATCH
    ensures Run(h, digest, w, Patches(actor, key, chunks)) == Filled(w, actor, key, epoch, Joined(chunks))
  {
    hide Next;
    if chunks == [] {
      NoneFilled(w, actor, key, size, epoch);
    } else {
      var n := |chunks| - 1;
      var before := Joined(chunks[..n]);
      assert chunks[n] in chunks;
      JoinedLast(chunks);
      ChunksStored(h, digest, w, actor, key, size, epoch, chunks[..n]);
      var patches := Patches(actor, key, chunks);
      assert patches[..|patches| - 1] == Patches(actor, key, chunks[..n]);
      assert patches[|patches| - 1] == Patch(actor, key, |before|, chunks[n]);
      assert Run(h, digest, w, patches) ==
        Next(h, digest, Run(h, digest, w, Patches(actor, key, chunks[..n])), Patch(actor, key, |before|, chunks[n]));
      FilledWaits(w, actor, key, size, epoch, before, Joined(chunks));
      hide Filled, Run, Patches, Joined, Waiting;
      OneChunk(h, digest, Filled(w, actor, key, epoch, before), actor, key, size, epoch, chunks[n]);
    }
  }

  lemma JoinedLast(chunks: seq<Bytes>)
    requires chunks != []
    ensures Joined(chunks) == Joined(chunks[..|chunks| - 1]) + chunks[|chunks| - 1]
  {
  }

  /** The last steps of a finalization whose file is whole: hash it, perhaps copy it, publish. */
  function Finishing(job: nat, copies: bool): seq<Event> {
    [HashUpload(job, copies)] + (if copies then [CopyUpload(job)] else []) + [Publish(job)]
  }

  /** A finalization that hashed its file, and copied it if it was to. */
  ghost function Prepared(w: World, i: nat, copies: bool, valid: bool): World
    requires i < |w.jobs| && w.jobs[i].finish.upload in w.files
  {
    var job := w.jobs[i];
    if copies && valid then
      w.(bucket := w.bucket[job.key := w.files[job.finish.upload]], jobs := w.jobs[i := job.(phase := Copied)])
    else w.(jobs := w.jobs[i := job.(phase := Hashed(valid, copies))])
  }

  lemma Prepares(h: Codec, digest: Bytes -> Id, w: World, i: nat, copies: bool)
    requires i < |w.jobs| && w.jobs[i].phase == Hashing && w.jobs[i].finish.upload in w.files
    ensures var hashed := Next(h, digest, w, HashUpload(i, copies));
      (if copies then Next(h, digest, hashed, CopyUpload(i)) else hashed)
        == Prepared(w, i, copies, digest(w.files[w.jobs[i].finish.upload]) == w.jobs[i].key.id)
  {
  }

  /** The finalization whose file is there publishes it when it has the blob's digest, and
      fails it otherwise; a reader then gets the bytes of the file. */
  lemma Finishes(h: Codec, digest: Bytes -> Id, w: World, i: nat, copies: bool)
    requires i < |w.jobs| && w.jobs[i].phase == Hashing
    requires var job := w.jobs[i];
      && job.finish.upload in w.files && job.key in w.rows.blobs && !w.rows.blobs[job.key].complete
      && !w.rows.blobs[job.key].failed && w.rows.blobs[job.key].upload == job.finish.upload
      && FinishBlob(w.rows, job.actor, job.key, job.finish, true, Local).Ok?
    ensures var job, bytes, end := w.jobs[i], w.files[w.jobs[i].finish.upload], Run(h, digest, w, Finishing(i, copies));
      && job.key in end.rows.blobs
      && (digest(bytes) == job.key.id ==>
            Content(end, job.key) == Some(bytes) && end.rows.blobs[job.key].complete && !end.rows.blobs[job.key].failed)
      && (digest(bytes) != job.key.id ==> end.rows.blobs[job.key].failed && !end.rows.blobs[job.key].complete)
  {
    FinishSteps(h, digest, w, i, copies);
    Prepares(h, digest, w, i, copies);
    var valid := digest(w.files[w.jobs[i].finish.upload]) == w.jobs[i].key.id;
    var ready := Prepared(w, i, copies, valid);
    assert Next(h, digest, ready, Publish(i)) == Published(ready, i);
    PreparedEnds(w, i, copies, valid);
    hide Run, Next, FinishBlob, Published, Prepared, Content;
  }

  lemma PreparedEnds(w: World, i: nat, copies: bool, valid: bool)
    requires i < |w.jobs|
    requires var job := w.jobs[i];
      && job.finish.upload in w.files && job.key in w.rows.blobs && !w.rows.blobs[job.key].complete
      && !w.rows.blobs[job.key].failed && w.rows.blobs[job.key].upload == job.finish.upload
      && FinishBlob(w.rows, job.actor, job.key, job.finish, true, Local).Ok?
    ensures var job, end := w.jobs[i], Published(Prepared(w, i, copies, valid), i);
      && job.key in end.rows.blobs
      && (valid ==>
            && Content(end, job.key) == Some(w.files[job.finish.upload])
            && end.rows.blobs[job.key].complete && !end.rows.blobs[job.key].failed)
      && (!valid ==> end.rows.blobs[job.key].failed && !end.rows.blobs[job.key].complete)
  {
    var job, storage := w.jobs[i], if copies && valid then S3 else Local;
    PublishedRow(w.rows, job.actor, job.key, job.finish, valid, storage);
    hide FinishBlob;
    var ready := Prepared(w, i, copies, valid);
    assert Ready(ready.jobs[i]) && ready.rows == w.rows;
    assert Published(ready, i).rows == SyncRuns.Committed(w.rows, FinishBlob(w.rows, job.actor, job.key, job.finish, valid, storage));
  }

  /** What finishing leaves of the blob's row, whatever was found. */
  lemma PublishedRow(s: State, actor: Actor, key: BlobKey, finish: Finish, valid: bool, storage: Storage)
    requires FinishBlob(s, actor, key, finish, true, Local).Ok?
    ensures key in s.blobs && FinishBlob(s, actor, key, finish, valid, storage) ==
      Ok(s.(blobs := s.blobs[key :=
        if valid then s.blobs[key].(complete := true, storage := storage) else s.blobs[key].(failed := true)]))
  {
    hide BlobEpoch, Active;
  }

  lemma FinishSteps(h: Codec, digest: Bytes -> Id, w: World, i: nat, copies: bool)
    ensures var hashed := Next(h, digest, w, HashUpload(i, copies));
      Run(h, digest, w, Finishing(i, copies)) ==
        Next(h, digest, if copies then Next(h, digest, hashed, CopyUpload(i)) else hashed, Publish(i))
  {
    hide Next;
    var events := Finishing(i, copies);
    var n := |events| - 1;
    assert events[..1] == [HashUpload(i, copies)] && events[..1][..0] == [];
    assert Run(h, digest, w, events[..1]) == Next(h, digest, w, HashUpload(i, copies));
    if copies { assert events[..2][..1] == events[..1] && events[..n] == events[..2]; } else { assert events[..n] == events[..1]; }
  }

  /** A new reservation waits for its file, and its finalization will be allowed. */
  lemma CreatedWaits(h: Codec, digest: Bytes -> Id, w: World, actor: Actor, key: BlobKey, owner: BlobOwner, epoch: nat, size: nat,
                     upload: Id)
    requires CreateBlob(w.rows, actor, key, owner, epoch, size, upload).Ok? && key !in w.rows.blobs && upload !in w.uploads
    ensures var made := Next(h, digest, w, Create(actor, key, owner, epoch, size, upload));
      && Waiting(made, actor, key, size, epoch) && made.jobs == w.jobs && size > 0
      && made.rows.blobs[key] == BlobRow(epoch, size, upload, actor.device, owner, false, false, Local)
      && made.files[upload] == []
      && FinishBlob(made.rows, actor, key, Finish(upload, size, epoch), true, Local).Ok?
  {
    var rows := CreateBlob(w.rows, actor, key, owner, epoch, size, upload).value;
    assert BlobEpoch(rows, actor, key, owner, epoch, size) == BlobEpoch(w.rows, actor, key, owner, epoch, size);
    hide BlobEpoch, UploadInUse;
  }

  /** A file sent in chunks, one after another, and hashed: the blob is complete with exactly
      those bytes when they have its digest, and fails when they do not. */
  lemma UploadCompletes(h: Codec, digest: Bytes -> Id, w: World, actor: Actor, key: BlobKey, owner: BlobOwner, epoch: nat,
                        upload: Id, chunks: seq<Bytes>, copies: bool)
    requires CreateBlob(w.rows, actor, key, owner, epoch, |Joined(chunks)|, upload).Ok?
    requires key !in w.rows.blobs && upload !in w.uploads && forall c <- chunks :: 0 < |c| <= 1048576
    ensures var bytes := Joined(chunks);
      var end := Run(h, digest, w, [Create(actor, key, owner, epoch, |bytes|, upload)] + Patches(actor, key, chunks)
                                   + Finishing(|w.jobs|, copies));
      && key in end.rows.blobs
      && (digest(bytes) == key.id ==> Content(end, key) == Some(bytes) && !end.rows.blobs[key].failed)
      && (digest(bytes) != key.id ==> Content(end, key) == None && end.rows.blobs[key].failed)
  {
    var size := |Joined(chunks)|;
    var create := Create(actor, key, owner, epoch, size, upload);
    CreatedWaits(h, digest, w, actor, key, owner, epoch, size, upload);
    var made := Next(h, digest, w, create);
    assert Run(h, digest, w, [create]) == made by { assert [create][..0] == []; }
    RunAppends(h, digest, w, [create], Patches(actor, key, chunks));
    RunAppends(h, digest, w, [create] + Patches(actor, key, chunks), Finishing(|w.jobs|, copies));
    hide TransferEpoch, CreateBlob, Next, Run;
    ChunksStored(h, digest, made, actor, key, size, epoch, chunks);
    var sent := Filled(made, actor, key, epoch, Joined(chunks));
    assert sent.rows == made.rows && sent.files[upload] == Joined(chunks);
    hide FinishBlob;
    Finishes(h, digest, sent, |w.jobs|, copies);
  }
}
