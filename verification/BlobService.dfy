/** The upload service: rows in the store's tables, bytes in its directory and bucket. */
module BlobService {
  import opened Wrappers
  import opened SyncTypes
  import Rules = SyncRules
  import Uploads = BlobUploads
  import Store = SyncStore

  class BlobService {
    const store: Store.SyncStore
    var uploads: set<Id>
    var files: map<Id, Uploads.Bytes>
    var bucket: map<BlobKey, Uploads.Bytes>
    var jobs: seq<Uploads.Finalization>

    constructor (store: Store.SyncStore)
      ensures this.store == store
      ensures Snapshot() == Uploads.World(store.Snapshot(), {}, map[], map[], [])
    {
      this.store := store;
      uploads, files, bucket, jobs := {}, map[], map[], [];
    }

    function Snapshot(): Uploads.World
      reads this, store
    {
      Uploads.World(store.Snapshot(), uploads, files, bucket, jobs)
    }

    /** Reserve a blob and make its empty upload, under a random ID never drawn before. */
    method Create(actor: Actor, key: BlobKey, owner: BlobOwner, epoch: nat, size: nat, upload: Id)
      returns (r: Result<(), Error>)
      requires upload !in uploads
      modifies this`uploads, this`files, store`blobs, store`used
      ensures Snapshot() == Uploads.Created(old(Snapshot()), actor, key, owner, epoch, size, upload)
      ensures r.Ok? <==> Rules.CreateBlob(old(store.Snapshot()), actor, key, owner, epoch, size, upload).Ok?
    {
      hide Rules.Active, Rules.BlobEpoch, Rules.UploadInUse;
      var known := key in store.blobs;
      r := store.CreateBlob(actor, key, owner, epoch, size, upload);
      if r.Ok? && !known {
        uploads, files := uploads + {upload}, files[upload := []];
      }
    }

    method Start(actor: Actor, key: BlobKey, epoch: nat)
      requires key in store.blobs
      modifies this`jobs
      ensures Snapshot() == Uploads.Started(old(Snapshot()), actor, key, epoch)
    {
      var row := store.blobs[key];
      if row.upload in files && |files[row.upload]| == row.size {
        var finish := Rules.Finish(row.upload, row.size, epoch);
        jobs := jobs + [Uploads.Finalization(actor, key, finish, Uploads.Hashing)];
      }
    }

    /** The checks of a transfer that is neither a deletion nor for a complete blob. */
    method Authorize(actor: Actor, key: BlobKey) returns (r: Result<nat, Error>)
      ensures r == Uploads.TransferEpoch(store.Snapshot(), actor, key)
      ensures r.Ok? ==> key in store.blobs
    {
      hide Rules.Active, Rules.BlobEpoch;
      var s := store.Snapshot();
      if !Rules.Active(s, actor) { return Err(Unauthorized); }
      if key !in store.blobs { return Err(NotFound); }
      var row := store.blobs[key];
      var allowed := Rules.BlobEpoch(s, actor, key, row.owner, row.epoch, row.size);
      if allowed.Err? { return allowed; }
      if row.device != actor.device { return Err(Forbidden); }
      if row.complete { return Err(BlobImmutable); }
      if row.epoch != allowed.value { return Err(StaleEpoch); }
      if row.failed { return Err(BlobChanged); }
      return allowed;
    }

    method Patch(actor: Actor, key: BlobKey, offset: nat, bytes: Uploads.Bytes)
      modifies this`files, this`jobs
      ensures Snapshot() == Uploads.Patched(old(Snapshot()), actor, key, offset, bytes)
    {
      hide Uploads.TransferEpoch;
      var epoch := Authorize(actor, key);
      if epoch.Err? { return; }
      var row := store.blobs[key];
      if row.upload in files && |bytes| <= Uploads.MAX_PATCH && offset == |files[row.upload]|
         && offset + |bytes| <= row.size {
        files := files[row.upload := files[row.upload] + bytes];
        Start(actor, key, epoch.value);
      }
    }

    method Head(actor: Actor, key: BlobKey)
      modifies this`jobs
      ensures Snapshot() == Uploads.Probed(old(Snapshot()), actor, key)
    {
      hide Uploads.TransferEpoch;
      var epoch := Authorize(actor, key);
      if epoch.Ok? { Start(actor, key, epoch.value); }
    }

    method Delete(actor: Actor, key: BlobKey) returns (r: Result<(), Error>)
      modifies this`files, store`blobs, store`used
      ensures Snapshot() == Uploads.Deleted(old(Snapshot()), actor, key)
    {
      hide Rules.Active, Rules.BlobEpoch;
      if key !in store.blobs {
        r := Err(NotFound);
        return;
      }
      var upload := store.blobs[key].upload;
      r := store.DeleteBlob(actor, key);
      if r.Ok? { files := files - {upload}; }
    }

    // ----- finalization, outside the lock -----

    method HashUpload(digest: Uploads.Bytes -> Id, i: nat, copies: bool)
      requires i < |jobs|
      modifies this`jobs
      ensures Snapshot() ==
        old(Snapshot()).(jobs := old(jobs)[i := Uploads.HashedJob(digest, old(Snapshot()), old(jobs)[i], copies)])
    {
      var job := jobs[i];
      if job.phase == Uploads.Hashing {
        if job.finish.upload !in files {
          jobs := jobs[i := job.(phase := Uploads.Ended)];
        } else {
          var valid := digest(files[job.finish.upload]) == job.key.id;
          jobs := jobs[i := job.(phase := Uploads.Hashed(valid, copies))];
        }
      }
    }

    method CopyUpload(i: nat)
      requires i < |jobs|
      modifies this`jobs, this`bucket
      ensures Snapshot() == Uploads.CopiedTo(old(Snapshot()), i)
    {
      var job := jobs[i];
      if job.phase.Hashed? && job.phase.valid && job.phase.copies {
        if job.finish.upload !in files {
          jobs := jobs[i := job.(phase := Uploads.Ended)];
        } else {
          bucket := bucket[job.key := files[job.finish.upload]];
          jobs := jobs[i := job.(phase := Uploads.Copied)];
        }
      }
    }

    method Publish(i: nat)
      requires i < |jobs|
      modifies this`jobs, store`blobs
      ensures Snapshot() == Uploads.Published(old(Snapshot()), i)
    {
      hide Rules.FinishBlob;
      var job := jobs[i];
      if Uploads.Ready(job) {
        var copied := job.phase == Uploads.Copied;
        var r := store.FinishBlob(job.actor, job.key, job.finish, copied || job.phase.valid, if copied then S3 else Local);
        jobs := jobs[i := job.(phase := Uploads.Ended)];
      }
    }
  }

  // ----- reading a range back -----

  function Joined(chunks: seq<Uploads.Bytes>): Uploads.Bytes {
    if chunks == [] then [] else Joined(chunks[..|chunks| - 1]) + chunks[|chunks| - 1]
  }

  lemma {:induction false} JoinedGrows(chunks: seq<Uploads.Bytes>, i: nat)
    requires i <= |chunks|
    ensures |Joined(chunks[..i])| <= |Joined(chunks)|
    decreases |chunks|
  {
    if i < |chunks| {
      assert chunks[..|chunks| - 1][..i] == chunks[..i];
      JoinedGrows(chunks[..|chunks| - 1], i);
    } else {
      assert chunks[..i] == chunks;
    }
  }

  /** Fill a buffer from a stream: exactly the range's bytes, or nothing. */
  method ReadBlobRange(chunks: seq<Uploads.Bytes>, expected: nat) returns (bytes: Option<array<bv8>>)
    ensures bytes.Some? <==> 1 <= expected <= Uploads.MAX_PATCH && |Joined(chunks)| == expected
    ensures bytes.Some? ==> fresh(bytes.value) && bytes.value[..] == Joined(chunks)
  {
    if expected < 1 || expected > Uploads.MAX_PATCH { return None; }
    var buffer := new bv8[expected];
    var offset := 0;
    for i := 0 to |chunks|
      invariant offset == |Joined(chunks[..i])| <= expected
      invariant buffer[..offset] == Joined(chunks[..i])
    {
      var chunk := chunks[i];
      assert chunks[..i + 1][..i] == chunks[..i];
      if offset + |chunk| > expected {
        JoinedGrows(chunks, i + 1);
        return None;
      }
      forall k | 0 <= k < |chunk| { buffer[offset + k] := chunk[k]; }
      assert buffer[..offset + |chunk|] == buffer[..offset] + chunk;
      offset := offset + |chunk|;
    }
    assert chunks[..|chunks|] == chunks;
    if offset != expected { return None; }
    assert buffer[..] == buffer[..offset];
    return Some(buffer);
  }
}
