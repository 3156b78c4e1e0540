# Noura's shared state, proved

A Dafny model of the parts of Noura where many steps share one state, and proofs of what
every run of them keeps.

**The sync server** (`Sync*.dfy`, `Blob*.dfy`, `RateLimit.dfy`). One workspace's tables are a
`State`. Every mutation holds the workspace's row lock and rolls back when it throws, so each
one is an atomic step: `SyncRules` says what it does to the rows, `SyncStore` does it table by
table and is proved to match, and `SyncRuns` lets any steps follow each other, device
enrolment and revocation among them. `SyncTheorems` holds the main results over every
reachable state. A blob's bytes are hashed and stored outside the lock, so `BlobUploads` splits
an upload into steps that interleave with every other transaction.

What each rule answers is also said a second time, in quantifiers over the rows and without
the rules' own helpers, and proved equivalent: which pushes, policies, activations, links and
blobs are taken (`SyncPushes`, `SyncAdmission`, `SyncAnswers`), what they leave (`SyncAccess`,
`SyncSizes`), what a refusal means (`SyncRefusals`), and what each kind of reader gets
(`SyncReaders`). `Base64` says what a ciphertext's bytes are.

**Signatures** (`CanonicalJson.dfy`, `Signing*.dfy`). The canonical arrays as the text
`JSON.stringify` prints, character by character, and why no two accepted values share one.

**The AI service** (`Ai*.dfy`). Runs and queues as one lock section after another (`AiRuns`,
and the class `AiService.Ai`), with the threads between their sections (`AiThreads`).
`AiTheorems`, `AiTools`, `AiTargets`, `AiStops`, `AiStopMissed`, `AiArrivals` and `AiQueues`
quantify over every interleaving; `AiOutcomes` says what one event leaves of a run.

**Smaller cores.** Calendar lanes in place on an array (`CalendarLanes`, `CalendarDay`), the
share viewer's event loop against a recursive tree printer (`ShareHtml`), its output read back
as text (`ShareTags`), its links and its text (`ShareLinks`, `ShareContent`), and the
single-instance hand-over (`Instance`).

## Where the code keeps less than its documentation says

Three statements of `docs/workspace-format/checkpoints.md` do not hold of the server as it is,
and a Stop does less than the comments beside it say. The model keeps the code's behaviour. Each
has a run that shows it, the server's for any digests, and the exact condition.

- "Checkpoint generations cannot be reused for the same object" (line 43). The check reads only
  the table that transitions write, so an activated object's first rotation may take its
  activation's generation again (`SyncWitness.GenerationRepeats`). A policy keeps an object's
  generations unused before exactly when the checkpoint it brings does not name the generation
  of the object's own activation (`SyncGaps.ReusedExactly`). Generations of one object's
  transitions never repeat (`SyncGaps.TransitionGenerationsDistinct`).
- "Existing readers retain their earlier floor" (line 47). A row keeps its bound, but a new row
  for an account that has another one starts at 0 when the policy comes without a transition
  (`SyncFloorWitness.FloorLost`, with version 1 policies only). A floor survives a policy exactly
  when it is 0, the policy commits a transition, or the policy names the account nowhere it has
  no row yet (`SyncHistory.FloorUnderPolicy`).
- "The standalone key-sharing endpoint cannot add recipients to such objects" (line 45). The
  check reads the same one table, so an activated object that has not rotated still takes a
  recipient (`SyncWitness.ActivatedTakesRecipient`, `SyncGaps.RecipientAddedExactly`).
- "The stream hasn't started yet: it stops as it does" (`ai.rs:1826`). The check behind it asks
  only whether a stream is open, and none is open either once the stream has closed. Such a Stop
  sets a flag that the end of the answer clears, and the answer's calls can be handed over,
  allowed and run (`AiStopMissed.StopMissed`). A Stop of a completed run whose calls wait changes
  nothing (`ai.rs:1830`), and one that finds an open stream asks it to stop, which may come after
  its last frame. A Stop keeps every later call of the run from its plugin exactly when it finds
  the run waiting for consent, settling calls, ended, without a plugin it relied on, or about to
  write an answer that leaves no calls (`AiStopMissed.StopQuellsExactly`). A plugin that is turned
  off does so whatever the run was doing (`AiStops.NothingRunsAfterPlugin`).

## Reading the model

Signature checks are boolean inputs of a step. In the sync theorems digests and serialized
sizes are functions (`Codec`) with injective digests; `SigningText` shows that the real digests
are injective on accepted values when SHA-256 is. Lists that the parsers require to be sorted
and distinct are maps when only membership matters. The times of the rate limiter are reals.
`Committed` keeps the old rows on an error. Random IDs of uploads and runs are new.
A run's rounds and the calls of its streams carry numbers that nothing in the code reads: they
only say which round and which call is meant.

Documents and member lists are compared as values where the code compares their JSON text
(`access.ts:461-470`). Stored `jsonb` puts a document's `mode` before its `generation`, a parsed
policy (`access.ts:162-165`) the other way round. So of the version 2 policies the model accepts
the server takes exactly those that bring a checkpoint for every object
(`SyncStoredText.TextTakes`). Results over all runs cover the server's runs and more; the runs
that show a gap bring those checkpoints.

## Model

| member | source | states |
|---|---|---|
| `SyncTheorems.KeysFollowAccess` | apps/server/src/access.ts:418-517 | in every reachable state a current-epoch envelope belongs to a device of an account with a member or grant row on its object, and no envelope is ahead of its object; an applied policy leaves exactly the non-revoked devices of the accounts with access as recipients |
| `SyncKeys.AppliedKeysExact` | apps/server/src/access.ts:484-516 | applying a policy leaves current-epoch envelopes for exactly the entitled devices, whatever envelopes were there before |
| `SyncKeys.KeysImmutable` | apps/server/src/access.ts:502-515 | no step replaces or removes a stored envelope |
| `SyncTheorems.CheckpointsFollowEpochs` | apps/server/src/app.ts:708-738 | in every reachable state an object that a committed activation created has exactly one checkpoint for its current epoch across both tables; so does any object that ever got one, and any other has none |
| `SyncDocuments.AppliedDocument` | apps/server/src/access.ts:446-483 | a policy moves an epoch by at most one, changes a document or adds a checkpoint only with the epoch, and gives every rotation of an enrolled object its checkpoint |
| `SyncStoredText.TextTakes` | apps/server/src/access.ts:461-470 | the comparison of stored with parsed text takes a policy the model accepts if and only if it is of version 1 or brings a checkpoint for every object; a version 2 policy then moves every object to the next epoch |
| `SyncAdmission.PolicyParses` | apps/server/src/access.ts:110-205 | the policies that parse: versions, an owner, at most 1000 of each list, and no name twice |
| `SyncAdmission.TransitionParses` | apps/server/src/checkpoints.ts:109-201 | the transitions that parse: checkpoints and blobs that fit entries of their policy, at most 1000 of each, none twice |
| `SyncAdmission.ActivationParses` | apps/server/src/activations.ts:62-157 | the activations that parse: an envelope per device, at most one blob of the object, and a checkpoint that fits |
| `SyncAdmission.EntryTakenExactly` | apps/server/src/access.ts:418-501 | an object's entry passes if and only if it rotates when it must, brings its checkpoint and document, and has envelopes for exactly the live devices of its readers, each said over the rows |
| `SyncAdmission.PolicyTakenExactly` | apps/server/src/access.ts:307-517 | a policy is applied if and only if it is asked for properly, its transition is ready, it follows the policy in force, and each entry passes |
| `SyncAdmission.PolicyKeptExactly` | apps/server/src/access.ts:327-369 | it is answered without change if and only if its transition was committed or it is the policy in force |
| `SyncAccess.AppliedExactly` | apps/server/src/access.ts:418-546 | what it leaves, row by row: members and grants with the policy's roles and their bounds, epochs, documents, envelopes, checkpoints, revoked links, its own transition, and the rest as it was |
| `SyncAccess.WritersAfter` | apps/server/src/access.ts:520-538 | after it an account may write to an object if and only if the policy makes it a member other than a viewer or grants it editor there |
| `SyncRefusals.PolicyNamesCheck` | apps/server/src/access.ts:307-517 | whatever error a policy is refused with, the check it names really fails |
| `SyncTheorems.OperationsOrdered` | apps/server/src/store.ts:429-474 | in every reachable state the operations' sequences are exactly 1 to the workspace's, the last one included; one object's epochs never fall along them, and one epoch of an object has one generation or none |
| `SyncTheorems.QuotaKept` | apps/server/src/store.ts:465-474 | in every reachable state the bytes in use are the summed bytes of all operations, transitions, activations, links and blobs, and never above the quota |
| `SyncSizes.UsedExactly` | apps/server/src/store.ts:465-474 | in every reachable state the bytes in use are the decoded ciphertexts of all operations and links, the sizes of staged transitions and activations, and the declared sizes of blobs |
| `Base64.DecodedLengthExact` | apps/server/src/store.ts:465-466 | the length counted of the padded base64 of any bytes is the number of those bytes |
| `SyncPushes.PushOneExactly` | apps/server/src/store.ts:421-473 | an operation is taken if and only if the account is a member other than a viewer or an editor of the object and it is the one known under its ID or fits epoch, document, policy and quota; a new one is sequenced next and uses its decoded bytes |
| `SyncPushes.PushExactly` | apps/server/src/store.ts:416-478 | a batch is sequenced if and only if a current device signed each operation for this workspace and each in turn is taken after those before it |
| `SyncPushes.PushUses` | apps/server/src/store.ts:465-474 | a batch uses exactly the decoded bytes of the operations it adds, stays within the quota, and leaves each of its operations known |
| `SyncRefusals.PushNamesCheck` | apps/server/src/store.ts:421-468 | whatever error an operation is refused with, the check it names really fails |
| `SyncQuota.LinksWithinQuota` | apps/server/src/public-links.ts:38-86 | creating, updating and revoking a link keeps that sum; a revoked link still counts |
| `SyncQuota.BlobsWithinQuota` | apps/server/src/blobs.ts:259-373 | reserving, deleting and finishing a blob keeps that sum |
| `SyncTheorems.LogChained` | apps/server/src/access.ts:366-376 | in every reachable state the policy log is a digest chain over exactly revisions 1 to the workspace's, and at most one transition per revision ever committed |
| `SyncChain.ChainDetermines` | apps/server/src/access.ts:370-376 | two digest chains with one head digest are the same log |
| `SyncTheorems.TransitionWindow` | apps/server/src/checkpoints.ts:247-256 | from the step that stages a transition to the step that commits it no operation was sequenced and no policy applied |
| `SyncTheorems.ActivationWindow` | apps/server/src/activations.ts:284-298 | the same for an object activation |
| `SyncTheorems.PushedAgain` | apps/server/src/store.ts:426-451 | an accepted batch pushed again after any later steps answers the same sequences and changes nothing, while the device may still write to its objects, even after a rotation |
| `SyncOperations.PushSplits` | apps/server/src/store.ts:416-477 | pushing two batches as one succeeds exactly when pushing them in turn does, with the same rows and sequences |
| `SyncReading.PageExact` | apps/server/src/store.ts:492-525 | a page holds exactly the visible operations between the cursor given and the cursor answered, at most 100; it says there is more if and only if more than 100 are visible, is full then, and reaches the workspace's sequence otherwise |
| `SyncReading.ReadableExact` | apps/server/src/store.ts:494-498 | the visible operations after a cursor, each once, in sequence order |
| `SyncReaders.MemberReads` | apps/server/src/store.ts:494-498 | a member without grants reads exactly every operation after its cursor and its bound |
| `SyncReaders.GranteeReads` | apps/server/src/store.ts:494-498 | an account with one grant reads exactly that object's operations after its cursor and the grant's bound |
| `SyncReaders.GrantsRead` | apps/server/src/store.ts:494-498 | an account with any grants reads exactly what they open |
| `SyncReaders.BothRead` | apps/server/src/store.ts:494-498 | a member with grants reads exactly what either opens |
| `SyncReaders.PullExactly` | apps/server/src/store.ts:479-525 | a page of at most 100 is answered if and only if the device is current, its account has a row, and the cursor was reached; a refusal says which is missing |
| `SyncTheorems.FollowExact` | apps/server/src/store.ts:479-525 | a reader with fixed rows that follows its cursors through any server steps always gets a page, never `cursor_ahead`, and receives every visible operation once, in order |
| `SyncReaders.GranteeFollows` | apps/server/src/store.ts:479-525 | a grantee that follows its cursors through any steps receives each operation of its object above the bound once, in order, and no other |
| `SyncReaders.MemberFollows` | apps/server/src/store.ts:479-525 | the same for a member and every operation above its bound |
| `SyncTheorems.CatchesUp` | apps/server/src/store.ts:479-525 | a reader that keeps pulling while nothing else happens stands at the workspace's sequence after one pull per 100 visible operations |
| `SyncHistory.NextKeepsBounds` | apps/server/src/access.ts:521-537 | every step keeps the history bound of every member and grant row that stays |
| `SyncHistory.NewReaderBound` | apps/server/src/access.ts:436-445 | with a capability, an account that a policy gives its first rows has a floor at the sequence of that moment |
| `SyncTheorems.NewReaderReadsOnward` | apps/server/src/store.ts:487-498 | such an account reads, in every later state, only operations sequenced after that policy, as long as it gains further rows only with transitions |
| `SyncTheorems.FloorHolds` | apps/server/src/access.ts:521-537 | a floor holds through any run in which no policy without a transition gives the account another row |
| `SyncHistory.FloorUnderPolicy` | apps/server/src/access.ts:521-537 | a floor survives a policy if and only if it is 0, the policy commits a transition, or neither its member list nor a grant of its entries names the account where it has no row |
| `SyncHistory.GivesExactly` | apps/server/src/access.ts:520-538 | the rows an applied policy gives an account are exactly those that its member list and entries name and that were not there |
| `SyncLinks.LinksFollowEpochs` | apps/server/src/access.ts:518-519 | in every reachable state a link that is not revoked holds a snapshot of its own object at the object's current epoch |
| `SyncLinks.RevokedForGood` | apps/server/src/public-links.ts:92-106 | a revoked link stays revoked through any later steps |
| `SyncLinks.NoLostUpdate` | apps/server/src/public-links.ts:66-87 | of two updates made from one revision, with any steps between them, the second is refused, or finds its very snapshot stored and changes nothing |
| `SyncAuthority.AccessByAdministrators` | apps/server/src/access.ts:354-386 | the policy log grows, and roles, an object's grants or its epoch change, only by a verified policy of an active device of an owner or administrator; roles only by an owner's |
| `SyncAuthority.OwnerRemains` | apps/server/src/access.ts:144-145 | no run leaves a workspace without an owner |
| `SyncAuthority.OperationsByWriters` | apps/server/src/store.ts:421-462 | whatever a step adds to the log was pushed and signed by an active device of an account that may write to its object, at the object's epoch then |
| `SyncGaps.ReusedExactly` | apps/server/src/access.ts:478-483 | a policy keeps all generations of an object different if and only if its checkpoint does not take the generation of the object's activation |
| `SyncGaps.TransitionGenerationsDistinct` | apps/server/src/access.ts:478-483 | in every reachable state the checkpoints that transitions committed for one object have different generations |
| `SyncGaps.RecipientAddedExactly` | apps/server/src/keys.ts:53-71 | an otherwise accepted envelope for a new device becomes a recipient if and only if no transition checkpointed the object |
| `SyncWitness.GenerationRepeats` | apps/server/src/access.ts:478-483 | a reachable object whose activation and first rotation share a generation |
| `SyncFloorWitness.FloorLost` | apps/server/src/access.ts:521-528 | a reachable member whose floor is 1, and a version 1 policy without a transition after which the member reads operation 1 |
| `SyncWitness.ActivatedTakesRecipient` | apps/server/src/keys.ts:53-71 | a reachable object with the current checkpoint its activation brought, and the key endpoint's step that adds a device to its current recipients |
| `SyncStore.SyncStore.constructor` | apps/server/src/store.ts:367-380 | a new workspace holds its owner and nothing else |
| `SyncStore.SyncStore.PushOp` | apps/server/src/store.ts:429-473 | one operation of a batch does what its rule says, duplicate, refusal or new sequence |
| `SyncStore.SyncStore.Push` | apps/server/src/store.ts:416-478 | a batch is sequenced as a whole or leaves every row as it was |
| `SyncStore.SyncStore.StoreEnvelopes` | apps/server/src/access.ts:493-516 | a policy's envelopes are checked in order and inserted over the rows there are, never replacing one |
| `SyncStore.SyncStore.StoreGrants` | apps/server/src/access.ts:520-528 | grants are replaced; a grant that stays keeps its bound, a new one starts at the transition's boundary or at 0 |
| `SyncStore.SyncStore.StoreMembers` | apps/server/src/access.ts:530-538 | the same for members |
| `SyncStore.SyncStore.SetObject` | apps/server/src/access.ts:418-529 | one object's entry is refused with the first failing check, or leaves the epoch, document, grants, envelopes, checkpoint and link revocations its rule says |
| `SyncStore.SyncStore.SetObjects` | apps/server/src/access.ts:418-529 | entries are checked and stored in order, and the first refused one is the answer |
| `SyncStore.SyncStore.CheckTransition` | apps/server/src/access.ts:327-353 | what a transition says about committing now |
| `SyncStore.SyncStore.CheckPolicy` | apps/server/src/access.ts:354-417 | what a policy meets before its objects are looked at |
| `SyncStore.SyncStore.ApplyPolicy` | apps/server/src/access.ts:418-546 | a policy's objects, members, links, log, revision and transition change together or not at all |
| `SyncStore.SyncStore.SetAccess` | apps/server/src/access.ts:307-550 | the whole transaction, with its error, its idempotent answers and its rollback |
| `SyncStore.SyncStore.StageTransition` | apps/server/src/checkpoints.ts:211-264 | staging inserts one row and its bytes, answers a repeat, or refuses |
| `SyncStore.SyncStore.ValidateActivation` | apps/server/src/activations.ts:276-315 | the first reason an activation does not fit the rows as they are |
| `SyncStore.SyncStore.StageActivation` | apps/server/src/activations.ts:318-355 | staging inserts one row and its bytes, answers a repeat, or refuses |
| `SyncStore.SyncStore.CommitActivation` | apps/server/src/activations.ts:376-421 | commit publishes the object, its envelopes and its checkpoint together, answers a repeat, or refuses |
| `SyncStore.SyncStore.CreateObject` | apps/server/src/store.ts:392-415 | a new object starts at epoch 1, an existing one answers its epoch to readers, and activation is required once collaboration began |
| `SyncStore.SyncStore.StoreOwnKey` | apps/server/src/keys.ts:10-74 | an envelope is stored once, answered again when equal, or refused |
| `SyncStore.SyncStore.PutCapability` | apps/server/src/capabilities.ts:88-113 | an owner sets the capability once |
| `SyncStore.SyncStore.EnrollDevice` | apps/server/src/app.ts:211-221 | enrolment adds a new device, never changes one that exists, and is refused exactly when the row there differs from the one asked for or is revoked |
| `SyncStore.SyncStore.RevokeDevice` | apps/server/src/app.ts:315-321 | an account revokes its own device |
| `SyncStore.SyncStore.CreateLink` | apps/server/src/public-links.ts:11-47 | a link reserves its snapshot's bytes at revision 1 |
| `SyncStore.SyncStore.UpdateLink` | apps/server/src/public-links.ts:49-90 | an update swaps the bytes and moves the revision by one, answers an equal snapshot, or refuses |
| `SyncStore.SyncStore.RevokeLink` | apps/server/src/public-links.ts:92-105 | revoking keeps the link's bytes |
| `SyncStore.SyncStore.CreateBlob` | apps/server/src/blobs.ts:168-280 | a reservation takes its declared size, answers an equal one, or refuses |
| `SyncStore.SyncStore.DeleteBlob` | apps/server/src/blobs.ts:346-374 | deleting an unfinished blob gives its bytes back; a complete one stays |
| `SyncStore.SyncStore.FinishBlob` | apps/server/src/blobs.ts:419-469 | the recheck after hashing publishes or fails the very upload that was hashed |
| `SyncAnswers.RevokeExactly` | apps/server/src/app.ts:315-321 | an account revokes its own device and no other, after which the device is not current |
| `SyncAnswers.EnrollExactly` | apps/server/src/app.ts:211-221 | enrolling adds one current device and changes no other |
| `SyncAnswers.CreateExactly` | apps/server/src/store.ts:392-415 | when an object is created or its epoch answered, and that it starts empty at epoch 1 |
| `SyncAnswers.OwnKeyExactly` | apps/server/src/keys.ts:10-74 | when an envelope is stored, for whom, and the row it becomes |
| `SyncAnswers.CapabilityExactly` | apps/server/src/capabilities.ts:88-113 | an owner sets the capability, once |
| `SyncAnswers.StageExactly` | apps/server/src/checkpoints.ts:211-264 | when a transition is staged, and the row and bytes it takes |
| `SyncAnswers.StandsExactly` | apps/server/src/activations.ts:276-315 | an activation stands if and only if a writer made it at the boundary and version 2 policy in force, under the capability, for a new object and exactly the members' live devices |
| `SyncAnswers.StageActivationExactly` | apps/server/src/activations.ts:318-355 | when an activation is staged, and the row and bytes it takes |
| `SyncAnswers.CommitExactly` | apps/server/src/activations.ts:376-421 | when it is committed, and that the object it publishes has its document, its envelopes and its checkpoint at epoch 1 and no grants |
| `SyncAnswers.CreateLinkExactly` | apps/server/src/public-links.ts:11-47 | when a link is created, at revision 1 with its decoded bytes |
| `SyncAnswers.UpdateLinkExactly` | apps/server/src/public-links.ts:49-90 | when a link is updated, and the snapshot, revision and bytes it then has |
| `SyncAnswers.RevokeLinkExactly` | apps/server/src/public-links.ts:92-105 | the link an administrator revokes is revoked, and nothing else changes |
| `SyncAnswers.CreateBlobExactly` | apps/server/src/blobs.ts:168-280 | when 1 byte to 1 GiB is reserved, by whom and for what, or an equal reservation answered |
| `SyncAnswers.DeleteBlobExactly` | apps/server/src/blobs.ts:346-374 | when an unfinished blob is deleted, by its own device |
| `SyncAnswers.FinishBlobExactly` | apps/server/src/blobs.ts:419-469 | when a finished upload is published or failed, and as what |
| `SyncRefusals.CommitNamesCheck` | apps/server/src/activations.ts:376-421 | a refused commit names a check that really fails |
| `SyncRefusals.LinksNameCheck` | apps/server/src/public-links.ts:11-105 | so does a refused creation, update or revocation of a link |
| `SyncRefusals.CreateBlobNamesCheck` | apps/server/src/blobs.ts:168-280 | so does a refused reservation |
| `SyncRefusals.FinishBlobNamesCheck` | apps/server/src/blobs.ts:419-469 | so does a refused publication |
| `BlobUploads.CompleteForGood` | apps/server/src/blobs.ts:401-471 | under any interleaving a complete blob has stored bytes of its declared size whose digest is its ID, did not fail, and keeps the same bytes forever |
| `BlobTransfers.UploadCompletes` | apps/server/src/blobs.ts:168-471 | a reservation, its bytes in chunks one after another, and the finalization leave a complete blob with exactly those bytes when they have its digest, and a failed one otherwise |
| `BlobTransfers.PatchExactly` | apps/server/src/blobs.ts:291-398 | a chunk of at most 1 MiB at the file's end and within the declared size is appended, by the device that reserved the blob and may still transfer it; any other changes nothing |
| `BlobTransfers.HeadExactly` | apps/server/src/blobs.ts:376-398 | a probe begins a whole file's finalization again and changes nothing else |
| `BlobTransfers.DeleteExactly` | apps/server/src/blobs.ts:346-375 | a deletion takes row and file away together or changes nothing |
| `BlobTransfers.GoneEnds` | apps/server/src/blobs.ts:401-417 | a finalization whose file is gone ends without effect |
| `BlobUploads.NeverBoth` | apps/server/src/blobs.ts:463-467 | no blob is ever complete and failed |
| `BlobUploads.NextSound` | apps/server/src/blobs.ts:283-471 | every step keeps uploads separate, files whole once finalization began, and what a finalization found true while its file is there |
| `BlobService.BlobService.Create` | apps/server/src/blobs.ts:168-280 | the service's reservation is the world's step |
| `BlobService.BlobService.Patch` | apps/server/src/blobs.ts:291-398 | bytes are appended only at the file's end and within the declared size, and a full file starts its finalization |
| `BlobService.BlobService.Head` | apps/server/src/blobs.ts:376-398 | probing a full upload starts its finalization again |
| `BlobService.BlobService.Delete` | apps/server/src/blobs.ts:360-375 | row and file go together |
| `BlobService.BlobService.HashUpload` | apps/server/src/blobs.ts:408-411 | hashing reads the upload's file outside the lock |
| `BlobService.BlobService.CopyUpload` | apps/server/src/blobs.ts:412-417 | a valid upload is copied to the bucket under its blob's key |
| `BlobService.BlobService.Publish` | apps/server/src/blobs.ts:419-470 | finalization takes the lock again and publishes or fails |
| `BlobService.ReadBlobRange` | apps/server/src/blobs.ts:554-595 | a range is answered with exactly the streamed bytes, if and only if they are as many as asked for |
| `RateLimit.AdmitsExactly` | apps/server/src/store.ts:316-336 | a request is admitted if and only if, with it, every window ending in it stays within one burst and the rate over the credited time |
| `RateLimit.Limits` | apps/server/src/store.ts:320-321 | of requests at one instant exactly 40 durable ones or 10 of presence are admitted, and a second earns 20 or 10 more |
| `RateLimit.WindowBound` | apps/server/src/store.ts:316-336 | no window admits more than burst plus rate times its length |
| `RateLimit.SpacedNeverRefused` | apps/server/src/store.ts:316-336 | a device that waits one token's time from the end of each request to the next is never refused |
| `RateLimit.SpacedReadingsRefused` | apps/server/src/store.ts:328-330 | under every limit, requests whose readings and whose stamps are one token's time apart can be refused: the time between a request's two readings earns nothing |
| `RateLimit.RefillAdds` | apps/server/src/store.ts:328-330 | refilling in two parts is refilling once |
| `RateLimit.Bucket.Request` | apps/server/src/store.ts:316-336 | the row's refill and take admit as the request history says |
| `CanonicalJson.PrintInjective` | apps/server/src/protocol.ts:90-109 | no two nested arrays of strings, numbers and null print one text, escapes included |
| `SigningFormats.EscapesAsJson` | apps/server/src/protocol.ts:90-109 | a character inside a printed string is itself, a backslash and its letter, or its code in four hexadecimal digits, as `JSON.stringify` writes it |
| `SigningText.OperationText` | apps/server/src/protocol.ts:90-109 | operations of either version with one signing text agree in every signed field |
| `SigningFormats.OperationPrinted` | apps/server/src/protocol.ts:90-109 | an operation's signing text is its version's tuple, field by field in order |
| `SigningFormats.CheckpointPrinted` | apps/server/src/checkpoints.ts:49-64 | a checkpoint's signing text is its tuple, with the covered sequence as a string |
| `SigningFormats.PolicyTuple` | apps/server/src/access.ts:207-241 | a policy's tuple, element by element |
| `SigningFormats.TransitionTuple` | docs/workspace-format/checkpoints.md:16-17 | a transition's tuple of either version, as documented |
| `SigningFormats.ActivationTuple` | docs/workspace-format/checkpoints.md:18-19 | an object activation's tuple of either version, as documented |
| `SigningFormats.KeyTuple` | apps/server/src/browser.ts:131-148 | a key envelope's tuple of either construction, and a capability's |
| `SigningText.PolicyText` | apps/server/src/access.ts:207-241 | accepted policies with one signing text agree in every signed field, across versions and envelope constructions |
| `SigningText.PolicyDigestTells` | apps/server/src/access.ts:243-248 | one policy digest means one policy, signature included |
| `SigningText.CheckpointText` | apps/server/src/checkpoints.ts:49-64 | a checkpoint's signing text fixes the operation it carries |
| `SigningText.TransitionText` | apps/server/src/checkpoints.ts:65-84 | a transition's signing text fixes its policy, checkpoints and manifest |
| `SigningText.TransitionDigestTells` | apps/server/src/checkpoints.ts:85-89 | one transition digest means one transition |
| `SigningText.ActivationText` | apps/server/src/activations.ts:159-196 | an activation's signing text fixes its envelopes, checkpoint and manifest |
| `SigningText.ActivationDigestTells` | apps/server/src/activations.ts:198-206 | one activation digest means one activation |
| `SigningText.KeyText` | apps/server/src/browser.ts:131-148 | key envelopes with one signing text agree in every signed field, across both constructions |
| `SigningText.SigningInjective` | apps/server/src/protocol.ts:90-109 | whatever two accepted values are, one signing text means one value up to its signature: kinds never meet |
| `AiTheorems.OneRunOneThread` | crates/app-core/src/ai.rs:1014-1029 | under every interleaving a chat has at most one live run, a run at most one thread, and a driven run is live |
| `AiTheorems.StepRevivesNone` | crates/app-core/src/ai.rs:295-305 | no step makes a run without work live again |
| `AiTheorems.EndedForGood` | crates/app-core/src/ai.rs:1463-1600 | a run that ended never is live again, through anything that happens later |
| `AiQueues.QueuesExact` | crates/app-core/src/ai.rs:1653-1718 | in every reachable state the prompt's queue holds exactly the runs whose calls are being settled, until their round fails, and a run that waits for consent is queued or in the hands of a thread that starts or queues it |
| `AiArrivals.CalledOnceAllowed` | crates/app-core/src/ai.rs:1679-1794 | a tool call, told apart by where it arrived in its run's streams, reaches its plugin at most once in any run of the app, only after an allow answer for that call of that run, and only for a tool the run offered |
| `AiTargets.CallsReachTheirTarget` | crates/app-core/src/ai.rs:1984-2012 | a call that reached a plugin was handed over, in its run and round, when the tool registered under its name was the one it reached |
| `AiTools.OneResultEach` | crates/app-core/src/ai.rs:1679-1717 | a round whose writes succeeded recorded exactly one result per call, in order |
| `AiStops.NothingRunsAfterStop` | crates/app-core/src/ai.rs:1746-1783 | once a run lost a plugin, stopped while its calls are settled, ended, is gone or is about to end without calls, no call of it in any round reaches a plugin, whatever happens later, but the one on its way |
| `AiStops.NothingRunsAfterPlugin` | crates/app-core/src/ai.rs:860-910 | the same for every run that relied on a plugin, in any state, once the plugin is turned off |
| `AiStopMissed.StopQuellsExactly` | crates/app-core/src/ai.rs:1804-1832 | in every reachable state, no call of a run but the one on its way reaches a plugin in any run after a Stop, if and only if the Stop finds the run waiting for consent, settling calls, ended, without a plugin it relied on, or about to end without calls |
| `AiStopMissed.StopMissed` | crates/app-core/src/ai.rs:1453-1534 | a run whose stream brought a call and closed, a Stop then, and later events after which a call of the run reached its plugin |
| `AiService.Ai.BeginRun` | crates/app-core/src/ai.rs:1014-1029 | a run begins unless its chat has a live one |
| `AiService.Ai.Start` | crates/app-core/src/ai.rs:1044-1060 | a run starts once, from what waited for consent |
| `AiService.Ai.TakeWaiting` | crates/app-core/src/ai.rs:712-723 | consent takes exactly the runs that wait for that provider |
| `AiService.Ai.Refuse` | crates/app-core/src/ai.rs:662-689 | what waited for a removed or denied provider ends |
| `AiService.Ai.RecordStream` | crates/app-core/src/ai.rs:1403-1410 | an earlier stop is taken as the stream starts |
| `AiService.Ai.PushCall` | crates/app-core/src/ai.rs:1253-1257 | a call that arrives is kept last, numbered after every call that arrived in its run |
| `AiService.Ai.End` | crates/app-core/src/ai.rs:1511-1538 | how an answer and its writes ended is how the run ended |
| `AiService.Ai.Fail` | crates/app-core/src/ai.rs:1541-1549 | a failed run |
| `AiService.Ai.PendingCalls` | crates/app-core/src/ai.rs:1984-2012 | each call in order, with a target only when the run offered its name and a plugin has it |
| `AiService.Ai.AnswerTools` | crates/app-core/src/ai.rs:1558-1599 | results are taken only while calls wait |
| `AiService.Ai.RunTools` | crates/app-core/src/ai.rs:1622-1657 | handing calls over queues the run for approval |
| `AiService.Ai.AnswerTool` | crates/app-core/src/ai.rs:836-855 | an answer changes only the call the prompt asks about |
| `AiService.Ai.Decide` | crates/app-core/src/ai.rs:1746-1783 | what one look at a call decides |
| `AiService.Ai.EndRound` | crates/app-core/src/ai.rs:1718-1737 | a finished round interrupts, cancels or asks again |
| `AiService.Ai.Stop` | crates/app-core/src/ai.rs:1804-1832 | what Stop does in each status |
| `AiService.Ai.PluginDisabled` | crates/app-core/src/ai.rs:860-910 | every run that relied on the plugin is interrupted or flagged, and calls nobody ran get a round each |
| `AiService.Ai.OpenWorkspace` | crates/app-core/src/ai.rs:504-529 | another workspace forgets every run and queue |
| `AiOutcomes.BeginsExactly` | crates/app-core/src/ai.rs:1014-1029 | a run begins if and only if none in its chat streams, waits for you, or has calls that nobody ran |
| `AiOutcomes.StartsOnce` | crates/app-core/src/ai.rs:1044-1060 | a thread starts a run only from what waits for consent |
| `AiOutcomes.AnswerEnds` | crates/app-core/src/ai.rs:1463-1538 | the status an answer leaves, by how its stream ended, whether it was written, and whether a plugin left |
| `AiOutcomes.FailEnds` | crates/app-core/src/ai.rs:1541-1549 | a failed run has no stream and is Failed |
| `AiOutcomes.RoundEndsAs` | crates/app-core/src/ai.rs:1718-1737 | the status a settled round leaves |
| `AiOutcomes.DecidesExactly` | crates/app-core/src/ai.rs:1746-1783 | what one look at a call decides, in the order plugin, stop, tool, answer |
| `AiOutcomes.AnswerReaches` | crates/app-core/src/ai.rs:836-855 | an answer to the prompt reaches the call it asks about, once, and no other call of any run |
| `AiOutcomes.StopsAs` | crates/app-core/src/ai.rs:1804-1832 | what Stop does to its run in each status, and to no other |
| `AiOutcomes.RefusesExactly` | crates/app-core/src/ai.rs:662-689 | a denied prompt or removed provider ends exactly the runs queued for it |
| `AiOutcomes.ConsentsExactly` | crates/app-core/src/ai.rs:712-723 | consent starts exactly the runs queued for that provider |
| `AiOutcomes.PluginLeavesExactly` | crates/app-core/src/ai.rs:860-910 | what a plugin that is turned off does to the runs it sent or gave tools to, in each status, and to no other |
| `AiOutcomes.HandsExactly` | crates/app-core/src/ai.rs:1558-1657 | only calls that nobody ran are handed over or answered, each with the target registered under a name its run offered |
| `AiOutcomes.ForgetsAll` | crates/app-core/src/ai.rs:504-529 | another workspace empties the runs and both queues |
| `AiOutcomes.AnswerSteps` | crates/app-core/src/ai.rs:1130-1538 | where the thread of an answer goes and what it leaves, section by section |
| `AiOutcomes.RoundSteps` | crates/app-core/src/ai.rs:1679-1783 | where the thread of a round goes: it looks at a call, runs it when you allowed it, and only after writing its result goes on to the next |
| `AiOutcomes.OutsideSteps` | crates/app-core/src/ai.rs:1804-1832 | what messages, results, hand-overs, stops, refusals and answers leave of runs, threads and the log |
| `CalendarLanes.AssignLanes` | crates/app-core/src/calendar_grid.rs:211-235 | in place, only lanes change: overlapping segments differ, each takes the first free lane, and a run shares a count that one of its lanes tops |
| `CalendarLanes.RunsApart` | crates/app-core/src/calendar_grid.rs:213-219 | segments of different runs never overlap |
| `CalendarLanes.NeverCrowded` | crates/app-core/src/calendar_grid.rs:220-232 | at no instant are more segments alive than their run has lanes |
| `CalendarLanes.PeakReached` | crates/app-core/src/calendar_grid.rs:220-232 | at one segment's start exactly as many are alive as the run has lanes |
| `CalendarLanes.FewestLanes` | crates/app-core/src/calendar_grid.rs:208-210 | no assignment that keeps overlapping segments apart uses fewer lanes for a run |
| `CalendarDay.LayOutDay` | crates/app-core/src/calendar_grid.rs:160-206 | the timed entries that touch a day, clipped, in order of start, title and place, laid out in lanes |
| `CalendarDay.ClipExactly` | crates/app-core/src/calendar_grid.rs:160-170 | an entry touches a day if and only if they share an instant, and its part is exactly the instants they share |
| `CalendarDay.DayOrdered` | crates/app-core/src/calendar_grid.rs:171-171 | the day's segments come in order of start, title and place |
| `CalendarDay.LessExactly` | crates/app-core/src/calendar_grid.rs:145-145 | titles are in the order of their first different character |
| `CalendarDay.DayDrawn` | crates/app-core/src/calendar_grid.rs:172-196 | each segment is its entry's part of the day, drawn from minute 0 at one midnight to minute 1440 at the next, at the clock's minutes otherwise, and never ending above its start |
| `CalendarDay.DaySeparates` | crates/app-core/src/calendar_grid.rs:160-206 | each touching entry has exactly one segment, and entries that collide have different lanes |
| `ShareHtml.Render` | crates/account-web/src/share.rs:135-245 | the loop with its link stack, image depth and flags writes what folding the events writes |
| `ShareHtml.LoopWritesTree` | crates/account-web/src/share.rs:145-245 | over the events of a tree the loop writes the tree's HTML and leaves its stack, depth and flags as they were |
| `ShareHtml.RenderShowsTree` | crates/account-web/src/share.rs:135-245 | what the viewer shows is the recursive printer's output |
| `ShareLinks.LinkShown` | crates/account-web/src/share.rs:110-119 | a link opens an anchor to its escaped address if and only if the address begins with https://, http://, mailto: or #, in any letters and after any white space; otherwise only what it holds is shown |
| `ShareLinks.AnchorsSafe` | crates/account-web/src/share.rs:110-119 | every anchor shown comes from a link of the document and points to an anchor or has no scheme but https, http and mailto |
| `ShareContent.ElementShown` | crates/account-web/src/share.rs:155-222 | each element is shown as what it holds between its markup, letter by letter |
| `ShareContent.BreaksShown` | crates/account-web/src/share.rs:231-232 | a hard break and a rule are one tag each |
| `ShareContent.TextShown` | crates/account-web/src/share.rs:224-243 | all of a document's text is shown, in order, and nothing of images, metadata or raw HTML |
| `ShareHtml.RenderCloses` | crates/account-web/src/share.rs:135-245 | the text written is the tree printer's tokens, whose every opened element closes, in order |
| `ShareTags.OutputCloses` | crates/account-web/src/share.rs:135-245 | read back as HTML text, with elements told apart from `br` and `hr` by name, every tag of the output closes, in order |
| `ShareHtml.ImageSkips` | crates/account-web/src/share.rs:147-154 | inside an image nothing is written, whatever it holds |
| `ShareHtml.TreeAllowed` | crates/account-web/src/share.rs:132-134 | only elements of the allowlist are written, with no attribute but a list's start and a checked link's two |
| `ShareHtml.EscapeReverses` | crates/account-web/src/share.rs:97-108 | reading the five references back gives the text that was escaped |
| `ShareHtml.EscapedInert` | crates/account-web/src/share.rs:97-108 | escaped text never opens or closes a tag or an attribute |
| `ShareHtml.Escape` | crates/account-web/src/share.rs:97-108 | the escaping loop writes each character's reference |
| `Instance.OneClaim` | apps/desktop/src/instance.rs:183-235 | however launches, requests and quits interleave, at most one copy holds the claim, listening already or not |
| `Instance.ToldByRunning` | apps/desktop/src/instance.rs:279-310 | a launch that hears the running copy came forward was answered by one whose UI took its request while it held the claim and before it began to stop |
| `Instance.AskedIsTold` | apps/desktop/src/instance.rs:207-214 | a launch that asks a running copy is told that it came forward, and no other copy changes |
| `Instance.LockPasses` | apps/desktop/src/instance.rs:183-216 | when the running copy stops, closes its socket and leaves, a launch that still claims gets lock and listener |
| `Instance.StoppedTakesNone` | apps/desktop/src/instance.rs:152-160 | a copy that began to stop takes no request any more, whatever happens later |
| `Instance.SettlesExactly` | apps/desktop/src/instance.rs:197-214 | the loop goes on exactly while the lock is taken, nobody answers and patience lasts |
| `Instance.ClaimInstance` | apps/desktop/src/instance.rs:183-216 | the retry loop runs until the lock, an answer or its patience settles it |
| `Instance.Shared.Ask` | apps/desktop/src/instance.rs:97-108 | a stopping copy keeps no request |
| `Instance.Shared.TakeActivation` | apps/desktop/src/instance.rs:128-140 | the UI takes every waiting request at once |
| `Instance.Shared.StopListening` | apps/desktop/src/instance.rs:152-160 | stopping drops every request not taken |

## Left out

- Ed25519, SHA-256, age and X25519: signature checks are inputs, digests injective functions.
- SQL, the driver, notifications and row-lock mechanics beyond one transaction being one step.
- Invitations, sessions, the rollout switch that closes new capabilities, per-account minute limits and sequence watchers.
- More than one workspace: devices are shared by all of them, every other table belongs to one.
- Parsers' checks of identifiers, base64 lengths and JSON shapes that no property here depends on; malformed input is one error.
- Key order of stored JSON documents in runs: documents and member lists are compared as values there.
- SyncStore.SyncStore.constructor: the check that the creating device is active and the answer for a workspace that exists are not part of the model, because no table depends on them.
- SyncStore.SyncStore.PutCapability: the deployment's switch that closes new capabilities is not modelled.
- BlobService.ReadBlobRange: the stall timeout that ends a slow download is not modelled.
- SyncStore.SyncStore.CreateLink: the expiry and the token are not kept, because nothing here depends on their values; an update is told whether the link is still live.
- SyncStore.SyncStore.EnrollDevice: the challenge, its proof and the sessions it ends and starts are not part of the model.
- BlobUploads.NextSound: the resumable-upload server is its offset check and its size limit, S3 a map from blob to bytes; a crash between deleting a file and its row, and a failing disk, are not modelled.
- RateLimit.Bucket.Request: times and tokens are reals, so rounding of the database's numbers is not captured.
- AiThreads: provider streams, prompt building and chat files are environment choices; summaries are streams that hand on no calls.
- AiService.Ai.OpenWorkspace: opening the workspace that is open already changes no run and is not a step.
- CalendarDay.LayOutDay: all-day entries, dates and time zones; midnights and the day's clock are inputs.
- ShareHtml.RenderShowsTree: the Markdown parser; its events are those of a tree with no head inside a head and no metadata inside metadata.
- Instance.ClaimInstance: what the lock, the socket and the clock answer in each round is an input.
- Windows, menus, web pages, mail, sign-up, configuration, build scripts and load probes.
