/** The bytes in use, told from what is stored and not from what its rows say. */
module SyncSizes {
  import opened SyncTypes
  import opened SyncRules
  import opened SyncRuns
  import opened SyncQuota
  import opened SyncPushes
  import opened SyncTheorems

  /** Every row says how many bytes its payload has. */
  ghost predicate Sized(h: Codec, s: State) {
    && (forall row <- s.ops :: row.bytes == DecodedLength(row.op.ciphertext) && row.digest == h.op(row.op))
    && (forall t <- s.transitions :: s.transitions[t].bytes == h.transitionBytes(s.transitions[t].body))
    && (forall a <- s.activations :: s.activations[a].bytes == h.activationBytes(s.activations[a].body))
    && (forall l <- s.links :: s.links[l].bytes == DecodedLength(s.links[l].snapshot.ciphertext))
  }

  lemma PushOneSized(h: Codec, s: State, actor: Actor, op: Operation)
    requires Sized(h, s) && PushOne(h, s, actor, op).Ok?
    ensures Sized(h, PushOne(h, s, actor, op).value.0)
  {
    hide DecodedLength, FindOp, MayWrite;
  }

  lemma {:induction false} PushAllSized(h: Codec, s: State, actor: Actor, ops: seq<Operation>)
    requires Sized(h, s) && PushAll(h, s, actor, ops).Ok?
    ensures Sized(h, PushAll(h, s, actor, ops).value.0)
  {
    hide PushOne, Sized;
    if ops != [] {
      var n := |ops| - 1;
      PushAllSized(h, s, actor, ops[..n]);
      PushOneSized(h, PushAll(h, s, actor, ops[..n]).value.0, actor, ops[n]);
    }
  }

  lemma LinkSized(h: Codec, s: State, step: Step)
    requires Sized(h, s) && (step.LinkCreated? || step.LinkUpdated? || step.LinkRevoked?)
    ensures Sized(h, NextContent(h, s, step))
  {
    hide DecodedLength, Active, Administers;
  }

  lemma ContentSized(h: Codec, s: State, step: Step)
    requires Sized(h, s)
    ensures Sized(h, NextContent(h, s, step))
  {
    if step.LinkCreated? || step.LinkUpdated? || step.LinkRevoked? {
      hide NextContent, Sized;
      LinkSized(h, s, step);
    } else if step.Pushed? {
      hide PushAll, Screen, Active;
      if Push(h, s, step.actor, step.ops, step.signed).Ok? {
        hide Sized;
        PushAllSized(h, s, step.actor, step.ops);
      }
    } else {
      hide NextContent, DecodedLength;
    }
  }

  lemma AccessSized(h: Codec, s: State, step: Step)
    requires Sized(h, s)
    ensures Sized(h, NextAccess(h, s, step))
  {
    if step.AccessSet? {
      hide Plan, NextObjects, NextMembers, Rotates, DecodedLength;
    } else if step.TransitionStaged? {
      hide TransitionShape, Active, DecodedLength;
    } else {
      hide NextAccess;
    }
  }

  lemma ObjectSized(h: Codec, s: State, step: Step)
    requires Sized(h, s)
    ensures Sized(h, NextObject(h, s, step))
  {
    hide ActivationShape, ActivationError, Active, Activated, BlobStored, DecodedLength, StoreOwnKey, CreateObject;
  }

  lemma {:induction false} RunSized(h: Codec, s: State, steps: seq<Step>)
    requires Sized(h, s)
    ensures Sized(h, Run(h, s, steps))
  {
    hide NextAccess, NextObject, NextContent, Sized;
    if steps != [] {
      var before, last := Run(h, s, steps[..|steps| - 1]), steps[|steps| - 1];
      RunSized(h, s, steps[..|steps| - 1]);
      AccessSized(h, before, last);
      ObjectSized(h, before, last);
      ContentSized(h, before, last);
    }
  }

  /** The bytes of everything stored: the decoded ciphertexts of operations and of links
      (revoked ones too), the sizes of staged transitions and activations, and the declared
      sizes of blobs. */
  ghost function Payload(h: Codec, s: State): nat {
    Lengths(s.ops)
    + Total(map t | t in s.transitions :: h.transitionBytes(s.transitions[t].body))
    + Total(map a | a in s.activations :: h.activationBytes(s.activations[a].body))
    + Total(map l | l in s.links :: DecodedLength(s.links[l].snapshot.ciphertext))
    + Total(map key | key in s.blobs :: s.blobs[key].size)
  }

  lemma {:induction false} LengthsAreBytes(h: Codec, rows: seq<OpRow>)
    requires forall row <- rows :: row.bytes == DecodedLength(row.op.ciphertext)
    ensures Lengths(rows) == OpBytes(rows)
  {
    if rows != [] { LengthsAreBytes(h, rows[..|rows| - 1]); }
  }

  lemma PayloadStored(h: Codec, s: State)
    requires Sized(h, s)
    ensures Payload(h, s) == Stored(s)
  {
    hide DecodedLength, Total, Lengths, OpBytes;
    LengthsAreBytes(h, s.ops);
    assert (map t | t in s.transitions :: h.transitionBytes(s.transitions[t].body)) == TransitionSizes(s.transitions);
    assert (map a | a in s.activations :: h.activationBytes(s.activations[a].body)) == ActivationSizes(s.activations);
    assert (map l | l in s.links :: DecodedLength(s.links[l].snapshot.ciphertext)) == LinkSizes(s.links);
    assert (map key | key in s.blobs :: s.blobs[key].size) == BlobSizes(s.blobs);
  }

  lemma CreatedSized(h: Codec, id: Id, quota: nat, devices: map<Id, Device>, owner: Id)
    ensures Sized(h, SyncRuns.Created(id, quota, devices, owner))
  {
  }

  lemma ReachableSized(h: Codec, s: State)
    requires Reachable(h, s)
    ensures Sized(h, s)
  {
    hide Run, Sized, SyncRuns.Created;
    var id: Id, quota: nat, devices: map<Id, Device>, owner: Id, steps: seq<Step> :|
      s == Run(h, SyncRuns.Created(id, quota, devices, owner), steps);
    CreatedSized(h, id, quota, devices, owner);
    RunSized(h, SyncRuns.Created(id, quota, devices, owner), steps);
  }

  /** In every reachable state the bytes in use are those of what is stored. */
  lemma UsedExactly(h: Codec, s: State)
    requires h.Injective() && Reachable(h, s)
    ensures s.used == Payload(h, s) <= s.quota
  {
    hide Reachable, Stored, Payload, Sized;
    QuotaKept(h, s);
    ReachableSized(h, s);
    PayloadStored(h, s);
  }
}
