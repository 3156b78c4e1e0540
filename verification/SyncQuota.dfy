/** The bytes in use are the bytes stored. */
module SyncQuota {
  import opened Wrappers
  import opened SyncTypes
  import opened SyncRules
  import opened SyncRuns

  // ----- sums over a table -----

  ghost function Total<K>(m: map<K, nat>): nat {
    if m == map[] then 0
    else
      var k :| k in m;
      m[k] + Total(m - {k})
  }

  lemma {:induction false} TotalWithout<K>(m: map<K, nat>, k: K)
    requires k in m
    ensures Total(m) == m[k] + Total(m - {k})
    decreases |m|
  {
    var first :| first in m && Total(m) == m[first] + Total(m - {first});
    if first != k {
      TotalWithout(m - {first}, k);
      TotalWithout(m - {k}, first);
      assert m - {first} - {k} == m - {k} - {first};
    }
  }

  lemma TotalSet<K>(m: map<K, nat>, k: K, v: nat)
    ensures Total(m[k := v]) == Total(m) - (if k in m then m[k] else 0) + v
  {
    TotalWithout(m[k := v], k);
    if k in m {
      TotalWithout(m, k);
      assert m[k := v] - {k} == m - {k};
    } else {
      assert m[k := v] - {k} == m;
    }
  }

  function OpBytes(rows: seq<OpRow>): nat {
    if rows == [] then 0 else OpBytes(rows[..|rows| - 1]) + rows[|rows| - 1].bytes
  }

  function TransitionSizes(m: map<Id, TransitionRow>): map<Id, nat> { map k | k in m :: m[k].bytes }

  function ActivationSizes(m: map<Id, ActivationRow>): map<Id, nat> { map k | k in m :: m[k].bytes }

  function LinkSizes(m: map<Id, LinkRow>): map<Id, nat> { map k | k in m :: m[k].bytes }

  function BlobSizes(m: map<BlobKey, BlobRow>): map<BlobKey, nat> { map k | k in m :: m[k].size }

  /** Every stored byte: operations, staged transitions and activations, links (revoked ones
      too) and blobs. */
  ghost function Stored(s: State): nat {
    OpBytes(s.ops) + Total(TransitionSizes(s.transitions)) + Total(ActivationSizes(s.activations))
    + Total(LinkSizes(s.links)) + Total(BlobSizes(s.blobs))
  }

  ghost predicate WithinQuota(s: State) {
    s.used == Stored(s) && s.used <= s.quota
  }

  // ----- operations -----

  lemma PushedOneBytes(h: Codec, s: State, actor: Actor, op: Operation)
    requires PushOne(h, s, actor, op).Ok? && s.used <= s.quota
    ensures var next := PushOne(h, s, actor, op).value.0;
      next.quota == s.quota && next.used - s.used == OpBytes(next.ops) - OpBytes(s.ops) && next.used <= next.quota
  {
    hide MayWrite, DecodedLength, FindOp;
    var next := PushOne(h, s, actor, op).value.0;
    if next != s {
      assert next.ops[..|next.ops| - 1] == s.ops;
    }
  }

  lemma {:induction false} PushedBytes(h: Codec, s: State, actor: Actor, ops: seq<Operation>)
    requires PushAll(h, s, actor, ops).Ok? && s.used <= s.quota
    ensures var next := PushAll(h, s, actor, ops).value.0;
      next.used - s.used == OpBytes(next.ops) - OpBytes(s.ops) && next.used <= next.quota
  {
    hide PushOne, OpBytes;
    if ops != [] {
      var n := |ops| - 1;
      PushedBytes(h, s, actor, ops[..n]);
      PushedOneBytes(h, PushAll(h, s, actor, ops[..n]).value.0, actor, ops[n]);
    }
  }

  // ----- one row -----

  lemma LinkPut(s: State, id: Id, row: LinkRow, used: int)
    ensures Stored(s.(links := s.links[id := row], used := used))
         == Stored(s) - (if id in s.links then s.links[id].bytes else 0) + row.bytes
  {
    TotalSet(LinkSizes(s.links), id, row.bytes);
    assert LinkSizes(s.links[id := row]) == LinkSizes(s.links)[id := row.bytes];
  }

  lemma BlobPut(s: State, key: BlobKey, row: BlobRow, used: int)
    ensures Stored(s.(blobs := s.blobs[key := row], used := used))
         == Stored(s) - (if key in s.blobs then s.blobs[key].size else 0) + row.size
  {
    TotalSet(BlobSizes(s.blobs), key, row.size);
    assert BlobSizes(s.blobs[key := row]) == BlobSizes(s.blobs)[key := row.size];
  }

  lemma BlobRemoved(s: State, key: BlobKey, used: int)
    requires key in s.blobs
    ensures Stored(s.(blobs := s.blobs - {key}, used := used)) == Stored(s) - s.blobs[key].size
  {
    TotalWithout(BlobSizes(s.blobs), key);
    assert BlobSizes(s.blobs - {key}) == BlobSizes(s.blobs) - {key};
  }

  lemma TransitionPut(s: State, id: Id, row: TransitionRow, used: int)
    ensures Stored(s.(transitions := s.transitions[id := row], used := used))
         == Stored(s) - (if id in s.transitions then s.transitions[id].bytes else 0) + row.bytes
  {
    TotalSet(TransitionSizes(s.transitions), id, row.bytes);
    assert TransitionSizes(s.transitions[id := row]) == TransitionSizes(s.transitions)[id := row.bytes];
  }

  lemma ActivationPut(s: State, id: Id, row: ActivationRow, used: int)
    ensures Stored(s.(activations := s.activations[id := row], used := used))
         == Stored(s) - (if id in s.activations then s.activations[id].bytes else 0) + row.bytes
  {
    TotalSet(ActivationSizes(s.activations), id, row.bytes);
    assert ActivationSizes(s.activations[id := row]) == ActivationSizes(s.activations)[id := row.bytes];
  }

  // ----- one transaction -----

  lemma LinksWithinQuota(h: Codec, s: State, step: Step)
    requires WithinQuota(s) && (step.LinkCreated? || step.LinkUpdated? || step.LinkRevoked?)
    ensures WithinQuota(NextContent(h, s, step))
  {
    hide Stored, DecodedLength, Active;
    var next := NextContent(h, s, step);
    if step.id in next.links && next != s {
      LinkPut(s, step.id, next.links[step.id], next.used);
    }
  }

  lemma BlobMade(s: State, actor: Actor, key: BlobKey, owner: BlobOwner, epoch: nat, size: nat, upload: Id)
    requires WithinQuota(s)
    ensures WithinQuota(Committed(s, CreateBlob(s, actor, key, owner, epoch, size, upload)))
  {
    hide Stored, BlobEpoch, UploadInUse, Active;
    var next := Committed(s, CreateBlob(s, actor, key, owner, epoch, size, upload));
    if next != s { BlobPut(s, key, next.blobs[key], next.used); }
  }

  lemma BlobGone(s: State, actor: Actor, key: BlobKey)
    requires WithinQuota(s)
    ensures WithinQuota(Committed(s, DeleteBlob(s, actor, key)))
  {
    hide Stored, BlobEpoch, Active;
    if DeleteBlob(s, actor, key).Ok? { BlobRemoved(s, key, s.used - s.blobs[key].size); }
  }

  lemma BlobEnded(s: State, actor: Actor, key: BlobKey, finish: Finish, valid: bool, storage: Storage)
    requires WithinQuota(s)
    ensures WithinQuota(Committed(s, FinishBlob(s, actor, key, finish, valid, storage)))
  {
    hide Stored, BlobEpoch, Active;
    var next := Committed(s, FinishBlob(s, actor, key, finish, valid, storage));
    if next != s { BlobPut(s, key, next.blobs[key], next.used); }
  }

  /** Reserving, deleting and finishing a blob. */
  lemma BlobsWithinQuota(h: Codec, s: State, step: Step)
    requires WithinQuota(s) && (step.BlobCreated? || step.BlobDeleted? || step.BlobFinished?)
    ensures WithinQuota(NextContent(h, s, step))
  {
    hide WithinQuota, CreateBlob, DeleteBlob, FinishBlob;
    match step
    case BlobCreated(actor, key, owner, epoch, size, upload) => BlobMade(s, actor, key, owner, epoch, size, upload);
    case BlobDeleted(actor, key) => BlobGone(s, actor, key);
    case BlobFinished(actor, key, finish, valid, storage) => BlobEnded(s, actor, key, finish, valid, storage);
  }

  lemma ContentWithinQuota(h: Codec, s: State, step: Step)
    requires WithinQuota(s)
    ensures WithinQuota(NextContent(h, s, step))
  {
    if step.LinkCreated? || step.LinkUpdated? || step.LinkRevoked? {
      hide NextContent, WithinQuota;
      LinksWithinQuota(h, s, step);
    } else if step.BlobCreated? || step.BlobDeleted? || step.BlobFinished? {
      hide NextContent, WithinQuota;
      BlobsWithinQuota(h, s, step);
    } else if step.Pushed? {
      hide PushAll, Screen, Active, Total;
      if Push(h, s, step.actor, step.ops, step.signed).Ok? {
        PushedBytes(h, s, step.actor, step.ops);
      }
    }
  }

  /** Applying a policy stores nothing: its transition was counted when it was staged. */
  lemma AppliedStores(s: State, actor: Actor, p: Policy, t: Option<Transition>)
    ensures Stored(Applied(s, actor, p, t)) == Stored(s)
  {
    hide NextObjects, NextMembers, Rotates, Total;
    var next := Applied(s, actor, p, t);
    assert LinkSizes(next.links) == LinkSizes(s.links);
    assert TransitionSizes(next.transitions) == TransitionSizes(s.transitions);
  }

  lemma AccessWithinQuota(h: Codec, s: State, step: Step)
    requires WithinQuota(s)
    ensures WithinQuota(NextAccess(h, s, step))
  {
    if step.AccessSet? {
      hide Stored, Plan, Applied;
      AppliedStores(s, step.actor, step.policy, step.under);
      assert Applied(s, step.actor, step.policy, step.under).used == s.used by { AppliedUsed(s, step.actor, step.policy, step.under); }
    } else if step.TransitionStaged? {
      hide Stored, TransitionShape, Active;
      var next := NextAccess(h, s, step);
      if next != s {
        TransitionPut(s, step.transition.id, next.transitions[step.transition.id], next.used);
      }
    } else {
      hide NextAccess, Total;
    }
  }

  lemma AppliedUsed(s: State, actor: Actor, p: Policy, t: Option<Transition>)
    ensures Applied(s, actor, p, t).used == s.used && Applied(s, actor, p, t).quota == s.quota
  {
    hide NextObjects, NextMembers, NextLinks;
  }

  lemma ObjectsWithinQuota(h: Codec, s: State, step: Step)
    requires WithinQuota(s)
    ensures WithinQuota(NextObject(h, s, step))
  {
    var next := NextObject(h, s, step);
    if step.ActivationStaged? {
      hide Stored, ActivationShape, ActivationError, Active;
      if next != s {
        ActivationPut(s, step.activation.id, next.activations[step.activation.id], next.used);
      }
    } else if step.ActivationCommitted? {
      hide Stored, ActivationShape, ActivationError, Active, Activated, BlobStored;
      if next != s {
        ActivationPut(s, step.id, next.activations[step.id], next.used);
      }
    } else {
      hide NextObject, Total;
    }
  }

  lemma NextWithinQuota(h: Codec, s: State, step: Step)
    requires WithinQuota(s)
    ensures WithinQuota(Next(h, s, step))
  {
    hide NextAccess, NextObject, NextContent, WithinQuota;
    AccessWithinQuota(h, s, step);
    ObjectsWithinQuota(h, s, step);
    ContentWithinQuota(h, s, step);
  }
}
