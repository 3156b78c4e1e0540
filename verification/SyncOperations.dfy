/** The sequenced operation log: its numbers, the epochs and generations it records, and
    what pushing a batch again or in parts does. */
module SyncOperations {
  import opened Wrappers
  import opened SyncTypes
  import opened SyncRules
  import opened SyncRuns
  import opened SyncPolicies
  import opened SyncDocuments

  /** Sequence numbers run from 1 to the workspace's, each operation ID is used once, and
      every operation's object exists. */
  ghost predicate Numbered(s: State) {
    && |s.ops| == s.sequence
    && (forall i | 0 <= i < |s.ops| :: s.ops[i].sequence == i + 1)
    && (forall i, j | 0 <= i < j < |s.ops| :: s.ops[i].op.id != s.ops[j].op.id)
    && (forall row <- s.ops :: row.op.objectId in s.objects)
  }

  /** Along one object's operations the epoch never falls, and one epoch has one
      generation; the object's own epoch and document are the last word. */
  ghost predicate EpochsOrdered(s: State) {
    && (forall i, j | 0 <= i < j < |s.ops| && s.ops[i].op.objectId == s.ops[j].op.objectId ::
          && s.ops[i].op.epoch <= s.ops[j].op.epoch
          && (s.ops[i].op.epoch == s.ops[j].op.epoch ==> s.ops[i].op.Generation() == s.ops[j].op.Generation()))
    && (forall row <- s.ops | row.op.objectId in s.objects ::
          var target := s.objects[row.op.objectId];
          && row.op.epoch <= target.epoch
          && (row.op.epoch == target.epoch ==> row.op.Generation() == DocumentGeneration(target)))
  }

  function DocumentGeneration(target: Object): Option<Id> {
    if target.document.None? then None else Some(target.document.value.generation)
  }

  // ----- one operation -----

  lemma PushOneNumbers(h: Codec, s: State, actor: Actor, op: Operation)
    requires Numbered(s) && PushOne(h, s, actor, op).Ok?
    ensures Numbered(PushOne(h, s, actor, op).value.0)
  {
    hide MayWrite, DecodedLength;
  }

  /** What one push adds: nothing, or a row at its object's epoch and generation. */
  lemma PushOneFits(h: Codec, s: State, actor: Actor, op: Operation)
    requires PushOne(h, s, actor, op).Ok?
    ensures var next := PushOne(h, s, actor, op).value.0;
      && next.objects == s.objects
      && (next.ops == s.ops
          || (|next.ops| == |s.ops| + 1 && next.ops[|s.ops|].op == op && op.objectId in s.objects
              && op.epoch == s.objects[op.objectId].epoch
              && op.Generation() == DocumentGeneration(s.objects[op.objectId])))
  {
    hide FindOp, MayWrite, DecodedLength;
  }

  lemma PushOneOrders(h: Codec, s: State, actor: Actor, op: Operation)
    requires EpochsOrdered(s) && PushOne(h, s, actor, op).Ok?
    ensures EpochsOrdered(PushOne(h, s, actor, op).value.0)
  {
    PushOneFits(h, s, actor, op);
    hide PushOne;
    var next := PushOne(h, s, actor, op).value.0;
    if next.ops != s.ops {
      var n := |s.ops|;
      assert next.ops[..n] == s.ops && next.ops[n].op == op;
      assert forall i | 0 <= i < n :: s.ops[i] in s.ops;
    }
  }

  lemma {:induction false} PushAllKeepsLog(h: Codec, s: State, actor: Actor, ops: seq<Operation>)
    requires Numbered(s) && EpochsOrdered(s) && PushAll(h, s, actor, ops).Ok?
    ensures Numbered(PushAll(h, s, actor, ops).value.0) && EpochsOrdered(PushAll(h, s, actor, ops).value.0)
  {
    hide PushOne, Numbered, EpochsOrdered;
    if ops != [] {
      var n := |ops| - 1;
      PushAllKeepsLog(h, s, actor, ops[..n]);
      var before := PushAll(h, s, actor, ops[..n]).value.0;
      PushOneNumbers(h, before, actor, ops[n]);
      PushOneOrders(h, before, actor, ops[n]);
    }
  }

  // ----- policies -----

  lemma AppliedKeepsLog(h: Codec, s: State, actor: Actor, p: Policy, t: Option<Transition>)
    requires Numbered(s) && EpochsOrdered(s) && DocumentsInForce(s) && Accepted(h, s, actor, p, t)
    ensures Numbered(Applied(s, actor, p, t)) && EpochsOrdered(Applied(s, actor, p, t))
  {
    AppliedRows(s, actor, p, t);
    AppliedLog(s, actor, p, t);
    hide Applied, Accepted, DocumentsInForce, Entry, NextRow;
    forall row <- s.ops { AppliedDocument(h, s, actor, p, t, row.op.objectId); }
  }

  lemma SetAccessKeepsLog(h: Codec, s: State, actor: Actor, p: Policy, t: Option<Transition>, verified: bool)
    requires Numbered(s) && EpochsOrdered(s) && DocumentsInForce(s)
    ensures var next := Committed(s, SetAccess(h, s, actor, p, t, verified)); Numbered(next) && EpochsOrdered(next)
  {
    hide Plan, Accepted, Applied, DocumentsInForce, Numbered, EpochsOrdered;
    if Plan(h, s, actor, p, t, verified) == Apply {
      PlanAccepts(h, s, actor, p, t, verified);
      AppliedKeepsLog(h, s, actor, p, t);
    }
  }

  // ----- objects -----

  /** No transaction on objects moves an existing object's epoch or document. */
  lemma ObjectsKept(h: Codec, s: State, step: Step)
    ensures var next := NextObject(h, s, step);
      forall o <- s.objects ::
        o in next.objects && next.objects[o].epoch == s.objects[o].epoch && next.objects[o].document == s.objects[o].document
  {
    hide StageActivation, Active, HasRow, MayWrite, RecipientMatches, Activated, ActivationShape, BlobStored, LogAt;
  }

  lemma LogFrame(s: State, next: State)
    requires Numbered(s) && EpochsOrdered(s)
    requires next.ops == s.ops && next.sequence == s.sequence
    requires forall o <- s.objects ::
      o in next.objects && next.objects[o].epoch == s.objects[o].epoch && next.objects[o].document == s.objects[o].document
    ensures Numbered(next) && EpochsOrdered(next)
  {
  }

  lemma PushKeepsLog(h: Codec, s: State, actor: Actor, ops: seq<Operation>, signed: Operation -> bool)
    requires Numbered(s) && EpochsOrdered(s)
    ensures var next := CommittedWith(s, Push(h, s, actor, ops, signed)); Numbered(next) && EpochsOrdered(next)
  {
    hide Numbered, EpochsOrdered, PushAll, Screen, Active;
    if Push(h, s, actor, ops, signed).Ok? { PushAllKeepsLog(h, s, actor, ops); }
  }

  lemma ContentKeepsLog(h: Codec, s: State, step: Step)
    requires Numbered(s) && EpochsOrdered(s)
    ensures Numbered(NextContent(h, s, step)) && EpochsOrdered(NextContent(h, s, step))
  {
    hide Numbered, EpochsOrdered, Push;
    if step.Pushed? {
      PushKeepsLog(h, s, step.actor, step.ops, step.signed);
    } else {
      hide NextContent;
      LogFrame(s, NextContent(h, s, step));
    }
  }

  lemma AccessKeepsLog(h: Codec, s: State, step: Step)
    requires Numbered(s) && EpochsOrdered(s) && DocumentsInForce(s)
    ensures Numbered(NextAccess(h, s, step)) && EpochsOrdered(NextAccess(h, s, step))
  {
    hide Numbered, EpochsOrdered, DocumentsInForce, SetAccess;
    if step.AccessSet? {
      SetAccessKeepsLog(h, s, step.actor, step.policy, step.under, step.verified);
    } else {
      hide NextAccess;
      LogFrame(s, NextAccess(h, s, step));
    }
  }

  lemma NextKeepsLog(h: Codec, s: State, step: Step)
    requires Numbered(s) && EpochsOrdered(s) && DocumentsInForce(s)
    ensures Numbered(Next(h, s, step)) && EpochsOrdered(Next(h, s, step))
  {
    hide Numbered, EpochsOrdered, DocumentsInForce, NextAccess, NextObject, NextContent;
    AccessKeepsLog(h, s, step);
    ContentKeepsLog(h, s, step);
    ObjectsKept(h, s, step);
    LogFrame(s, NextObject(h, s, step));
  }

  // ----- pushing again, and in parts -----

  lemma {:induction false} FoundByID(rows: seq<OpRow>, k: nat)
    requires k < |rows| && forall i, j | 0 <= i < j < |rows| :: rows[i].op.id != rows[j].op.id
    ensures FindOp(rows, rows[k].op.id) == Some(rows[k])
  {
    var n := |rows| - 1;
    if k < n {
      FoundByID(rows[..n], k);
    }
  }

  /** The log's row of one pushed operation. */
  predicate Recorded(h: Codec, rows: seq<OpRow>, op: Operation, sequence: nat) {
    1 <= sequence <= |rows| && rows[sequence - 1].op.id == op.id && rows[sequence - 1].digest == h.op(op)
  }

  lemma PushOneRecords(h: Codec, s: State, actor: Actor, op: Operation)
    requires Numbered(s) && PushOne(h, s, actor, op).Ok?
    ensures var done := PushOne(h, s, actor, op).value; Recorded(h, done.0.ops, op, done.1)
  {
    hide MayWrite, DecodedLength, FindOp;
    if FindOp(s.ops, op.id).Some? { hide Numbered; FoundNumbered(s, op.id); }
  }

  lemma FoundNumbered(s: State, id: Id)
    requires Numbered(s) && FindOp(s.ops, id).Some?
    ensures var row := FindOp(s.ops, id).value; 1 <= row.sequence <= |s.ops| && s.ops[row.sequence - 1] == row && row.op.id == id
  {
    hide FindOp;
  }

  lemma {:induction false} PushAllRecords(h: Codec, s: State, actor: Actor, ops: seq<Operation>)
    requires Numbered(s) && EpochsOrdered(s) && PushAll(h, s, actor, ops).Ok?
    ensures var done := PushAll(h, s, actor, ops).value;
      |done.1| == |ops| && forall i | 0 <= i < |ops| :: Recorded(h, done.0.ops, ops[i], done.1[i])
  {
    hide PushOne, EpochsOrdered, Numbered;
    if ops != [] {
      var n := |ops| - 1;
      PushAllRecords(h, s, actor, ops[..n]);
      PushAllKeepsLog(h, s, actor, ops[..n]);
      PushOneRecords(h, PushAll(h, s, actor, ops[..n]).value.0, actor, ops[n]);
    }
  }

  lemma RecordedOne(h: Codec, s: State, actor: Actor, op: Operation, sequence: nat)
    requires Numbered(s) && Recorded(h, s.ops, op, sequence)
    requires op.objectId in s.objects && MayWrite(s, actor.account, op.objectId)
    ensures PushOne(h, s, actor, op) == Ok((s, sequence))
  {
    hide MayWrite, DecodedLength;
    FoundByID(s.ops, sequence - 1);
  }

  lemma {:induction false} RecordedAgain(h: Codec, s: State, actor: Actor, ops: seq<Operation>, sequences: seq<nat>)
    requires Numbered(s) && |sequences| == |ops|
    requires forall i | 0 <= i < |ops| :: Recorded(h, s.ops, ops[i], sequences[i])
    requires forall op <- ops :: op.objectId in s.objects && MayWrite(s, actor.account, op.objectId)
    ensures PushAll(h, s, actor, ops) == Ok((s, sequences))
  {
    hide PushOne, Recorded, MayWrite, Numbered;
    if ops != [] {
      var n := |ops| - 1;
      RecordedAgain(h, s, actor, ops[..n], sequences[..n]);
      RecordedOne(h, s, actor, ops[n], sequences[n]);
      assert sequences == sequences[..n] + [sequences[n]];
    } else {
      assert sequences == [];
    }
  }

  lemma ScreenReadsWorkspace(s: State, next: State, actor: Actor, ops: seq<Operation>, signed: Operation -> bool)
    requires next.id == s.id
    ensures Screen(next, actor, ops, signed) == Screen(s, actor, ops, signed)
  {
  }

  /** Once every operation of a batch is recorded, pushing it answers the recorded
      sequences and changes nothing. */
  lemma RecordedBatch(h: Codec, s: State, actor: Actor, ops: seq<Operation>, signed: Operation -> bool,
                      sequences: seq<nat>)
    requires Numbered(s) && |sequences| == |ops| && Active(s, actor)
    requires Screen(s, actor, ops, signed).None?
    requires forall i | 0 <= i < |ops| :: Recorded(h, s.ops, ops[i], sequences[i])
    requires forall op <- ops :: op.objectId in s.objects && MayWrite(s, actor.account, op.objectId)
    ensures Push(h, s, actor, ops, signed) == Ok((s, sequences))
  {
    hide PushAll, Screen, Numbered, Active, MayWrite;
    RecordedAgain(h, s, actor, ops, sequences);
  }

  lemma {:induction false} PushAllSplits(h: Codec, s: State, actor: Actor, xs: seq<Operation>, ys: seq<Operation>)
    ensures PushAll(h, s, actor, xs + ys) ==
      match PushAll(h, s, actor, xs)
      case Err(e) => Err(e)
      case Ok(first) =>
        match PushAll(h, first.0, actor, ys)
        case Err(e) => Err(e)
        case Ok(second) => Ok((second.0, first.1 + second.1))
  {
    hide PushOne;
    if ys == [] {
      assert xs + ys == xs;
      assert forall sequences: seq<nat> :: sequences + [] == sequences;
    } else {
      var all := xs + ys;
      var n := |ys| - 1;
      assert all[..|all| - 1] == xs + ys[..n] && all[|all| - 1] == ys[n];
      PushAllSplits(h, s, actor, xs, ys[..n]);
      match PushAll(h, s, actor, xs) {
        case Err(_) =>
        case Ok(first) =>
          match PushAll(h, first.0, actor, ys[..n]) {
            case Err(_) =>
            case Ok(second) =>
              var one := PushOne(h, second.0, actor, ys[n]);
              if one.Ok? {
                assert first.1 + (second.1 + [one.value.1]) == (first.1 + second.1) + [one.value.1];
              }
          }
      }
    }
  }

  lemma {:induction false} ScreenSplits(s: State, actor: Actor, xs: seq<Operation>, ys: seq<Operation>,
                                        signed: Operation -> bool)
    ensures Screen(s, actor, xs + ys, signed) ==
      if Screen(s, actor, xs, signed).Some? then Screen(s, actor, xs, signed) else Screen(s, actor, ys, signed)
  {
    if ys == [] {
      assert xs + ys == xs;
    } else {
      var all := xs + ys;
      assert all[..|all| - 1] == xs + ys[..|ys| - 1];
      ScreenSplits(s, actor, xs, ys[..|ys| - 1], signed);
    }
  }

  /** Pushing a batch at once succeeds exactly when pushing it in two parts does, and then
      leaves the same rows and answers the same sequences. */
  lemma PushSplits(h: Codec, s: State, actor: Actor, xs: seq<Operation>, ys: seq<Operation>,
                   signed: Operation -> bool)
    ensures var whole := Push(h, s, actor, xs + ys, signed);
      var first := Push(h, s, actor, xs, signed);
      && (whole.Ok? <==> first.Ok? && Push(h, first.value.0, actor, ys, signed).Ok?)
      && (whole.Ok? ==>
            var second := Push(h, first.value.0, actor, ys, signed).value;
            whole.value == (second.0, first.value.1 + second.1))
  {
    hide PushAll, Screen;
    PushAllSplits(h, s, actor, xs, ys);
    ScreenSplits(s, actor, xs, ys, signed);
    if Push(h, s, actor, xs, signed).Ok? {
      ScreenReadsWorkspace(s, Push(h, s, actor, xs, signed).value.0, actor, ys, signed);
    }
  }
}
