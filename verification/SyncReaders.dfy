/** What each kind of reader gets, read off its rows alone. */
module SyncReaders {
  import opened Wrappers
  import opened SyncTypes
  import opened SyncRules
  import opened SyncRuns
  import opened SyncReading
  import opened SyncPushes
  import opened SyncTheorems

  /** The page holds exactly the rows that `wanted` says, each once, in sequence order. */
  ghost predicate Holds(page: seq<OpRow>, rows: seq<OpRow>, wanted: OpRow -> bool) {
    && (forall row :: row in page <==> row in rows && wanted(row))
    && (forall i, j | 0 <= i < j < |page| :: page[i].sequence < page[j].sequence)
  }

  /** Whether a grant opens this row to the account. */
  predicate Opens(s: State, a: Id, row: OpRow) {
    && row.op.objectId in s.objects && a in s.objects[row.op.objectId].grants
    && s.objects[row.op.objectId].grants[a].historyAfter < row.sequence
  }

  /** A member without grants reads every operation after its cursor and its bound. */
  lemma MemberReads(s: State, a: Id, rows: seq<OpRow>, after: nat)
    requires forall i | 0 <= i < |rows| :: rows[i].sequence == i + 1
    requires a in s.members && forall o <- s.objects :: a !in s.objects[o].grants
    ensures Holds(Readable(s, a, rows, after), rows,
                  (row: OpRow) => row.sequence > after && row.sequence > s.members[a].historyAfter)
  {
    ReadableExact(s, a, rows, after);
    hide Readable;
  }

  /** An account with a grant on one object only reads that object's operations after its
      cursor and the grant's bound. */
  lemma GranteeReads(s: State, a: Id, o: Id, rows: seq<OpRow>, after: nat)
    requires forall i | 0 <= i < |rows| :: rows[i].sequence == i + 1
    requires a !in s.members && o in s.objects && a in s.objects[o].grants
    requires forall other <- s.objects | a in s.objects[other].grants :: other == o
    ensures Holds(Readable(s, a, rows, after), rows,
                  (row: OpRow) => row.op.objectId == o && row.sequence > after && row.sequence > s.objects[o].grants[a].historyAfter)
  {
    ReadableExact(s, a, rows, after);
    hide Readable;
  }

  /** An account with both kinds of row reads what either opens. */
  lemma BothRead(s: State, a: Id, rows: seq<OpRow>, after: nat)
    requires forall i | 0 <= i < |rows| :: rows[i].sequence == i + 1
    requires a in s.members
    ensures Holds(Readable(s, a, rows, after), rows,
                  (row: OpRow) => row.sequence > after && (row.sequence > s.members[a].historyAfter || Opens(s, a, row)))
  {
    ReadableExact(s, a, rows, after);
    hide Readable;
  }

  /** An account with grants on any objects reads what they open. */
  lemma GrantsRead(s: State, a: Id, rows: seq<OpRow>, after: nat)
    requires forall i | 0 <= i < |rows| :: rows[i].sequence == i + 1
    requires a !in s.members
    ensures Holds(Readable(s, a, rows, after), rows, (row: OpRow) => row.sequence > after && Opens(s, a, row))
  {
    ReadableExact(s, a, rows, after);
    hide Readable;
  }

  /** A page is answered exactly to a current device of an account with some row, for a
      cursor that the workspace reached; a cursor beyond it is what else can be wrong. */
  lemma PullExactly(s: State, actor: Actor, after: nat)
    ensures Pull(s, actor, after).Ok? <==>
      && Current(s, actor) && after <= s.sequence
      && (actor.account in s.members || exists o <- s.objects :: actor.account in s.objects[o].grants)
    ensures Pull(s, actor, after).Ok? ==>
      var page := Pull(s, actor, after).value;
      page.revision == s.revision && |page.operations| <= 100 && (page.hasMore ==> |page.operations| == 100)
    ensures Pull(s, actor, after) == Err(Unauthorized) <==> !Current(s, actor)
    ensures Pull(s, actor, after) == Err(Forbidden) <==>
      Current(s, actor) && actor.account !in s.members && forall o <- s.objects :: actor.account !in s.objects[o].grants
  {
    CurrentExactly(s, actor);
    hide Active, Current, Readable;
  }

  /** A grantee that follows its cursors through any steps of the server receives each
      operation of its object above the grant's bound once and in order, and no other. */
  lemma GranteeFollows(h: Codec, s: State, actor: Actor, o: Id, start: nat, rounds: seq<seq<Step>>)
    requires h.Injective() && Sound(h, s) && start <= s.sequence && ReaderSteady(h, s, actor, rounds)
    requires actor.account !in s.members && o in s.objects && actor.account in s.objects[o].grants
    requires forall other <- s.objects | actor.account in s.objects[other].grants :: other == o
    ensures var session := Follow(h, s, actor, start, rounds);
      && session.Ok? && session.value.cursor <= |session.value.state.ops|
      && Holds(session.value.received, session.value.state.ops[..session.value.cursor],
               (row: OpRow) => row.op.objectId == o && row.sequence > start
                      && row.sequence > s.objects[o].grants[actor.account].historyAfter)
  {
    hide Sound, Readable, Follow, ReaderSteady;
    FollowExact(h, s, actor, start, rounds);
    var session := Follow(h, s, actor, start, rounds).value;
    RunSound(h, s, Concat(rounds));
    SoundCounts(h, session.state);
    hide Run, Concat;
    GranteeReads(s, actor.account, o, session.state.ops[..session.cursor], start);
  }

  /** A member without grants that follows its cursors receives every operation above its
      bound once and in order. */
  lemma MemberFollows(h: Codec, s: State, actor: Actor, start: nat, rounds: seq<seq<Step>>)
    requires h.Injective() && Sound(h, s) && start <= s.sequence && ReaderSteady(h, s, actor, rounds)
    requires actor.account in s.members && forall o <- s.objects :: actor.account !in s.objects[o].grants
    ensures var session := Follow(h, s, actor, start, rounds);
      && session.Ok? && session.value.cursor <= |session.value.state.ops|
      && Holds(session.value.received, session.value.state.ops[..session.value.cursor],
               (row: OpRow) => row.sequence > start && row.sequence > s.members[actor.account].historyAfter)
  {
    hide Sound, Readable, Follow, ReaderSteady;
    FollowExact(h, s, actor, start, rounds);
    var session := Follow(h, s, actor, start, rounds).value;
    RunSound(h, s, Concat(rounds));
    SoundCounts(h, session.state);
    hide Run, Concat;
    MemberReads(s, actor.account, session.state.ops[..session.cursor], start);
  }
}
