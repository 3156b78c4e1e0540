/** A reader that follows the cursors it is given. */
module SyncReading {
  import opened Wrappers
  import opened SyncTypes
  import opened SyncRules
  import opened SyncRuns
  import opened SyncOperations

  /** What of an account's rows decides what it can read. */
  ghost predicate SameView(s: State, next: State, a: Id) {
    && (a in s.members <==> a in next.members)
    && (a in s.members ==> s.members[a].historyAfter == next.members[a].historyAfter)
    && (forall o: Id :: Granted(s, a, o) == Granted(next, a, o))
  }

  /** The history bound of the account's grant on an object, when it has one. */
  function Granted(s: State, a: Id, o: Id): Option<nat> {
    if o in s.objects && a in s.objects[o].grants then Some(s.objects[o].grants[a].historyAfter) else None
  }

  ghost predicate CanRead(s: State, a: Id) {
    a in s.members || exists o <- s.objects :: a in s.objects[o].grants
  }

  // ----- the visible operations in a range -----

  /** Exactly the visible operations after the cursor, each once, in sequence order. */
  lemma {:induction false} ReadableExact(s: State, a: Id, rows: seq<OpRow>, after: nat)
    requires forall i | 0 <= i < |rows| :: rows[i].sequence == i + 1
    ensures var page := Readable(s, a, rows, after);
      && (forall row :: row in page <==> row in rows && row.sequence > after && Visible(s, a, row))
      && (forall i, j | 0 <= i < j < |page| :: page[i].sequence < page[j].sequence)
  {
    hide Visible;
    if rows != [] {
      var n := |rows| - 1;
      ReadableExact(s, a, rows[..n], after);
      assert rows == rows[..n] + [rows[n]];
      forall row <- rows[..n] ensures row.sequence <= n {}
    }
  }

  lemma {:induction false} SameReadable(s: State, next: State, a: Id, rows: seq<OpRow>, after: nat)
    requires SameView(s, next, a)
    ensures Readable(next, a, rows, after) == Readable(s, a, rows, after)
  {
    if rows != [] {
      SameReadable(s, next, a, rows[..|rows| - 1], after);
      var row := rows[|rows| - 1];
      assert Granted(s, a, row.op.objectId) == Granted(next, a, row.op.objectId);
      assert Visible(s, a, row) == Visible(next, a, row);
    }
  }

  /** Reading on from a cursor: what was read up to it, then what comes after it. */
  lemma {:induction false} ReadableSplits(s: State, a: Id, rows: seq<OpRow>, first: nat, middle: nat)
    requires forall i | 0 <= i < |rows| :: rows[i].sequence == i + 1
    requires first <= middle <= |rows|
    ensures Readable(s, a, rows, first) == Readable(s, a, rows[..middle], first) + Readable(s, a, rows, middle)
  {
    hide Visible;
    if middle == |rows| {
      NothingAfter(s, a, rows, middle);
      assert rows[..middle] == rows;
    } else {
      var n := |rows| - 1;
      ReadableSplits(s, a, rows[..n], first, middle);
      assert rows[..n][..middle] == rows[..middle];
    }
  }

  lemma {:induction false} NothingAfter(s: State, a: Id, rows: seq<OpRow>, after: nat)
    requires forall row <- rows :: row.sequence <= after
    ensures Readable(s, a, rows, after) == []
  {
    if rows != [] {
      NothingAfter(s, a, rows[..|rows| - 1], after);
    }
  }

  /** A page cut short ends at its own cursor. */
  lemma {:induction false} ReadablePrefix(s: State, a: Id, rows: seq<OpRow>, after: nat, k: nat)
    requires forall i | 0 <= i < |rows| :: rows[i].sequence == i + 1
    requires k < |Readable(s, a, rows, after)|
    ensures var page := Readable(s, a, rows, after);
      && after < page[k].sequence <= |rows|
      && page[..k + 1] == Readable(s, a, rows[..page[k].sequence], after)
  {
    hide Visible;
    var n := |rows| - 1;
    var before := Readable(s, a, rows[..n], after);
    if k < |before| {
      ReadablePrefix(s, a, rows[..n], after, k);
      assert rows[..n][..before[k].sequence] == rows[..before[k].sequence];
      assert Readable(s, a, rows, after)[..k + 1] == before[..k + 1];
    } else {
      assert rows[..n + 1] == rows;
      var page := Readable(s, a, rows, after);
      assert page[..k + 1] == page;
    }
  }

  // ----- one page -----

  /** A page reads everything visible between the cursor given and the cursor answered. */
  lemma PageExact(s: State, actor: Actor, after: nat)
    requires Numbered(s) && Active(s, actor) && CanRead(s, actor.account) && after <= s.sequence
    ensures var page := Pull(s, actor, after);
      && page.Ok? && after <= page.value.cursor <= s.sequence
      && page.value.operations == Readable(s, actor.account, s.ops[..page.value.cursor], after)
      && |page.value.operations| <= PAGE
      && (page.value.hasMore <==> |Readable(s, actor.account, s.ops, after)| > PAGE)
      && (page.value.hasMore ==> |page.value.operations| == PAGE)
      && (!page.value.hasMore ==> page.value.cursor == s.sequence)
  {
    hide Active, Visible;
    var rows := Readable(s, actor.account, s.ops, after);
    if |rows| > PAGE {
      ReadablePrefix(s, actor.account, s.ops, after, PAGE - 1);
    } else {
      assert s.ops[..s.sequence] == s.ops;
    }
  }

  /** What a page leaves to read: 100 operations fewer, or nothing. */
  lemma PageLeaves(s: State, actor: Actor, after: nat)
    requires Numbered(s) && Active(s, actor) && CanRead(s, actor.account) && after <= s.sequence
    ensures var page := Pull(s, actor, after);
      && page.Ok? && after <= page.value.cursor <= s.sequence
      && (page.value.cursor == s.sequence
          || |Readable(s, actor.account, s.ops, after)| == PAGE + |Readable(s, actor.account, s.ops, page.value.cursor)|)
      && (|Readable(s, actor.account, s.ops, after)| <= PAGE ==> page.value.cursor == s.sequence)
  {
    PageExact(s, actor, after);
    hide Active, Visible, Readable, Pull;
    var page := Pull(s, actor, after).value;
    ReadableSplits(s, actor.account, s.ops, after, page.cursor);
  }

  // ----- a session -----

  datatype Session = Session(state: State, cursor: nat, received: seq<OpRow>)

  /** A reader that pulls once after each of `rounds` of server steps, always from the
      cursor its last page answered. */
  function Follow(h: Codec, s: State, actor: Actor, start: nat, rounds: seq<seq<Step>>): Result<Session, Error> {
    if rounds == [] then Ok(Session(s, start, []))
    else match Follow(h, s, actor, start, rounds[..|rounds| - 1])
      case Err(e) => Err(e)
      case Ok(before) =>
        var now := Run(h, before.state, rounds[|rounds| - 1]);
        match Pull(now, actor, before.cursor)
        case Err(e) => Err(e)
        case Ok(page) => Ok(Session(now, page.cursor, before.received + page.operations))
  }

  function Concat(rounds: seq<seq<Step>>): seq<Step> {
    if rounds == [] then [] else Concat(rounds[..|rounds| - 1]) + rounds[|rounds| - 1]
  }
}
