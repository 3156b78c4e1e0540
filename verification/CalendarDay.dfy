/** The timed entries of one day, clipped to it, ordered and laid out in lanes. Midnights
    and the day's clock come from the time zone, which is not part of this model. */
module CalendarDay {
  import opened CalendarLanes

  const DAY_MINUTES := 24 * 60

  /** An entry's span: whole days, or one instant up to another. */
  datatype Span = AllDay(first: int, after: int) | Timed(from: int, to: int)

  datatype Entry = Entry(title: string, span: Span)

  /** The day's own midnights, and the minutes its clock shows in between. */
  datatype Day = Day(start: int, end: int, clock: int -> nat)

  /** The part of a timed entry on the day, with the instant the whole entry starts. */
  datatype Piece = Piece(from: int, entry: nat, start: int, end: int)

  function Max(a: int, b: int): int { if a >= b then a else b }

  function Min(a: int, b: int): int { if a <= b then a else b }

  predicate Touches(e: Entry, day: Day) {
    e.span.Timed? && e.span.from < day.end && e.span.to > day.start
  }

  function Clip(e: Entry, i: nat, day: Day): Piece
    requires e.span.Timed?
  {
    Piece(e.span.from, i, Max(e.span.from, day.start), Min(e.span.to, day.end))
  }

  // ----- order -----

  /** Strings in order of their characters. */
  predicate Less(a: string, b: string) {
    if b == [] then false
    else if a == [] then true
    else a[0] < b[0] || (a[0] == b[0] && Less(a[1..], b[1..]))
  }

  lemma {:induction false} LessTransitive(a: string, b: string, c: string)
    requires Less(a, b) && Less(b, c)
    ensures Less(a, c)
  {
    if a != [] && a[0] == b[0] == c[0] { LessTransitive(a[1..], b[1..], c[1..]); }
  }

  lemma {:induction false} LessTotal(a: string, b: string)
    ensures Less(a, b) || Less(b, a) || a == b
    ensures !(Less(a, b) && Less(b, a)) && (a == b ==> !Less(a, b))
  {
    if a != [] && b != [] && a[0] == b[0] {
      LessTotal(a[1..], b[1..]);
      assert a == [a[0]] + a[1..] && b == [b[0]] + b[1..];
    }
  }

  /** By start, then title, then place among the entries. */
  predicate Before(entries: seq<Entry>, p: Piece, q: Piece)
    requires p.entry < |entries| && q.entry < |entries|
  {
    var s, t := entries[p.entry].title, entries[q.entry].title;
    p.from < q.from || (p.from == q.from && (Less(s, t) || (s == t && p.entry < q.entry)))
  }

  lemma BeforeOrders(entries: seq<Entry>, p: Piece, q: Piece, r: Piece)
    requires p.entry < |entries| && q.entry < |entries| && r.entry < |entries|
    ensures Before(entries, p, q) && Before(entries, q, r) ==> Before(entries, p, r)
    ensures p.entry != q.entry ==> Before(entries, p, q) || Before(entries, q, p)
  {
    var a, b, c := entries[p.entry].title, entries[q.entry].title, entries[r.entry].title;
    LessTotal(a, b);
    LessTotal(b, c);
    LessTotal(a, c);
    if Less(a, b) && Less(b, c) { LessTransitive(a, b, c); }
  }

  predicate Sorted(entries: seq<Entry>, pieces: seq<Piece>) {
    && (forall p <- pieces :: p.entry < |entries|)
    && forall i, j | 0 <= i < j < |pieces| :: Before(entries, pieces[i], pieces[j])
  }

  function Insert(entries: seq<Entry>, pieces: seq<Piece>, p: Piece): (inserted: seq<Piece>)
    requires p.entry < |entries| && forall q <- pieces :: q.entry < |entries|
    ensures forall q :: q in inserted <==> q == p || q in pieces
  {
    if pieces == [] then [p]
    else if Before(entries, p, pieces[0]) then [p] + pieces
    else
      assert pieces == [pieces[0]] + pieces[1..];
      [pieces[0]] + Insert(entries, pieces[1..], p)
  }

  lemma SortedCons(entries: seq<Entry>, head: Piece, rest: seq<Piece>)
    requires head.entry < |entries| && Sorted(entries, rest)
    requires forall q <- rest :: Before(entries, head, q)
    ensures Sorted(entries, [head] + rest)
  {
    hide Before;
    var all := [head] + rest;
    forall i, j | 0 <= i < j < |all| ensures Before(entries, all[i], all[j]) {
      assert all[j] == rest[j - 1] && rest[j - 1] in rest;
    }
  }

  lemma SortedTail(entries: seq<Entry>, pieces: seq<Piece>)
    requires Sorted(entries, pieces) && pieces != []
    ensures Sorted(entries, pieces[1..]) && forall q <- pieces[1..] :: Before(entries, pieces[0], q)
  {
    hide Before;
  }

  lemma {:induction false} InsertSorts(entries: seq<Entry>, pieces: seq<Piece>, p: Piece)
    requires Sorted(entries, pieces) && p.entry < |entries| && forall q <- pieces :: q.entry != p.entry
    ensures Sorted(entries, Insert(entries, pieces, p))
  {
    hide Before;
    if pieces == [] {
      SortedCons(entries, p, []);
    } else {
      var head, rest := pieces[0], pieces[1..];
      SortedTail(entries, pieces);
      if Before(entries, p, head) {
        forall q <- rest { BeforeOrders(entries, p, head, q); }
        SortedCons(entries, p, [head] + rest) by { assert [head] + rest == pieces; }
        assert [p] + pieces == [p] + ([head] + rest);
      } else {
        InsertSorts(entries, rest, p);
        BeforeOrders(entries, head, p, p);
        SortedCons(entries, head, Insert(entries, rest, p));
      }
    }
  }

  // ----- one day -----

  /** The first `n` entries' pieces, in order. */
  function Pieces(entries: seq<Entry>, day: Day, n: nat): (pieces: seq<Piece>)
    requires n <= |entries|
    ensures forall p :: p in pieces <==>
      p.entry < n && Touches(entries[p.entry], day) && p == Clip(entries[p.entry], p.entry, day)
  {
    if n == 0 then []
    else
      var before := Pieces(entries, day, n - 1);
      if Touches(entries[n - 1], day) then Insert(entries, before, Clip(entries[n - 1], n - 1, day)) else before
  }

  lemma {:induction false} PiecesSorted(entries: seq<Entry>, day: Day, n: nat)
    requires n <= |entries|
    ensures Sorted(entries, Pieces(entries, day, n))
  {
    if n > 0 {
      PiecesSorted(entries, day, n - 1);
      if Touches(entries[n - 1], day) {
        InsertSorts(entries, Pieces(entries, day, n - 1), Clip(entries[n - 1], n - 1, day));
      }
    }
  }

  function Minute(day: Day, at: int, boundary: nat): nat {
    if at == day.start then 0 else if at == day.end then boundary else day.clock(at)
  }

  function Drawn(day: Day, p: Piece): Segment {
    var startMinute := Minute(day, p.start, 0);
    var endMinute := Minute(day, p.end, DAY_MINUTES);
    Segment(p.entry, p.start, p.end, startMinute, Max(endMinute, startMinute), 0, 1)
  }

  /** Spans that parsed: each timed one ends after it starts. */
  predicate Parsed(entries: seq<Entry>) {
    forall e <- entries :: e.span.Timed? ==> e.span.from < e.span.to
  }

  lemma ClippedOrdered(entries: seq<Entry>, day: Day, segments: seq<Segment>)
    requires Parsed(entries) && day.start < day.end
    requires var pieces := Pieces(entries, day, |entries|);
      |segments| == |pieces| && forall i | 0 <= i < |pieces| :: segments[i] == Drawn(day, pieces[i])
    ensures Ordered(segments)
  {
    PiecesSorted(entries, day, |entries|);
    var pieces := Pieces(entries, day, |entries|);
    assert forall i | 0 <= i < |pieces| :: pieces[i] in pieces;
  }

  /** The timed part of a day: every entry that touches it once, clipped to it, in order of
      start, title and place, with lanes that keep overlapping entries apart. */
  method LayOutDay(entries: seq<Entry>, day: Day) returns (segments: array<Segment>)
    requires Parsed(entries) && day.start < day.end
    ensures fresh(segments) && segments.Length == |Pieces(entries, day, |entries|)|
    ensures forall i | 0 <= i < segments.Length ::
      segments[i] == Drawn(day, Pieces(entries, day, |entries|)[i]).(lane := segments[i].lane, lanes := segments[i].lanes)
    ensures Ordered(segments[..]) && Laid(segments[..], segments.Length)
  {
    hide Laid, Ordered, Drawn, Parsed;
    var pieces := [];
    for i := 0 to |entries|
      invariant pieces == Pieces(entries, day, i)
    {
      if Touches(entries[i], day) {
        pieces := Insert(entries, pieces, Clip(entries[i], i, day));
      }
    }
    segments := new Segment[|pieces|](i requires 0 <= i < |pieces| => Drawn(day, pieces[i]));
    ghost var placed := segments[..];
    ClippedOrdered(entries, day, placed);
    AssignLanes(segments);
    KeptRuns(placed, segments[..]);
  }

  // ----- what a day shows of an entry -----

  /** An instant of an entry's time on the day. */
  predicate On(e: Entry, day: Day, t: int) {
    e.span.Timed? && e.span.from <= t < e.span.to && day.start <= t < day.end
  }

  /** An entry touches a day exactly when they have an instant in common, and its part is
      exactly the instants they have in common. */
  lemma ClipExactly(e: Entry, i: nat, day: Day)
    requires (e.span.Timed? ==> e.span.from < e.span.to) && day.start < day.end
    ensures Touches(e, day) <==> exists t :: On(e, day, t)
    ensures Touches(e, day) ==>
      var p := Clip(e, i, day);
      p.entry == i && p.from == e.span.from && forall t :: p.start <= t < p.end <==> On(e, day, t)
  {
    if Touches(e, day) {
      var p := Clip(e, i, day);
      assert On(e, day, p.start);
    }
  }

  /** Titles in the order of their first different character, the shorter first when there is
      none. */
  lemma {:induction false} LessExactly(a: string, b: string)
    ensures Less(a, b) <==> exists n ::
      0 <= n <= |a| && n < |b| && a[..n] == b[..n] && (n == |a| || a[n] < b[n])
  {
    if a != [] && b != [] && a[0] == b[0] {
      LessExactly(a[1..], b[1..]);
      if Less(a, b) {
        var n :| 0 <= n <= |a[1..]| && n < |b[1..]| && a[1..][..n] == b[1..][..n] && (n == |a[1..]| || a[1..][n] < b[1..][n]);
        assert a[..n + 1] == [a[0]] + a[1..][..n] && b[..n + 1] == [b[0]] + b[1..][..n];
      }
      if n :| 0 <= n <= |a| && n < |b| && a[..n] == b[..n] && (n == |a| || a[n] < b[n]) {
        assert n > 0;
        assert a[1..][..n - 1] == a[..n][1..] && b[1..][..n - 1] == b[..n][1..];
      }
    } else if b != [] {
      assert a[..0] == b[..0];
      forall n | 0 < n <= |a| && n < |b| ensures a[..n] != b[..n] {
        assert a[..n][0] != b[..n][0];
      }
    }
  }

  /** A day's segments come in the order of when their entries start, then of their titles,
      then of their places. */
  lemma DayOrdered(entries: seq<Entry>, day: Day, r: seq<Segment>, i: nat, j: nat)
    requires i < j < |r| == |Pieces(entries, day, |entries|)|
    requires forall k | 0 <= k < |r| ::
      r[k] == Drawn(day, Pieces(entries, day, |entries|)[k]).(lane := r[k].lane, lanes := r[k].lanes)
    ensures r[i].entry < |entries| && r[j].entry < |entries|
    ensures var a, b := entries[r[i].entry], entries[r[j].entry];
      && a.span.Timed? && b.span.Timed?
      && (a.span.from < b.span.from
          || (a.span.from == b.span.from && (Less(a.title, b.title) || (a.title == b.title && r[i].entry < r[j].entry))))
  {
    PiecesSorted(entries, day, |entries|);
    var pieces := Pieces(entries, day, |entries|);
    DrawnEntries(day, pieces, r);
    hide Drawn;
    assert pieces[i] in pieces && pieces[j] in pieces && Before(entries, pieces[i], pieces[j]);
  }

  /** Each segment is its entry's part of the day, drawn from minute 0 when it starts at the
      day's midnight and to minute 1440 when it ends at the next, at the clock's minutes
      otherwise, and never ending above where it starts. */
  lemma DayDrawn(entries: seq<Entry>, day: Day, r: seq<Segment>, k: nat)
    requires Parsed(entries) && day.start < day.end && k < |r| == |Pieces(entries, day, |entries|)|
    requires r[k] == Drawn(day, Pieces(entries, day, |entries|)[k]).(lane := r[k].lane, lanes := r[k].lanes)
    ensures r[k].entry < |entries| && forall t :: r[k].start <= t < r[k].end <==> On(entries[r[k].entry], day, t)
    ensures r[k].start < r[k].end && day.start <= r[k].start && r[k].end <= day.end
    ensures r[k].startMinute == if r[k].start == day.start then 0 else day.clock(r[k].start)
    ensures var m := if r[k].end == day.end then 1440 else day.clock(r[k].end);
      r[k].endMinute == if m < r[k].startMinute then r[k].startMinute else m
  {
    var p := Pieces(entries, day, |entries|)[k];
    assert p in Pieces(entries, day, |entries|);
    ClipExactly(entries[p.entry], p.entry, day);
    hide Pieces;
  }

  /** Entries whose clipped parts overlap on the day. */
  predicate Collide(entries: seq<Entry>, day: Day, i: nat, j: nat)
    requires i < |entries| && j < |entries|
  {
    && Touches(entries[i], day) && Touches(entries[j], day)
    && Max(entries[i].span.from, entries[j].span.from) < Min(entries[i].span.to, entries[j].span.to)
  }

  /** Segment `k` is entry `i`'s only one, in a lane no colliding entry has. */
  predicate Separate(entries: seq<Entry>, day: Day, r: seq<Segment>, i: nat, k: nat)
    requires i < |entries| && k < |r|
  {
    && r[k].entry == i
    && (forall m | 0 <= m < |r| && r[m].entry == i :: m == k)
    && (forall m | 0 <= m < |r| && r[m].entry < |entries| && r[m].entry != i && Collide(entries, day, i, r[m].entry) ::
          r[m].lane != r[k].lane)
  }

  /** Each touching entry has one segment, and entries that collide have different lanes. */
  lemma DaySeparates(entries: seq<Entry>, day: Day, r: seq<Segment>, i: nat)
    requires Parsed(entries) && day.start < day.end && i < |entries| && Touches(entries[i], day)
    requires Ordered(r) && Laid(r, |r|) && |r| == |Pieces(entries, day, |entries|)|
    requires forall k | 0 <= k < |r| ::
      r[k] == Drawn(day, Pieces(entries, day, |entries|)[k]).(lane := r[k].lane, lanes := r[k].lanes)
    ensures exists k | 0 <= k < |r| :: Separate(entries, day, r, i, k)
  {
    hide Ordered, Laid, Parsed, Drawn;
    var pieces := Pieces(entries, day, |entries|);
    assert Clip(entries[i], i, day) in pieces;
    var k :| 0 <= k < |pieces| && pieces[k] == Clip(entries[i], i, day);
    DrawnEntries(day, pieces, r);
    forall m | 0 <= m < |r| && r[m].entry == i ensures m == k {
      OnlyPiece(entries, day, k, m);
    }
    forall m | 0 <= m < |r| && r[m].entry < |entries| && r[m].entry != i && Collide(entries, day, i, r[m].entry)
      ensures r[m].lane != r[k].lane
    {
      CollidersApart(entries, day, r, k, m);
    }
    assert Separate(entries, day, r, i, k);
  }

  lemma DrawnEntries(day: Day, pieces: seq<Piece>, r: seq<Segment>)
    requires |r| == |pieces|
    requires forall k | 0 <= k < |r| :: r[k] == Drawn(day, pieces[k]).(lane := r[k].lane, lanes := r[k].lanes)
    ensures forall k | 0 <= k < |r| ::
      r[k].entry == pieces[k].entry && r[k].start == pieces[k].start && r[k].end == pieces[k].end
  {
  }

  lemma CollidersApart(entries: seq<Entry>, day: Day, r: seq<Segment>, k: nat, m: nat)
    requires day.start < day.end && Ordered(r) && Laid(r, |r|)
    requires var pieces := Pieces(entries, day, |entries|);
      && |r| == |pieces| && k < |r| && m < |r|
      && (forall i | 0 <= i < |r| :: r[i] == Drawn(day, pieces[i]).(lane := r[i].lane, lanes := r[i].lanes))
      && k != m && Collide(entries, day, pieces[k].entry, pieces[m].entry)
    ensures r[m].lane != r[k].lane
  {
    var pieces := Pieces(entries, day, |entries|);
    DrawnEntries(day, pieces, r);
    hide Drawn, Shared, FirstFree;
    assert pieces[k] in pieces && pieces[m] in pieces;
  }

  lemma OnlyPiece(entries: seq<Entry>, day: Day, k: nat, m: nat)
    requires var pieces := Pieces(entries, day, |entries|);
      k < |pieces| && m < |pieces| && pieces[k].entry == pieces[m].entry
    ensures m == k
  {
    PiecesSorted(entries, day, |entries|);
    var pieces := Pieces(entries, day, |entries|);
    assert pieces[k] in pieces && pieces[m] in pieces;
    LessTotal(entries[pieces[k].entry].title, entries[pieces[k].entry].title);
    assert !Before(entries, pieces[k], pieces[k]);
  }
}
