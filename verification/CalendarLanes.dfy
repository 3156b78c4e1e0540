/** Where the timed entries of one calendar day go: each run of overlapping segments takes
    as few lanes as it can. Instants and minutes are integers. */
module CalendarLanes {

  datatype Segment = Segment(
    entry: nat, start: int, end: int, startMinute: int, endMinute: int, lane: nat, lanes: nat)

  // ----- runs -----

  /** In order of start, and none empty. */
  predicate Ordered(s: seq<Segment>) {
    && (forall i | 0 <= i < |s| :: s[i].start < s[i].end)
    && (forall i, j | 0 <= i < j < |s| :: s[i].start <= s[j].start)
  }

  /** Whether a new run starts at `k`: everything before has ended by then. */
  predicate Breaks(s: seq<Segment>, k: nat)
    requires k < |s|
  {
    forall j | 0 <= j < k :: s[j].end <= s[k].start
  }

  /** Whether no run starts after `i` and up to `j`. */
  predicate SameRun(s: seq<Segment>, i: nat, j: nat)
    requires i <= j < |s|
  {
    forall k | i < k <= j :: !Breaks(s, k)
  }

  /** The segments alive at an instant. */
  function Alive(s: seq<Segment>, t: int): set<nat> {
    set i | 0 <= i < |s| && s[i].start <= t < s[i].end
  }

  /** Segments of different runs never overlap. */
  lemma RunsApart(s: seq<Segment>, i: nat, j: nat)
    requires Ordered(s) && i < j < |s| && !SameRun(s, i, j)
    ensures s[i].end <= s[j].start
  {
    var k :| i < k <= j && Breaks(s, k);
  }

  // ----- what the layout promises -----

  /** Only lanes change. */
  predicate Kept(s: seq<Segment>, r: seq<Segment>) {
    |r| == |s| && forall i | 0 <= i < |s| :: r[i] == s[i].(lane := r[i].lane, lanes := r[i].lanes)
  }

  /** Among the first `n`, overlapping segments have different lanes. */
  predicate Apart(r: seq<Segment>, n: nat)
    requires n <= |r|
  {
    forall i, j | 0 <= i < j < n && r[j].start < r[i].end :: r[i].lane != r[j].lane
  }

  predicate Taken(r: seq<Segment>, k: nat, lane: nat)
    requires k < |r|
  {
    exists j | 0 <= j < k :: r[j].lane == lane && r[k].start < r[j].end
  }

  /** Among the first `n`, each segment has the first lane free at its start. */
  predicate FirstFree(r: seq<Segment>, n: nat)
    requires n <= |r|
  {
    forall k, lane | 0 <= k < n && 0 <= lane < r[k].lane :: Taken(r, k, lane)
  }

  /** The segments of a run share a count of lanes, which one of them is the last to take. */
  predicate Shared(r: seq<Segment>, n: nat)
    requires n <= |r|
  {
    && (forall k | 0 <= k < n :: r[k].lane < r[k].lanes)
    && (forall i, j | 0 <= i <= j < n && SameRun(r, i, j) :: r[i].lanes == r[j].lanes)
    && (forall k | 0 <= k < n :: Topped(r, n, k))
  }

  predicate Topped(r: seq<Segment>, n: nat, k: nat)
    requires k < n <= |r|
  {
    exists m | 0 <= m < n ::
      r[m].lane + 1 == r[k].lanes && (if m <= k then SameRun(r, m, k) else SameRun(r, k, m))
  }

  predicate Laid(r: seq<Segment>, n: nat)
    requires n <= |r|
  {
    Apart(r, n) && FirstFree(r, n) && Shared(r, n)
  }

  // ----- the count of lanes is the peak -----

  lemma {:induction false} SmallerImage(indices: set<nat>, lane: nat -> nat, n: nat)
    requires forall i <- indices :: lane(i) < n
    requires forall i, j | i in indices && j in indices && lane(i) == lane(j) :: i == j
    ensures |indices| <= n
    decreases n
  {
    if n > 0 {
      if i :| i in indices && lane(i) == n - 1 {
        SmallerImage(indices - {i}, lane, n - 1);
      } else {
        SmallerImage(indices, lane, n - 1);
      }
    } else {
      assert indices == {};
    }
  }

  predicate Hits(indices: set<nat>, lane: nat -> nat, l: nat) {
    exists i <- indices :: lane(i) == l
  }

  lemma {:induction false} LargerImage(indices: set<nat>, lane: nat -> nat, n: nat)
    requires forall l | 0 <= l < n :: Hits(indices, lane, l)
    ensures |indices| >= n
    decreases n
  {
    if n > 0 {
      assert Hits(indices, lane, n - 1);
      var i :| i in indices && lane(i) == n - 1;
      forall l | 0 <= l < n - 1 ensures Hits(indices - {i}, lane, l) {
        assert Hits(indices, lane, l);
        var j :| j in indices && lane(j) == l;
        assert j in indices - {i};
      }
      LargerImage(indices - {i}, lane, n - 1);
    }
  }

  function LaneOf(r: seq<Segment>): nat -> nat { (i: nat) => if i < |r| then r[i].lane else 0 }

  /** At any instant a segment is alive, no more are alive than its run has lanes. */
  lemma NeverCrowded(r: seq<Segment>, i: nat, t: int)
    requires Ordered(r) && Laid(r, |r|) && i in Alive(r, t)
    ensures |Alive(r, t)| <= r[i].lanes
  {
    forall j <- Alive(r, t) ensures r[j].lane < r[i].lanes {
      var first, second := if i <= j then i else j, if i <= j then j else i;
      if !SameRun(r, first, second) { RunsApart(r, first, second); }
    }
    SmallerImage(Alive(r, t), LaneOf(r), r[i].lanes);
  }

  /** Every lane up to a segment's own is taken at its start. */
  lemma LanesTaken(r: seq<Segment>, peak: nat, l: nat)
    requires Ordered(r) && FirstFree(r, |r|) && peak < |r| && l <= r[peak].lane
    ensures Hits(Alive(r, r[peak].start), LaneOf(r), l)
  {
    var alive := Alive(r, r[peak].start);
    if l == r[peak].lane {
      assert peak in alive && LaneOf(r)(peak) == l;
    } else {
      assert Taken(r, peak, l);
      var j :| 0 <= j < peak && r[j].lane == l && r[peak].start < r[j].end;
      assert j in alive && LaneOf(r)(j) == l;
    }
  }

  /** At the start of one segment of the run, as many are alive as the run has lanes. */
  lemma PeakReached(r: seq<Segment>, i: nat) returns (peak: nat)
    requires Ordered(r) && Laid(r, |r|) && i < |r|
    ensures peak < |r| && |Alive(r, r[peak].start)| == r[i].lanes
    ensures if peak <= i then SameRun(r, peak, i) else SameRun(r, i, peak)
  {
    assert Topped(r, |r|, i);
    peak :| 0 <= peak < |r| && r[peak].lane + 1 == r[i].lanes
      && (if peak <= i then SameRun(r, peak, i) else SameRun(r, i, peak));
    var t := r[peak].start;
    assert peak in Alive(r, t);
    NeverCrowded(r, peak, t);
    assert r[peak].lanes == r[i].lanes;
    hide Alive, LaneOf, SameRun, Laid;
    forall l | 0 <= l < r[i].lanes { LanesTaken(r, peak, l); }
    LargerImage(Alive(r, t), LaneOf(r), r[i].lanes);
  }

  /** No other way to keep overlapping segments apart uses fewer lanes for a run. */
  lemma FewestLanes(r: seq<Segment>, i: nat, other: nat -> nat, n: nat)
    requires Ordered(r) && Laid(r, |r|) && i < |r|
    requires forall k | 0 <= k < |r| && (if k <= i then SameRun(r, k, i) else SameRun(r, i, k)) :: other(k) < n
    requires forall j, k | 0 <= j < k < |r| && r[k].start < r[j].end :: other(j) != other(k)
    ensures r[i].lanes <= n
  {
    var peak := PeakReached(r, i);
    var alive := Alive(r, r[peak].start);
    forall j <- alive ensures other(j) < n {
      TogetherAlive(r, i, peak, j);
    }
    SmallerImage(alive, other, n);
  }

  lemma TogetherAlive(r: seq<Segment>, i: nat, peak: nat, j: nat)
    requires Ordered(r) && i < |r| && peak < |r| && j in Alive(r, r[peak].start)
    requires if peak <= i then SameRun(r, peak, i) else SameRun(r, i, peak)
    ensures if j <= i then SameRun(r, j, i) else SameRun(r, i, j)
  {
    var low, high := if j <= peak then j else peak, if j <= peak then peak else j;
    if low != high && !SameRun(r, low, high) { RunsApart(r, low, high); }
  }

  // ----- laying lanes out in place -----

  /** Where the run that starts at `from` ends. */
  method RunEnd(a: array<Segment>, from: nat) returns (to: nat)
    requires from < a.Length && Ordered(a[..]) && Breaks(a[..], from)
    ensures from < to <= a.Length && SameRun(a[..], from, to - 1)
    ensures to < a.Length ==> Breaks(a[..], to)
  {
    to := from + 1;
    var latest := a[from].end;
    while to < a.Length && a[to].start < latest
      invariant from < to <= a.Length && SameRun(a[..], from, to - 1)
      invariant forall j | 0 <= j < to :: a[j].end <= latest
      invariant exists j | from <= j < to :: a[j].end == latest
    {
      ghost var last :| from <= last < to && a[last].end == latest;
      assert a[..][last].end > a[..][to].start;
      if a[to].end > latest { latest := a[to].end; }
      to := to + 1;
    }
  }

  /** Runs depend on when segments are, not on their lanes. */
  lemma KeptRuns(s: seq<Segment>, r: seq<Segment>)
    requires Kept(s, r)
    ensures Ordered(r) == Ordered(s)
    ensures forall k | 0 <= k < |s| :: Breaks(r, k) == Breaks(s, k)
    ensures forall i, j | 0 <= i <= j < |s| :: SameRun(r, i, j) == SameRun(s, i, j)
  {
  }

  /** The index of the first lane that is free at `start`, or the count of lanes. */
  method FreeLane(ends: seq<int>, start: int) returns (lane: nat)
    ensures lane <= |ends| && (lane < |ends| ==> ends[lane] <= start)
    ensures forall l | 0 <= l < lane :: start < ends[l]
  {
    lane := 0;
    while lane < |ends| && ends[lane] > start
      invariant lane <= |ends| && forall l | 0 <= l < lane :: start < ends[l]
    {
      lane := lane + 1;
    }
  }

  /** What placing the run from `lo` up to `hi` in `ends` lanes has done. */
  predicate Placed(r: seq<Segment>, lo: nat, hi: nat, count: nat)
    requires hi <= |r|
  {
    && (forall i, j | lo <= i < j < hi && r[j].start < r[i].end :: r[i].lane != r[j].lane)
    && (forall k, l | lo <= k < hi && 0 <= l < r[k].lane :: Taken(r, k, l))
    && (forall k | lo <= k < hi :: r[k].lane < count)
  }

  /** `ends` is when each lane's last segment ends, and `holders` which segment that is. */
  ghost predicate LaneEnds(r: seq<Segment>, lo: nat, i: nat, ends: seq<int>, holders: seq<nat>)
    requires i <= |r|
  {
    && |holders| == |ends|
    && (forall l | 0 <= l < |ends| ::
          lo <= holders[l] < i && r[holders[l]].lane == l && r[holders[l]].end == ends[l])
    && (forall k | lo <= k < i :: r[k].lane < |ends| && r[k].end <= ends[r[k].lane])
  }

  /** One more segment, in the first lane whose last segment has ended. */
  lemma PlacedOne(s: seq<Segment>, r: seq<Segment>, lo: nat, i: nat, ends: seq<int>, holders: seq<nat>, lane: nat)
    requires lo <= i < |s| && Placed(s, lo, i, |ends|) && LaneEnds(s, lo, i, ends, holders)
    requires r == s[i := s[i].(lane := lane)]
    requires lane <= |ends| && (lane < |ends| ==> ends[lane] <= s[i].start)
    requires forall l | 0 <= l < lane :: s[i].start < ends[l]
    ensures Placed(r, lo, i + 1, if lane == |ends| then |ends| + 1 else |ends|)
  {
    forall k, l | lo <= k < i + 1 && 0 <= l < r[k].lane ensures Taken(r, k, l) {
      if k == i {
        assert r[holders[l]].lane == l && r[i].start < r[holders[l]].end;
      } else {
        assert Taken(s, k, l);
        var j :| 0 <= j < k && s[j].lane == l && s[k].start < s[j].end;
        assert r[j] == s[j];
      }
    }
  }

  lemma LaneEndsAfter(s: seq<Segment>, r: seq<Segment>, lo: nat, i: nat, ends: seq<int>, holders: seq<nat>, lane: nat)
    requires lo <= i < |s| && LaneEnds(s, lo, i, ends, holders) && r == s[i := s[i].(lane := lane)]
    requires s[i].start < s[i].end && lane <= |ends| && (lane < |ends| ==> ends[lane] <= s[i].start)
    ensures if lane == |ends| then LaneEnds(r, lo, i + 1, ends + [s[i].end], holders + [i])
            else LaneEnds(r, lo, i + 1, ends[lane := s[i].end], holders[lane := i])
  {
  }

  /** Only lanes changed, and only from `lo` up to `i`. */
  predicate KeptOutside(s: seq<Segment>, r: seq<Segment>, lo: nat, i: nat) {
    Kept(s, r) && forall k | 0 <= k < |s| && !(lo <= k < i) :: r[k] == s[k]
  }

  lemma KeptOne(s: seq<Segment>, r: seq<Segment>, lo: nat, i: nat, lane: nat)
    requires lo <= i < |r| && KeptOutside(s, r, lo, i)
    ensures |r| == |s| && r[i] == s[i]
    ensures KeptOutside(s, r[i := r[i].(lane := lane)], lo, i + 1)
  {
  }

  /** What the loop over a run has done before its segment `i`. */
  ghost predicate Placing(s: seq<Segment>, r: seq<Segment>, lo: nat, i: nat, ends: seq<int>, holders: seq<nat>)
    requires i <= |r|
  {
    && KeptOutside(s, r, lo, i) && LaneEnds(r, lo, i, ends, holders) && Placed(r, lo, i, |ends|)
    && (i > lo ==> |ends| > 0)
  }

  lemma PlacingOne(s: seq<Segment>, r: seq<Segment>, lo: nat, i: nat, ends: seq<int>, holders: seq<nat>, lane: nat)
    requires lo <= i < |r| && Placing(s, r, lo, i, ends, holders) && r[i].start < r[i].end
    requires lane <= |ends| && (lane < |ends| ==> ends[lane] <= r[i].start)
    requires forall l | 0 <= l < lane :: r[i].start < ends[l]
    ensures var next := r[i := r[i].(lane := lane)];
      if lane == |ends| then Placing(s, next, lo, i + 1, ends + [r[i].end], holders + [i])
      else |holders| == |ends| && Placing(s, next, lo, i + 1, ends[lane := r[i].end], holders[lane := i])
  {
    var next := r[i := r[i].(lane := lane)];
    KeptOne(s, r, lo, i, lane);
    PlacedOne(r, next, lo, i, ends, holders, lane);
    LaneEndsAfter(r, next, lo, i, ends, holders, lane);
    assert |holders| == |ends|;
    hide KeptOutside, LaneEnds, Placed;
  }

  method SetLane(a: array<Segment>, i: nat, lane: nat)
    requires i < a.Length
    modifies a
    ensures a[..] == old(a[..])[i := old(a[i]).(lane := lane)]
  {
    a[i] := a[i].(lane := lane);
  }

  /** Give each segment of a run the first lane free at its start. */
  method PlaceRun(a: array<Segment>, lo: nat, hi: nat) returns (count: nat)
    requires Ordered(a[..]) && lo < hi <= a.Length
    modifies a
    ensures KeptOutside(old(a[..]), a[..], lo, hi)
    ensures Placed(a[..], lo, hi, count)
    ensures exists k | lo <= k < hi :: a[..][k].lane + 1 == count
  {
    ghost var s := a[..];
    hide Placing, Ordered, KeptOutside, Placed;
    var ends: seq<int> := [];
    ghost var holders: seq<nat> := [];
    NonePlaced(s, lo);
    for i := lo to hi
      invariant Placing(s, a[..], lo, i, ends, holders)
    {
      var segment := a[i];
      ghost var before := a[..];
      var lane := FreeLane(ends, segment.start);
      StillOrdered(s, before, lo, i, ends, holders);
      PlacingOne(s, before, lo, i, ends, holders, lane);
      SetLane(a, i, lane);
      if lane == |ends| {
        ends, holders := ends + [segment.end], holders + [i];
      } else {
        ends, holders := ends[lane := segment.end], holders[lane := i];
      }
    }
    count := |ends|;
    LastLane(s, a[..], lo, hi, ends, holders);
  }

  lemma NonePlaced(s: seq<Segment>, lo: nat)
    requires lo <= |s|
    ensures Placing(s, s, lo, lo, [], [])
  {
  }

  lemma StillOrdered(s: seq<Segment>, r: seq<Segment>, lo: nat, i: nat, ends: seq<int>, holders: seq<nat>)
    requires i < |r| && Ordered(s) && Placing(s, r, lo, i, ends, holders)
    ensures r[i].start < r[i].end
  {
    hide LaneEnds, Placed;
  }

  lemma LastLane(s: seq<Segment>, r: seq<Segment>, lo: nat, hi: nat, ends: seq<int>, holders: seq<nat>)
    requires lo < hi <= |r| && Placing(s, r, lo, hi, ends, holders)
    ensures KeptOutside(s, r, lo, hi) && Placed(r, lo, hi, |ends|)
    ensures exists k | lo <= k < hi :: r[k].lane + 1 == |ends|
  {
    assert r[holders[|ends| - 1]].lane + 1 == |ends|;
  }

  method ShareCount(a: array<Segment>, lo: nat, hi: nat, count: nat)
    requires lo < hi <= a.Length
    modifies a
    ensures forall k | 0 <= k < a.Length ::
      a[k] == if lo <= k < hi then old(a[k]).(lanes := count) else old(a[k])
  {
    for k := lo to hi
      invariant forall m | 0 <= m < a.Length ::
        a[m] == if lo <= m < k then old(a[m]).(lanes := count) else old(a[m])
    {
      a[k] := a[k].(lanes := count);
    }
  }

  /** A laid out part, and a run placed after it. */
  predicate RunPlaced(s: seq<Segment>, r: seq<Segment>, lo: nat, hi: nat, count: nat) {
    && lo < hi <= |r| == |s| && s[..lo] == r[..lo] && Laid(s, lo)
    && Breaks(r, lo) && SameRun(r, lo, hi - 1) && Placed(r, lo, hi, count)
    && (forall k | lo <= k < hi :: r[k].lanes == count)
    && (exists k | lo <= k < hi :: r[k].lane + 1 == count)
  }

  lemma RunApart(s: seq<Segment>, r: seq<Segment>, lo: nat, hi: nat, count: nat)
    requires Ordered(r) && RunPlaced(s, r, lo, hi, count)
    ensures Apart(r, hi)
  {
    hide FirstFree, Shared, Taken, SameRun;
    assert forall k | 0 <= k < lo :: s[k] == r[k];
  }

  lemma RunFirstFree(s: seq<Segment>, r: seq<Segment>, lo: nat, hi: nat, count: nat)
    requires RunPlaced(s, r, lo, hi, count)
    ensures FirstFree(r, hi)
  {
    hide Apart, Shared, Breaks, SameRun;
    assert forall k | 0 <= k < lo :: s[k] == r[k];
    forall k, l | 0 <= k < hi && 0 <= l < r[k].lane ensures Taken(r, k, l) {
      if k < lo {
        assert Taken(s, k, l);
        var j :| 0 <= j < k && s[j].lane == l && s[k].start < s[j].end;
        assert r[j] == s[j];
      }
    }
  }

  lemma PrefixRuns(s: seq<Segment>, r: seq<Segment>, n: nat)
    requires n <= |s| && n <= |r| && s[..n] == r[..n]
    ensures forall i, j | 0 <= i <= j < n :: SameRun(s, i, j) == SameRun(r, i, j)
  {
    assert forall k | 0 <= k < n :: s[k] == r[k];
    assert forall k | 0 <= k < n :: Breaks(s, k) == Breaks(r, k);
  }

  lemma RunShared(s: seq<Segment>, r: seq<Segment>, lo: nat, hi: nat, count: nat)
    requires RunPlaced(s, r, lo, hi, count)
    ensures forall k | 0 <= k < hi :: r[k].lane < r[k].lanes
    ensures forall i, j | 0 <= i <= j < hi && SameRun(r, i, j) :: r[i].lanes == r[j].lanes
  {
    PrefixRuns(s, r, lo);
    hide Apart, FirstFree, Taken, Breaks, Topped;
    assert forall k | 0 <= k < lo :: s[k] == r[k];
    assert forall i, j | 0 <= i < lo <= j < hi :: !SameRun(r, i, j);
  }

  lemma RunTopped(s: seq<Segment>, r: seq<Segment>, lo: nat, hi: nat, count: nat, k: nat)
    requires RunPlaced(s, r, lo, hi, count) && k < hi
    ensures Topped(r, hi, k)
  {
    hide Apart, FirstFree, Taken, Breaks, Placed;
    if k < lo {
      PrefixRuns(s, r, lo);
      assert s[k] == r[k] && Topped(s, lo, k);
      var m :| 0 <= m < lo && s[m].lane + 1 == s[k].lanes && (if m <= k then SameRun(s, m, k) else SameRun(s, k, m));
      assert s[m] == r[m] && r[m].lane + 1 == r[k].lanes;
    } else {
      var m :| lo <= m < hi && r[m].lane + 1 == count;
      assert r[m].lane + 1 == r[k].lanes;
    }
  }

  /** Laying out one more run. */
  lemma RunLaid(s: seq<Segment>, r: seq<Segment>, lo: nat, hi: nat, count: nat)
    requires Ordered(r) && RunPlaced(s, r, lo, hi, count)
    ensures Laid(r, hi)
  {
    hide Apart, FirstFree, Taken, Breaks, Placed, SameRun, Ordered, Topped;
    RunApart(s, r, lo, hi, count);
    RunFirstFree(s, r, lo, hi, count);
    RunShared(s, r, lo, hi, count);
    forall k | 0 <= k < hi { RunTopped(s, r, lo, hi, count, k); }
  }

  /** Put each run of overlapping segments in lanes. */
  method AssignLanes(a: array<Segment>)
    requires Ordered(a[..])
    modifies a
    ensures Kept(old(a[..]), a[..]) && Laid(a[..], a.Length)
  {
    hide Laid, Ordered, Breaks, SameRun, Placed;
    var from := 0;
    NothingLaid(a[..]);
    while from < a.Length
      invariant from <= a.Length && Kept(old(a[..]), a[..]) && Ordered(a[..]) && Laid(a[..], from)
      invariant from < a.Length ==> Breaks(a[..], from)
    {
      ghost var s := a[..];
      var to := RunEnd(a, from);
      var count := PlaceRun(a, from, to);
      ghost var placed := a[..];
      ShareCount(a, from, to, count);
      SharedPlaced(s, placed, a[..], from, to, count);
      KeptRuns(s, a[..]);
      RunLaid(s, a[..], from, to, count);
      from := to;
    }
  }

  lemma NothingLaid(s: seq<Segment>)
    ensures Laid(s, 0) && (|s| > 0 ==> Breaks(s, 0))
  {
  }

  lemma SharedPlaced(s: seq<Segment>, placed: seq<Segment>, r: seq<Segment>, lo: nat, hi: nat, count: nat)
    requires KeptOutside(s, placed, lo, hi) && |r| == |s| && lo < hi <= |s| && Placed(placed, lo, hi, count)
    requires forall k | 0 <= k < |s| :: r[k] == if lo <= k < hi then placed[k].(lanes := count) else placed[k]
    ensures Kept(s, r) && Placed(r, lo, hi, count) && r[..lo] == s[..lo]
  {
    forall k, l | lo <= k < hi && 0 <= l < r[k].lane ensures Taken(r, k, l) {
      assert Taken(placed, k, l);
      var j :| 0 <= j < k && placed[j].lane == l && placed[k].start < placed[j].end;
      assert r[j].lane == l;
    }
  }
}
