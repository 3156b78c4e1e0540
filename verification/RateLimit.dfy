/** The per-device token bucket in front of collaboration writes. */
module RateLimit {
  import opened Wrappers

  /** Tokens per second, and the most a bucket holds. */
  datatype Limit = Limit(rate: real, burst: real) {
    predicate Valid() { rate > 0.0 && burst >= 1.0 }
  }

  const DURABLE := Limit(20.0, 40.0)
  const PRESENCE := Limit(10.0, 10.0)

  /** One request's two clock readings: the one its refill uses, and the one it stamps. */
  datatype Tick = Tick(read: real, stamp: real)

  /** The clock never goes back; the bucket's row lock orders the requests. */
  predicate Ordered(ticks: seq<Tick>) {
    && (forall i | 0 <= i < |ticks| :: ticks[i].read <= ticks[i].stamp)
    && (forall i | 0 < i < |ticks| :: ticks[i - 1].stamp <= ticks[i].read)
  }

  function Min(a: real, b: real): real { if a <= b then a else b }

  /** The tokens some time earns. */
  function Gain(l: Limit, time: real): real { time * l.rate }

  lemma GainAdds(l: Limit, a: real, b: real)
    ensures Gain(l, a + b) == Gain(l, a) + Gain(l, b)
  {
  }

  lemma GainGrows(l: Limit, a: real, b: real)
    requires l.Valid() && a <= b
    ensures Gain(l, a) <= Gain(l, b)
  {
    assert (b - a) * l.rate >= 0.0;
  }

  lemma NoGain(l: Limit)
    ensures Gain(l, 0.0) == 0.0
  {
  }

  function Refill(l: Limit, tokens: real, elapsed: real): real {
    Min(l.burst, tokens + Gain(l, if elapsed >= 0.0 then elapsed else 0.0))
  }

  function Taken(level: real): real { if level >= 1.0 then level - 1.0 else level }

  /** The tokens the last of these requests finds. The first one finds a full bucket. */
  function Level(l: Limit, ticks: seq<Tick>): real
    requires ticks != []
  {
    var n := |ticks| - 1;
    if n == 0 then l.burst
    else Refill(l, Taken(Level(l, ticks[..n])), ticks[n].read - ticks[n - 1].stamp)
  }

  predicate Admits(l: Limit, ticks: seq<Tick>) {
    ticks != [] && Level(l, ticks) >= 1.0
  }

  /** How many of the requests from the `i`th on were admitted. */
  function Admitted(l: Limit, ticks: seq<Tick>, i: nat): nat
    requires i <= |ticks|
  {
    if i == |ticks| then 0
    else Admitted(l, ticks[..|ticks| - 1], i) + if Admits(l, ticks) then 1 else 0
  }

  /** The time the refills credited between two requests: what passed, less what each
      request took between its two readings. */
  function Credited(ticks: seq<Tick>, i: nat, j: nat): real
    requires i <= j < |ticks|
  {
    if i == j then 0.0 else Credited(ticks, i, j - 1) + (ticks[j].read - ticks[j - 1].stamp)
  }

  lemma {:induction false} CreditedWithin(ticks: seq<Tick>, i: nat, j: nat)
    requires Ordered(ticks) && i <= j < |ticks|
    ensures 0.0 <= Credited(ticks, i, j) <= ticks[j].read - ticks[i].read
  {
    if i < j { CreditedWithin(ticks, i, j - 1); }
  }

  lemma {:induction false} CreditedPrefix(ticks: seq<Tick>, n: nat, i: nat, j: nat)
    requires i <= j < n <= |ticks|
    ensures Credited(ticks[..n], i, j) == Credited(ticks, i, j)
  {
    if i < j { CreditedPrefix(ticks, n, i, j - 1); }
  }

  /** What the window from request `i` leaves for the last one. */
  function Room(l: Limit, ticks: seq<Tick>, i: nat): real
    requires i < |ticks|
  {
    var n := |ticks| - 1;
    l.burst + Gain(l, Credited(ticks, i, n)) - Admitted(l, ticks[..n], i) as real
  }

  lemma RoomAfter(l: Limit, ticks: seq<Tick>, i: nat)
    requires i + 1 < |ticks|
    ensures var n := |ticks| - 1;
      Room(l, ticks, i) == Room(l, ticks[..n], i) - (if Admits(l, ticks[..n]) then 1.0 else 0.0)
                           + Gain(l, ticks[n].read - ticks[n - 1].stamp)
  {
    hide Gain, Admits;
    var n := |ticks| - 1;
    CreditedPrefix(ticks, n, i, n - 1);
    GainAdds(l, Credited(ticks, i, n - 1), ticks[n].read - ticks[n - 1].stamp);
  }

  /** A request finds the least room that any window ending in it leaves. */
  lemma {:induction false} LevelIsLeastRoom(l: Limit, ticks: seq<Tick>)
    requires l.Valid() && Ordered(ticks) && ticks != []
    ensures forall i | 0 <= i < |ticks| :: Level(l, ticks) <= Room(l, ticks, i)
    ensures exists i | 0 <= i < |ticks| :: Level(l, ticks) == Room(l, ticks, i)
  {
    hide Gain, Room;
    var n := |ticks| - 1;
    FullRoom(l, ticks);
    if n > 0 {
      var before := ticks[..n];
      LevelIsLeastRoom(l, before);
      NoGain(l);
      GainGrows(l, 0.0, ticks[n].read - ticks[n - 1].stamp);
      forall i | 0 <= i < n
        ensures Room(l, ticks, i) == Taken(Level(l, before)) - Level(l, before) + Room(l, before, i)
                                     + Gain(l, ticks[n].read - ticks[n - 1].stamp)
      {
        RoomAfter(l, ticks, i);
      }
      var least :| 0 <= least < n && Level(l, before) == Room(l, before, least);
      assert Level(l, ticks) == l.burst || Level(l, ticks) == Room(l, ticks, least);
    }
  }

  lemma FullRoom(l: Limit, ticks: seq<Tick>)
    requires ticks != []
    ensures Room(l, ticks, |ticks| - 1) == l.burst
  {
  }

  /** The bucket admits a request exactly when, with it, every window ending in it stays
      within one burst and the rate over the credited time. */
  lemma AdmitsExactly(l: Limit, ticks: seq<Tick>)
    requires l.Valid() && Ordered(ticks) && ticks != []
    ensures var n := |ticks| - 1;
      Admits(l, ticks) <==> forall i | 0 <= i <= n ::
        Admitted(l, ticks[..n], i) as real + 1.0 <= l.burst + Gain(l, Credited(ticks, i, n))
  {
    hide Gain, Level;
    var n := |ticks| - 1;
    LevelIsLeastRoom(l, ticks);
    if !Admits(l, ticks) {
      var i :| 0 <= i <= n && Level(l, ticks) == Room(l, ticks, i);
      assert Admitted(l, ticks[..n], i) as real + 1.0 > l.burst + Gain(l, Credited(ticks, i, n));
    } else {
      forall i | 0 <= i <= n
        ensures Admitted(l, ticks[..n], i) as real + 1.0 <= l.burst + Gain(l, Credited(ticks, i, n))
      {
        assert Level(l, ticks) <= Room(l, ticks, i);
      }
    }
  }

  lemma {:induction false} LevelBounds(l: Limit, ticks: seq<Tick>)
    requires l.Valid() && ticks != []
    ensures 0.0 <= Level(l, ticks) <= l.burst
  {
    if |ticks| > 1 {
      LevelBounds(l, ticks[..|ticks| - 1]);
      var elapsed := ticks[|ticks| - 1].read - ticks[|ticks| - 2].stamp;
      NoGain(l);
      GainGrows(l, 0.0, if elapsed >= 0.0 then elapsed else 0.0);
      hide Gain;
    }
  }

  /** No window of the clock admits more than one burst and the rate over its length. */
  lemma WindowBound(l: Limit, ticks: seq<Tick>, i: nat)
    requires l.Valid() && Ordered(ticks) && i < |ticks|
    ensures Admitted(l, ticks, i) as real <= l.burst + Gain(l, ticks[|ticks| - 1].read - ticks[i].read)
  {
    var n := |ticks| - 1;
    LevelIsLeastRoom(l, ticks);
    LevelBounds(l, ticks);
    CreditedWithin(ticks, i, n);
    GainGrows(l, Credited(ticks, i, n), ticks[n].read - ticks[i].read);
    hide Gain, Level;
    assert Level(l, ticks) <= Room(l, ticks, i);
  }

  /** The time one token takes. */
  function Spacing(l: Limit): real
    requires l.Valid()
  {
    1.0 / l.rate
  }

  lemma SpacingEarns(l: Limit)
    requires l.Valid()
    ensures Gain(l, Spacing(l)) == 1.0
  {
  }

  /** A device that waits a token's time after each request is never refused. */
  lemma {:induction false} SpacedNeverRefused(l: Limit, ticks: seq<Tick>)
    requires l.Valid() && Ordered(ticks) && ticks != []
    requires forall i | 0 < i < |ticks| :: ticks[i].read - ticks[i - 1].stamp >= Spacing(l)
    ensures Admits(l, ticks)
  {
    hide Gain, Spacing;
    var n := |ticks| - 1;
    if n > 0 {
      SpacedNeverRefused(l, ticks[..n]);
      LevelBounds(l, ticks[..n]);
      SpacingEarns(l);
      GainGrows(l, Spacing(l), ticks[n].read - ticks[n - 1].stamp);
    }
  }

  // Spacing the requests' readings, or their stamps, is not enough: what passes between a
  // request's own two readings earns nothing.

  /** When the `i`th of some requests, each a token's time apart, reads the clock. */
  function Mark(l: Limit, i: nat): real
    requires l.Valid()
  {
    if i == 0 then 0.0 else Mark(l, i - 1) + Spacing(l)
  }

  /** These requests, each taking half of that time between its two readings. */
  function Slow(l: Limit, n: nat): (ticks: seq<Tick>)
    requires l.Valid()
    ensures |ticks| == n && forall i | 0 <= i < n :: ticks[i] == Tick(Mark(l, i), Mark(l, i) + Spacing(l) / 2.0)
  {
    seq(n, i requires 0 <= i < n => Tick(Mark(l, i), Mark(l, i) + Spacing(l) / 2.0))
  }

  predicate Spaced(l: Limit, ticks: seq<Tick>)
    requires l.Valid()
  {
    forall i | 0 < i < |ticks| ::
      ticks[i].read - ticks[i - 1].read >= Spacing(l) && ticks[i].stamp - ticks[i - 1].stamp >= Spacing(l)
  }

  lemma SlowSpaced(l: Limit, n: nat)
    requires l.Valid()
    ensures Ordered(Slow(l, n)) && Spaced(l, Slow(l, n))
  {
    HalfEarns(l);
    hide Gain, Spacing;
    forall i | 0 < i < n ensures Mark(l, i) == Mark(l, i - 1) + Spacing(l) {}
    hide Mark;
  }

  lemma HalfEarns(l: Limit)
    requires l.Valid()
    ensures Gain(l, Spacing(l) / 2.0) == 0.5 && Spacing(l) > 0.0
  {
  }

  lemma SlowLevel(l: Limit, n: nat)
    requires l.Valid() && n > 1
    ensures Level(l, Slow(l, n)) == Refill(l, Taken(Level(l, Slow(l, n - 1))), Spacing(l) / 2.0)
  {
    var ticks := Slow(l, n);
    assert ticks[..n - 1] == Slow(l, n - 1);
    assert Mark(l, n - 1) == Mark(l, n - 2) + Spacing(l);
    hide Refill, Slow, Mark, Spacing;
  }

  /** As long as all of them are admitted, each finds half a token less. */
  lemma {:induction false} SlowDrains(l: Limit, n: nat)
    requires l.Valid() && n > 0
    ensures (exists k :: 1 <= k <= n && !Admits(l, Slow(l, k))) || Level(l, Slow(l, n)) <= l.burst - (n - 1) as real / 2.0
  {
    if n > 1 {
      SlowDrains(l, n - 1);
      SlowLevel(l, n);
      HalfEarns(l);
      hide Gain, Spacing, Slow, Level;
    }
  }

  /** Under every limit some requests whose readings, and whose stamps, are a token's time
      apart end in one that is refused. */
  lemma SpacedReadingsRefused(l: Limit)
    requires l.Valid()
    ensures exists ticks :: ticks != [] && Ordered(ticks) && Spaced(l, ticks) && !Admits(l, ticks)
  {
    var n := 2 * l.burst.Floor + 3;
    SlowDrains(l, n);
    hide Level, Slow, Spaced, Ordered;
    assert Level(l, Slow(l, n)) < 1.0 || exists k :: 1 <= k <= n && !Admits(l, Slow(l, k));
    var k :| 1 <= k <= n && !Admits(l, Slow(l, k));
    SlowSpaced(l, k);
  }

  /** Requests that all come at one instant. */
  function Rush(n: nat): seq<Tick> { seq(n, i => Tick(0.0, 0.0)) }

  lemma {:induction false} RushLevel(l: Limit, n: nat)
    requires l.Valid() && n > 0
    ensures if n as real <= l.burst + 1.0 then Level(l, Rush(n)) == l.burst - (n - 1) as real else Level(l, Rush(n)) < 1.0
  {
    if n > 1 {
      RushLevel(l, n - 1);
      assert Rush(n)[..n - 1] == Rush(n - 1);
      NoGain(l);
      hide Gain;
    }
  }

  /** At one instant exactly a burst is admitted. */
  lemma RushAdmits(l: Limit, n: nat)
    requires l.Valid() && n > 0
    ensures Admits(l, Rush(n)) <==> n as real <= l.burst
  {
    RushLevel(l, n);
    hide Level, Rush;
  }

  /** A device's durable writes: 40 at once, and 20 a second. Its presence: 10 and 10. */
  lemma Limits()
    ensures Admits(DURABLE, Rush(40)) && !Admits(DURABLE, Rush(41)) && 20.0 * Spacing(DURABLE) == 1.0
    ensures Admits(PRESENCE, Rush(10)) && !Admits(PRESENCE, Rush(11)) && 10.0 * Spacing(PRESENCE) == 1.0
  {
    RushAdmits(DURABLE, 40);
    RushAdmits(DURABLE, 41);
    RushAdmits(PRESENCE, 10);
    RushAdmits(PRESENCE, 11);
    hide Admits, Rush;
  }

  /** Refilling in two parts is refilling once. */
  lemma RefillAdds(l: Limit, tokens: real, first: real, second: real)
    requires l.Valid() && first >= 0.0 && second >= 0.0
    ensures Refill(l, Refill(l, tokens, first), second) == Refill(l, tokens, first + second)
  {
    NoGain(l);
    GainGrows(l, 0.0, second);
    GainAdds(l, first, second);
    hide Gain;
  }

  /** The bucket's row: absent before the device's first request. */
  class Bucket {
    const limit: Limit
    var row: Option<(real, real)>
    ghost var ticks: seq<Tick>

    ghost predicate Valid()
      reads this
    {
      && limit.Valid()
      && (row.None? <==> ticks == [])
      && (row.Some? ==> row.value == (Taken(Level(limit, ticks)), ticks[|ticks| - 1].stamp))
    }

    constructor (presence: bool)
      ensures Valid() && limit == (if presence then PRESENCE else DURABLE) && ticks == []
    {
      limit, row, ticks := if presence then PRESENCE else DURABLE, None, [];
    }

    /** `made` is when a missing row is inserted, just before the refill reads the clock. */
    method Request(made: real, tick: Tick) returns (allowed: bool)
      requires Valid() && made <= tick.read <= tick.stamp
      modifies this
      ensures Valid() && ticks == old(ticks) + [tick]
      ensures allowed <==> Admits(limit, ticks)
    {
      ticks := ticks + [tick];
      assert ticks[..|ticks| - 1] == old(ticks);
      var found := if row.Some? then row.value else (limit.burst, made);
      var elapsed := tick.read - found.1;
      NoGain(limit);
      GainGrows(limit, 0.0, if elapsed >= 0.0 then elapsed else 0.0);
      var tokens := Refill(limit, found.0, elapsed);
      row := Some((tokens, tick.stamp));
      if tokens < 1.0 { return false; }
      row := Some((tokens - 1.0, tick.stamp));
      return true;
    }
  }
}
