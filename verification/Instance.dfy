/** One running copy per app data folder: launches that race for a lock, ask the copy that
    holds it to come forward, and take over when it quits. */
module Instance {
  import opened Wrappers

  type Copy = nat

  /** One attempt of a launch to reach the running copy. */
  datatype Connection = Connection(launch: Copy, attempt: nat)

  // ----- the requests a running copy shares between its threads -----

  datatype Requests = Requests(waiting: seq<Connection>, stopping: bool)

  function Kept(r: Requests, c: Connection): Requests {
    if r.stopping then r else r.(waiting := r.waiting + [c])
  }

  function Taken(r: Requests): Requests { r.(waiting := []) }

  function Stopped(r: Requests): Requests { Requests([], true) }

  class Shared {
    var waiting: seq<Connection>
    var stopping: bool

    function Snapshot(): Requests
      reads this
    {
      Requests(waiting, stopping)
    }

    constructor ()
      ensures Snapshot() == Requests([], false)
    {
      waiting, stopping := [], false;
    }

    /** Keep a request for the UI, unless this copy is stopping. */
    method Ask(c: Connection)
      modifies this
      ensures Snapshot() == Kept(old(Snapshot()), c)
    {
      if stopping { return; }
      waiting := waiting + [c];
    }

    /** The requests the UI takes, which it then answers. */
    method TakeActivation() returns (taken: seq<Connection>, asked: bool)
      modifies this
      ensures taken == old(waiting) && (asked <==> taken != [])
      ensures Snapshot() == Taken(old(Snapshot()))
    {
      taken := waiting;
      waiting := [];
      asked := taken != [];
    }

    method StopListening()
      modifies this
      ensures Snapshot() == Stopped(old(Snapshot()))
    {
      stopping := true;
      waiting := [];
    }
  }

  // ----- one launch -----

  datatype Asked = CameForward | Silent | Unreachable

  datatype Claim = First | Running

  /** What one round of the loop meets: whether the lock was free, what asking answered, and
      whether patience ran out by then. */
  datatype Round = Round(free: bool, asked: Asked, late: bool)

  predicate Settles(round: Round) {
    round.free || round.asked != Unreachable || round.late
  }

  /** Try the lock and ask in turn, until one of them settles what this launch is. */
  method ClaimInstance(rounds: seq<Round>) returns (claim: Option<Claim>, used: nat)
    ensures used <= |rounds| && forall i | 0 <= i < used :: !Settles(rounds[i])
    ensures claim.None? <==> used == |rounds|
    ensures claim.Some? ==> Settles(rounds[used]) && (claim.value == First <==> rounds[used].free)
  {
    used := 0;
    while used < |rounds|
      invariant used <= |rounds| && forall i | 0 <= i < used :: !Settles(rounds[i])
    {
      var round := rounds[used];
      if round.free { return Some(First), used; }
      match round.asked
      case CameForward => return Some(Running), used;
      case Silent => return Some(Running), used;
      case Unreachable =>
        if round.late { return Some(Running), used; }
        used := used + 1;
    }
    return None, used;
  }

  // ----- every copy together -----

  /** Where a copy is: still claiming, holding the lock before it listens, running or
      stopping with the lock, told that another copy came forward or giving up, or gone. */
  datatype Phase = Claiming | Locked | Serving(requests: Requests) | Told | GaveUp | Gone

  /** What a connection's launch can see of it. */
  datatype Link = Link(server: Copy, sent: bool, taken: bool, answered: bool)

  /** `lock` is who holds the lock file: a copy that left may hold it a little longer,
      through a process it was starting. `listener` is who the socket reaches. */
  datatype World = World(
    copies: map<Copy, Phase>, lock: Option<Copy>, listener: Option<Copy>, links: map<Connection, Link>)

  datatype Event =
    | Launch(copy: Copy)
    | TryLock(copy: Copy)
    | Listen(copy: Copy)
    | Connect(c: Connection)
    | Send(c: Connection)
    | Heard(c: Connection)
    | Take(copy: Copy)
    | Answer(c: Connection)
    | ReadAnswer(c: Connection)
    | GiveUp(copy: Copy)
    | Stop(copy: Copy)
    | CloseSocket(copy: Copy)
    | Leave(copy: Copy)
    | FreeLock(copy: Copy)

  predicate Claims(w: World, copy: Copy) { copy in w.copies && w.copies[copy] == Claiming }

  /** Whether a copy holds the claim: it took the lock and has not gone. */
  predicate HoldsClaim(w: World, copy: Copy) {
    copy in w.copies && (w.copies[copy].Locked? || w.copies[copy].Serving?)
  }

  predicate Serves(w: World, copy: Copy) { copy in w.copies && w.copies[copy].Serving? }

  /** One step of one copy, or of the operating system; a step that is not enabled does
      nothing. */
  function Next(w: World, e: Event): World {
    match e
    case Launch(copy) => if copy in w.copies then w else w.(copies := w.copies[copy := Claiming])
    case TryLock(copy) =>
      if !Claims(w, copy) || w.lock.Some? then w
      else w.(copies := w.copies[copy := Locked], lock := Some(copy))
    case Listen(copy) =>
      if copy !in w.copies || w.copies[copy] != Locked then w
      else w.(copies := w.copies[copy := Serving(Requests([], false))], listener := Some(copy))
    case Connect(c) =>
      if !Claims(w, c.launch) || w.listener.None? || c in w.links then w
      else w.(links := w.links[c := Link(w.listener.value, false, false, false)])
    case Send(c) =>
      if !Claims(w, c.launch) || c !in w.links then w else w.(links := w.links[c := w.links[c].(sent := true)])
    case Heard(c) =>
      if c !in w.links || !w.links[c].sent || w.links[c].taken || !Serves(w, w.links[c].server) then w
      else
        var server := w.links[c].server;
        var requests := w.copies[server].requests;
        if c in requests.waiting then w else w.(copies := w.copies[server := Serving(Kept(requests, c))])
    case Take(copy) =>
      if !Serves(w, copy) then w
      else
        var requests := w.copies[copy].requests;
        w.(copies := w.copies[copy := Serving(Taken(requests))],
           links := map c | c in w.links :: if c in requests.waiting then w.links[c].(taken := true) else w.links[c])
    case Answer(c) =>
      if c !in w.links || !w.links[c].taken || !Serves(w, w.links[c].server) then w
      else w.(links := w.links[c := w.links[c].(answered := true)])
    case ReadAnswer(c) =>
      if !Claims(w, c.launch) || c !in w.links || !w.links[c].answered then w
      else w.(copies := w.copies[c.launch := Told])
    case GiveUp(copy) => if !Claims(w, copy) then w else w.(copies := w.copies[copy := GaveUp])
    case Stop(copy) =>
      if !Serves(w, copy) then w
      else w.(copies := w.copies[copy := Serving(Stopped(w.copies[copy].requests))])
    case CloseSocket(copy) => if w.listener != Some(copy) then w else w.(listener := None)
    case Leave(copy) => if copy !in w.copies then w else w.(copies := w.copies[copy := Gone])
    case FreeLock(copy) => if w.lock != Some(copy) || HoldsClaim(w, copy) then w else w.(lock := None)
  }

  function Run(w: World, events: seq<Event>): World {
    if events == [] then w else Next(Run(w, events[..|events| - 1]), events[|events| - 1])
  }

  const NOBODY := World(map[], None, None, map[])

  // ----- at most one copy runs -----

  /** A request waits for the copy's UI to take it. */
  predicate Waits(w: World, copy: Copy, c: Connection) {
    Serves(w, copy) && c in w.copies[copy].requests.waiting
  }

  ghost predicate Sound(w: World) {
    && (forall copy: Copy | HoldsClaim(w, copy) :: w.lock == Some(copy))
    && (forall copy: Copy, c | Waits(w, copy, c) ::
          c in w.links && w.links[c].server == copy && !w.copies[copy].requests.stopping)
    && (forall c <- w.links :: w.links[c].answered ==> w.links[c].taken)
  }

  /** A request that waits waited before, unless its copy just heard it. */
  lemma Waited(w: World, e: Event, copy: Copy, c: Connection)
    requires Waits(Next(w, e), copy, c)
    ensures Waits(w, copy, c)
         || (e.Heard? && e.c == c && c in w.links && w.links[c].server == copy && Serves(w, copy)
             && !w.copies[copy].requests.stopping)
    ensures Serves(w, copy) && w.copies[copy].requests.stopping == Next(w, e).copies[copy].requests.stopping
  {
  }

  /** Connections keep their server; an answered one was taken. */
  lemma Linked(w: World, e: Event)
    requires forall c <- w.links :: w.links[c].answered ==> w.links[c].taken
    ensures forall c <- w.links :: c in Next(w, e).links && Next(w, e).links[c].server == w.links[c].server
    ensures forall c <- Next(w, e).links :: Next(w, e).links[c].answered ==> Next(w, e).links[c].taken
  {
  }

  lemma Claimed(w: World, e: Event, copy: Copy)
    requires HoldsClaim(Next(w, e), copy) && forall other: Copy | HoldsClaim(w, other) :: w.lock == Some(other)
    ensures Next(w, e).lock == Some(copy)
  {
  }

  lemma NextSound(w: World, e: Event)
    requires Sound(w)
    ensures Sound(Next(w, e))
  {
    hide Next;
    Linked(w, e);
    forall copy: Copy | HoldsClaim(Next(w, e), copy) { Claimed(w, e, copy); }
    forall copy: Copy, c | Waits(Next(w, e), copy, c)
      ensures c in Next(w, e).links && Next(w, e).links[c].server == copy && !Next(w, e).copies[copy].requests.stopping
    {
      Waited(w, e, copy, c);
    }
  }

  lemma {:induction false} RunSound(events: seq<Event>)
    ensures Sound(Run(NOBODY, events))
  {
    hide Next;
    if events != [] {
      RunSound(events[..|events| - 1]);
      NextSound(Run(NOBODY, events[..|events| - 1]), events[|events| - 1]);
    }
  }

  /** However launches, requests and quits interleave, at most one copy holds the claim. */
  lemma OneClaim(events: seq<Event>, a: Copy, b: Copy)
    requires HoldsClaim(Run(NOBODY, events), a) && HoldsClaim(Run(NOBODY, events), b)
    ensures a == b
  {
    hide Run;
    RunSound(events);
  }

  // ----- who was told -----

  /** The step at which a running copy's UI took a connection's request: the copy held the
      claim and had not begun to stop. */
  ghost predicate TookAt(events: seq<Event>, k: nat, c: Connection)
    requires k < |events|
  {
    var before := Run(NOBODY, events[..k]);
    events[k].Take? && Serves(before, events[k].copy) && before.lock == Some(events[k].copy)
    && Waits(before, events[k].copy, c) && !before.copies[events[k].copy].requests.stopping
  }

  /** A connection is taken only by its server's UI, from those that wait. */
  lemma TakenNow(w: World, e: Event, c: Connection)
    requires c in Next(w, e).links && Next(w, e).links[c].taken && !(c in w.links && w.links[c].taken)
    ensures e.Take? && Waits(w, e.copy, c)
  {
  }

  lemma {:induction false} TakenByRunning(events: seq<Event>, c: Connection)
    requires c in Run(NOBODY, events).links && Run(NOBODY, events).links[c].taken
    ensures exists k | 0 <= k < |events| :: TookAt(events, k, c)
  {
    hide Next;
    var n := |events| - 1;
    var before := Run(NOBODY, events[..n]);
    if c in before.links && before.links[c].taken {
      TakenByRunning(events[..n], c);
      var k :| 0 <= k < n && TookAt(events[..n], k, c);
      assert events[..n][..k] == events[..k];
      assert TookAt(events, k, c);
    } else {
      RunSound(events[..n]);
      TakenNow(before, events[n], c);
      assert TookAt(events, n, c);
    }
  }

  lemma {:induction false} ToldWasAnswered(events: seq<Event>, launch: Copy)
    requires launch in Run(NOBODY, events).copies && Run(NOBODY, events).copies[launch] == Told
    ensures exists c | c in Run(NOBODY, events).links :: c.launch == launch && Run(NOBODY, events).links[c].answered
  {
    var n := |events| - 1;
    var before, after := Run(NOBODY, events[..n]), Run(NOBODY, events);
    if launch in before.copies && before.copies[launch] == Told {
      ToldWasAnswered(events[..n], launch);
      var c :| c in before.links && c.launch == launch && before.links[c].answered;
      assert c in after.links && after.links[c].answered;
    } else {
      assert events[n].ReadAnswer? && events[n].c in after.links && after.links[events[n].c].answered;
    }
  }

  /** A launch that heard the running copy came forward was answered by a copy whose UI took
      its request while that copy held the claim and had not begun to stop. */
  lemma ToldByRunning(events: seq<Event>, launch: Copy)
    requires launch in Run(NOBODY, events).copies && Run(NOBODY, events).copies[launch] == Told
    ensures exists k: nat, c: Connection | k < |events| :: c.launch == launch && TookAt(events, k, c)
  {
    hide Run;
    ToldWasAnswered(events, launch);
    RunSound(events);
    var c :| c in Run(NOBODY, events).links && c.launch == launch && Run(NOBODY, events).links[c].answered;
    TakenByRunning(events, c);
    var k :| 0 <= k < |events| && TookAt(events, k, c);
    assert c.launch == launch && TookAt(events, k, c);
  }

  // ----- what launches come to -----

  /** The loop goes on exactly while the lock is taken, nobody answers and patience lasts. */
  lemma SettlesExactly(round: Round)
    ensures !Settles(round) <==> round == Round(false, Unreachable, false)
  {
  }

  lemma OneMore(w: World, events: seq<Event>, e: Event)
    ensures Run(w, events + [e]) == Next(Run(w, events), e)
  {
    hide Next;
    assert (events + [e])[..|events|] == events;
  }

  lemma RunNone(w: World)
    ensures Run(w, []) == w
  {
  }

  /** A launch that asks a running copy is told that it came forward, and the others are where
      they were. */
  lemma AskedIsTold(w: World, server: Copy, c: Connection)
    requires w.listener == Some(server) && Serves(w, server) && !w.copies[server].requests.stopping
    requires Claims(w, c.launch) && c !in w.links
    ensures var end := Run(w, [Connect(c)] + [Send(c)] + [Heard(c)] + [Take(server)] + [Answer(c)] + [ReadAnswer(c)]);
      && end.lock == w.lock && end.listener == w.listener
      && end.copies == w.copies[server := Serving(Requests([], false))][c.launch := Told]
  {
    var connected := w.(links := w.links[c := Link(server, false, false, false)]);
    var sent := w.(links := w.links[c := Link(server, true, false, false)]);
    assert Next(w, Connect(c)) == connected && Next(connected, Send(c)) == sent;
    var heard := Next(sent, Heard(c));
    HeardWaits(sent, server, c);
    var taken := Next(heard, Take(server));
    TakeTakes(heard, server, c);
    var answered := Next(taken, Answer(c));
    assert answered == taken.(links := taken.links[c := taken.links[c].(answered := true)]);
    assert Next(answered, ReadAnswer(c)) == answered.(copies := answered.copies[c.launch := Told]);
    assert taken.copies == w.copies[server := Serving(Requests([], false))];
    hide Next;
    RunNone(w);
    OneMore(w, [], Connect(c));
    assert [] + [Connect(c)] == [Connect(c)];
    OneMore(w, [Connect(c)], Send(c));
    OneMore(w, [Connect(c)] + [Send(c)], Heard(c));
    OneMore(w, [Connect(c)] + [Send(c)] + [Heard(c)], Take(server));
    OneMore(w, [Connect(c)] + [Send(c)] + [Heard(c)] + [Take(server)], Answer(c));
    OneMore(w, [Connect(c)] + [Send(c)] + [Heard(c)] + [Take(server)] + [Answer(c)], ReadAnswer(c));
  }

  lemma HeardWaits(w: World, server: Copy, c: Connection)
    requires Serves(w, server) && !w.copies[server].requests.stopping
    requires c in w.links && w.links[c] == Link(server, true, false, false)
    ensures var next := Next(w, Heard(c));
      && next.lock == w.lock && next.listener == w.listener && next.links == w.links && Serves(next, server)
      && next.copies == w.copies[server := next.copies[server]]
      && c in next.copies[server].requests.waiting && !next.copies[server].requests.stopping
  {
  }

  lemma TakeTakes(w: World, server: Copy, c: Connection)
    requires Serves(w, server) && c in w.copies[server].requests.waiting && c in w.links && !w.copies[server].requests.stopping
    ensures var next := Next(w, Take(server));
      && next.lock == w.lock && next.listener == w.listener && c in next.links && next.links[c] == w.links[c].(taken := true)
      && next.copies == w.copies[server := Serving(Requests([], false))]
  {
  }

  /** When the running copy stops, closes its socket and leaves, and the lock is freed, a
      launch that still claims takes over. */
  lemma LockPasses(w: World, former: Copy, launch: Copy)
    requires Serves(w, former) && w.lock == Some(former) && w.listener == Some(former) && Claims(w, launch)
    ensures var end := Run(w, [Stop(former)] + [CloseSocket(former)] + [Leave(former)] + [FreeLock(former)] + [TryLock(launch)] + [Listen(launch)]);
      && end.lock == Some(launch) && end.listener == Some(launch) && end.links == w.links
      && end.copies == w.copies[former := Gone][launch := Serving(Requests([], false))]
  {
    var stopped, left := Next(w, Stop(former)), w.copies[former := Gone];
    assert Next(stopped, CloseSocket(former)) == stopped.(listener := None);
    assert stopped.copies[former := Gone] == left;
    assert Next(stopped.(listener := None), Leave(former)) == w.(copies := left, listener := None);
    assert Next(w.(copies := left, listener := None), FreeLock(former)) == World(left, None, None, w.links);
    assert Next(World(left, None, None, w.links), TryLock(launch)) == World(left[launch := Locked], Some(launch), None, w.links);
    assert Next(World(left[launch := Locked], Some(launch), None, w.links), Listen(launch))
        == World(left[launch := Serving(Requests([], false))], Some(launch), Some(launch), w.links);
    hide Next;
    RunNone(w);
    OneMore(w, [], Stop(former));
    assert [] + [Stop(former)] == [Stop(former)];
    OneMore(w, [Stop(former)], CloseSocket(former));
    OneMore(w, [Stop(former)] + [CloseSocket(former)], Leave(former));
    OneMore(w, [Stop(former)] + [CloseSocket(former)] + [Leave(former)], FreeLock(former));
    OneMore(w, [Stop(former)] + [CloseSocket(former)] + [Leave(former)] + [FreeLock(former)], TryLock(launch));
    OneMore(w, [Stop(former)] + [CloseSocket(former)] + [Leave(former)] + [FreeLock(former)] + [TryLock(launch)], Listen(launch));
  }

  /** A launch begins as one that claims, and one whose patience ends gives up. */
  lemma LaunchesClaim(w: World, copy: Copy)
    requires copy !in w.copies
    ensures Next(w, Launch(copy)) == w.(copies := w.copies[copy := Claiming])
    ensures Next(Next(w, Launch(copy)), GiveUp(copy)) == w.(copies := w.copies[copy := GaveUp])
  {
    assert w.copies[copy := Claiming][copy := GaveUp] == w.copies[copy := GaveUp];
  }

  // ----- a copy that stops -----

  /** A copy that began to stop, or is gone, and keeps no request. */
  ghost predicate Stopping(w: World, server: Copy) {
    server in w.copies && (Serves(w, server) ==> w.copies[server].requests == Requests([], true)) && !Claims(w, server)
      && w.copies[server] != Locked
  }

  lemma StoppingStays(w: World, e: Event, server: Copy)
    requires Sound(w) && Stopping(w, server)
    ensures Stopping(Next(w, e), server)
    ensures forall c | c in Next(w, e).links && Next(w, e).links[c].taken && Next(w, e).links[c].server == server ::
      c in w.links && w.links[c].taken
  {
  }

  /** Once a copy began to stop it takes no request any more, whatever happens later. */
  lemma {:induction false} StoppedTakesNone(events: seq<Event>, more: seq<Event>, server: Copy, c: Connection)
    requires Serves(Run(NOBODY, events), server)
    requires var end := Run(NOBODY, events + [Stop(server)] + more);
      c in end.links && end.links[c].taken && end.links[c].server == server
    ensures Stopping(Run(NOBODY, events + [Stop(server)] + more), server)
    ensures c in Run(NOBODY, events).links && Run(NOBODY, events).links[c].taken
    decreases |more|
  {
    var stopped := events + [Stop(server)];
    hide Next;
    if more == [] {
      assert stopped + more == stopped;
      OneMore(NOBODY, events, Stop(server));
      StopStops(Run(NOBODY, events), server);
    } else {
      var n := |more| - 1;
      assert (stopped + more)[..|stopped| + n] == stopped + more[..n];
      var before := Run(NOBODY, stopped + more[..n]);
      RunSound(stopped + more[..n]);
      StoppingRun(events, more[..n], server);
      StoppingStays(before, more[n], server);
      Linked(before, more[n]);
      StoppedTakesNone(events, more[..n], server, c);
    }
  }

  lemma StopStops(w: World, server: Copy)
    requires Serves(w, server)
    ensures Stopping(Next(w, Stop(server)), server) && Next(w, Stop(server)).links == w.links
  {
  }

  lemma {:induction false} StoppingRun(events: seq<Event>, more: seq<Event>, server: Copy)
    requires Serves(Run(NOBODY, events), server)
    ensures Stopping(Run(NOBODY, events + [Stop(server)] + more), server)
    decreases |more|
  {
    var stopped := events + [Stop(server)];
    hide Next;
    if more == [] {
      assert stopped + more == stopped;
      OneMore(NOBODY, events, Stop(server));
      StopStops(Run(NOBODY, events), server);
    } else {
      var n := |more| - 1;
      assert (stopped + more)[..|stopped| + n] == stopped + more[..n];
      RunSound(stopped + more[..n]);
      StoppingRun(events, more[..n], server);
      StoppingStays(Run(NOBODY, stopped + more[..n]), more[n], server);
    }
  }
}
