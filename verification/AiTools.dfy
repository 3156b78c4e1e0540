/** What a round does with a run's tool calls: each reaches its plugin only after you allowed
    it, at most once in the round, and gets one result, in order. */
module AiTools {
  import opened Wrappers
  import opened AiRuns
  import opened AiThreads
  import opened AiTheorems

  // ----- the log -----

  /** The calls of a round whose results were written, in the order they were. */
  function RecordedOf(log: seq<Action>, round: nat): seq<(nat, ToolCall)> {
    if log == [] then []
    else
      var last := log[|log| - 1];
      RecordedOf(log[..|log| - 1], round)
        + if last.Recorded? && last.round == round then [(last.index, last.call)] else []
  }

  /** One result for each of the first `n` calls, in order. */
  function Results(calls: seq<Pending>, n: nat): seq<(nat, ToolCall)>
    requires n <= |calls|
  {
    if n == 0 then [] else Results(calls, n - 1) + [(n - 1, calls[n - 1].call)]
  }

  ghost predicate WasAllowed(log: seq<Action>, run: Id, round: nat, index: nat, call: ToolCall) {
    Allowed(run, round, index, call.id) in log
  }

  /** A call of this round and index reached its plugin. */
  ghost predicate WasCalled(log: seq<Action>, round: nat, index: nat) {
    exists a <- log :: a.Called? && a.round == round && a.index == index
  }

  /** Nothing of this round was called or recorded yet. */
  ghost predicate Untried(log: seq<Action>, round: nat) {
    forall a <- log | a.round == round :: a.Allowed?
  }

  /** Every call that reached its plugin was allowed before, named a tool its run offered,
      and reached it once. */
  ghost predicate LogSound(log: seq<Action>) {
    && (forall j | 0 <= j < |log| && log[j].Called? ::
          && WasAllowed(log[..j], log[j].run, log[j].round, log[j].index, log[j].call) && log[j].call.name in log[j].tools)
    && (forall i, j | 0 <= i < j < |log| && log[i].Called? && log[j].Called? ::
          log[i].round != log[j].round || log[i].index != log[j].index)
  }

  // ----- runs and threads -----

  /** A run's calls have a round of their own, name tools the run offered, and were answered
      as the log says. */
  ghost predicate CallsSound(s: State, log: seq<Action>, id: Id)
    requires id in s.runs
  {
    var run := s.runs[id];
    && (run.calls != [] ==> run.round < s.rounds)
    && (forall i | 0 <= i < |run.calls| ::
          && (run.calls[i].target.Some? ==> run.calls[i].call.name in run.tools)
          && (run.calls[i].answer == Some(true) ==> WasAllowed(log, id, run.round, i, run.calls[i].call)))
  }

  ghost predicate RoundsDiffer(s: State) {
    forall a, b | a in s.runs && b in s.runs && s.runs[a].calls != [] && s.runs[b].calls != []
                  && s.runs[a].round == s.runs[b].round :: a == b
  }

  /** A run whose calls a thread settles still has those calls. */
  ghost predicate Matches(run: Run, t: Thread)
    requires t.Rounding?
  {
    && run.round == t.round && |run.calls| == |t.calls|
    && forall i | 0 <= i < |t.calls| :: run.calls[i].call == t.calls[i].call && run.calls[i].target == t.calls[i].target
  }

  ghost predicate RoundSound(s: State, log: seq<Action>, t: Thread)
    requires t.Rounding?
  {
    && t.round < s.rounds && t.index <= |t.calls| && RecordedOf(log, t.round) == Results(t.calls, t.index)
    && (forall k | t.index <= k && WasCalled(log, t.round, k) :: k == t.index && t.phase.Writing?)
    && (forall i | 0 <= i < |t.calls| && t.calls[i].target.Some? :: t.calls[i].call.name in t.tools)
    && (t.phase.Calling? ==> t.index < |t.calls| && t.calls[t.index].target == Some(t.phase.target)
                             && WasAllowed(log, t.id, t.round, t.index, t.calls[t.index].call))
    && (t.id in s.runs ==> t.calls != [] && Matches(s.runs[t.id], t) && s.runs[t.id].tools == t.tools)
    && (forall id <- s.runs | s.runs[id].calls != [] && s.runs[id].round == t.round :: id == t.id)
  }

  ghost predicate StartSound(s: State, log: seq<Action>, t: Thread)
    requires t.RoundStarting?
  {
    t.id in s.runs ==> s.runs[t.id].calls != [] && Untried(log, s.runs[t.id].round)
  }

  ghost predicate ThreadSound(s: State, log: seq<Action>, t: Thread) {
    (t.Rounding? ==> RoundSound(s, log, t)) && (t.RoundStarting? ==> StartSound(s, log, t))
  }

  predicate InRound(threads: seq<Thread>, i: nat, round: nat) {
    i < |threads| && threads[i].Rounding? && threads[i].round == round
  }

  ghost predicate ToolsSound(w: World) {
    && LogSound(w.log) && RoundsDiffer(w.state)
    && (forall a <- w.log :: a.round < w.state.rounds)
    && (forall id <- w.state.runs :: CallsSound(w.state, w.log, id))
    && (forall t <- w.threads :: ThreadSound(w.state, w.log, t))
    && (forall i: nat, j: nat, r | InRound(w.threads, i, r) && InRound(w.threads, j, r) :: i == j)
  }

  // ----- steps that touch no call -----

  /** A run's calls, and the tools they may name, as they were. */
  predicate SameCalls(run: Run, next: Run) {
    next.calls == run.calls && next.round == run.round && next.tools == run.tools
  }

  /** The same rounds: runs keep their calls or have none, and no thread begins or leaves a
      point inside a round. */
  ghost predicate Aside(w: World, next: World) {
    && next.log == w.log && next.state.rounds == w.state.rounds
    && (forall id <- next.state.runs ::
          || (id in w.state.runs && SameCalls(w.state.runs[id], next.state.runs[id]))
          || (next.state.runs[id].calls == []
              && forall t <- next.threads | t.Rounding? || t.RoundStarting? :: t.id != id))
    && (forall t <- next.threads | t.Rounding? || t.RoundStarting? :: t in w.threads)
    && (forall i: nat, r | InRound(next.threads, i, r) :: InRound(w.threads, i, r))
  }

  lemma AsideCalls(w: World, next: World)
    requires ToolsSound(w) && Aside(w, next)
    ensures RoundsDiffer(next.state) && forall id <- next.state.runs :: CallsSound(next.state, next.log, id)
  {
    hide ThreadSound, LogSound;
    forall id <- next.state.runs ensures CallsSound(next.state, next.log, id) {
      if id in w.state.runs { assert CallsSound(w.state, w.log, id); }
    }
  }

  lemma AsideThread(w: World, next: World, t: Thread)
    requires ToolsSound(w) && Aside(w, next) && t in next.threads
    ensures ThreadSound(next.state, next.log, t)
  {
    hide LogSound, CallsSound, RoundsDiffer;
    if t.Rounding? || t.RoundStarting? {
      assert ThreadSound(w.state, w.log, t);
    }
  }

  lemma AsideSound(w: World, next: World)
    requires ToolsSound(w) && Aside(w, next)
    ensures ToolsSound(next)
  {
    AsideCalls(w, next);
    forall t <- next.threads { AsideThread(w, next, t); }
    hide ThreadSound, LogSound, CallsSound, RoundsDiffer;
  }

  /** What a section outside any round does to calls. */
  ghost predicate Plain(s: State, t: Thread, section: Section) {
    && section.done == [] && section.state.rounds == s.rounds && section.state.runs.Keys == s.runs.Keys
    && (section.thread == t || (!t.Rounding? && !t.RoundStarting?
                                && !section.thread.Rounding? && !section.thread.RoundStarting?))
    && (forall id <- s.runs ::
          || SameCalls(s.runs[id], section.state.runs[id])
          || (t.Preparing? && t.id == id && section.state.runs[id].calls == []))
  }

  lemma PlainStart(s: State, t: Thread, e: Event)
    requires e.Enqueue? || e.StartRun? || e.Prepared?
    ensures Plain(s, t, Own(s, t, e))
  {
    hide OwnRound;
  }

  lemma PlainAnswer(s: State, t: Thread, e: Event)
    requires e.StreamOpens? || e.StreamCall? || e.StreamCloses? || e.AnswerOver? || e.AnswerWritten? || e.Fails?
    ensures Plain(s, t, Own(s, t, e))
  {
    hide OwnRound, HowEnded;
  }

  lemma PlainAside(w: World, i: nat, section: Section)
    requires Apart(w) && i < |w.threads| && Plain(w.state, w.threads[i], section)
    ensures Aside(w, w.(state := section.state, threads := w.threads[i := section.thread], log := w.log + section.done))
  {
    hide SameCalls;
    var next := w.(state := section.state, threads := w.threads[i := section.thread], log := w.log + section.done);
    assert w.log + [] == w.log;
    forall u <- next.threads | u.Rounding? || u.RoundStarting? ensures u in w.threads {
      var k :| 0 <= k < |next.threads| && next.threads[k] == u;
      assert u == w.threads[k];
    }
    forall id <- next.state.runs | !SameCalls(w.state.runs[id], next.state.runs[id])
      ensures forall u <- next.threads | u.Rounding? || u.RoundStarting? :: u.id != id
    {
      assert HeldBy(w.threads, i, id);
      forall u <- next.threads | u.Rounding? || u.RoundStarting? ensures u.id != id {
        var k :| 0 <= k < |next.threads| && next.threads[k] == u;
        assert HeldBy(w.threads, k, u.id);
      }
    }
  }

  lemma SetAside(w: World, e: Event)
    requires e.RefuseAll? || e.StopRun? || e.WorkspaceChanged?
    ensures Aside(w, Next(w, e))
  {
  }

  lemma JoinedAside(w: World, next: World, joined: Thread)
    requires next.threads == w.threads + [joined] && !joined.Rounding? && !joined.RoundStarting?
    ensures forall t <- next.threads | t.Rounding? || t.RoundStarting? :: t in w.threads
    ensures forall i: nat, r | InRound(next.threads, i, r) :: InRound(w.threads, i, r)
  {
  }

  lemma ResultsAside(w: World, e: Event)
    requires e.Results?
    ensures Aside(w, Next(w, e))
  {
    if HasCalls(w.state, e.id) { JoinedAside(w, Next(w, e), Preparing(e.id, e.tools)); }
  }

  lemma SendAside(w: World, e: Event)
    requires Sound(w) && e.Send? && Enabled(w, e)
    ensures Aside(w, Next(w, e))
  {
    if Next(w, e) != w {
      JoinedAside(w, Next(w, e), Beginning(e.id));
      forall t <- w.threads | t.Holds().Some? ensures t.id != e.id {
        var i :| 0 <= i < |w.threads| && w.threads[i] == t;
        assert HeldBy(w.threads, i, t.id);
      }
    }
  }

  lemma StartingJoins(w: World, ids: seq<Id>)
    ensures forall i: nat, r | InRound(w.threads + Starting(ids), i, r) :: InRound(w.threads, i, r)
    ensures forall t <- w.threads + Starting(ids) | t.Rounding? || t.RoundStarting? :: t in w.threads
  {
    var all := w.threads + Starting(ids);
    forall i: nat, r | InRound(all, i, r) ensures InRound(w.threads, i, r) {}
    forall t <- all | t.Rounding? || t.RoundStarting? ensures t in w.threads {
      var i :| 0 <= i < |all| && all[i] == t;
    }
  }

  lemma ConsentAside(w: World, e: Event)
    requires e.Consent?
    ensures Aside(w, Next(w, e))
  {
    StartingJoins(w, e.ready);
  }

  // ----- steps inside a round -----

  lemma {:induction false} RecordedSplits(log: seq<Action>, more: seq<Action>, round: nat)
    ensures RecordedOf(log + more, round) == RecordedOf(log, round) + RecordedOf(more, round)
  {
    if more == [] {
      assert log + more == log;
    } else {
      var n := |more| - 1;
      assert (log + more)[..|log + more| - 1] == log + more[..n];
      RecordedSplits(log, more[..n], round);
    }
  }

  lemma {:induction false} RecordedElsewhere(log: seq<Action>, round: nat)
    requires forall a <- log :: a.Recorded? ==> a.round != round
    ensures RecordedOf(log, round) == []
  {
    if log != [] { RecordedElsewhere(log[..|log| - 1], round); }
  }

  /** Actions of one round change nothing about another. */
  lemma OtherRound(log: seq<Action>, done: seq<Action>, mine: nat, round: nat)
    requires round != mine && forall a <- done :: a.round == mine
    ensures RecordedOf(log + done, round) == RecordedOf(log, round)
    ensures forall k :: WasCalled(log + done, round, k) == WasCalled(log, round, k)
    ensures Untried(log, round) ==> Untried(log + done, round)
  {
    RecordedSplits(log, done, round);
    RecordedElsewhere(done, round);
  }

  /** A step of a thread inside its round: the round's calls stay as they are. */
  ghost predicate Inside(w: World, next: World, i: nat, t: Thread, done: seq<Action>) {
    && i < |w.threads| && w.threads[i].Rounding? && t.Rounding?
    && t.id == w.threads[i].id && t.round == w.threads[i].round
    && next.threads == w.threads[i := t] && next.log == w.log + done && next.state.rounds == w.state.rounds
    && next.state.runs.Keys == w.state.runs.Keys
    && (forall id <- w.state.runs :: SameCalls(w.state.runs[id], next.state.runs[id]))
    && (forall a <- done :: a.round == t.round)
  }

  lemma InsideOthers(w: World, next: World, i: nat, t: Thread, done: seq<Action>, k: nat)
    requires Apart(w) && ToolsSound(w) && Inside(w, next, i, t, done) && k < |w.threads| && k != i
    ensures ThreadSound(next.state, next.log, w.threads[k])
  {
    hide LogSound, RoundsDiffer;
    var u, mine := w.threads[k], w.threads[i];
    assert u in w.threads && mine in w.threads;
    assert ThreadSound(w.state, w.log, u) && ThreadSound(w.state, w.log, mine);
    assert HeldBy(w.threads, i, mine.id);
    if u.Rounding? {
      assert InRound(w.threads, i, mine.round);
      assert InRound(w.threads, k, u.round);
      OtherRound(w.log, done, mine.round, u.round);
    } else if u.RoundStarting? && u.id in w.state.runs {
      assert HeldBy(w.threads, k, u.id);
      OtherRound(w.log, done, mine.round, w.state.runs[u.id].round);
    }
  }

  lemma InsideSound(w: World, next: World, i: nat, t: Thread, done: seq<Action>)
    requires Apart(w) && ToolsSound(w) && Inside(w, next, i, t, done)
    requires LogSound(next.log) && ThreadSound(next.state, next.log, t)
    ensures ToolsSound(next)
  {
    hide LogSound, ThreadSound;
    forall u <- next.threads ensures ThreadSound(next.state, next.log, u) {
      var k :| 0 <= k < |next.threads| && next.threads[k] == u;
      if k != i { InsideOthers(w, next, i, t, done, k); }
    }
    forall id <- next.state.runs ensures CallsSound(next.state, next.log, id) {
      assert CallsSound(w.state, w.log, id);
    }
    assert w.threads[i] in w.threads;
    assert ThreadSound(w.state, w.log, w.threads[i]);
    assert w.threads[i].round < w.state.rounds by { RoundBelow(w.state, w.log, w.threads[i]); }
    forall x: nat, y: nat, r | InRound(next.threads, x, r) && InRound(next.threads, y, r) ensures x == y {
      assert InRound(w.threads, x, r) && InRound(w.threads, y, r);
    }
  }

  lemma RoundBelow(s: State, log: seq<Action>, t: Thread)
    requires t.Rounding? && ThreadSound(s, log, t)
    ensures t.round < s.rounds
  {
  }

  /** A thread's own step, from its section. */
  lemma OwnIs(w: World, e: Event)
    requires !FromOutside(e) && e.thread < |w.threads|
    ensures var section := Own(w.state, w.threads[e.thread], e);
      Next(w, e) == w.(state := section.state, threads := w.threads[e.thread := section.thread],
                       log := w.log + section.done)
  {
    hide Own;
  }

  lemma RoundIs(s: State, t: Thread, e: Event)
    requires e.RoundStarts? || e.Decides? || e.Calls? || e.Writes? || e.RoundEnds? || e.RoundDrops? || e.RoundStops?
    ensures Own(s, t, e) == OwnRound(s, t, e)
  {
    hide OwnRound;
  }

  lemma DecidedInside(s: State, t: Thread, e: Event)
    requires e.Decides? && t.Rounding? && t.phase.Deciding? && t.index < |t.calls|
    ensures var section := OwnRound(s, t, e);
      && section.done == [] && section.state.rounds == s.rounds && section.state.runs.Keys == s.runs.Keys
      && section.thread == t.(phase := section.thread.phase)
      && (section.thread.phase.Calling? ==>
            && t.id in s.runs && t.calls[t.index].target == Some(section.thread.phase.target)
            && t.index < |s.runs[t.id].calls| && s.runs[t.id].calls[t.index].answer == Some(true))
      && forall id <- s.runs :: SameCalls(s.runs[id], section.state.runs[id])
  {
  }

  lemma DecidedThread(w: World, t: Thread, e: Event)
    requires e.Decides?
    requires ToolsSound(w) && t in w.threads && t.Rounding? && t.phase.Deciding? && t.index < |t.calls|
    ensures var section := OwnRound(w.state, t, e); ThreadSound(section.state, w.log, section.thread)
  {
    DecidedInside(w.state, t, e);
    hide RoundsDiffer, LogSound, OwnRound;
    assert ThreadSound(w.state, w.log, t);
    if t.id in w.state.runs { assert CallsSound(w.state, w.log, t.id); }
  }

  /** One decision about a call. */
  lemma DecidedSound(w: World, e: Event)
    requires Sound(w) && ToolsSound(w) && e.Decides? && e.thread < |w.threads|
    ensures ToolsSound(Next(w, e))
  {
    var t := w.threads[e.thread];
    assert t in w.threads && w.log + [] == w.log;
    OwnIs(w, e);
    RoundIs(w.state, t, e);
    hide Own, Next, LogSound, RoundsDiffer, CallsSound, ThreadSound, SameCalls;
    if t.Rounding? && t.phase.Deciding? && t.index < |t.calls| {
      DecidedThread(w, t, e);
      DecidedInside(w.state, t, e);
      hide OwnRound;
      InsideSound(w, Next(w, e), e.thread, OwnRound(w.state, t, e).thread, []);
    } else {
      assert OwnRound(w.state, t, e) == Move(w.state, t);
      assert Next(w, e) == w;
    }
  }

  lemma LogGrows(log: seq<Action>, a: Action)
    requires LogSound(log)
    requires a.Called? ==>
      WasAllowed(log, a.run, a.round, a.index, a.call) && a.call.name in a.tools && !WasCalled(log, a.round, a.index)
    ensures LogSound(log + [a])
  {
    var more := log + [a];
    assert more[..|log|] == log;
    forall j | 0 <= j < |more| && more[j].Called?
      ensures WasAllowed(more[..j], more[j].run, more[j].round, more[j].index, more[j].call)
      ensures more[j].call.name in more[j].tools
    {
      if j < |log| { assert more[..j] == log[..j] && more[j] == log[j]; }
    }
    forall i, j | 0 <= i < j < |more| && more[i].Called? && more[j].Called?
      ensures more[i].round != more[j].round || more[i].index != more[j].index
    {
      assert more[i] == log[i] && log[i] in log;
    }
  }

  lemma CallLogged(w: World, t: Thread)
    requires ToolsSound(w) && t in w.threads && t.Rounding? && t.phase.Calling?
    ensures t.index < |t.calls|
    ensures var done := [Called(t.id, t.round, t.index, t.calls[t.index].call, t.phase.target, t.tools)];
      LogSound(w.log + done) && RoundSound(w.state, w.log + done, t.(phase := Writing))
  {
    hide RoundsDiffer, CallsSound, LogSound;
    assert ThreadSound(w.state, w.log, t);
    var a := Called(t.id, t.round, t.index, t.calls[t.index].call, t.phase.target, t.tools);
    LogGrows(w.log, a);
    RecordedSplits(w.log, [a], t.round);
    RecordedElsewhere([a], t.round);
    forall k | WasCalled(w.log + [a], t.round, k) && k != t.index ensures WasCalled(w.log, t.round, k) {
      var c :| c in w.log + [a] && c.Called? && c.round == t.round && c.index == k;
      assert c in w.log;
    }
  }

  /** A call reaches its plugin, or its plugin offers it no more. */
  lemma CalledSound(w: World, e: Event)
    requires Sound(w) && ToolsSound(w) && e.Calls? && e.thread < |w.threads|
    ensures ToolsSound(Next(w, e))
  {
    var t := w.threads[e.thread];
    assert t in w.threads && w.log + [] == w.log;
    OwnIs(w, e);
    RoundIs(w.state, t, e);
    hide Own, Next, LogSound, RoundsDiffer, CallsSound;
    if t.Rounding? && t.phase.Calling? && t.index < |t.calls| {
      assert ThreadSound(w.state, w.log, t);
      if e.found { CallLogged(w, t); }
      var section := OwnRound(w.state, t, e);
      assert LogSound(w.log + section.done) && ThreadSound(w.state, w.log + section.done, section.thread);
      hide ThreadSound;
      InsideSound(w, Next(w, e), e.thread, section.thread, section.done);
    } else {
      assert OwnRound(w.state, t, e) == Move(w.state, t);
      assert Next(w, e) == w;
    }
  }

  lemma RecordLogged(w: World, t: Thread)
    requires ToolsSound(w) && t in w.threads && t.Rounding? && t.phase.Writing? && t.index < |t.calls|
    ensures var done := [Recorded(t.round, t.index, t.calls[t.index].call)];
      && LogSound(w.log + done)
      && RoundSound(w.state, w.log + done, t.(index := t.index + 1, phase := Deciding(false)))
  {
    hide RoundsDiffer, CallsSound;
    assert ThreadSound(w.state, w.log, t);
    var a := Recorded(t.round, t.index, t.calls[t.index].call);
    var log := w.log + [a];
    RecordedSplits(w.log, [a], t.round);
    assert RecordedOf([a], t.round) == [(t.index, t.calls[t.index].call)] by { assert [a][..0] == []; }
    LogGrows(w.log, a);
    forall k | WasCalled(log, t.round, k) ensures WasCalled(w.log, t.round, k) {
      var c :| c in log && c.Called? && c.round == t.round && c.index == k;
      assert c in w.log;
    }
  }

  /** A result is written, or its round fails. */
  lemma WrittenSound(w: World, i: nat, written: bool)
    requires Sound(w) && ToolsSound(w) && i < |w.threads|
    ensures ToolsSound(Next(w, Writes(i, written)))
  {
    var t, next := w.threads[i], Next(w, Writes(i, written));
    assert t in w.threads && w.log + [] == w.log;
    if t.Rounding? && t.phase.Writing? && t.index < |t.calls| {
      if written {
        RecordLogged(w, t);
        assert ThreadSound(next.state, next.log, next.threads[i]);
        hide LogSound, RoundsDiffer, CallsSound, ThreadSound, Placed, Queued, Known, OneLive, Asked;
        InsideSound(w, next, i, next.threads[i], next.log[|w.log|..]);
      } else {
        LeavesSound(w, i, Section(w.state, RoundFailing(t.id), []));
      }
    } else {
      assert next == w;
    }
  }

  /** A thread that leaves its round, or never got into it. */
  lemma LeavesSound(w: World, i: nat, section: Section)
    requires ToolsSound(w) && i < |w.threads| && section.done == []
    requires !section.thread.Rounding? && !section.thread.RoundStarting?
    requires section.state.rounds == w.state.rounds && section.state.runs.Keys == w.state.runs.Keys
    requires forall id <- w.state.runs :: SameCalls(w.state.runs[id], section.state.runs[id])
    ensures ToolsSound(w.(state := section.state, threads := w.threads[i := section.thread], log := w.log + section.done))
  {
    hide ToolsSound, SameCalls;
    var next := w.(state := section.state, threads := w.threads[i := section.thread], log := w.log + section.done);
    assert w.log + [] == w.log;
    forall u <- next.threads | u.Rounding? || u.RoundStarting? ensures u in w.threads {
      var k :| 0 <= k < |next.threads| && next.threads[k] == u;
      assert u == w.threads[k];
    }
    AsideSound(w, next);
  }

  /** A section at the end of a round, or after one that failed. */
  lemma LeavingSection(s: State, t: Thread, e: Event)
    requires e.RoundEnds? || e.RoundDrops? || e.RoundStops?
    ensures var section := OwnRound(s, t, e);
      || section == Move(s, t)
      || (section.done == [] && !section.thread.Rounding? && !section.thread.RoundStarting?
          && section.state.rounds == s.rounds && section.state.runs.Keys == s.runs.Keys
          && forall id <- s.runs :: SameCalls(s.runs[id], section.state.runs[id]))
  {
  }

  lemma LeftSound(w: World, e: Event)
    requires Sound(w) && ToolsSound(w) && (e.RoundEnds? || e.RoundDrops? || e.RoundStops?) && e.thread < |w.threads|
    ensures ToolsSound(Next(w, e))
  {
    var t := w.threads[e.thread];
    OwnIs(w, e);
    RoundIs(w.state, t, e);
    LeavingSection(w.state, t, e);
    hide Sound, ToolsSound, Own, Next, SameCalls;
    var section := OwnRound(w.state, t, e);
    if section == Move(w.state, t) {
      assert w.log + [] == w.log && w.threads[e.thread := t] == w.threads;
      assert Next(w, e) == w;
    } else {
      hide OwnRound;
      LeavesSound(w, e.thread, section);
    }
  }

  /** A round's own thread takes up its calls. */
  lemma BegunThread(w: World, t: Thread)
    requires ToolsSound(w) && t in w.threads && t.RoundStarting? && t.id in w.state.runs
    ensures var run := w.state.runs[t.id];
      RoundSound(w.state, w.log, Thread.Rounding(t.id, run.round, run.tools, run.calls, 0, Deciding(false)))
  {
    hide LogSound;
    assert ThreadSound(w.state, w.log, t) && CallsSound(w.state, w.log, t.id);
    RecordedElsewhere(w.log, w.state.runs[t.id].round);
  }

  lemma BegunSound(w: World, e: Event)
    requires Sound(w) && ToolsSound(w) && e.RoundStarts? && e.thread < |w.threads|
    ensures ToolsSound(Next(w, e))
  {
    var t := w.threads[e.thread];
    assert t in w.threads && w.log + [] == w.log;
    OwnIs(w, e);
    RoundIs(w.state, t, e);
    hide Own, Next;
    if !t.RoundStarting? {
      assert OwnRound(w.state, t, e) == Move(w.state, t);
      assert Next(w, e) == w;
    } else if e.spawned && t.id in w.state.runs {
      BegunThread(w, t);
      var u := OwnRound(w.state, t, e).thread;
      BegunApart(w, e.thread, u);
      var next := Next(w, e);
      assert next == w.(threads := w.threads[e.thread := u]);
      hide LogSound, RoundsDiffer, CallsSound, RoundSound, StartSound, Placed, Queued, Known, OneLive, Asked, OwnRound;
      forall v <- next.threads ensures ThreadSound(next.state, next.log, v) {
        var k :| 0 <= k < |next.threads| && next.threads[k] == v;
        if k != e.thread { assert v == w.threads[k]; }
      }
      forall x: nat, y: nat, r | InRound(next.threads, x, r) && InRound(next.threads, y, r) ensures x == y {
        assert x != e.thread ==> InRound(w.threads, x, r);
        assert y != e.thread ==> InRound(w.threads, y, r);
      }
    } else {
      hide Sound, ToolsSound;
      LeavesSound(w, e.thread, OwnRound(w.state, t, e));
    }
  }

  lemma BegunApart(w: World, i: nat, u: Thread)
    requires Apart(w) && ToolsSound(w) && i < |w.threads| && w.threads[i].RoundStarting? && w.threads[i].id in w.state.runs
    requires u.Rounding? && u.round == w.state.runs[w.threads[i].id].round
    ensures forall j: nat :: !InRound(w.threads, j, u.round)
  {
    hide LogSound, RoundsDiffer;
    var t := w.threads[i];
    assert t in w.threads && ThreadSound(w.state, w.log, t) && HeldBy(w.threads, i, t.id);
    assert forall j: nat | j < |w.threads| && w.threads[j].Rounding? :: HeldBy(w.threads, j, w.threads[j].id);
    forall j: nat | j < |w.threads| && w.threads[j].Rounding? ensures w.threads[j].round != u.round {
      assert w.threads[j] in w.threads && ThreadSound(w.state, w.log, w.threads[j]);
    }
  }

  // ----- your answers -----

  lemma PromptThread(w: World, e: Event, t: Thread)
    requires ToolsSound(w) && e.PromptAnswered? && Answers(w.state, e.id, e.asked) && t in w.threads
    ensures ThreadSound(Next(w, e).state, Next(w, e).log, t)
  {
    hide LogSound, RoundsDiffer, CallsSound;
    assert ThreadSound(w.state, w.log, t);
    var run := w.state.runs[e.id];
    var done := if e.allow then [Allowed(e.id, run.round, run.asking.value, e.asked)] else [];
    assert Next(w, e).log == w.log + done;
    AllowedOnly(w.log, done);
  }

  /** Allowing a call calls nothing and records nothing. */
  lemma AllowedOnly(log: seq<Action>, done: seq<Action>)
    requires forall a <- done :: a.Allowed?
    ensures forall r :: RecordedOf(log + done, r) == RecordedOf(log, r)
    ensures forall r, k :: WasCalled(log + done, r, k) == WasCalled(log, r, k)
    ensures forall r :: Untried(log, r) ==> Untried(log + done, r)
  {
    forall r: nat ensures RecordedOf(log + done, r) == RecordedOf(log, r) {
      RecordedSplits(log, done, r);
      RecordedElsewhere(done, r);
    }
  }

  lemma PromptRuns(w: World, e: Event)
    requires ToolsSound(w) && e.PromptAnswered? && Answers(w.state, e.id, e.asked)
    ensures var next := Next(w, e);
      && RoundsDiffer(next.state) && (forall id <- next.state.runs :: CallsSound(next.state, next.log, id))
      && LogSound(next.log) && (forall a <- next.log :: a.round < next.state.rounds)
  {
    hide ThreadSound, LogSound;
    var next, run := Next(w, e), w.state.runs[e.id];
    assert CallsSound(w.state, w.log, e.id);
    forall id <- next.state.runs ensures CallsSound(next.state, next.log, id) {
      assert CallsSound(w.state, w.log, id);
    }
    if e.allow { LogGrows(w.log, Allowed(e.id, run.round, run.asking.value, e.asked)); }
  }

  lemma PromptToolsSound(w: World, e: Event)
    requires ToolsSound(w) && e.PromptAnswered?
    ensures ToolsSound(Next(w, e))
  {
    if Answers(w.state, e.id, e.asked) {
      PromptRuns(w, e);
      forall t <- w.threads { PromptThread(w, e, t); }
      assert Next(w, e).threads == w.threads;
      hide Next, LogSound, RoundsDiffer, CallsSound, ThreadSound;
    }
  }

  // ----- new rounds -----

  /** A run whose calls were just handed over, as a round that is new. */
  ghost predicate NewRound(run: Run, from: nat, to: nat) {
    && run.calls != [] && from <= run.round < to
    && forall i | 0 <= i < |run.calls| ::
         run.calls[i].answer.None? && (run.calls[i].target.Some? ==> run.calls[i].call.name in run.tools)
  }

  ghost predicate HandsOver(w: World, next: World, ids: set<Id>, joined: seq<Thread>) {
    && next.log == w.log && next.state.rounds >= w.state.rounds && next.threads == w.threads + joined
    && (forall t <- joined :: t.RoundStarting? && t.id in ids)
    && (forall t <- w.threads | t.Holds().Some? :: t.id !in ids)
    && (forall id <- next.state.runs :: id in w.state.runs
          && if id in ids then NewRound(next.state.runs[id], w.state.rounds, next.state.rounds)
             else SameCalls(w.state.runs[id], next.state.runs[id]))
    && (forall a, b | a in ids && b in ids && a in next.state.runs && b in next.state.runs
                      && next.state.runs[a].round == next.state.runs[b].round :: a == b)
  }

  lemma HandedRuns(w: World, next: World, ids: set<Id>, joined: seq<Thread>)
    requires ToolsSound(w) && HandsOver(w, next, ids, joined)
    ensures RoundsDiffer(next.state) && forall id <- next.state.runs :: CallsSound(next.state, next.log, id)
  {
    hide ThreadSound, LogSound;
    forall id <- next.state.runs ensures CallsSound(next.state, next.log, id) {
      assert CallsSound(w.state, w.log, id);
    }
    forall a, b | a in next.state.runs && b in next.state.runs && next.state.runs[a].calls != []
                  && next.state.runs[b].calls != [] && next.state.runs[a].round == next.state.runs[b].round
      ensures a == b
    {
      assert CallsSound(w.state, w.log, a) && CallsSound(w.state, w.log, b);
    }
  }

  lemma HandedThread(w: World, next: World, ids: set<Id>, joined: seq<Thread>, t: Thread)
    requires ToolsSound(w) && HandsOver(w, next, ids, joined) && t in next.threads
    ensures ThreadSound(next.state, next.log, t)
  {
    hide LogSound, RoundsDiffer, CallsSound;
    if t in w.threads {
      assert ThreadSound(w.state, w.log, t);
    } else {
      assert t in joined;
    }
  }

  lemma HandedSound(w: World, next: World, ids: set<Id>, joined: seq<Thread>)
    requires ToolsSound(w) && HandsOver(w, next, ids, joined)
    ensures ToolsSound(next)
  {
    HandedRuns(w, next, ids, joined);
    forall t <- next.threads { HandedThread(w, next, ids, joined, t); }
    hide LogSound, RoundsDiffer, CallsSound, ThreadSound, NewRound, SameCalls;
    assert forall k | 0 <= k < |joined| :: joined[k] in joined;
    assert forall i: nat, r | InRound(next.threads, i, r) :: InRound(w.threads, i, r);
  }

  lemma NotHeld(w: World, id: Id)
    requires Sound(w) && HasCalls(w.state, id)
    ensures forall t <- w.threads | t.Holds().Some? :: t.id != id
  {
    HasCallsFree(w, id);
    hide Sound;
    forall t <- w.threads | t.Holds().Some? ensures t.id != id {
      var i :| 0 <= i < |w.threads| && w.threads[i] == t;
      assert HeldBy(w.threads, i, t.id);
    }
  }

  lemma HandOverToolsSound(w: World, e: Event)
    requires Sound(w) && ToolsSound(w) && e.HandOver?
    ensures ToolsSound(Next(w, e))
  {
    if HasCalls(w.state, e.id) {
      NotHeld(w, e.id);
      hide Sound, ToolsSound;
      HandedSound(w, Next(w, e), {e.id}, [RoundStarting(e.id)]);
    }
  }

  lemma PluginIs(w: World, e: Event)
    requires Sound(w) && e.PluginGone? && Enabled(w, e)
    ensures Lists(e.orphans, Orphaned(w.state, e.plugin))
    ensures Next(w, e) == w.(state := PluginDisabled(w.state, e.plugin, e.orphans),
                             threads := w.threads + if e.open then Orphans(e.orphans) else [])
    ensures forall t <- w.threads | t.Holds().Some? :: t.id !in Orphaned(w.state, e.plugin)
  {
    forall id <- Orphaned(w.state, e.plugin) { NotHeld(w, id); }
    hide Sound, PluginDisabled;
    assert w.threads + [] == w.threads;
  }

  lemma PluginToolsSound(w: World, e: Event)
    requires Sound(w) && ToolsSound(w) && e.PluginGone? && Enabled(w, e)
    ensures ToolsSound(Next(w, e))
  {
    var next, ids := Next(w, e), Orphaned(w.state, e.plugin);
    var joined := if e.open then Orphans(e.orphans) else [];
    PluginIs(w, e);
    hide Sound, ToolsSound, ThreadSound, Next, Enabled;
    assert forall t <- joined :: t.RoundStarting? && t.id in ids;
    hide Lists, Orphaned, Orphans;
    forall id <- w.state.runs { PluginRun(w.state, e.plugin, e.orphans, id); }
    forall a, b | a in ids && b in ids { PluginRounds(w.state, e.plugin, e.orphans, a, b); }
    assert next.state.runs.Keys == w.state.runs.Keys && next.state.rounds >= w.state.rounds;
    hide PluginDisabled, NewRound, SameCalls;
    HandedSound(w, next, ids, joined);
  }

  lemma PluginRun(s: State, plugin: Id, orphans: seq<Id>, id: Id)
    requires Lists(orphans, Orphaned(s, plugin)) && id in s.runs
    ensures var next := PluginDisabled(s, plugin, orphans);
      id in next.runs
      && if id in Orphaned(s, plugin) then NewRound(next.runs[id], s.rounds, next.rounds)
         else SameCalls(s.runs[id], next.runs[id])
  {
  }

  lemma PluginRounds(s: State, plugin: Id, orphans: seq<Id>, a: Id, b: Id)
    requires Lists(orphans, Orphaned(s, plugin)) && a in Orphaned(s, plugin) && b in Orphaned(s, plugin)
    ensures var next := PluginDisabled(s, plugin, orphans).runs;
      a in next && b in next && (next[a].round == next[b].round ==> a == b)
  {
    assert a in orphans && b in orphans;
  }

  // ----- every step -----

  predicate OfRound(e: Event) {
    e.RoundStarts? || e.Decides? || e.Calls? || e.Writes? || e.RoundEnds? || e.RoundDrops? || e.RoundStops?
  }

  lemma PlainToolsSound(w: World, e: Event)
    requires Sound(w) && ToolsSound(w) && !FromOutside(e) && !OfRound(e) && e.thread < |w.threads|
    ensures ToolsSound(Next(w, e))
  {
    hide ToolsSound, Sound, Next, Own, Plain;
    var t := w.threads[e.thread];
    if e.Enqueue? || e.StartRun? || e.Prepared? { PlainStart(w.state, t, e); } else { PlainAnswer(w.state, t, e); }
    OwnIs(w, e);
    SoundApart(w);
    PlainAside(w, e.thread, Own(w.state, t, e));
    AsideSound(w, Next(w, e));
  }

  lemma OwnToolsSound(w: World, e: Event)
    requires Sound(w) && ToolsSound(w) && !FromOutside(e) && e.thread < |w.threads|
    ensures ToolsSound(Next(w, e))
  {
    hide ToolsSound, Sound, Next;
    if e.RoundStarts? { BegunSound(w, e); }
    else if e.Decides? { DecidedSound(w, e); }
    else if e.Calls? { CalledSound(w, e); }
    else if e.Writes? { WrittenSound(w, e.thread, e.written); }
    else if e.RoundEnds? || e.RoundDrops? || e.RoundStops? { LeftSound(w, e); }
    else { PlainToolsSound(w, e); }
  }

  lemma SoundApart(w: World)
    requires Sound(w)
    ensures Apart(w)
  {
  }

  lemma NextToolsSound(w: World, e: Event)
    requires Sound(w) && ToolsSound(w) && Enabled(w, e)
    ensures ToolsSound(Next(w, e))
  {
    if !FromOutside(e) {
      if e.thread < |w.threads| {
        hide ToolsSound, Sound, Next;
        OwnToolsSound(w, e);
      }
    } else {
      hide ToolsSound, Sound, Next, Enabled;
      match e
      case Send(_, _, _, _, _, _) => SendAside(w, e); AsideSound(w, Next(w, e));
      case Results(_, _) => ResultsAside(w, e); AsideSound(w, Next(w, e));
      case Consent(_, _) => ConsentAside(w, e); AsideSound(w, Next(w, e));
      case HandOver(_, _) => HandOverToolsSound(w, e);
      case PluginGone(_, _, _) => PluginToolsSound(w, e);
      case PromptAnswered(_, _, _) => PromptToolsSound(w, e);
      case _ => SetAside(w, e); AsideSound(w, Next(w, e));
    }
  }

  lemma {:induction false} RunToolsSound(events: seq<Event>)
    requires AllEnabled(QUIET, events)
    ensures ToolsSound(After(QUIET, events))
  {
    hide Next, Enabled;
    if events != [] {
      var n := |events| - 1;
      EnabledPrefix(QUIET, events, n);
      RunToolsSound(events[..n]);
      RunSound(events[..n]);
      hide ToolsSound, Sound;
      NextToolsSound(After(QUIET, events[..n]), events[n]);
    }
  }

  /** A round in which every write succeeded has one result for each call, in order. */
  lemma OneResultEach(events: seq<Event>, i: nat)
    requires AllEnabled(QUIET, events)
    requires var w := After(QUIET, events);
      i < |w.threads| && w.threads[i].Rounding? && w.threads[i].index == |w.threads[i].calls|
    ensures var w := After(QUIET, events);
      RecordedOf(w.log, w.threads[i].round) == Results(w.threads[i].calls, |w.threads[i].calls|)
  {
    hide After, LogSound, CallsSound, RoundsDiffer;
    RunToolsSound(events);
    var w := After(QUIET, events);
    assert w.threads[i] in w.threads;
    assert ThreadSound(w.state, w.log, w.threads[i]);
  }
}
