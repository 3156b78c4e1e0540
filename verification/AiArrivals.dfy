/** Each tool call that arrives in a run's stream reaches its plugin at most once, however
    often the run is stopped, resumed or its calls are handed over. */
module AiArrivals {
  import opened Wrappers
  import opened AiRuns
  import opened AiThreads
  import opened AiTheorems
  import opened AiTools
  import opened AiStops

  // ----- where calls are -----

  /** Calls of one run, in the order they arrived, below a number. */
  ghost predicate InOrder(calls: seq<ToolCall>, id: Id, below: nat) {
    && (forall i | 0 <= i < |calls| :: calls[i].arrival.run == id && calls[i].arrival.number < below)
    && (forall i, j | 0 <= i < j < |calls| :: calls[i].arrival.number < calls[j].arrival.number)
  }

  function CallsOf(pending: seq<Pending>): (calls: seq<ToolCall>)
    ensures |calls| == |pending| && forall i | 0 <= i < |pending| :: calls[i] == pending[i].call
  {
    seq(|pending|, i requires 0 <= i < |pending| => pending[i].call)
  }

  ghost predicate RunArrivals(run: Run, id: Id) {
    InOrder(run.toolCalls, id, run.arrived) && InOrder(CallsOf(run.calls), id, run.arrived)
  }

  /** No call of these reached its plugin. */
  ghost predicate Untouched(log: seq<Action>, calls: seq<ToolCall>) {
    forall a, i | a in log && a.Called? && 0 <= i < |calls| :: calls[i].arrival != a.call.arrival
  }

  ghost predicate CallsOnce(log: seq<Action>) {
    forall i, j | 0 <= i < j < |log| && log[i].Called? && log[j].Called? ::
      log[i].call.arrival != log[j].call.arrival
  }

  /** A call that reached its plugin arrived for the run it was called for, before any call
      still to come. */
  ghost predicate Arrived(w: World, a: Action)
    requires a.Called?
  {
    && a.run in w.used && a.call.arrival.run == a.run
    && (a.run in w.state.runs ==> a.call.arrival.number < w.state.runs[a.run].arrived)
  }

  /** What a thread still has to settle has not reached its plugin. */
  ghost predicate Pristine(s: State, log: seq<Action>, t: Thread) {
    && (t.Rounding? ==>
          && (forall i | 0 <= i < |t.calls| :: t.calls[i].call.arrival.run == t.id)
          && (forall i, j | 0 <= i < j < |t.calls| :: t.calls[i].call.arrival.number < t.calls[j].call.arrival.number)
          && (forall a, k | a in log && a.Called? && 0 <= k < |t.calls| && t.calls[k].call.arrival == a.call.arrival ::
                k < t.index || (k == t.index && t.phase.Writing?)))
    && (t.RoundStarting? && t.id in s.runs ==> Untouched(log, CallsOf(s.runs[t.id].calls)))
  }

  /** A run whose calls were not handed over has none that reached its plugin. */
  ghost predicate Waiting(log: seq<Action>, run: Run) {
    run.calls == [] ==> Untouched(log, run.toolCalls)
  }

  ghost predicate ArrivalsSound(w: World) {
    && CallsOnce(w.log)
    && (forall a <- w.log | a.Called? :: Arrived(w, a))
    && (forall id <- w.state.runs :: RunArrivals(w.state.runs[id], id) && Waiting(w.log, w.state.runs[id]))
    && (forall t <- w.threads :: Pristine(w.state, w.log, t))
  }

  // ----- how a run's calls move -----

  /** A run's calls in one step: they stay, one more arrives, an answer begins without any,
      or they are handed over, which happens only to calls that were not before. */
  predicate Moves(run: Run, next: Run, id: Id) {
    || (next.toolCalls == run.toolCalls && next.arrived == run.arrived && CallsAlike(run.calls, next.calls))
    || (|next.toolCalls| == |run.toolCalls| + 1 && next.toolCalls[..|run.toolCalls|] == run.toolCalls
        && next.toolCalls[|run.toolCalls|].arrival == Arrival(id, run.arrived)
        && next.arrived == run.arrived + 1 && CallsAlike(run.calls, next.calls))
    || (next.toolCalls == [] && next.calls == [] && next.arrived == run.arrived)
    || Handed(run, next)
  }

  lemma MovesInOrder(run: Run, next: Run, id: Id)
    requires RunArrivals(run, id) && Moves(run, next, id)
    ensures RunArrivals(next, id) && next.arrived >= run.arrived
  {
  }

  /** Moving keeps calls that wait untouched, when none of them is called meanwhile. */
  lemma MovesWaiting(w: World, run: Run, next: Run, id: Id)
    requires id in w.state.runs && run == w.state.runs[id] && Waiting(w.log, run) && Moves(run, next, id)
    requires forall a <- w.log | a.Called? :: Arrived(w, a)
    ensures Waiting(w.log, next)
  {
  }

  lemma SameMoves(run: Run, id: Id)
    ensures Moves(run, run, id)
  {
  }

  lemma PlainMoves(s: State, t: Thread, e: Event, id: Id)
    requires !OfRound(e) && !FromOutside(e) && id in s.runs && id in Own(s, t, e).state.runs
    ensures Moves(s.runs[id], Own(s, t, e).state.runs[id], id)
  {
    hide OwnRound, HowEnded, Handed;
  }

  lemma RoundMoves(s: State, t: Thread, e: Event, id: Id)
    requires OfRound(e) && id in s.runs && id in Own(s, t, e).state.runs
    ensures Moves(s.runs[id], Own(s, t, e).state.runs[id], id)
  {
    hide Decide, Handed;
  }

  lemma OwnMoves(s: State, t: Thread, e: Event, id: Id)
    requires !FromOutside(e) && id in s.runs && id in Own(s, t, e).state.runs
    ensures Moves(s.runs[id], Own(s, t, e).state.runs[id], id)
  {
    hide Own, Moves;
    if OfRound(e) { RoundMoves(s, t, e, id); } else { PlainMoves(s, t, e, id); }
  }

  /** The runs after a step from outside. */
  ghost predicate RunsMove(w: World, next: World) {
    && w.used <= next.used
    && forall id <- next.state.runs ::
         if id in w.state.runs then Moves(w.state.runs[id], next.state.runs[id], id)
         else id !in w.used && next.state.runs[id].toolCalls == [] && next.state.runs[id].calls == []
  }

  lemma SetMoves(w: World, e: Event)
    requires e.RefuseAll? || e.StopRun? || e.WorkspaceChanged?
    ensures RunsMove(w, Next(w, e))
  {
    hide Handed;
  }

  lemma PromptMoves(w: World, e: Event)
    requires e.PromptAnswered?
    ensures RunsMove(w, Next(w, e))
  {
    hide Handed;
  }

  lemma SendMoves(w: World, e: Event)
    requires Sound(w) && e.Send? && Enabled(w, e)
    ensures RunsMove(w, Next(w, e))
  {
    assert w.state.runs.Keys <= w.used;
    hide Handed, Sound;
    forall id <- w.state.runs { SameMoves(w.state.runs[id], id); }
  }

  lemma HandMoves(w: World, e: Event)
    requires e.Results? || e.HandOver? || e.Consent?
    ensures RunsMove(w, Next(w, e))
  {
  }

  lemma PluginMoves(w: World, e: Event)
    requires e.PluginGone? && Enabled(w, e)
    ensures RunsMove(w, Next(w, e))
  {
    forall id <- w.state.runs { PluginMove(w.state, e.plugin, e.orphans, id); }
    hide PluginDisabled, Moves;
  }

  lemma PluginMove(s: State, plugin: Id, orphans: seq<Id>, id: Id)
    requires id in s.runs
    ensures var next := PluginDisabled(s, plugin, orphans).runs; id in next && Moves(s.runs[id], next[id], id)
  {
  }

  lemma OutsideMoves(w: World, e: Event)
    requires Sound(w) && FromOutside(e) && Enabled(w, e)
    ensures RunsMove(w, Next(w, e))
  {
    hide Next, Enabled, RunsMove, Sound;
    match e
    case Send(_, _, _, _, _, _) => SendMoves(w, e);
    case Results(_, _) => HandMoves(w, e);
    case HandOver(_, _) => HandMoves(w, e);
    case Consent(_, _) => HandMoves(w, e);
    case PluginGone(_, _, _) => PluginMoves(w, e);
    case PromptAnswered(_, _, _) => PromptMoves(w, e);
    case _ => SetMoves(w, e);
  }

  // ----- steps from outside -----

  lemma NothingCalled(log: seq<Action>, more: seq<Action>)
    requires more == log || (|more| == |log| + 1 && more[..|log|] == log && !more[|log|].Called?)
    ensures forall a: Action | a.Called? :: a in more <==> a in log
    ensures CallsOnce(log) ==> CallsOnce(more)
  {
    if more != log {
      assert more == log + [more[|log|]];
    }
  }

  lemma OutsideThread(w: World, next: World, t: Thread)
    requires ArrivalsSound(w) && RunsMove(w, next) && LeavesRounds(w, next) && t in next.threads
    ensures Pristine(next.state, next.log, t)
  {
    NothingCalled(w.log, next.log);
    if t in w.threads {
      assert Pristine(w.state, w.log, t);
    } else if t.RoundStarting? && t.id in next.state.runs {
      assert Waiting(w.log, w.state.runs[t.id]);
    }
  }

  lemma OutsideRun(w: World, next: World, id: Id)
    requires ArrivalsSound(w) && RunsMove(w, next) && LeavesRounds(w, next) && id in next.state.runs
    ensures RunArrivals(next.state.runs[id], id) && Waiting(next.log, next.state.runs[id])
  {
    NothingCalled(w.log, next.log);
    hide LeavesRounds, CallsOnce, Pristine;
    if id in w.state.runs {
      MovesInOrder(w.state.runs[id], next.state.runs[id], id);
      MovesWaiting(w, w.state.runs[id], next.state.runs[id], id);
      hide Moves, InOrder;
    }
  }

  lemma OutsideArrived(w: World, next: World, a: Action)
    requires ArrivalsSound(w) && RunsMove(w, next) && a in w.log && a.Called?
    ensures Arrived(next, a)
  {
    hide CallsOnce, Pristine, Waiting;
    if a.run in next.state.runs && a.run in w.state.runs {
      MovesInOrder(w.state.runs[a.run], next.state.runs[a.run], a.run);
    }
  }

  lemma OutsideSound(w: World, next: World)
    requires ArrivalsSound(w) && RunsMove(w, next) && LeavesRounds(w, next)
    ensures ArrivalsSound(next)
  {
    NothingCalled(w.log, next.log);
    forall t <- next.threads { OutsideThread(w, next, t); }
    forall id <- next.state.runs { OutsideRun(w, next, id); }
    forall a <- next.log | a.Called? { OutsideArrived(w, next, a); }
    hide RunsMove, LeavesRounds, Pristine, RunArrivals, Waiting, Arrived, CallsOnce;
  }

  // ----- a thread's own steps -----

  /** A call that reaches its plugin was the thread's to run, and had not reached it. */
  lemma CalledFresh(w: World, t: Thread, a: Action)
    requires ArrivalsSound(w) && t in w.threads && t.Rounding? && t.phase.Calling? && t.index < |t.calls|
    requires a.Called? && a.run == t.id && a.call == t.calls[t.index].call
    ensures CallsOnce(w.log + [a]) && a.call.arrival.run == t.id
    ensures Pristine(w.state, w.log, t) ==> Pristine(w.state, w.log + [a], t.(phase := Writing))
  {
    assert Pristine(w.state, w.log, t);
    var more := w.log + [a];
    forall i, j | 0 <= i < j < |more| && more[i].Called? && more[j].Called?
      ensures more[i].call.arrival != more[j].call.arrival
    {
      assert more[i] == w.log[i] && w.log[i] in w.log;
    }
  }

  /** A run whose call reaches its plugin has had its calls handed over, and it counts that
      call among those that arrived. */
  lemma CalledRun(w: World, t: Thread)
    requires ToolsSound(w) && ArrivalsSound(w) && t in w.threads && t.Rounding? && t.index < |t.calls| && t.id in w.state.runs
    ensures w.state.runs[t.id].calls != []
    ensures t.calls[t.index].call.arrival.number < w.state.runs[t.id].arrived
  {
    hide LogSound, RoundsDiffer, CallsSound, Pristine, Waiting, CallsOnce, Arrived;
    assert ThreadSound(w.state, w.log, t) && RunArrivals(w.state.runs[t.id], t.id);
    assert CallsOf(w.state.runs[t.id].calls)[t.index] == t.calls[t.index].call;
  }

  lemma OwnThread(w: World, e: Event, k: nat)
    requires Sound(w) && ArrivalsSound(w) && ToolsSound(w) && !FromOutside(e) && e.thread < |w.threads| && k < |w.threads|
    ensures Pristine(Next(w, e).state, Next(w, e).log, Next(w, e).threads[k])
  {
    var i, t := e.thread, w.threads[e.thread];
    OwnIs(w, e);
    OwnKeeps(w.state, t, e);
    if k == i {
      OwnThreadSelf(w, t, Own(w.state, t, e));
    } else {
      if t.Holds().Some? { assert HeldBy(w.threads, i, t.id); }
      OwnEffects(w.state, t, e);
      OwnThreadOther(w, i, k, Own(w.state, t, e));
    }
    hide Own, Next, Pristine, Sound, ArrivalsSound, ToolsSound, KeepsRounds, OwnEffect;
  }

  lemma OwnThreadOther(w: World, i: nat, k: nat, section: Section)
    requires Apart(w) && ArrivalsSound(w) && i < |w.threads| && k < |w.threads| && k != i
    requires OwnEffect(w.state, w.threads[i], section) && KeepsRounds(w.state, w.threads[i], section)
    ensures Pristine(section.state, w.log + section.done, w.threads[k])
  {
    hide Waiting, Arrived, CallsOnce, NoneRevived, Asked, Fits;
    var t, u := w.threads[i], w.threads[k];
    assert u in w.threads && Pristine(w.state, w.log, u) && t in w.threads && Pristine(w.state, w.log, t);
    assert u.Holds().Some? ==> HeldBy(w.threads, k, u.id);
    assert t.Holds().Some? ==> HeldBy(w.threads, i, t.id);
    assert u.Holds().Some? ==> t.Holds() != u.Holds();
    assert u.RoundStarting? && u.id in w.state.runs ==>
      section.state.runs[u.id] == w.state.runs[u.id] && RunArrivals(w.state.runs[u.id], u.id);
    forall a | a in section.done && a.Called? ensures a.call.arrival.run == t.id && t.Holds() == Some(t.id) {}
  }

  lemma OwnThreadSelf(w: World, t: Thread, section: Section)
    requires ArrivalsSound(w) && t in w.threads && KeepsRounds(w.state, t, section)
    ensures Pristine(section.state, w.log + section.done, section.thread)
  {
    assert Pristine(w.state, w.log, t);
  }

  lemma OwnRun(w: World, e: Event, id: Id)
    requires Sound(w) && ArrivalsSound(w) && ToolsSound(w) && !FromOutside(e) && e.thread < |w.threads|
    requires id in w.state.runs
    ensures var next := Next(w, e);
      id in next.state.runs ==> RunArrivals(next.state.runs[id], id) && Waiting(next.log, next.state.runs[id])
  {
    hide Sound, ToolsSound, ArrivalsSound, Own, Next, RunArrivals, Waiting, Moves, KeepsRounds;
    var t := w.threads[e.thread];
    OwnIs(w, e);
    OwnKeeps(w.state, t, e);
    if id in Own(w.state, t, e).state.runs {
      OwnMoves(w.state, t, e, id);
      OwnRunMoves(w, t, Own(w.state, t, e), id);
    }
  }

  lemma OwnRunMoves(w: World, t: Thread, section: Section, id: Id)
    requires ArrivalsSound(w) && ToolsSound(w) && t in w.threads && KeepsRounds(w.state, t, section)
    requires id in w.state.runs && id in section.state.runs && Moves(w.state.runs[id], section.state.runs[id], id)
    ensures RunArrivals(section.state.runs[id], id) && Waiting(w.log + section.done, section.state.runs[id])
  {
    assert RunArrivals(w.state.runs[id], id) && Waiting(w.log, w.state.runs[id]);
    MovesInOrder(w.state.runs[id], section.state.runs[id], id);
    MovesWaiting(w, w.state.runs[id], section.state.runs[id], id);
    if section.done != [] && section.done[0].Called? {
      CalledWaiting(w, t, section, id);
    } else {
      assert forall a <- section.done :: a == section.done[0];
      hide ArrivalsSound, ToolsSound, KeepsRounds, RunArrivals, Waiting, Moves;
      StillWaiting(w.log, section.done, section.state.runs[id]);
    }
  }

  lemma StillWaiting(log: seq<Action>, done: seq<Action>, run: Run)
    requires Waiting(log, run) && forall a <- done :: !a.Called?
    ensures Waiting(log + done, run)
  {
  }

  lemma CalledWaiting(w: World, t: Thread, section: Section, id: Id)
    requires ArrivalsSound(w) && ToolsSound(w) && t in w.threads && KeepsRounds(w.state, t, section)
    requires section.done != [] && section.done[0].Called? && id in w.state.runs
    ensures id in section.state.runs && Waiting(w.log + section.done, section.state.runs[id])
  {
    var a := section.done[0];
    assert a in section.done && section.done == [a] && section.state == w.state;
    assert Waiting(w.log, w.state.runs[id]) && RunArrivals(w.state.runs[id], id) && Pristine(w.state, w.log, t);
    if t.id == id { CalledRun(w, t); }
    hide ToolsSound, ArrivalsSound, KeepsRounds;
  }

  lemma OwnLog(w: World, e: Event)
    requires Sound(w) && ArrivalsSound(w) && ToolsSound(w) && !FromOutside(e) && e.thread < |w.threads|
    ensures CallsOnce(Next(w, e).log) && forall a <- Next(w, e).log | a.Called? :: Arrived(Next(w, e), a)
  {
    var t := w.threads[e.thread];
    assert t in w.threads;
    if t.Holds().Some? { assert HeldBy(w.threads, e.thread, t.id) && t.id in w.used; }
    OwnIs(w, e);
    OwnKeeps(w.state, t, e);
    var section, next := Own(w.state, t, e), Next(w, e);
    forall id | id in w.state.runs && id in section.state.runs ensures section.state.runs[id].arrived >= w.state.runs[id].arrived {
      OwnMoves(w.state, t, e, id);
      MovesInOrder(w.state.runs[id], section.state.runs[id], id);
    }
    OwnEffects(w.state, t, e);
    hide Sound, Own, Next, Waiting, RunArrivals, Moves, Pristine, NoneRevived, Asked, Fits;
    LogGrowsOnce(w, t, section);
    forall a <- next.log | a.Called? ensures Arrived(next, a) {
      assert a in w.log || a in section.done;
    }
  }

  lemma LogGrowsOnce(w: World, t: Thread, section: Section)
    requires ArrivalsSound(w) && ToolsSound(w) && t in w.threads && KeepsRounds(w.state, t, section)
    ensures CallsOnce(w.log + section.done)
    ensures forall a <- section.done | a.Called? ::
      && a.run == t.id && a.call.arrival.run == t.id && t.Rounding?
      && (t.id in section.state.runs ==> a.call.arrival.number < section.state.runs[t.id].arrived)
  {
    if section.done == [] {
      assert w.log + section.done == w.log;
    } else {
      var a := section.done[0];
      assert a in section.done && section.done == [a];
      if a.Called? {
        CalledFresh(w, t, a);
        if t.id in w.state.runs { CalledRun(w, t); }
      } else {
        NothingCalled(w.log, w.log + section.done);
      }
      hide ToolsSound, ArrivalsSound, KeepsRounds, CallsOnce;
    }
  }

  lemma OwnArrivals(w: World, e: Event)
    requires Sound(w) && ArrivalsSound(w) && ToolsSound(w) && !FromOutside(e) && e.thread < |w.threads|
    ensures ArrivalsSound(Next(w, e))
  {
    var t, next := w.threads[e.thread], Next(w, e);
    OwnLog(w, e);
    forall id <- w.state.runs { OwnRun(w, e, id); }
    forall k: nat | k < |w.threads| { OwnThread(w, e, k); }
    OwnIs(w, e);
    assert Asked(w.state);
    if t.Holds().Some? { assert HeldBy(w.threads, e.thread, t.id); }
    OwnEffects(w.state, t, e);
    hide Sound, ToolsSound, Own, Next, RunArrivals, Waiting, Pristine, CallsOnce, Arrived;
    assert |next.threads| == |w.threads| && next.state.runs.Keys == w.state.runs.Keys;
    forall u <- next.threads ensures Pristine(next.state, next.log, u) {
      var k :| 0 <= k < |next.threads| && next.threads[k] == u;
    }
  }

  // ----- over whole runs -----

  lemma NextArrivals(w: World, e: Event)
    requires Sound(w) && ToolsSound(w) && ArrivalsSound(w) && Enabled(w, e)
    ensures ArrivalsSound(Next(w, e))
  {
    hide Sound, ToolsSound, ArrivalsSound, Enabled, RunsMove, LeavesRounds;
    if FromOutside(e) {
      hide Next;
      OutsideMoves(w, e);
      OutsideLeaves(w, e);
      OutsideSound(w, Next(w, e));
    } else if e.thread < |w.threads| {
      hide Next;
      OwnArrivals(w, e);
    }
  }

  lemma {:induction false} RunArrivalsSound(events: seq<Event>)
    requires AllEnabled(QUIET, events)
    ensures ArrivalsSound(After(QUIET, events))
  {
    hide Next, Enabled;
    if events != [] {
      var n := |events| - 1;
      EnabledPrefix(QUIET, events, n);
      RunArrivalsSound(events[..n]);
      RunSound(events[..n]);
      RunToolsSound(events[..n]);
      hide ToolsSound, Sound, ArrivalsSound;
      NextArrivals(After(QUIET, events[..n]), events[n]);
    }
  }

  /** However lock sections interleave: a call that arrived in a run's stream reaches its
      plugin at most once, whatever is handed over, stopped or turned off; and only after an
      answer that allowed that call of that run, when the run offered its tool. */
  lemma CalledOnceAllowed(events: seq<Event>, j: nat)
    requires AllEnabled(QUIET, events)
    requires j < |After(QUIET, events).log| && After(QUIET, events).log[j].Called?
    ensures var log := After(QUIET, events).log;
      && (forall i | 0 <= i < |log| && log[i].Called? && log[i].call.arrival == log[j].call.arrival :: i == j)
      && log[j].call.arrival.run == log[j].run
      && Allowed(log[j].run, log[j].round, log[j].index, log[j].call.id) in log[..j]
      && log[j].call.name in log[j].tools
  {
    hide After, ThreadSound, CallsSound, RoundsDiffer, Pristine, RunArrivals, Waiting;
    RunToolsSound(events);
    RunArrivalsSound(events);
    var log := After(QUIET, events).log;
    assert log[j] in log;
  }
}
