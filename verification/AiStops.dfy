/** After a stop, or once a plugin went, no further call of the run reaches its plugin. */
module AiStops {
  import opened Wrappers
  import opened AiRuns
  import opened AiThreads
  import opened AiTheorems
  import opened AiTools

  /** A run that stopped, lost a plugin or is gone. */
  predicate Flagged(s: State, id: Id) {
    id in s.runs ==> s.runs[id].interrupted || s.runs[id].stopRequested
  }

  /** The same calls, with any answers. */
  predicate CallsAlike(calls: seq<Pending>, next: seq<Pending>) {
    |next| == |calls| && forall i | 0 <= i < |calls| :: next[i].call == calls[i].call
  }

  /** A run's calls as they are handed over: all that arrived, in order. */
  predicate Handed(run: Run, next: Run) {
    && run.calls == [] && next.toolCalls == run.toolCalls && next.arrived == run.arrived
    && |next.calls| == |run.toolCalls|
    && forall i | 0 <= i < |run.toolCalls| :: next.calls[i].call == run.toolCalls[i]
  }

  /** A thread that goes on in its round: it moves to the next call only once the result of
      this one is due, and decides nothing new for a run that is flagged. */
  predicate GoesOn(s: State, t: Thread, u: Thread)
    requires t.Rounding? && u.Rounding?
  {
    && u.id == t.id && u.round == t.round && u.calls == t.calls
    && (u.phase.Calling? ==> u.index == t.index && (t.phase.Calling? || !Flagged(s, t.id)))
    && ((u.index == t.index && (t.phase.Writing? ==> u.phase.Writing?)) || (u.index == t.index + 1 && t.phase.Writing?))
  }

  /** What a thread's own section may do about rounds. */
  ghost predicate KeepsRounds(s: State, t: Thread, section: Section) {
    var u := section.thread;
    && (u.Rounding? ==>
          || (t.Rounding? && GoesOn(s, t, u))
          || (t.RoundStarting? && t.id in s.runs && section.state == s && u.id == t.id && u.round == s.runs[t.id].round
              && u.calls == s.runs[t.id].calls && u.index == 0 && u.phase.Deciding?))
    && (u.RoundStarting? ==> u == t && section.state == s)
    && |section.done| <= 1
    && (forall a <- section.done | a.Called? ::
          && t.Rounding? && t.phase.Calling? && t.index < |t.calls| && a.run == t.id && a.round == t.round
          && a.index == t.index && a.call == t.calls[t.index].call && u == t.(phase := Writing) && section.state == s)
    && section.state.rounds == s.rounds
  }

  /** A look at a call of a run that stopped never lets it go. */
  lemma FlaggedWaits(s: State, t: Thread)
    requires t.Rounding? && t.phase.Deciding? && t.index < |t.calls|
    ensures Flagged(s, t.id) ==> !Decide(s, t.id, t.index, t.calls[t.index], t.phase.announced).Go?
  {
  }

  lemma RoundKeeps(s: State, t: Thread, e: Event)
    ensures KeepsRounds(s, t, OwnRound(s, t, e))
  {
    hide Decide;
    if t.Rounding? && t.phase.Deciding? && t.index < |t.calls| { FlaggedWaits(s, t); }
  }

  lemma PlainKeeps(s: State, t: Thread, e: Event)
    requires !OfRound(e) && !FromOutside(e)
    ensures KeepsRounds(s, t, Own(s, t, e))
  {
    hide OwnRound, HowEnded;
  }

  lemma OwnKeeps(s: State, t: Thread, e: Event)
    requires !FromOutside(e)
    ensures KeepsRounds(s, t, Own(s, t, e))
  {
    hide OwnRound, KeepsRounds, Own;
    if OfRound(e) {
      RoundIs(s, t, e);
      RoundKeeps(s, t, e);
    } else {
      PlainKeeps(s, t, e);
    }
  }

  /** What a step from outside may do about rounds. */
  ghost predicate LeavesRounds(w: World, next: World) {
    && next.state.rounds >= w.state.rounds
    && (forall t <- next.threads | t.Rounding? :: t in w.threads)
    && (forall t <- next.threads | t.RoundStarting? && t !in w.threads && t.id in next.state.runs ::
          && next.state.runs[t.id].round >= w.state.rounds
          && t.id in w.state.runs && Handed(w.state.runs[t.id], next.state.runs[t.id]))
    && (forall t <- w.threads | (t.Rounding? || t.RoundStarting?) && t.id in next.state.runs ::
          && t.id in w.state.runs && next.state.runs[t.id].round == w.state.runs[t.id].round
          && CallsAlike(w.state.runs[t.id].calls, next.state.runs[t.id].calls))
    && (next.log == w.log || (|next.log| == |w.log| + 1 && next.log[..|w.log|] == w.log && !next.log[|w.log|].Called?))
  }

  lemma SetLeaves(w: World, e: Event)
    requires e.RefuseAll? || e.StopRun? || e.WorkspaceChanged?
    ensures LeavesRounds(w, Next(w, e))
  {
  }

  lemma PromptLeaves(w: World, e: Event)
    requires e.PromptAnswered?
    ensures LeavesRounds(w, Next(w, e))
  {
  }

  lemma ConsentLeaves(w: World, e: Event)
    requires e.Consent?
    ensures LeavesRounds(w, Next(w, e))
  {
    StartingJoins(w, e.ready);
  }

  lemma ResultsLeaves(w: World, e: Event)
    requires Sound(w) && e.Results?
    ensures LeavesRounds(w, Next(w, e))
  {
    if HasCalls(w.state, e.id) {
      NotHeld(w, e.id);
      hide Sound;
      JoinedAside(w, Next(w, e), Preparing(e.id, e.tools));
    }
  }

  lemma SendLeaves(w: World, e: Event)
    requires Sound(w) && e.Send? && Enabled(w, e)
    ensures LeavesRounds(w, Next(w, e))
  {
    if Next(w, e) != w {
      JoinedAside(w, Next(w, e), Beginning(e.id));
      forall t <- w.threads | t.Holds().Some? ensures t.id != e.id {
        var i :| 0 <= i < |w.threads| && w.threads[i] == t;
        assert HeldBy(w.threads, i, t.id);
      }
      hide Sound;
    }
  }

  lemma HandOverLeaves(w: World, e: Event)
    requires Sound(w) && e.HandOver?
    ensures LeavesRounds(w, Next(w, e))
  {
    if HasCalls(w.state, e.id) {
      NotHeld(w, e.id);
      hide Sound;
    }
  }

  lemma PluginCalls(s: State, plugin: Id, orphans: seq<Id>, id: Id)
    requires Lists(orphans, Orphaned(s, plugin)) && id in s.runs
    ensures var next := PluginDisabled(s, plugin, orphans);
      && id in next.runs
      && (id in Orphaned(s, plugin) ==> Handed(s.runs[id], next.runs[id]) && next.runs[id].round >= s.rounds)
      && (id !in Orphaned(s, plugin) ==>
            CallsAlike(s.runs[id].calls, next.runs[id].calls) && next.runs[id].round == s.runs[id].round)
  {
  }

  lemma PluginStarts(w: World, e: Event)
    requires Sound(w) && e.PluginGone? && Enabled(w, e)
    ensures forall t <- Next(w, e).threads | t !in w.threads :: t.RoundStarting? && t.id in Orphaned(w.state, e.plugin)
  {
    PluginIs(w, e);
    hide Next, Enabled, Sound, Orphaned;
    forall t <- Next(w, e).threads | t !in w.threads ensures t.RoundStarting? && t.id in Orphaned(w.state, e.plugin) {
      assert t in Orphans(e.orphans);
    }
  }

  lemma PluginLeaves(w: World, e: Event)
    requires Sound(w) && e.PluginGone? && Enabled(w, e)
    ensures LeavesRounds(w, Next(w, e))
  {
    var s := w.state;
    PluginIs(w, e);
    PluginStarts(w, e);
    hide Sound, Next, Enabled, Lists, Orphaned;
    forall id <- s.runs { PluginCalls(s, e.plugin, e.orphans, id); }
    hide Handed, CallsAlike;
    assert PluginDisabled(s, e.plugin, e.orphans).runs.Keys == s.runs.Keys;
    hide PluginDisabled;
  }

  lemma OutsideLeaves(w: World, e: Event)
    requires Sound(w) && FromOutside(e) && Enabled(w, e)
    ensures LeavesRounds(w, Next(w, e))
  {
    hide Sound, Next, Enabled, LeavesRounds;
    match e
    case Send(_, _, _, _, _, _) => SendLeaves(w, e);
    case Results(_, _) => ResultsLeaves(w, e);
    case Consent(_, _) => ConsentLeaves(w, e);
    case HandOver(_, _) => HandOverLeaves(w, e);
    case PluginGone(_, _, _) => PluginLeaves(w, e);
    case PromptAnswered(_, _, _) => PromptLeaves(w, e);
    case _ => SetLeaves(w, e);
  }

  // ----- a run that calls no more -----

  /** A run that ended, lost a plugin, or stopped while its calls are settled. */
  predicate Halted(run: Run) {
    run.interrupted || (run.status == WaitingForApproval && run.stopRequested) || !run.Live()
  }

  /** A run whose answer is about to end, and leaves no calls to hand over. */
  ghost predicate Closing(w: World, id: Id)
    requires id in w.state.runs
  {
    && w.state.runs[id].status == Streaming
    && forall t <- w.threads | t.Holds() == Some(id) ::
         t.Failing? || (t.Ending? && (!t.ended.AsCompleted? || w.state.runs[id].toolCalls == []))
  }

  ghost predicate Over(w: World, id: Id) {
    id in w.used && (id in w.state.runs ==> Halted(w.state.runs[id]) || Closing(w, id))
  }

  /** A thread is running this call of the run in its plugin. */
  ghost predicate OnItsWay(threads: seq<Thread>, id: Id, round: nat, index: nat) {
    exists t <- threads :: t.Rounding? && t.id == id && t.phase.Calling? && t.round == round && t.index == index
  }

  /** The run is over, and its calls that are on their way were so among `begun`. */
  ghost predicate Quelled(w: World, id: Id, begun: seq<Thread>) {
    && Over(w, id)
    && forall t <- w.threads | t.Rounding? && t.id == id && t.phase.Calling? :: OnItsWay(begun, id, t.round, t.index)
  }

  /** What `more` has beyond `log` holds no call of the run but one that was on its way. */
  ghost predicate NoneNew(log: seq<Action>, more: seq<Action>, id: Id, begun: seq<Thread>) {
    && log <= more
    && forall j | |log| <= j < |more| && more[j].Called? && more[j].run == id ::
         OnItsWay(begun, id, more[j].round, more[j].index)
  }

  // ----- its own steps -----

  lemma HaltedStays(s: State, t: Thread, e: Event, id: Id)
    requires !FromOutside(e) && t.Holds() == Some(id) && id in s.runs && Fits(s.runs[id], t)
    requires s.runs[id].interrupted || (s.runs[id].status == WaitingForApproval && s.runs[id].stopRequested)
    ensures id in Own(s, t, e).state.runs && Halted(Own(s, t, e).state.runs[id])
  {
    hide Decide, HowEnded;
  }

  lemma ClosingEnds(s: State, t: Thread, e: Event, id: Id)
    requires !FromOutside(e) && t.Holds() == Some(id) && id in s.runs && s.runs[id].status == Streaming
    requires t.Failing? || (t.Ending? && (!t.ended.AsCompleted? || s.runs[id].toolCalls == []))
    ensures var section := Own(s, t, e);
      id in section.state.runs && (section == Move(s, t) || !section.state.runs[id].Live())
  {
    hide OwnRound;
    if OfRound(e) {
      RoundIs(s, t, e);
      ClosingApart(s, t, e);
    }
  }

  lemma ClosingApart(s: State, t: Thread, e: Event)
    requires OfRound(e) && (t.Failing? || t.Ending?)
    ensures OwnRound(s, t, e) == Move(s, t)
  {
  }

  lemma OwnOver(w: World, e: Event, id: Id)
    requires Sound(w) && Over(w, id) && !FromOutside(e) && e.thread < |w.threads|
    ensures Over(Next(w, e), id)
  {
    var i, t := e.thread, w.threads[e.thread];
    assert t in w.threads;
    assert t.Holds().Some? ==> HeldBy(w.threads, i, t.id);
    OwnIs(w, e);
    OwnEffects(w.state, t, e);
    var section := Own(w.state, t, e);
    hide Own, Next, Queued, OneLive, Asked, OwnEffect;
    if id in w.state.runs && t.Holds() == Some(id) {
      SectionOver(w, e, id);
    } else {
      OthersOver(w, i, section, Next(w, e), id);
    }
  }

  /** A thread's section leaves a run it does not hold as it was. */
  lemma OthersOver(w: World, i: nat, section: Section, next: World, id: Id)
    requires Over(w, id) && i < |w.threads| && OwnEffect(w.state, w.threads[i], section)
    requires id in w.state.runs ==> w.threads[i].Holds() != Some(id)
    requires next.state == section.state && next.threads == w.threads[i := section.thread] && next.used == w.used
    ensures Over(next, id)
  {
    hide NoneRevived, Asked, Fits;
  }

  /** A thread's section about its own run. */
  lemma SectionOver(w: World, e: Event, id: Id)
    requires Apart(w) && Placed(w) && Asked(w.state) && Over(w, id) && id in w.state.runs
    requires !FromOutside(e) && e.thread < |w.threads| && w.threads[e.thread].Holds() == Some(id)
    ensures Over(Next(w, e), id)
  {
    var t := w.threads[e.thread];
    assert HeldBy(w.threads, e.thread, id) && t in w.threads;
    OwnIs(w, e);
    OwnEffects(w.state, t, e);
    hide Own, Next, Apart, Placed, Asked, Fits, HeldBy;
    var run := w.state.runs[id];
    if !run.Live() {
    } else if Halted(run) {
      HaltedStays(w.state, t, e, id);
    } else {
      ClosingEnds(w.state, t, e, id);
    }
  }

  lemma OwnQuelled(w: World, e: Event, id: Id, begun: seq<Thread>)
    requires Sound(w) && Quelled(w, id, begun) && !FromOutside(e) && e.thread < |w.threads|
    ensures Quelled(Next(w, e), id, begun) && NoneNew(w.log, Next(w, e).log, id, begun)
  {
    var i, t := e.thread, w.threads[e.thread];
    assert t in w.threads;
    assert t.Holds().Some? && t.id in w.state.runs ==> Fits(w.state.runs[t.id], t) by {
      if t.Holds().Some? { assert HeldBy(w.threads, i, t.id); }
    }
    OwnOver(w, e, id);
    OwnIs(w, e);
    OwnKeeps(w.state, t, e);
    hide Own, Next, Sound, OnItsWay;
    var section, next := Own(w.state, t, e), Next(w, e);
    assert t.Rounding? && t.id == id ==> Flagged(w.state, id);
    hide Over;
    forall u <- next.threads | u.Rounding? && u.id == id && u.phase.Calling? ensures OnItsWay(begun, id, u.round, u.index) {
      assert u in w.threads || u == section.thread;
    }
    assert next.log[|w.log|..] == section.done;
  }

  // ----- steps from outside -----

  /** The run after a step from outside. */
  ghost predicate StaysOver(w: World, next: World, id: Id) {
    && w.used <= next.used
    && (id in next.state.runs ==> id in w.state.runs && (Halted(next.state.runs[id]) || Closing(next, id)))
  }

  lemma SetOver(w: World, e: Event, id: Id)
    requires Sound(w) && Over(w, id) && (e.RefuseAll? || e.StopRun? || e.WorkspaceChanged?)
    ensures StaysOver(w, Next(w, e), id)
  {
    hide Apart, Placed, Known, OneLive, Asked;
  }

  lemma PromptOver(w: World, e: Event, id: Id)
    requires Over(w, id) && e.PromptAnswered?
    ensures StaysOver(w, Next(w, e), id)
  {
  }

  lemma SendOver(w: World, e: Event, id: Id)
    requires Over(w, id) && e.Send? && Enabled(w, e)
    ensures StaysOver(w, Next(w, e), id)
  {
  }

  lemma ResultsOver(w: World, e: Event, id: Id)
    requires Over(w, id) && (e.Results? || e.HandOver?)
    ensures StaysOver(w, Next(w, e), id)
  {
  }

  lemma ConsentOver(w: World, e: Event, id: Id)
    requires Sound(w) && Over(w, id) && e.Consent? && Enabled(w, e)
    ensures StaysOver(w, Next(w, e), id)
  {
    hide Apart, Placed, Known, OneLive, Asked;
    forall t <- Starting(e.ready) ensures t.id in WaitFor(w.state, e.provider) {
      assert t.id in e.ready;
    }
  }

  lemma PluginOver(w: World, e: Event, id: Id)
    requires Sound(w) && Over(w, id) && e.PluginGone? && Enabled(w, e)
    ensures StaysOver(w, Next(w, e), id)
  {
    PluginIs(w, e);
    PluginStarts(w, e);
    if id in w.state.runs { PluginHalts(w.state, e.plugin, e.orphans, id); }
    hide Sound, Next, Enabled, Lists, PluginDisabled;
  }

  /** A run the plugin's end concerns is halted, and any other stays as it was. */
  lemma PluginHalts(s: State, plugin: Id, orphans: seq<Id>, id: Id)
    requires id in s.runs
    ensures var next := PluginDisabled(s, plugin, orphans);
      && id in next.runs && (if s.runs[id].ReliesOn(plugin) then Halted(next.runs[id]) else next.runs[id] == s.runs[id])
  {
  }

  lemma OutsideOver(w: World, e: Event, id: Id)
    requires Sound(w) && Over(w, id) && FromOutside(e) && Enabled(w, e)
    ensures Over(Next(w, e), id)
  {
    hide Sound, Next, Enabled, Halted, Closing;
    match e
    case Send(_, _, _, _, _, _) => SendOver(w, e, id);
    case Results(_, _) => ResultsOver(w, e, id);
    case HandOver(_, _) => ResultsOver(w, e, id);
    case Consent(_, _) => ConsentOver(w, e, id);
    case PluginGone(_, _, _) => PluginOver(w, e, id);
    case PromptAnswered(_, _, _) => PromptOver(w, e, id);
    case _ => SetOver(w, e, id);
  }

  lemma OutsideQuelled(w: World, next: World, id: Id, begun: seq<Thread>)
    requires Quelled(w, id, begun) && Over(next, id) && LeavesRounds(w, next)
    ensures Quelled(next, id, begun) && NoneNew(w.log, next.log, id, begun)
  {
    hide Over, OnItsWay;
  }

  lemma NextQuelled(w: World, e: Event, id: Id, begun: seq<Thread>)
    requires Sound(w) && Enabled(w, e) && Quelled(w, id, begun)
    ensures Quelled(Next(w, e), id, begun) && NoneNew(w.log, Next(w, e).log, id, begun)
  {
    hide Sound, LeavesRounds, NoneNew, Enabled, Over, OnItsWay;
    if FromOutside(e) {
      OutsideLeaves(w, e);
      OutsideOver(w, e, id);
      hide Next;
      OutsideQuelled(w, Next(w, e), id, begun);
    } else if e.thread < |w.threads| {
      hide Next;
      OwnQuelled(w, e, id, begun);
    } else {
      NoneStays(w.log, id, begun);
    }
  }

  lemma NoneStays(log: seq<Action>, id: Id, begun: seq<Thread>)
    ensures NoneNew(log, log, id, begun)
  {
  }

  lemma NoneNewTwice(log: seq<Action>, later: seq<Action>, more: seq<Action>, id: Id, begun: seq<Thread>)
    requires NoneNew(log, later, id, begun) && NoneNew(later, more, id, begun)
    ensures NoneNew(log, more, id, begun)
  {
    hide OnItsWay;
  }

  // ----- every run -----

  lemma RunLast(w: World, events: seq<Event>)
    requires events != []
    ensures After(w, events) == Next(After(w, events[..|events| - 1]), events[|events| - 1])
  {
    hide Next;
  }

  lemma {:induction false} RunQuelled(events: seq<Event>, more: seq<Event>, id: Id, begun: seq<Thread>)
    requires AllEnabled(QUIET, events + more) && Quelled(After(QUIET, events), id, begun)
    ensures Quelled(After(QUIET, events + more), id, begun)
    ensures NoneNew(After(QUIET, events).log, After(QUIET, events + more).log, id, begun)
    decreases |more|
  {
    hide Next, Enabled, Quelled, NoneNew;
    if more == [] {
      assert events + more == events;
      NoneStays(After(QUIET, events).log, id, begun);
    } else {
      var n := |more| - 1;
      var all := events + more;
      assert all[..|all| - 1] == events + more[..n] && all[|all| - 1] == more[n];
      EnabledPrefix(QUIET, all, |all| - 1);
      RunLast(QUIET, all);
      hide After, AllEnabled, Sound;
      RunQuelled(events, more[..n], id, begun);
      RunSound(events + more[..n]);
      NextQuelled(After(QUIET, events + more[..n]), more[n], id, begun);
      NoneNewTwice(After(QUIET, events).log, After(QUIET, events + more[..n]).log, After(QUIET, all).log, id, begun);
    }
  }

  lemma {:induction false} PrefixEnabled(events: seq<Event>, more: seq<Event>)
    requires AllEnabled(QUIET, events + more)
    ensures AllEnabled(QUIET, events)
    decreases |more|
  {
    hide Enabled, After;
    if more == [] {
      assert events + more == events;
    } else {
      var all := events + more;
      assert all[..|all| - 1] == events + more[..|more| - 1];
      EnabledPrefix(QUIET, all, |all| - 1);
      PrefixEnabled(events, more[..|more| - 1]);
    }
  }

  /** Whatever happens after these events, no call of the run reaches its plugin but one that
      was on its way. */
  ghost predicate Silenced(events: seq<Event>, id: Id) {
    forall more | AllEnabled(QUIET, events + more) ::
      NoneNew(After(QUIET, events).log, After(QUIET, events + more).log, id, After(QUIET, events).threads)
  }

  /** Once a run lost a plugin, stopped while its calls are settled, ended, is gone or is about
      to end without calls, no call of it reaches its plugin any more, whatever happens later,
      but the one that you allowed before and that is on its way. */
  lemma NothingRunsAfterStop(events: seq<Event>, id: Id)
    requires AllEnabled(QUIET, events) && Over(After(QUIET, events), id)
    ensures Silenced(events, id)
  {
    hide After, AllEnabled, Over, NoneNew;
    var w := After(QUIET, events);
    forall more | AllEnabled(QUIET, events + more) ensures NoneNew(w.log, After(QUIET, events + more).log, id, w.threads) {
      RunQuelled(events, more, id, w.threads);
    }
  }

  lemma PluginEnds(w: World, e: Event, id: Id)
    requires Sound(w) && e.PluginGone? && id in w.state.runs && w.state.runs[id].ReliesOn(e.plugin)
    ensures Over(Next(w, e), id)
  {
    PluginHalts(w.state, e.plugin, e.orphans, id);
    hide Apart, Placed, Queued, OneLive, Asked, Halted, PluginDisabled;
  }

  /** A plugin that is turned off: nothing of a run that it sent or whose tools it offered
      reaches any plugin, in whatever state the run was. */
  lemma NothingRunsAfterPlugin(events: seq<Event>, plugin: Id, orphans: seq<Id>, open: bool, id: Id)
    requires AllEnabled(QUIET, events + [PluginGone(plugin, orphans, open)])
    requires var s := After(QUIET, events).state; id in s.runs && s.runs[id].ReliesOn(plugin)
    ensures Silenced(events + [PluginGone(plugin, orphans, open)], id)
  {
    var e := PluginGone(plugin, orphans, open);
    var w, all := After(QUIET, events), events + [e];
    assert all[..|all| - 1] == events;
    RunLast(QUIET, all);
    PrefixEnabled(events, [e]);
    RunSound(events);
    hide Next, AllEnabled, After, Silenced, Sound, Over;
    PluginEnds(w, e, id);
    NothingRunsAfterStop(all, id);
  }
}
