/** An allowed call reaches the plugin that registered its tool when it was handed over. */
module AiTargets {
  import opened AiRuns
  import opened AiThreads
  import opened AiTheorems
  import opened AiTools
  import opened AiStops

  /** The event at `k` handed the calls of this round over, and the tools registered then
      had this target under the name. */
  ghost predicate OffersAt(events: seq<Event>, k: nat, id: Id, round: nat, name: string, target: Target) {
    && k < |events| && events[k].HandOver? && events[k].id == id
    && After(QUIET, events[..k]).state.rounds == round && HasCalls(After(QUIET, events[..k]).state, id)
    && name in events[k].offered && events[k].offered[name] == target
  }

  ghost predicate Offered(events: seq<Event>, id: Id, round: nat, name: string, target: Target) {
    exists k: nat :: OffersAt(events, k, id, round, name, target)
  }

  lemma OfferedStays(events: seq<Event>, e: Event, id: Id, round: nat, name: string, target: Target)
    requires Offered(events, id, round, name, target)
    ensures Offered(events + [e], id, round, name, target)
  {
    hide After;
    var k: nat :| OffersAt(events, k, id, round, name, target);
    assert (events + [e])[..k] == events[..k];
    assert OffersAt(events + [e], k, id, round, name, target);
  }

  // ----- where targets are -----

  ghost predicate CallsOffered(events: seq<Event>, id: Id, round: nat, calls: seq<Pending>) {
    forall i | 0 <= i < |calls| && calls[i].target.Some? ::
      Offered(events, id, round, calls[i].call.name, calls[i].target.value)
  }

  ghost predicate RunsOffered(events: seq<Event>, s: State) {
    forall id <- s.runs :: CallsOffered(events, id, s.runs[id].round, s.runs[id].calls)
  }

  ghost predicate ThreadsOffered(events: seq<Event>, threads: seq<Thread>) {
    forall t <- threads | t.Rounding? :: CallsOffered(events, t.id, t.round, t.calls)
  }

  ghost predicate LogOffered(events: seq<Event>, log: seq<Action>) {
    forall a <- log | a.Called? :: Offered(events, a.run, a.round, a.call.name, a.target)
  }

  ghost predicate AllOffered(events: seq<Event>, w: World) {
    RunsOffered(events, w.state) && ThreadsOffered(events, w.threads) && LogOffered(events, w.log)
  }

  lemma AllStays(events: seq<Event>, e: Event, w: World)
    requires AllOffered(events, w)
    ensures AllOffered(events + [e], w)
  {
    hide Offered;
    forall id, round, name, target | Offered(events, id, round, name, target) {
      OfferedStays(events, e, id, round, name, target);
    }
  }

  /** The same calls to the same targets in the same round, or none with a target. */
  predicate SameTargets(run: Run, next: Run) {
    || (forall i | 0 <= i < |next.calls| :: next.calls[i].target.None?)
    || (next.round == run.round && |next.calls| == |run.calls|
        && forall i | 0 <= i < |run.calls| :: next.calls[i].call == run.calls[i].call && next.calls[i].target == run.calls[i].target)
  }

  // ----- own steps -----

  lemma OwnTargets(s: State, t: Thread, e: Event, id: Id)
    requires !FromOutside(e) && id in s.runs && id in Own(s, t, e).state.runs
    ensures SameTargets(s.runs[id], Own(s, t, e).state.runs[id])
  {
    hide Own;
    if OfRound(e) { RoundTargets(s, t, e, id); } else { PlainTargets(s, t, e, id); }
  }

  lemma PlainTargets(s: State, t: Thread, e: Event, id: Id)
    requires !OfRound(e) && !FromOutside(e) && id in s.runs && id in Own(s, t, e).state.runs
    ensures SameTargets(s.runs[id], Own(s, t, e).state.runs[id])
  {
    hide OwnRound, HowEnded;
  }

  lemma RoundTargets(s: State, t: Thread, e: Event, id: Id)
    requires OfRound(e) && id in s.runs && id in Own(s, t, e).state.runs
    ensures SameTargets(s.runs[id], Own(s, t, e).state.runs[id])
  {
    hide Decide;
  }

  lemma CalledTarget(s: State, t: Thread, e: Event)
    requires !FromOutside(e)
    ensures forall a <- Own(s, t, e).done | a.Called? :: t.Rounding? && t.phase.Calling? && a.target == t.phase.target
    ensures Own(s, t, e).state.runs.Keys == s.runs.Keys
  {
    hide Decide, HowEnded;
  }

  lemma RunsStayOffered(events: seq<Event>, s: State, next: State)
    requires RunsOffered(events, s)
    requires forall id <- next.runs :: id in s.runs && SameTargets(s.runs[id], next.runs[id])
    ensures RunsOffered(events, next)
  {
    hide Offered;
  }

  /** A thread of a round brings the calls of its run, or those it had. */
  lemma ThreadStaysOffered(events: seq<Event>, s: State, t: Thread, section: Section)
    requires RunsOffered(events, s) && KeepsRounds(s, t, section) && section.thread.Rounding?
    requires t.Rounding? ==> CallsOffered(events, t.id, t.round, t.calls)
    ensures CallsOffered(events, section.thread.id, section.thread.round, section.thread.calls)
  {
    hide Offered;
  }

  lemma DoneOffered(events: seq<Event>, s: State, log: seq<Action>, t: Thread, section: Section)
    requires KeepsRounds(s, t, section) && ThreadSound(s, log, t)
    requires t.Rounding? ==> CallsOffered(events, t.id, t.round, t.calls)
    requires forall a <- section.done | a.Called? :: t.Rounding? && t.phase.Calling? && a.target == t.phase.target
    ensures LogOffered(events, section.done)
  {
    hide Offered, StartSound;
  }

  lemma OwnOffered(events: seq<Event>, w: World, e: Event)
    requires AllOffered(events, w) && ToolsSound(w) && !FromOutside(e) && e.thread < |w.threads|
    ensures AllOffered(events, Next(w, e))
  {
    var t := w.threads[e.thread];
    assert t in w.threads && ThreadSound(w.state, w.log, t);
    OwnIs(w, e);
    OwnKeeps(w.state, t, e);
    CalledTarget(w.state, t, e);
    var section := Own(w.state, t, e);
    forall id <- w.state.runs { OwnTargets(w.state, t, e, id); }
    hide Own, Next, ToolsSound, ThreadSound, KeepsRounds, SameTargets;
    RunsStayOffered(events, w.state, section.state);
    DoneOffered(events, w.state, w.log, t, section);
    if section.thread.Rounding? { ThreadStaysOffered(events, w.state, t, section); }
    hide CallsOffered, RunsOffered, Offered;
    assert forall u <- w.threads[e.thread := section.thread] :: u in w.threads || u == section.thread;
  }

  // ----- steps from outside -----

  /** A step from outside changes no target, but for the calls it hands over. */
  ghost predicate LeavesTargets(w: World, e: Event, next: World) {
    forall id <- next.state.runs ::
      || (id in w.state.runs && SameTargets(w.state.runs[id], next.state.runs[id]))
      || next.state.runs[id].calls == []
      || (e.HandOver? && e.id == id && HasCalls(w.state, id) && next.state.runs[id].round == w.state.rounds
          && forall i | 0 <= i < |next.state.runs[id].calls| && next.state.runs[id].calls[i].target.Some? ::
               var call := next.state.runs[id].calls[i];
               call.call.name in e.offered && e.offered[call.call.name] == call.target.value)
  }

  lemma SendTargets(w: World, e: Event)
    requires e.Send?
    ensures LeavesTargets(w, e, Next(w, e))
  {
    hide Busy;
    forall id <- w.state.runs { AlikeTargets(w.state.runs[id], w.state.runs[id]); }
    hide SameTargets;
  }

  lemma ResultsTargets(w: World, e: Event)
    requires e.Results? || e.Consent?
    ensures LeavesTargets(w, e, Next(w, e))
  {
    hide WaitFor, Starting;
    forall id <- w.state.runs
      ensures var run := w.state.runs[id];
        SameTargets(run, run) && SameTargets(run, run.(status := Streaming, stopRequested := false))
    {
      var run := w.state.runs[id];
      AlikeTargets(run, run);
      AlikeTargets(run, run.(status := Streaming, stopRequested := false));
    }
    hide SameTargets;
  }

  lemma AlikeTargets(run: Run, next: Run)
    requires SameCalls(run, next)
    ensures SameTargets(run, next)
  {
  }

  lemma SetTargets(w: World, e: Event)
    requires e.RefuseAll? || e.StopRun? || e.WorkspaceChanged?
    ensures LeavesTargets(w, e, Next(w, e))
  {
    forall id <- Set(w.state, e).runs { SetTarget(w.state, e, id); }
    hide Set, SameTargets;
  }

  lemma SetTarget(s: State, e: Event, id: Id)
    requires (e.RefuseAll? || e.StopRun? || e.WorkspaceChanged?) && id in Set(s, e).runs
    ensures id in s.runs && SameTargets(s.runs[id], Set(s, e).runs[id])
  {
  }

  lemma PromptTargets(w: World, e: Event)
    requires e.PromptAnswered?
    ensures LeavesTargets(w, e, Next(w, e))
  {
  }

  lemma HandOverTargets(w: World, e: Event)
    requires e.HandOver?
    ensures LeavesTargets(w, e, Next(w, e))
  {
  }

  lemma PluginTargets(w: World, e: Event)
    requires e.PluginGone?
    ensures LeavesTargets(w, e, Next(w, e))
  {
    forall id <- w.state.runs { PluginTarget(w.state, e.plugin, e.orphans, id); }
    hide SameTargets, Disturbed;
  }

  lemma PluginTarget(s: State, plugin: Id, orphans: seq<Id>, id: Id)
    requires id in s.runs
    ensures var next := PluginDisabled(s, plugin, orphans).runs; id in next && SameTargets(s.runs[id], next[id])
  {
  }

  lemma OutsideTargets(w: World, e: Event)
    requires FromOutside(e)
    ensures LeavesTargets(w, e, Next(w, e))
  {
    hide Next, LeavesTargets;
    if e.PromptAnswered? { PromptTargets(w, e); }
    else if e.HandOver? { HandOverTargets(w, e); }
    else if e.PluginGone? { PluginTargets(w, e); }
    else if e.Send? { SendTargets(w, e); }
    else if e.Results? || e.Consent? { ResultsTargets(w, e); }
    else { SetTargets(w, e); }
  }

  lemma OutsideOffered(events: seq<Event>, w: World, e: Event, next: World)
    requires w == After(QUIET, events) && AllOffered(events, w) && LeavesTargets(w, e, next) && LeavesRounds(w, next)
    ensures AllOffered(events + [e], next)
  {
    AllStays(events, e, w);
    var all := events + [e];
    assert all[..|events|] == events && all[|events|] == e;
    hide After, LeavesRounds, HasCalls;
    forall id <- next.state.runs ensures CallsOffered(all, id, next.state.runs[id].round, next.state.runs[id].calls) {
      var run := next.state.runs[id];
      if !(id in w.state.runs && SameTargets(w.state.runs[id], run)) && run.calls != [] {
        forall i | 0 <= i < |run.calls| && run.calls[i].target.Some?
          ensures Offered(all, id, run.round, run.calls[i].call.name, run.calls[i].target.value)
        {
          assert OffersAt(all, |events|, id, run.round, run.calls[i].call.name, run.calls[i].target.value);
        }
      }
    }
    OutsideKeepsOffered(all, w, next);
  }

  lemma OutsideKeepsOffered(all: seq<Event>, w: World, next: World)
    requires ThreadsOffered(all, w.threads) && LogOffered(all, w.log) && LeavesRounds(w, next)
    ensures ThreadsOffered(all, next.threads) && LogOffered(all, next.log)
  {
    hide CallsOffered, Offered, CallsAlike, Handed;
    assert forall a <- next.log | a.Called? :: a in w.log;
  }

  lemma {:induction false} RunOffered(events: seq<Event>)
    requires AllEnabled(QUIET, events)
    ensures AllOffered(events, After(QUIET, events))
  {
    hide Next, Enabled;
    if events != [] {
      var n := |events| - 1;
      var w, e := After(QUIET, events[..n]), events[n];
      EnabledPrefix(QUIET, events, n);
      RunOffered(events[..n]);
      RunSound(events[..n]);
      RunToolsSound(events[..n]);
      assert events == events[..n] + [e] && After(QUIET, events) == Next(w, e);
      hide After, AllEnabled, Sound, ToolsSound, AllOffered;
      NextOffered(events[..n], w, e);
    }
  }

  lemma NextOffered(events: seq<Event>, w: World, e: Event)
    requires w == After(QUIET, events) && AllOffered(events, w) && Sound(w) && ToolsSound(w) && Enabled(w, e)
    ensures AllOffered(events + [e], Next(w, e))
  {
    hide After, Sound, ToolsSound, Enabled, AllOffered, LeavesTargets, LeavesRounds;
    if FromOutside(e) {
      OutsideLeaves(w, e);
      OutsideTargets(w, e);
      hide Next;
      OutsideOffered(events, w, e, Next(w, e));
    } else if e.thread < |w.threads| {
      hide Next;
      OwnOffered(events, w, e);
      AllStays(events, e, Next(w, e));
    } else {
      AllStays(events, e, w);
    }
  }

  /** Every call that reached a plugin was handed over, in its run and round, when the tool
      registered under its name was the one it reached. */
  lemma CallsReachTheirTarget(events: seq<Event>, a: Action)
    requires AllEnabled(QUIET, events) && a in After(QUIET, events).log && a.Called?
    ensures exists k ::
      && 0 <= k < |events| && events[k].HandOver? && events[k].id == a.run
      && After(QUIET, events[..k]).state.rounds == a.round
      && a.call.name in events[k].offered && events[k].offered[a.call.name] == a.target
  {
    hide After, AllEnabled;
    RunOffered(events);
    assert Offered(events, a.run, a.round, a.call.name, a.target);
    var k: nat :| OffersAt(events, k, a.run, a.round, a.call.name, a.target);
  }
}
