/** Which Stop keeps a run's later calls from their plugins, and which does not. */
module AiStopMissed {
  import opened Wrappers
  import opened AiRuns
  import opened AiThreads
  import opened AiTheorems
  import opened AiTools
  import opened AiStops

  // ----- a call that can still run -----

  /** Some run of events from here hands a call of the run to its plugin. */
  ghost predicate CanCall(w: World, id: Id) {
    exists more :: AllEnabled(w, more) && CallsMore(w.log, After(w, more).log, id)
  }

  ghost predicate CallsMore(log: seq<Action>, more: seq<Action>, id: Id) {
    exists j :: |log| <= j < |more| && more[j].Called? && more[j].run == id
  }

  lemma LogGrows(w: World, e: Event)
    ensures w.log <= Next(w, e).log
  {
    hide Own;
  }

  lemma {:induction false} AfterStep(w: World, e: Event, more: seq<Event>)
    ensures After(w, [e] + more) == After(Next(w, e), more)
    decreases |more|
  {
    hide Next;
    if more == [] {
      assert [e] + more == [e] && [e][..0] == [];
      assert After(w, []) == w;
    } else {
      var n := |more| - 1;
      assert ([e] + more)[..n + 1] == [e] + more[..n];
      AfterStep(w, e, more[..n]);
    }
  }

  /** A step from which it can is one that can. */
  lemma StepCan(w: World, e: Event, id: Id)
    requires Enabled(w, e) && CanCall(Next(w, e), id)
    ensures CanCall(w, id)
  {
    LogGrows(w, e);
    hide Next, Enabled;
    var more :| AllEnabled(Next(w, e), more) && CallsMore(Next(w, e).log, After(Next(w, e), more).log, id);
    AfterStep(w, e, more);
    var all := [e] + more;
    forall i | 0 <= i < |all| ensures Enabled(After(w, all[..i]), all[i]) {
      if i > 0 {
        assert all[..i] == [e] + more[..i - 1];
        AfterStep(w, e, more[..i - 1]);
        assert Enabled(After(Next(w, e), more[..i - 1]), more[i - 1]);
      } else {
        assert all[..0] == [] && After(w, []) == w;
      }
    }
  }

  // ----- from the last step back to the first -----

  /** The thread at `i` is `t`, and the run it holds is `run`, which lost no plugin. */
  ghost predicate At(w: World, i: nat, t: Thread, run: Run) {
    && i < |w.threads| && w.threads[i] == t && t.Holds().Some? && t.id in w.state.runs && w.state.runs[t.id] == run
    && !run.interrupted
  }

  lemma CallingCan(w: World, i: nat, t: Thread, run: Run)
    requires At(w, i, t, run) && t.Rounding? && t.phase.Calling? && t.index < |t.calls|
    ensures CanCall(w, t.id)
  {
    var e := Calls(i, true);
    assert Next(w, e).log[|w.log|].Called?;
    assert After(w, []) == w && [e][..0] == [];
    assert After(w, [e]) == Next(w, e);
    hide Next;
    assert AllEnabled(w, [e]);
  }

  /** A round that looks at its first call, which has a target and was not denied. */
  lemma AllowedCan(w: World, i: nat, t: Thread, run: Run)
    requires At(w, i, t, run) && t.Rounding? && t.phase.Deciding? && t.index == 0 && 0 < |t.calls| && t.calls[0].target.Some?
    requires !run.stopRequested && run.calls != [] && run.calls[0].answer == Some(true)
    ensures CanCall(w, t.id)
  {
    var e := Decides(i);
    var next := t.(phase := Calling(t.calls[0].target.value));
    assert At(Next(w, e), i, next, run);
    hide Next;
    CallingCan(Next(w, e), i, next, run);
    StepCan(w, e, t.id);
  }

  lemma AskedCan(w: World, i: nat, t: Thread, run: Run)
    requires At(w, i, t, run) && t.Rounding? && t.phase.Deciding? && t.index == 0 && 0 < |t.calls| && t.calls[0].target.Some?
    requires !run.stopRequested && run.calls != [] && run.calls[0].answer.None? && run.asking == Some(0)
    ensures CanCall(w, t.id)
  {
    var e := PromptAnswered(t.id, run.calls[0].call.id, true);
    var next := Next(w, e).state.runs[t.id];
    assert At(Next(w, e), i, t, next) && next.calls[0].answer == Some(true);
    hide Next;
    AllowedCan(Next(w, e), i, t, next);
    StepCan(w, e, t.id);
  }

  lemma DecidingCan(w: World, i: nat, t: Thread, run: Run)
    requires At(w, i, t, run) && t.Rounding? && t.phase == Deciding(false) && t.index == 0 && 0 < |t.calls|
    requires t.calls[0].target.Some? && !run.stopRequested && run.calls != [] && run.calls[0].answer.None?
    ensures CanCall(w, t.id)
  {
    var e := Decides(i);
    var next, asked := t.(phase := Deciding(true)), run.(asking := Some(0));
    assert At(Next(w, e), i, next, asked);
    hide Next;
    AskedCan(Next(w, e), i, next, asked);
    StepCan(w, e, t.id);
  }

  lemma RoundCan(w: World, i: nat, t: Thread, run: Run)
    requires At(w, i, t, run) && t.RoundStarting? && !run.stopRequested
    requires run.calls != [] && run.calls[0].target.Some? && run.calls[0].answer.None?
    ensures CanCall(w, t.id)
  {
    var e := RoundStarts(i, true);
    var next := Rounding(t.id, run.round, run.tools, run.calls, 0, Deciding(false));
    assert At(Next(w, e), i, next, run);
    hide Next;
    DecidingCan(Next(w, e), i, next, run);
    StepCan(w, e, t.id);
  }

  /** A completed run whose first call names a tool it offered: its plugin hands the calls over. */
  lemma HandedCan(w: World, id: Id)
    requires HasCalls(w.state, id) && !w.state.runs[id].interrupted
    requires w.state.runs[id].toolCalls[0].name in w.state.runs[id].tools
    ensures CanCall(w, id)
  {
    var run := w.state.runs[id];
    var name := run.toolCalls[0].name;
    var e := HandOver(id, map[name := Target("plugin", name)]);
    var next := Next(w, e).state.runs[id];
    assert At(Next(w, e), |w.threads|, RoundStarting(id), next) && next.calls[0].target.Some? && !next.stopRequested;
    hide Next;
    RoundCan(Next(w, e), |w.threads|, RoundStarting(id), next);
    StepCan(w, e, id);
  }

  // An answer that ends with calls leads to a completed run. When the first of them names no
  // tool that the run offered, its plugin answers them with a tool to offer, and the next
  // answer's call names it.

  /** Whether another answer comes before a call is handed over. */
  function Detours(run: Run): nat {
    if run.toolCalls == [] then (if run.tools == [] then 1 else 0)
    else if run.toolCalls[0].name in run.tools then 0
    else 1
  }

  lemma CompletedCan(w: World, id: Id)
    requires HasCalls(w.state, id) && !w.state.runs[id].interrupted
    ensures CanCall(w, id)
    decreases Detours(w.state.runs[id]), 0
  {
    var run := w.state.runs[id];
    if run.toolCalls[0].name in run.tools {
      HandedCan(w, id);
    } else {
      var e := Results(id, ["tool"]);
      var next := Next(w, e).state.runs[id];
      assert At(Next(w, e), |w.threads|, Preparing(id, ["tool"]), next);
      hide Next;
      PreparingCan(Next(w, e), |w.threads|, Preparing(id, ["tool"]), next);
      StepCan(w, e, id);
    }
  }

  lemma EndingCan(w: World, i: nat, t: Thread, run: Run)
    requires At(w, i, t, run) && t.Ending? && t.ended.AsCompleted? && run.toolCalls != [] && run.calls == []
    ensures CanCall(w, t.id)
    decreases Detours(run), 1
  {
    var e := AnswerWritten(i, true);
    var next := Next(w, e).state.runs[t.id];
    assert HasCalls(Next(w, e).state, t.id) && !next.interrupted && Detours(next) == Detours(run);
    hide Next;
    CompletedCan(Next(w, e), t.id);
    StepCan(w, e, t.id);
  }

  lemma ClosedCan(w: World, i: nat, t: Thread, run: Run)
    requires At(w, i, t, run) && t.Answering? && run.toolCalls != [] && run.calls == []
    ensures CanCall(w, t.id)
    decreases Detours(run), 2
  {
    var e := AnswerOver(i, AsCompleted);
    assert At(Next(w, e), i, Ending(t.id, AsCompleted), run);
    hide Next;
    EndingCan(Next(w, e), i, Ending(t.id, AsCompleted), run);
    StepCan(w, e, t.id);
  }

  lemma StreamedCan(w: World, i: nat, t: Thread, run: Run)
    requires At(w, i, t, run) && t.Answering? && run.toolCalls != [] && run.calls == []
    ensures CanCall(w, t.id)
    decreases Detours(run), 3
  {
    var e := StreamCloses(i);
    var next := run.(operation := false);
    assert At(Next(w, e), i, t, next) && Detours(next) == Detours(run);
    hide Next;
    ClosedCan(Next(w, e), i, t, next);
    StepCan(w, e, t.id);
  }

  lemma AnsweringCan(w: World, i: nat, t: Thread, run: Run)
    requires At(w, i, t, run) && t.Answering? && run.calls == []
    ensures CanCall(w, t.id)
    decreases Detours(run), if run.operation then 4 else 5
  {
    if run.toolCalls != [] {
      StreamedCan(w, i, t, run);
    } else if !run.operation {
      var e := StreamOpens(i);
      var next := run.(operation := true, stopRequested := false);
      assert At(Next(w, e), i, t, next) && Detours(next) == Detours(run);
      hide Next;
      AnsweringCan(Next(w, e), i, t, next);
      StepCan(w, e, t.id);
    } else {
      var e := StreamCall(i, "call", if run.tools == [] then "tool" else run.tools[0]);
      var next := Next(w, e).state.runs[t.id];
      assert At(Next(w, e), i, t, next) && next.toolCalls != [] && Detours(next) == Detours(run);
      hide Next;
      StreamedCan(Next(w, e), i, t, next);
      StepCan(w, e, t.id);
    }
  }

  lemma PreparingCan(w: World, i: nat, t: Thread, run: Run)
    requires At(w, i, t, run) && t.Preparing?
    ensures CanCall(w, t.id)
    decreases if t.tools == [] then 1 else 0, 6
  {
    var e := Prepared(i, true);
    var next := Next(w, e).state.runs[t.id];
    assert At(Next(w, e), i, Answering(t.id), next) && next.calls == [] && Detours(next) == if t.tools == [] then 1 else 0;
    hide Next;
    AnsweringCan(Next(w, e), i, Answering(t.id), next);
    StepCan(w, e, t.id);
  }

  // ----- a run that answers has no calls handed over -----

  ghost predicate Unhanded(w: World) {
    forall t <- w.threads | (t.Answering? || t.Ending?) && t.id in w.state.runs :: w.state.runs[t.id].calls == []
  }

  lemma OwnUnhanded(w: World, e: Event)
    requires Sound(w) && Unhanded(w) && !FromOutside(e) && e.thread < |w.threads|
    ensures Unhanded(Next(w, e))
  {
    var i, t := e.thread, w.threads[e.thread];
    assert t in w.threads;
    assert t.Holds().Some? ==> HeldBy(w.threads, i, t.id);
    OwnIs(w, e);
    OwnEffects(w.state, t, e);
    OwnAnswers(w.state, t, e);
    hide Own, Next, OwnEffect, Unhanded, Placed, Queued, Known, OneLive;
    SectionUnhanded(w, i, Own(w.state, t, e), Next(w, e));
  }

  lemma SectionUnhanded(w: World, i: nat, section: Section, next: World)
    requires Apart(w) && Unhanded(w) && i < |w.threads| && OwnEffect(w.state, w.threads[i], section)
    requires next.state == section.state && next.threads == w.threads[i := section.thread]
    requires (section.thread.Answering? || section.thread.Ending?) && section.thread.id in section.state.runs ==>
      section.state.runs[section.thread.id].calls == []
    ensures Unhanded(next)
  {
    OthersHold(w, i);
    hide Apart, Asked, NoneRevived, Fits;
    forall u <- next.threads | (u.Answering? || u.Ending?) && u.id in next.state.runs ensures next.state.runs[u.id].calls == [] {
      var k :| 0 <= k < |next.threads| && next.threads[k] == u;
      if k != i { assert u == w.threads[k] && u in w.threads; }
    }
  }

  lemma OthersHold(w: World, i: nat)
    requires Apart(w) && i < |w.threads|
    ensures forall k | 0 <= k < |w.threads| && k != i && w.threads[k].Holds().Some? ::
      w.threads[k].Holds() != w.threads[i].Holds()
  {
    forall k | 0 <= k < |w.threads| && k != i && w.threads[k].Holds().Some?
      ensures w.threads[k].Holds() != w.threads[i].Holds()
    {
      assert HeldBy(w.threads, k, w.threads[k].id);
      if w.threads[k].Holds() == w.threads[i].Holds() { assert HeldBy(w.threads, i, w.threads[k].id); }
    }
  }

  lemma OwnAnswers(s: State, t: Thread, e: Event)
    requires !FromOutside(e)
    requires (t.Answering? || t.Ending?) && t.id in s.runs ==> s.runs[t.id].calls == []
    ensures var section := Own(s, t, e);
      (section.thread.Answering? || section.thread.Ending?) && section.thread.id in section.state.runs ==>
        section.state.runs[section.thread.id].calls == []
  {
    hide Decide, HowEnded;
  }

  /** A step from outside hands over no calls of a run that streams, and starts no answer. */
  ghost predicate LeavesAnswers(w: World, next: World) {
    && (forall t <- next.threads | t.Answering? || t.Ending? :: t in w.threads)
    && (forall id <- next.state.runs | id in w.state.runs && w.state.runs[id].status == Streaming && w.state.runs[id].calls == [] ::
          next.state.runs[id].calls == [])
    && (forall t <- w.threads | (t.Answering? || t.Ending?) && t.id in next.state.runs :: t.id in w.state.runs)
  }

  lemma SendAnswers(w: World, e: Event)
    requires Sound(w) && e.Send? && Enabled(w, e)
    ensures LeavesAnswers(w, Next(w, e))
  {
    forall t <- w.threads | t.Holds().Some? ensures t.id != e.id {
      var i :| 0 <= i < |w.threads| && w.threads[i] == t;
      assert HeldBy(w.threads, i, t.id);
    }
    hide Sound;
  }

  lemma SetCalls(s: State, e: Event, id: Id)
    requires e.RefuseAll? || e.StopRun? || e.WorkspaceChanged?
    requires id in Set(s, e).runs
    ensures id in s.runs && Set(s, e).runs[id].calls == s.runs[id].calls
  {
  }

  lemma SetAnswers(w: World, e: Event)
    requires e.RefuseAll? || e.StopRun? || e.WorkspaceChanged?
    ensures LeavesAnswers(w, Next(w, e))
  {
    hide Set;
    forall id <- Set(w.state, e).runs { SetCalls(w.state, e, id); }
  }

  lemma PromptAnswers(w: World, e: Event)
    requires e.PromptAnswered?
    ensures LeavesAnswers(w, Next(w, e))
  {
    hide AnswerTool;
    PromptCalls(w.state, e);
  }

  lemma PromptCalls(s: State, e: Event)
    requires e.PromptAnswered?
    ensures var next := AnswerTool(s, e.id, e.asked, e.allow);
      next.runs.Keys == s.runs.Keys && forall id <- s.runs | s.runs[id].calls == [] :: next.runs[id].calls == []
  {
  }

  lemma JoinAnswers(w: World, e: Event)
    requires e.Results? || e.HandOver?
    ensures LeavesAnswers(w, Next(w, e))
  {
  }

  lemma ConsentAnswers(w: World, e: Event)
    requires e.Consent?
    ensures LeavesAnswers(w, Next(w, e))
  {
    forall t <- Starting(e.ready) ensures t.Consented? {}
    hide Starting;
  }

  lemma PluginStreams(s: State, plugin: Id, orphans: seq<Id>, id: Id)
    requires id in s.runs && s.runs[id].status == Streaming
    ensures var next := PluginDisabled(s, plugin, orphans); id in next.runs && next.runs[id].calls == s.runs[id].calls
  {
  }

  lemma PluginAnswers(w: World, e: Event)
    requires Sound(w) && e.PluginGone? && Enabled(w, e)
    ensures LeavesAnswers(w, Next(w, e))
  {
    PluginIs(w, e);
    PluginStarts(w, e);
    assert PluginDisabled(w.state, e.plugin, e.orphans).runs.Keys == w.state.runs.Keys;
    hide Sound, Next, Enabled, Lists, Orphaned, Orphans, PluginDisabled;
    forall id <- w.state.runs | w.state.runs[id].status == Streaming { PluginStreams(w.state, e.plugin, e.orphans, id); }
  }

  lemma OutsideAnswers(w: World, e: Event)
    requires Sound(w) && FromOutside(e) && Enabled(w, e)
    ensures LeavesAnswers(w, Next(w, e))
  {
    hide Next, Enabled, Sound, LeavesAnswers;
    match e
    case Send(_, _, _, _, _, _) => SendAnswers(w, e);
    case Results(_, _) => JoinAnswers(w, e);
    case HandOver(_, _) => JoinAnswers(w, e);
    case Consent(_, _) => ConsentAnswers(w, e);
    case PluginGone(_, _, _) => PluginAnswers(w, e);
    case PromptAnswered(_, _, _) => PromptAnswers(w, e);
    case _ => SetAnswers(w, e);
  }

  lemma OutsideUnhanded(w: World, e: Event)
    requires Sound(w) && Unhanded(w) && FromOutside(e) && Enabled(w, e)
    ensures Unhanded(Next(w, e))
  {
    hide Next, Enabled, Sound;
    AnswersStream(w);
    OutsideAnswers(w, e);
  }

  lemma NextUnhanded(w: World, e: Event)
    requires Sound(w) && Unhanded(w) && Enabled(w, e)
    ensures Unhanded(Next(w, e))
  {
    hide Enabled, Sound, Unhanded;
    if FromOutside(e) {
      hide Next;
      OutsideUnhanded(w, e);
    } else if e.thread < |w.threads| {
      hide Next;
      OwnUnhanded(w, e);
    }
  }

  lemma AnswersStream(w: World)
    requires Sound(w)
    ensures forall t <- w.threads | t.Drives() && t.id in w.state.runs :: w.state.runs[t.id].status == t.Driven()
  {
    forall t <- w.threads | t.Drives() && t.id in w.state.runs ensures w.state.runs[t.id].status == t.Driven() {
      var i :| 0 <= i < |w.threads| && w.threads[i] == t;
      assert HeldBy(w.threads, i, t.id);
    }
  }

  lemma {:induction false} RunUnhanded(events: seq<Event>)
    requires AllEnabled(QUIET, events)
    ensures Unhanded(After(QUIET, events))
    decreases |events|
  {
    assert Unhanded(QUIET);
    hide Next, Enabled, Unhanded;
    if events != [] {
      var n := |events| - 1;
      EnabledPrefix(QUIET, events, n);
      RunUnhanded(events[..n]);
      RunSound(events[..n]);
      hide Sound;
      NextUnhanded(After(QUIET, events[..n]), events[n]);
    }
  }

  // ----- the two halves -----

  /** What a Stop must find to keep every later call of the run from its plugin: a run that
      waits for consent or settles calls, one that ended or lost a plugin, or one whose answer
      ends without calls. A run that streams, or whose calls wait, is none of these. */
  ghost predicate StopQuells(w: World, id: Id)
    requires id in w.state.runs
  {
    var run := w.state.runs[id];
    run.interrupted || run.status in {WaitingForConsent, WaitingForApproval} || !run.Live() || Closing(w, id)
  }

  lemma StopEnds(w: World, id: Id)
    requires Sound(w) && id in w.state.runs && StopQuells(w, id)
    ensures Over(Next(w, StopRun(id)), id)
  {
    hide Apart, Placed, Queued, OneLive, Asked;
  }

  lemma StopLeaves(w: World, id: Id)
    requires Sound(w) && Unhanded(w) && id in w.state.runs && !StopQuells(w, id)
    ensures CanCall(Next(w, StopRun(id)), id)
  {
    AnswersStream(w);
    var run, next := w.state.runs[id], Next(w, StopRun(id));
    if run.status == Completed {
      hide Sound, Unhanded;
      CompletedCan(next, id);
    } else {
      var t :| t in w.threads && t.Holds() == Some(id) && !t.Failing?
        && !(t.Ending? && (!t.ended.AsCompleted? || run.toolCalls == []));
      var i :| 0 <= i < |w.threads| && w.threads[i] == t;
      assert HeldBy(w.threads, i, id);
      assert At(next, i, t, next.state.runs[id]) && next.state.runs[id].calls == run.calls && next.state.runs[id].toolCalls == run.toolCalls;
      hide Sound, Next;
      if t.Preparing? {
        PreparingCan(next, i, t, next.state.runs[id]);
      } else if t.Answering? {
        AnsweringCan(next, i, t, next.state.runs[id]);
      } else {
        EndingCan(next, i, t, next.state.runs[id]);
      }
    }
  }

  lemma {:induction false} AfterBoth(w: World, events: seq<Event>, more: seq<Event>)
    ensures After(w, events + more) == After(After(w, events), more)
    decreases |more|
  {
    hide Next;
    if more == [] {
      assert events + more == events;
    } else {
      var n := |more| - 1;
      assert (events + more)[..|events| + n] == events + more[..n];
      AfterBoth(w, events, more[..n]);
    }
  }

  lemma EnabledBoth(w: World, events: seq<Event>, more: seq<Event>)
    requires AllEnabled(w, events) && AllEnabled(After(w, events), more)
    ensures AllEnabled(w, events + more)
  {
    hide Enabled, After;
    var all := events + more;
    forall i | 0 <= i < |all| ensures Enabled(After(w, all[..i]), all[i]) {
      if i < |events| {
        assert all[..i] == events[..i];
      } else {
        assert all[..i] == events + more[..i - |events|];
        AfterBoth(w, events, more[..i - |events|]);
        assert Enabled(After(After(w, events), more[..i - |events|]), more[i - |events|]);
      }
    }
  }

  /** A run that can call, and has no call on its way, is not silenced. */
  lemma CanCallSpeaks(events: seq<Event>, id: Id)
    requires AllEnabled(QUIET, events) && CanCall(After(QUIET, events), id)
    requires forall t <- After(QUIET, events).threads | t.Rounding? :: t.id != id
    ensures !Silenced(events, id)
  {
    var w := After(QUIET, events);
    var more :| AllEnabled(w, more) && CallsMore(w.log, After(w, more).log, id);
    EnabledBoth(QUIET, events, more);
    AfterBoth(QUIET, events, more);
    hide After, AllEnabled;
    assert !NoneNew(w.log, After(QUIET, events + more).log, id, w.threads);
  }

  /** Whatever happened before: after a Stop no further call of the run reaches a plugin, in
      any run of events, if and only if the Stop found what `StopQuells` says. */
  lemma StopQuellsExactly(events: seq<Event>, id: Id)
    requires AllEnabled(QUIET, events) && id in After(QUIET, events).state.runs
    ensures Silenced(events + [StopRun(id)], id) <==> StopQuells(After(QUIET, events), id)
  {
    var e, w, all := StopRun(id), After(QUIET, events), events + [StopRun(id)];
    assert all[..|events|] == events;
    RunLast(QUIET, all);
    assert AllEnabled(QUIET, all) by { StopEnabled(events, id); }
    RunSound(events);
    RunSound(all);
    RunUnhanded(events);
    hide After, AllEnabled, Silenced, Unhanded, Over, CanCall, StopQuells;
    if StopQuells(w, id) {
      hide Sound, Next;
      StopEnds(w, id);
      NothingRunsAfterStop(all, id);
    } else {
      StopLeaves(w, id);
      NoRound(w, id);
      hide Sound, Next;
      CanCallSpeaks(all, id);
    }
  }

  lemma StopEnabled(events: seq<Event>, id: Id)
    requires AllEnabled(QUIET, events)
    ensures AllEnabled(QUIET, events + [StopRun(id)])
  {
    hide After;
    var all := events + [StopRun(id)];
    forall i | 0 <= i < |all| ensures Enabled(After(QUIET, all[..i]), all[i]) {
      assert i < |events| ==> all[..i] == events[..i];
    }
  }

  /** No thread settles calls of a run that a Stop does not quell. */
  lemma NoRound(w: World, id: Id)
    requires Sound(w) && id in w.state.runs && !StopQuells(w, id)
    ensures forall t <- Next(w, StopRun(id)).threads | t.Rounding? :: t.id != id
  {
    AnswersStream(w);
    hide Sound, Closing;
  }

  // ----- a run that a Stop does not quell -----

  /** A run whose stream brought a call and closed. */
  const BEFORE: seq<Event> := [Send("r", "p", "c", "m", ["t"], {}), StartRun(0), Prepared(0, true), StreamOpens(0),
                               StreamCall(0, "call", "t"), StreamCloses(0)]

  const BEGUN := Run("p", "c", "m", WaitingForConsent, true, false, false, ["t"], {}, [], [], None, false, 0, 0)
  const ASKS := BEGUN.(status := Streaming, ask := false)
  const BROUGHT := ASKS.(toolCalls := [ToolCall("call", "t", Arrival("r", 0))], arrived := 1)

  function Scene(run: Run, t: Thread): World { World(State(map["r" := run], [], [], 0), [t], {"r"}, []) }

  /** The world after `n` of these events. */
  function Stage(n: nat): World
    requires n <= |BEFORE|
  {
    if n == 0 then QUIET
    else if n == 1 then Scene(BEGUN, Beginning("r"))
    else if n == 2 then Scene(ASKS, Preparing("r", ["t"]))
    else if n == 3 then Scene(ASKS, Answering("r"))
    else if n == 4 then Scene(ASKS.(operation := true), Answering("r"))
    else if n == 5 then Scene(BROUGHT.(operation := true), Answering("r"))
    else Scene(BROUGHT, Answering("r"))
  }

  lemma RunSet()
    ensures forall before: Run, run: Run :: map["r" := before]["r" := run] == map["r" := run]
  {
  }

  lemma OpenStage(n: nat)
    requires n < 3
    ensures Next(Stage(n), BEFORE[n]) == Stage(n + 1)
  {
    if n == 0 {
      assert !Busy(QUIET.state, "c");
    } else {
      RunSet();
      OwnIs(Stage(n), BEFORE[n]);
      hide Next, OwnRound;
      if n == 1 {}
    }
  }

  lemma StreamStage(n: nat)
    requires 3 <= n < |BEFORE|
    ensures Next(Stage(n), BEFORE[n]) == Stage(n + 1)
  {
    RunSet();
    OwnIs(Stage(n), BEFORE[n]);
    hide OwnRound, Next;
    if n == 3 {
    } else if n == 4 {
      assert [] + BROUGHT.toolCalls == BROUGHT.toolCalls;
    }
  }

  lemma {:induction false} Staged(n: nat)
    requires n <= |BEFORE|
    ensures After(QUIET, BEFORE[..n]) == Stage(n)
  {
    if n == 0 {
      assert BEFORE[..0] == [] && Stage(0) == QUIET;
      hide Next, Stage;
    } else {
      hide Next, Stage;
      assert BEFORE[..n][..n - 1] == BEFORE[..n - 1];
      Staged(n - 1);
      if n <= 3 { OpenStage(n - 1); } else { StreamStage(n - 1); }
    }
  }

  lemma BeforeEnabled()
    ensures AllEnabled(QUIET, BEFORE)
  {
    assert "r" !in QUIET.used;
    hide After;
    forall i | 0 <= i < |BEFORE| ensures Enabled(After(QUIET, BEFORE[..i]), BEFORE[i]) {
      if i == 0 {
        assert After(QUIET, BEFORE[..0]) == QUIET by { Staged(0); }
      } else {
        assert !BEFORE[i].Send? && !BEFORE[i].Consent? && !BEFORE[i].PluginGone?;
      }
    }
  }

  /** A Stop that comes when a run's stream has just closed: the status is Streaming, no
      stream is open, no call was handed over, and yet a call reaches its plugin later. */
  lemma StopMissed()
    ensures AllEnabled(QUIET, BEFORE)
    ensures var w := After(QUIET, BEFORE);
      && w.log == [] && "r" in w.state.runs && w.state.runs["r"].status == Streaming
      && !w.state.runs["r"].operation && w.state.runs["r"].calls == []
    ensures exists more ::
      && AllEnabled(QUIET, BEFORE + [StopRun("r")] + more)
      && exists a <- After(QUIET, BEFORE + [StopRun("r")] + more).log :: a.Called? && a.run == "r"
  {
    hide After, AllEnabled;
    Staged(6);
    assert BEFORE[..6] == BEFORE;
    BeforeEnabled();
    var w, stop := Stage(6), StopRun("r");
    assert w.threads[0] == Answering("r") && w.threads[0] in w.threads;
    assert !Closing(w, "r") && !StopQuells(w, "r");
    RunSound(BEFORE);
    RunUnhanded(BEFORE);
    StopLeaves(w, "r");
    StopEnabled(BEFORE, "r");
    AfterBoth(QUIET, BEFORE, [stop]);
    CallsLater(BEFORE + [stop], "r") by { AfterOne(w, stop); }
  }

  lemma AfterOne(w: World, e: Event)
    ensures After(w, [e]) == Next(w, e)
  {
    hide Next;
    assert [e][..0] == [] && After(w, []) == w;
  }

  lemma CallsLater(events: seq<Event>, id: Id)
    requires AllEnabled(QUIET, events) && CanCall(After(QUIET, events), id)
    ensures exists more ::
      AllEnabled(QUIET, events + more) && exists a <- After(QUIET, events + more).log :: a.Called? && a.run == id
  {
    hide After, AllEnabled;
    var w := After(QUIET, events);
    var more :| AllEnabled(w, more) && CallsMore(w.log, After(w, more).log, id);
    EnabledBoth(QUIET, events, more);
    AfterBoth(QUIET, events, more);
    var log := After(QUIET, events + more).log;
    var j :| |w.log| <= j < |log| && log[j].Called? && log[j].run == id;
    assert log[j] in log;
  }
}
