/** One live run per chat, one thread per live run, and no run that comes back. */
module AiTheorems {
  import opened Wrappers
  import opened AiRuns
  import opened AiThreads

  /** A run whose answer never began: it waits for consent, or it ended before. */
  predicate Unstarted(run: Run) { run.status !in {Streaming, WaitingForApproval, Completed} }

  predicate Fits(run: Run, t: Thread) {
    if t.Drives() then run.status == t.Driven() else Unstarted(run)
  }

  predicate HeldBy(threads: seq<Thread>, i: nat, id: Id) { i < |threads| && threads[i].Holds() == Some(id) }

  /** No two threads hold one run. */
  ghost predicate Apart(w: World) {
    forall i: nat, j: nat, id | HeldBy(w.threads, i, id) && HeldBy(w.threads, j, id) :: i == j
  }

  /** A run's status says which thread, if any, may drive it. */
  ghost predicate Placed(w: World) {
    forall i: nat, id | HeldBy(w.threads, i, id) && id in w.state.runs :: Fits(w.state.runs[id], w.threads[i])
  }

  /** A run that waits for consent is held by no thread. */
  ghost predicate Queued(w: World) {
    forall id <- w.state.waiting ::
      && (id in w.state.runs ==> Unstarted(w.state.runs[id]))
      && forall i: nat :: !HeldBy(w.threads, i, id)
  }

  ghost predicate Asked(s: State) {
    forall id <- s.runs :: s.runs[id].ask ==> s.runs[id].status == WaitingForConsent
  }

  ghost predicate OneLive(s: State) {
    forall a, b | a in s.runs && b in s.runs && s.runs[a].Live() && s.runs[b].Live() && s.runs[a].chat == s.runs[b].chat ::
      a == b
  }

  ghost predicate Known(w: World) {
    && w.state.runs.Keys <= w.used && (forall id <- w.state.waiting :: id in w.used)
    && (forall i: nat, id | HeldBy(w.threads, i, id) :: id in w.used)
  }

  ghost predicate Sound(w: World) {
    Apart(w) && Placed(w) && Queued(w) && Asked(w.state) && OneLive(w.state) && Known(w)
  }

  // ----- what one step does to runs -----

  /** Runs stay in their chats, and one that has no work left gets none. */
  ghost predicate NoneRevived(s: State, next: State) {
    forall id <- next.runs :: id in s.runs && next.runs[id].chat == s.runs[id].chat
      && (next.runs[id].Live() ==> s.runs[id].Live())
  }

  lemma StillOneLive(s: State, next: State)
    requires OneLive(s) && NoneRevived(s, next)
    ensures OneLive(next)
  {
  }

  /** What a thread's own section leaves: other runs as they were, its own as it will fit. */
  ghost predicate OwnEffect(s: State, t: Thread, section: Section) {
    var next := section.state;
    && next.runs.Keys == s.runs.Keys
    && (forall id <- s.runs | t.Holds() != Some(id) :: next.runs[id] == s.runs[id])
    && NoneRevived(s, next) && Asked(next)
    && (section.thread.Holds() == None || section.thread.Holds() == t.Holds())
    && (section.thread.Holds().Some? && section.thread.id in next.runs ==>
          Fits(next.runs[section.thread.id], section.thread))
    && (next.waiting == s.waiting
        || (t.Beginning? && section.thread == Idle && next.runs == s.runs && next.waiting == s.waiting + [t.id]))
  }

  /** A section that leaves every run as it was. */
  lemma Untouched(s: State, t: Thread, section: Section)
    requires Asked(s) && section.state.runs == s.runs && section.state.waiting == s.waiting
    requires section.thread.Holds().Some? ==>
      section.thread.Holds() == t.Holds() && (t.id in s.runs ==> Fits(s.runs[t.id], section.thread))
    ensures OwnEffect(s, t, section)
  {
  }

  /** A section that changes its own run. */
  lemma Changed(s: State, t: Thread, section: Section, run: Run)
    requires Asked(s) && t.Holds().Some? && t.id in s.runs
    requires section.state.runs == s.runs[t.id := run] && section.state.waiting == s.waiting
    requires run.chat == s.runs[t.id].chat && (run.Live() ==> s.runs[t.id].Live())
    requires run.ask ==> run.status == WaitingForConsent
    requires section.thread.Holds().Some? ==> section.thread.Holds() == t.Holds() && Fits(run, section.thread)
    ensures OwnEffect(s, t, section)
  {
  }

  lemma RoundEffects(s: State, t: Thread, e: Event)
    requires Asked(s) && (t.Holds().Some? && t.id in s.runs ==> Fits(s.runs[t.id], t))
    ensures OwnEffect(s, t, OwnRound(s, t, e))
  {
    hide OwnEffect, Asked, Decide;
    var section := OwnRound(s, t, e);
    var next := section.state;
    if t.Rounding? && e.Decides? && next.runs != s.runs {
      Changed(s, t, section, s.runs[t.id].(asking := Some(t.index))) by { AskKept(s, t.id); }
    } else if t.Rounding? && e.RoundEnds? && t.id in s.runs && t.index >= |t.calls| {
      AskKept(s, t.id);
      Changed(s, t, section, next.runs[t.id]);
    } else if t.RoundDropped? && e.RoundStops? && t.id in s.runs {
      AskKept(s, t.id);
      Changed(s, t, section, s.runs[t.id].(status := Failed, operation := false));
    } else {
      Untouched(s, t, section);
    }
  }

  lemma AskKept(s: State, id: Id)
    requires Asked(s) && id in s.runs
    ensures s.runs[id].ask ==> s.runs[id].status == WaitingForConsent
  {
  }

  lemma StartEffects(s: State, t: Thread, e: Event)
    requires Asked(s) && (t.Holds().Some? && t.id in s.runs ==> Fits(s.runs[t.id], t))
    requires e.Enqueue? || e.StartRun? || e.Prepared?
    ensures OwnEffect(s, t, Own(s, t, e))
  {
    hide OwnRound;
    var section := Own(s, t, e);
    if t.Holds().Some? && t.id in s.runs { AskKept(s, t.id); }
    if e.Enqueue? && t.Beginning? {
      assert OwnEffect(s, t, section);
    } else {
      hide OwnEffect, Asked;
      if (e.StartRun? && (t.Beginning? || t.Consented?) && MayStart(s, t.id))
         || (e.Prepared? && t.Preparing? && t.id in s.runs && e.written) {
        Changed(s, t, section, section.state.runs[t.id]);
      } else {
        Untouched(s, t, section);
      }
    }
  }

  lemma AnswerEffects(s: State, t: Thread, e: Event)
    requires Asked(s) && (t.Holds().Some? && t.id in s.runs ==> Fits(s.runs[t.id], t))
    requires !e.Enqueue? && !e.StartRun? && !e.Prepared?
    ensures OwnEffect(s, t, Own(s, t, e))
  {
    hide OwnRound, OwnEffect, Asked;
    RoundEffects(s, t, e);
    var section := Own(s, t, e);
    if t.Holds().Some? && t.id in s.runs { AskKept(s, t.id); }
    if t.Holds().Some? && t.id in s.runs
       && ((t.Answering? && (e.StreamOpens? || e.StreamCall? || e.StreamCloses?))
           || (t.Ending? && e.AnswerWritten?) || (e.Fails? && (t.Failing? || t.Answering?))) {
      Changed(s, t, section, section.state.runs[t.id]);
    } else if e.StreamOpens? || e.StreamCall? || e.StreamCloses? || e.AnswerOver? || e.AnswerWritten? || e.Fails? {
      Untouched(s, t, section);
    }
  }

  lemma OwnEffects(s: State, t: Thread, e: Event)
    requires Asked(s) && (t.Holds().Some? && t.id in s.runs ==> Fits(s.runs[t.id], t))
    ensures OwnEffect(s, t, Own(s, t, e))
  {
    hide Own, OwnEffect;
    if e.Enqueue? || e.StartRun? || e.Prepared? { StartEffects(s, t, e); } else { AnswerEffects(s, t, e); }
  }

  // ----- threads' own steps -----

  lemma OwnSound(w: World, i: nat, section: Section)
    requires Sound(w) && i < |w.threads| && OwnEffect(w.state, w.threads[i], section)
    ensures Sound(w.(state := section.state, threads := w.threads[i := section.thread], log := w.log + section.done))
  {
    var next := w.(state := section.state, threads := w.threads[i := section.thread], log := w.log + section.done);
    assert forall j: nat, id | HeldBy(next.threads, j, id) :: HeldBy(w.threads, j, id);
    assert forall id | w.threads[i].Holds() == Some(id) :: HeldBy(w.threads, i, id);
    OwnPlaced(w, i, section, next);
    OwnQueued(w, i, section, next);
    hide Placed, Queued, Fits;
    StillOneLive(w.state, section.state);
  }

  lemma OwnPlaced(w: World, i: nat, section: Section, next: World)
    requires Sound(w) && i < |w.threads| && OwnEffect(w.state, w.threads[i], section)
    requires next.state == section.state && next.threads == w.threads[i := section.thread]
    ensures Placed(next)
  {
    hide Queued, OneLive, Known, Fits;
    forall j: nat, id | HeldBy(next.threads, j, id) && id in next.state.runs
      ensures Fits(next.state.runs[id], next.threads[j])
    {
      assert HeldBy(w.threads, j, id);
      if j != i {
        assert !HeldBy(w.threads, i, id);
      }
    }
  }

  lemma OwnQueued(w: World, i: nat, section: Section, next: World)
    requires Sound(w) && i < |w.threads| && OwnEffect(w.state, w.threads[i], section)
    requires next.state == section.state && next.threads == w.threads[i := section.thread]
    ensures Queued(next)
  {
    hide OneLive, Known;
    var t := w.threads[i];
    forall id <- next.state.waiting
      ensures id in next.state.runs ==> Unstarted(next.state.runs[id])
      ensures forall j: nat :: !HeldBy(next.threads, j, id)
    {
      if id !in w.state.waiting {
        assert HeldBy(w.threads, i, id);
        assert forall j: nat :: HeldBy(next.threads, j, id) ==> HeldBy(w.threads, j, id);
      } else {
        assert !HeldBy(w.threads, i, id);
        forall j: nat ensures !HeldBy(next.threads, j, id) {
          assert !HeldBy(w.threads, j, id);
        }
      }
    }
  }

  // ----- steps from outside -----

  /** A run whose thread, if it has one, still fits it. */
  predicate Steady(run: Run, next: Run) {
    next.status == run.status || (Unstarted(run) && Unstarted(next))
  }

  /** Threads that join, each for a run no thread held and none waits for. */
  ghost predicate Joins(w: World, next: World, joined: seq<Thread>) {
    && next.threads == w.threads + joined
    && (forall k | 0 <= k < |joined| ::
          && joined[k].Holds().Some? && joined[k].id in w.used && joined[k].id !in next.state.waiting
          && (forall i: nat :: !HeldBy(w.threads, i, joined[k].id))
          && (joined[k].id in next.state.runs ==> Fits(next.state.runs[joined[k].id], joined[k])))
    && (forall k, l | 0 <= k < l < |joined| :: joined[k].id != joined[l].id)
  }

  /** What a step from outside may do to the runs it does not hand to a thread. */
  ghost predicate Outside(w: World, next: World) {
    && NoneRevived(w.state, next.state) && Asked(next.state) && next.used == w.used
    && (forall id <- next.state.waiting :: id in w.state.waiting)
    && (forall id <- next.state.runs | id in w.state.waiting || exists i: nat :: HeldBy(w.threads, i, id) ::
          Steady(w.state.runs[id], next.state.runs[id]))
  }

  lemma OutsideSound(w: World, next: World, joined: seq<Thread>)
    requires Sound(w) && Joins(w, next, joined) && Outside(w, next)
    ensures Sound(next)
  {
    OutsideApart(w, next, joined);
    OutsidePlaced(w, next, joined);
    OutsideQueued(w, next, joined);
    OutsideKnown(w, next, joined);
    hide Apart, Placed, Queued, Known, Joins;
    StillOneLive(w.state, next.state);
  }

  /** A thread of the larger list is an old one or one that joined. */
  lemma WhichThread(w: World, next: World, joined: seq<Thread>, i: nat, id: Id)
    requires next.threads == w.threads + joined && HeldBy(next.threads, i, id)
    ensures if i < |w.threads| then HeldBy(w.threads, i, id)
            else i - |w.threads| < |joined| && joined[i - |w.threads|].Holds() == Some(id)
  {
  }

  lemma OutsideApart(w: World, next: World, joined: seq<Thread>)
    requires Apart(w) && Joins(w, next, joined)
    ensures Apart(next)
  {
    var n := |w.threads|;
    forall i: nat, j: nat, id | HeldBy(next.threads, i, id) && HeldBy(next.threads, j, id) ensures i == j {
      WhichThread(w, next, joined, i, id);
      WhichThread(w, next, joined, j, id);
    }
  }

  lemma OutsidePlaced(w: World, next: World, joined: seq<Thread>)
    requires Sound(w) && Joins(w, next, joined) && Outside(w, next)
    ensures Placed(next)
  {
    hide Apart, Queued, Known, OneLive, Asked;
    forall i: nat, id | HeldBy(next.threads, i, id) && id in next.state.runs
      ensures Fits(next.state.runs[id], next.threads[i])
    {
      WhichThread(w, next, joined, i, id);
      if i < |w.threads| {
        assert HeldBy(w.threads, i, id) && id in w.state.runs && next.threads[i] == w.threads[i];
        assert Fits(w.state.runs[id], w.threads[i]) && Steady(w.state.runs[id], next.state.runs[id]);
        assert w.threads[i].Drives() ==> !Unstarted(w.state.runs[id]);
      }
    }
  }

  lemma OutsideQueued(w: World, next: World, joined: seq<Thread>)
    requires Sound(w) && Joins(w, next, joined) && Outside(w, next)
    ensures Queued(next)
  {
    hide Apart, Placed, Known, OneLive, Asked, Fits;
    forall id <- next.state.waiting
      ensures id in next.state.runs ==> Unstarted(next.state.runs[id])
      ensures forall i: nat :: !HeldBy(next.threads, i, id)
    {
      forall i: nat | HeldBy(next.threads, i, id) ensures HeldBy(w.threads, i, id) {
        WhichThread(w, next, joined, i, id);
      }
      if id in next.state.runs { assert Steady(w.state.runs[id], next.state.runs[id]); }
    }
  }

  lemma OutsideKnown(w: World, next: World, joined: seq<Thread>)
    requires Known(w) && Joins(w, next, joined) && Outside(w, next)
    ensures Known(next)
  {
    hide Asked;
    forall i: nat, id | HeldBy(next.threads, i, id) ensures id in next.used {
      WhichThread(w, next, joined, i, id);
    }
  }

  lemma SendSound(w: World, e: Event)
    requires Sound(w) && e.Send? && Enabled(w, e)
    ensures Sound(Next(w, e))
  {
    var next := Next(w, e);
    if next != w {
      assert !Busy(w.state, e.chat);
      var n := |w.threads|;
      forall i: nat, id | HeldBy(next.threads, i, id) ensures if i < n then HeldBy(w.threads, i, id) else i == n && id == e.id {}
      assert forall i: nat :: !HeldBy(w.threads, i, e.id);
    }
  }

  /** A finished answer whose calls wait is held by no thread, and waits for nothing. */
  lemma HasCallsFree(w: World, id: Id)
    requires Sound(w) && HasCalls(w.state, id)
    ensures id in w.used && id !in w.state.waiting && forall i: nat :: !HeldBy(w.threads, i, id)
  {
    hide Apart, OneLive, Asked;
    assert forall i: nat | HeldBy(w.threads, i, id) :: Fits(w.state.runs[id], w.threads[i]);
  }

  lemma ResultsSound(w: World, e: Event)
    requires Sound(w) && e.Results?
    ensures Sound(Next(w, e))
  {
    if HasCalls(w.state, e.id) {
      HasCallsFree(w, e.id);
      assert Asked(Next(w, e).state);
      OutsideSound(w, Next(w, e), [Preparing(e.id, e.tools)]);
    }
  }

  lemma HandOverSound(w: World, e: Event)
    requires Sound(w) && e.HandOver?
    ensures Sound(Next(w, e))
  {
    if HasCalls(w.state, e.id) {
      HasCallsFree(w, e.id);
      assert Asked(Next(w, e).state);
      OutsideSound(w, Next(w, e), [RoundStarting(e.id)]);
    }
  }

  lemma ConsentSound(w: World, e: Event)
    requires Sound(w) && e.Consent? && Enabled(w, e)
    ensures Sound(Next(w, e))
  {
    var joined := Starting(e.ready);
    forall k | 0 <= k < |joined| ensures joined[k].id in WaitFor(w.state, e.provider) {}
    OutsideSound(w, Next(w, e), joined);
  }

  /** What a step from outside may do to the runs alone. */
  ghost predicate Mild(s: State, next: State) {
    && NoneRevived(s, next) && Asked(next) && (forall id <- next.waiting :: id in s.waiting)
    && (forall id <- next.runs | id in s.runs :: Steady(s.runs[id], next.runs[id]) || HasCalls(s, id))
  }

  lemma MildOutside(w: World, next: World)
    requires Sound(w) && Mild(w.state, next.state) && next.used == w.used
    ensures Outside(w, next)
  {
    hide Steady;
    forall id <- next.state.runs | HasCalls(w.state, id)
      ensures id !in w.state.waiting && forall i: nat :: !HeldBy(w.threads, i, id)
    {
      HasCallsFree(w, id);
    }
    hide Apart, Placed, Queued, Known, OneLive;
  }

  lemma StopMild(s: State, id: Id)
    requires Asked(s)
    ensures Mild(s, Stop(s, id))
  {
  }

  lemma AnswerMild(s: State, id: Id, call: Id, allow: bool)
    requires Asked(s)
    ensures Mild(s, AnswerTool(s, id, call, allow))
  {
    SameMild(s);
    if Answers(s, id, call) {
      AnsweredRun(s, id, call, allow);
      hide AnswerTool, Answers;
    }
  }

  lemma AnsweredRun(s: State, id: Id, call: Id, allow: bool)
    requires Answers(s, id, call)
    ensures var next := AnswerTool(s, id, call, allow);
      && next.waiting == s.waiting && id in next.runs && next.runs == s.runs[id := next.runs[id]]
      && next.runs[id].status == s.runs[id].status && next.runs[id].chat == s.runs[id].chat
      && next.runs[id].ask == s.runs[id].ask && next.runs[id].Live() == s.runs[id].Live()
  {
  }

  lemma RefusedMild(s: State, provider: Id, status: Status)
    requires Asked(s) && status in {Failed, Denied}
    requires forall id <- s.waiting | id in s.runs :: Unstarted(s.runs[id])
    ensures Mild(s, Refused(s, provider, status))
  {
  }

  lemma DisturbedRun(run: Run, round: nat)
    requires run.ask ==> run.status == WaitingForConsent
    ensures var next := Disturbed(run, round);
      && next.chat == run.chat && (next.Live() ==> run.Live()) && (next.ask ==> next.status == WaitingForConsent)
      && (Steady(run, next) || (run.Live() && run.status == Completed))
  {
  }

  lemma PluginMild(s: State, plugin: Id, orphans: seq<Id>)
    requires Asked(s)
    ensures Mild(s, PluginDisabled(s, plugin, orphans))
  {
    hide Disturbed, Steady, IndexOf;
    forall id <- s.runs { DisturbedRun(s.runs[id], s.rounds + IndexOf(orphans, id)); }
    SteadySelf();
  }

  lemma SteadySelf()
    ensures forall run: Run :: Steady(run, run)
  {
  }

  lemma MildSound(w: World, next: World)
    requires Sound(w) && Mild(w.state, next.state) && next.threads == w.threads && next.used == w.used
    ensures Sound(next)
  {
    hide Sound, Mild;
    assert next.threads == w.threads + [];
    MildOutside(w, next);
    OutsideSound(w, next, []);
  }

  lemma SetMild(s: State, e: Event)
    requires Asked(s) && forall id <- s.waiting | id in s.runs :: Unstarted(s.runs[id])
    ensures Mild(s, Set(s, e))
  {
    hide Mild, Asked, Stop, Refused;
    match e
    case RefuseAll(provider, removed) => RefusedMild(s, provider, if removed then Failed else Denied);
    case StopRun(id) => StopMild(s, id);
    case WorkspaceChanged => ClosedMild(s);
    case _ => SameMild(s);
  }

  lemma SetSound(w: World, e: Event)
    requires Sound(w) && (e.RefuseAll? || e.StopRun? || e.WorkspaceChanged?)
    ensures Sound(Next(w, e))
  {
    SetMild(w.state, e);
    hide Sound, Mild, Set;
    MildSound(w, Next(w, e));
  }

  lemma PromptSound(w: World, e: Event)
    requires Sound(w) && e.PromptAnswered?
    ensures Sound(Next(w, e))
  {
    AnswerMild(w.state, e.id, e.asked, e.allow);
    hide Sound, Mild, AnswerTool, Answers;
    if Next(w, e) != w { MildSound(w, Next(w, e)); }
  }

  lemma SameMild(s: State)
    requires Asked(s)
    ensures Mild(s, s)
  {
  }

  lemma ClosedMild(s: State)
    ensures Mild(s, Closed(s))
  {
  }

  lemma OrphanFree(w: World, plugin: Id, orphans: seq<Id>, k: nat)
    requires Sound(w) && Lists(orphans, Orphaned(w.state, plugin)) && k < |orphans|
    ensures var id, next := orphans[k], PluginDisabled(w.state, plugin, orphans);
      && id in w.used && id !in w.state.waiting && (forall i: nat :: !HeldBy(w.threads, i, id))
      && id in next.runs && next.runs[id].status == WaitingForApproval
      && id !in next.waiting
  {
    assert orphans[k] in Orphaned(w.state, plugin);
    HasCallsFree(w, orphans[k]);
    hide Sound;
  }

  lemma PluginJoins(w: World, e: Event)
    requires Sound(w) && e.PluginGone? && Enabled(w, e)
    ensures Joins(w, Next(w, e), if e.open then Orphans(e.orphans) else [])
  {
    forall k | 0 <= k < |e.orphans| { OrphanFree(w, e.plugin, e.orphans, k); }
    hide Sound, PluginDisabled;
    assert !e.open ==> Next(w, e).threads == w.threads + [];
  }

  lemma PluginGoneSound(w: World, e: Event)
    requires Sound(w) && e.PluginGone? && Enabled(w, e)
    ensures Sound(Next(w, e))
  {
    PluginJoins(w, e);
    assert Asked(w.state);
    PluginMild(w.state, e.plugin, e.orphans);
    hide PluginDisabled, Mild, Sound, Joins;
    MildOutside(w, Next(w, e));
    OutsideSound(w, Next(w, e), if e.open then Orphans(e.orphans) else []);
  }

  predicate FromOutside(e: Event) {
    || e.Send? || e.Results? || e.HandOver? || e.Consent? || e.RefuseAll? || e.StopRun? || e.PromptAnswered?
    || e.PluginGone? || e.WorkspaceChanged?
  }

  lemma NextSound(w: World, e: Event)
    requires Sound(w) && Enabled(w, e)
    ensures Sound(Next(w, e))
  {
    if FromOutside(e) {
      hide Sound, Next, Enabled;
      match e
      case Send(_, _, _, _, _, _) => SendSound(w, e);
      case Results(_, _) => ResultsSound(w, e);
      case HandOver(_, _) => HandOverSound(w, e);
      case Consent(_, _) => ConsentSound(w, e);
      case PluginGone(_, _, _) => PluginGoneSound(w, e);
      case PromptAnswered(_, _, _) => PromptSound(w, e);
      case _ => SetSound(w, e);
    } else if e.thread < |w.threads| {
      hide Own, OwnEffect;
      var t := w.threads[e.thread];
      if t.Holds().Some? { assert HeldBy(w.threads, e.thread, t.id); }
      OwnEffects(w.state, t, e);
      OwnSound(w, e.thread, Own(w.state, t, e));
    }
  }

  // ----- over whole runs -----

  lemma {:induction false} RunSound(events: seq<Event>)
    requires AllEnabled(QUIET, events)
    ensures Sound(After(QUIET, events))
  {
    hide Next, Enabled;
    if events != [] {
      var n := |events| - 1;
      EnabledPrefix(QUIET, events, n);
      RunSound(events[..n]);
      hide Sound;
      NextSound(After(QUIET, events[..n]), events[n]);
    }
  }

  lemma EnabledPrefix(w: World, events: seq<Event>, n: nat)
    requires AllEnabled(w, events) && n < |events|
    ensures AllEnabled(w, events[..n]) && Enabled(After(w, events[..n]), events[n])
  {
    hide Enabled, After;
    forall i | 0 <= i < n ensures Enabled(After(w, events[..n][..i]), events[..n][i]) {
      assert events[..n][..i] == events[..i];
    }
  }

  /** However lock sections interleave: a chat has at most one live run, a run at most one
      thread, and a thread drives only a run that streams or has calls to settle. */
  lemma OneRunOneThread(events: seq<Event>)
    requires AllEnabled(QUIET, events)
    ensures var w := After(QUIET, events);
      && OneLive(w.state)
      && (forall i: nat, j: nat, id | HeldBy(w.threads, i, id) && HeldBy(w.threads, j, id) :: i == j)
      && (forall i: nat, id | HeldBy(w.threads, i, id) && id in w.state.runs && w.threads[i].Drives() ::
            w.state.runs[id].Live())
  {
    hide After;
    RunSound(events);
    hide Queued, Known, Asked;
    var w := After(QUIET, events);
    forall i: nat, id | HeldBy(w.threads, i, id) && id in w.state.runs && w.threads[i].Drives()
      ensures w.state.runs[id].Live()
    {
      assert Fits(w.state.runs[id], w.threads[i]);
    }
  }

  /** No step makes a run that ended live again. */
  lemma StepRevivesNone(w: World, e: Event)
    requires Sound(w) && Enabled(w, e)
    ensures forall id <- Next(w, e).state.runs | id in w.used :: id in w.state.runs && (Next(w, e).state.runs[id].Live() ==> w.state.runs[id].Live())
    ensures w.used <= Next(w, e).used
  {
    if e.Send? {
    } else if FromOutside(e) {
      OutsideRevivesNone(w, e);
      hide Next, Sound, Enabled;
    } else if e.thread < |w.threads| {
      hide Own, OwnEffect;
      var t := w.threads[e.thread];
      if t.Holds().Some? { assert HeldBy(w.threads, e.thread, t.id); }
      OwnEffects(w.state, t, e);
      assert NoneRevived(w.state, Own(w.state, t, e).state) by { OwnRevivesNone(w.state, t, Own(w.state, t, e)); }
    }
  }

  lemma OwnRevivesNone(s: State, t: Thread, section: Section)
    requires OwnEffect(s, t, section)
    ensures NoneRevived(s, section.state)
  {
  }

  lemma HandedRevivesNone(s: State, id: Id, offered: map<string, Target>, provider: Id)
    ensures NoneRevived(s, AnswerTools(s, id)) && NoneRevived(s, RunTools(s, id, offered))
    ensures NoneRevived(s, AiRuns.Granted(s, provider))
  {
  }

  lemma MildRevivesNone(s: State, next: State)
    requires Mild(s, next)
    ensures NoneRevived(s, next)
  {
  }

  lemma HandedRunRevivesNone(w: World, e: Event)
    requires Sound(w) && (e.Results? || e.HandOver?)
    ensures NoneRevived(w.state, Next(w, e).state) && Next(w, e).used == w.used
  {
    hide Sound, AnswerTools, RunTools, NoneRevived, HasCalls;
    HandedRevivesNone(w.state, e.id, if e.HandOver? then e.offered else map[], "");
    UnchangedRevivesNone(w.state);
  }

  lemma ConsentRevivesNone(w: World, e: Event)
    requires Sound(w) && (e.Consent?)
    ensures NoneRevived(w.state, Next(w, e).state) && Next(w, e).used == w.used
  {
    hide Sound, AiRuns.Granted, NoneRevived;
    HandedRevivesNone(w.state, "", map[], e.provider);
  }

  lemma PluginRevivesNone(w: World, e: Event)
    requires Sound(w) && (e.PluginGone?)
    ensures NoneRevived(w.state, Next(w, e).state) && Next(w, e).used == w.used
  {
    assert Asked(w.state);
    hide Sound, PluginDisabled, NoneRevived, Mild;
    PluginMild(w.state, e.plugin, e.orphans);
    MildRevivesNone(w.state, PluginDisabled(w.state, e.plugin, e.orphans));
  }

  lemma PromptRevivesNone(w: World, e: Event)
    requires Sound(w) && (e.PromptAnswered?)
    ensures NoneRevived(w.state, Next(w, e).state) && Next(w, e).used == w.used
  {
    assert Asked(w.state);
    hide Sound, AnswerTool, Answers, NoneRevived, Mild;
    UnchangedRevivesNone(w.state);
    AnswerMild(w.state, e.id, e.asked, e.allow);
    MildRevivesNone(w.state, AnswerTool(w.state, e.id, e.asked, e.allow));
  }

  lemma SetRevivesNone(w: World, e: Event)
    requires Sound(w) && (e.RefuseAll? || e.StopRun? || e.WorkspaceChanged?)
    ensures NoneRevived(w.state, Next(w, e).state) && Next(w, e).used == w.used
  {
    assert forall id <- w.state.waiting | id in w.state.runs :: Unstarted(w.state.runs[id]);
    assert Asked(w.state);
    hide Sound, Set, NoneRevived, Mild;
    SetMild(w.state, e);
    MildRevivesNone(w.state, Set(w.state, e));
  }

  lemma UnchangedRevivesNone(s: State)
    ensures NoneRevived(s, s)
  {
  }

  lemma OutsideRevivesNone(w: World, e: Event)
    requires Sound(w) && FromOutside(e) && !e.Send?
    ensures NoneRevived(w.state, Next(w, e).state) && Next(w, e).used == w.used
  {
    hide Sound, Next, NoneRevived;
    match e
    case PluginGone(_, _, _) => PluginRevivesNone(w, e);
    case PromptAnswered(_, _, _) => PromptRevivesNone(w, e);
    case Results(_, _) => HandedRunRevivesNone(w, e);
    case HandOver(_, _) => HandedRunRevivesNone(w, e);
    case Consent(_, _) => ConsentRevivesNone(w, e);
    case _ => SetRevivesNone(w, e);
  }

  /** A run that ended is over for good, through anything that happens later. */
  lemma {:induction false} EndedForGood(events: seq<Event>, more: seq<Event>, id: Id)
    requires AllEnabled(QUIET, events + more)
    requires id in After(QUIET, events).used
    requires id in After(QUIET, events).state.runs ==> !After(QUIET, events).state.runs[id].Live()
    ensures var w := After(QUIET, events + more);
      id in w.used && (id in w.state.runs ==> !w.state.runs[id].Live())
    decreases |more|
  {
    hide Next, Enabled;
    if more == [] {
      assert events + more == events;
    } else {
      var n := |more| - 1;
      var all := events + more;
      assert all[..|all| - 1] == events + more[..n] && all[|all| - 1] == more[n];
      EnabledPrefix(QUIET, all, |all| - 1);
      EndedForGood(events, more[..n], id);
      RunSound(events + more[..n]);
      StepRevivesNone(After(QUIET, events + more[..n]), more[n]);
    }
  }
}