/** The queues of runs that wait for you: for consent to a provider, and for the prompt about
    their tool calls. */
module AiQueues {
  import opened Wrappers
  import opened AiRuns
  import opened AiThreads
  import opened AiTheorems
  import opened AiTools
  import opened AiStopMissed

  /** A thread that dropped the run's prompt and is about to fail the run. */
  ghost predicate Dropped(threads: seq<Thread>, id: Id) { exists t <- threads :: t == RoundDropped(id) }

  /** A thread that is about to start the run or to queue it. */
  ghost predicate Held(threads: seq<Thread>, id: Id) {
    exists t <- threads :: t == Beginning(id) || t == Consented(id)
  }

  /** The prompt's queue holds exactly the runs whose calls are being settled, until their
      round fails. */
  ghost predicate Prompted(w: World) {
    && (forall id <- w.state.approvals :: id in w.state.runs)
    && (forall id <- w.state.runs ::
          id in w.state.approvals <==> w.state.runs[id].status == WaitingForApproval && !Dropped(w.threads, id))
  }

  /** A run that waits for consent still has what to ask, and is queued or about to be. */
  ghost predicate Remembered(w: World) {
    forall id <- w.state.runs | w.state.runs[id].status == WaitingForConsent ::
      w.state.runs[id].ask && (id in w.state.waiting || Held(w.threads, id))
  }

  ghost predicate QueuesSound(w: World) { Prompted(w) && Remembered(w) }

  // ----- own steps -----

  /** What a section does to the queues: they follow its own run and thread. */
  ghost predicate Queues(s: State, t: Thread, section: Section) {
    var next, u := section.state, section.thread;
    && next.runs.Keys == s.runs.Keys
    && (forall id <- s.runs | t.Holds() != Some(id) :: next.runs[id] == s.runs[id])
    && (forall id | t.Holds() != Some(id) :: (id in next.approvals <==> id in s.approvals) && (id in next.waiting <==> id in s.waiting))
    && (t.Holds().Some? && t.id in s.runs ==>
          var run := next.runs[t.id];
          && (t.id in next.approvals <==> run.status == WaitingForApproval && u != RoundDropped(t.id))
          && (run.status == WaitingForConsent ==>
                run.ask && (t.id in next.waiting || u == Beginning(t.id) || u == Consented(t.id))))
    && (t.Holds().Some? && t.id !in s.runs ==> (t.id in next.approvals ==> t.id in s.approvals))
    && (u.Holds().None? || u.Holds() == t.Holds())
  }

  /** A thread's own run is queued as it should be. */
  predicate QueuedRight(s: State, t: Thread) {
    t.Holds().Some? && t.id in s.runs ==>
      && Fits(s.runs[t.id], t)
      && (t.id in s.approvals <==> s.runs[t.id].status == WaitingForApproval && !t.RoundDropped?)
      && (s.runs[t.id].status == WaitingForConsent ==>
            s.runs[t.id].ask && (t.id in s.waiting || t.Beginning? || t.Consented?))
  }

  lemma StartQueues(s: State, t: Thread, e: Event)
    requires (e.Enqueue? || e.StartRun? || e.Prepared?) && QueuedRight(s, t)
    ensures Queues(s, t, Own(s, t, e))
  {
    hide OwnRound;
  }

  lemma StreamQueues(s: State, t: Thread, e: Event)
    requires (e.StreamOpens? || e.StreamCall? || e.StreamCloses?) && QueuedRight(s, t)
    ensures Queues(s, t, Own(s, t, e))
  {
    hide OwnRound;
  }

  lemma FailQueues(s: State, t: Thread, e: Event)
    requires (e.AnswerOver? || e.Fails?) && QueuedRight(s, t)
    ensures Queues(s, t, Own(s, t, e))
  {
    hide OwnRound, HowEnded;
  }

  lemma EndQueues(s: State, t: Thread, e: Event)
    requires e.AnswerWritten? && QueuedRight(s, t)
    ensures Queues(s, t, Own(s, t, e))
  {
    hide OwnRound, HowEnded;
  }

  lemma InsideQueues(s: State, t: Thread, e: Event)
    requires (e.RoundStarts? || e.Decides? || e.Calls? || e.Writes?) && QueuedRight(s, t)
    ensures Queues(s, t, OwnRound(s, t, e))
  {
    hide Decide;
  }

  lemma LeaveQueues(s: State, t: Thread, e: Event)
    requires (e.RoundEnds? || e.RoundDrops? || e.RoundStops?) && QueuedRight(s, t)
    ensures Queues(s, t, OwnRound(s, t, e))
  {
    hide Decide;
  }

  lemma OwnQueues(s: State, t: Thread, e: Event)
    requires !FromOutside(e) && QueuedRight(s, t)
    ensures Queues(s, t, Own(s, t, e))
  {
    hide Own, OwnRound, Queues, QueuedRight;
    if OfRound(e) {
      RoundIs(s, t, e);
      if e.RoundEnds? || e.RoundDrops? || e.RoundStops? { LeaveQueues(s, t, e); } else { InsideQueues(s, t, e); }
    } else if e.Enqueue? || e.StartRun? || e.Prepared? {
      StartQueues(s, t, e);
    } else if e.StreamOpens? || e.StreamCall? || e.StreamCloses? {
      StreamQueues(s, t, e);
    } else if e.AnswerWritten? {
      EndQueues(s, t, e);
    } else {
      FailQueues(s, t, e);
    }
  }

  /** Only the thread at `i` holds its run. */
  lemma HeldAlone(w: World, i: nat, u: Thread)
    requires Apart(w) && i < |w.threads| && (u.Holds().None? || u.Holds() == w.threads[i].Holds())
    ensures var threads, mine := w.threads[i := u], w.threads[i].Holds();
      && (forall id | mine != Some(id) :: Dropped(threads, id) == Dropped(w.threads, id) && Held(threads, id) == Held(w.threads, id))
      && (mine.Some? ==>
            && (Dropped(threads, mine.value) <==> u == RoundDropped(mine.value))
            && (Held(threads, mine.value) <==> u == Beginning(mine.value) || u == Consented(mine.value)))
  {
    OthersHold(w, i);
    var threads := w.threads[i := u];
    assert threads[i] == u && u in threads && w.threads[i] in w.threads;
    forall t <- threads ensures t == u || (t in w.threads && (t.Holds().Some? ==> t.Holds() != w.threads[i].Holds())) {
      var k :| 0 <= k < |threads| && threads[k] == t;
      if k != i { assert t == w.threads[k]; }
    }
    forall t <- w.threads | t.Holds().Some? && t.Holds() != w.threads[i].Holds() ensures t in threads {
      var k :| 0 <= k < |w.threads| && w.threads[k] == t;
      assert threads[k] == t;
    }
  }

  lemma OwnQueuesSound(w: World, e: Event)
    requires Sound(w) && QueuesSound(w) && !FromOutside(e) && e.thread < |w.threads|
    ensures QueuesSound(Next(w, e))
  {
    var i, t := e.thread, w.threads[e.thread];
    HeldAlone(w, i, t);
    assert w.threads[i := t] == w.threads;
    if t.Holds().Some? { assert HeldBy(w.threads, i, t.id); }
    assert QueuedRight(w.state, t);
    OwnIs(w, e);
    OwnQueues(w.state, t, e);
    var section, next := Own(w.state, t, e), Next(w, e);
    HeldAlone(w, i, section.thread);
    hide Own, Next, Sound, Dropped, Held, Fits;
    SectionQueues(w, i, section, next);
  }

  lemma SectionQueues(w: World, i: nat, section: Section, next: World)
    requires i < |w.threads| && QueuesSound(w) && Queues(w.state, w.threads[i], section)
    requires next.state == section.state && next.threads == w.threads[i := section.thread]
    requires var threads, mine := w.threads[i := section.thread], w.threads[i].Holds();
      && (forall id | mine != Some(id) :: Dropped(threads, id) == Dropped(w.threads, id) && Held(threads, id) == Held(w.threads, id))
      && (mine.Some? ==>
            && (Dropped(threads, mine.value) <==> section.thread == RoundDropped(mine.value))
            && (Held(threads, mine.value) <==> section.thread == Beginning(mine.value) || section.thread == Consented(mine.value)))
    ensures QueuesSound(next)
  {
    hide Dropped, Held;
    var mine := w.threads[i].Holds();
    forall id <- next.state.approvals ensures id in next.state.runs {
      assert id in w.state.approvals || mine == Some(id);
    }
  }

  // ----- steps from outside -----

  /** Threads that join drop no prompt; none leaves. */
  lemma Joining(threads: seq<Thread>, more: seq<Thread>, id: Id)
    requires forall t <- more :: !t.RoundDropped?
    ensures Dropped(threads + more, id) == Dropped(threads, id)
    ensures Held(threads, id) || Held(more, id) ==> Held(threads + more, id)
  {
    assert forall t <- threads + more :: t in threads || t in more;
    assert forall t <- threads :: t in threads + more;
    assert forall t <- more :: t in threads + more;
  }

  lemma SendQueues(w: World, e: Event)
    requires Sound(w) && QueuesSound(w) && e.Send? && Enabled(w, e)
    ensures QueuesSound(Next(w, e))
  {
    if Next(w, e) != w {
      forall id { Joining(w.threads, [Beginning(e.id)], id); }
      assert Held([Beginning(e.id)], e.id) by { assert Beginning(e.id) in [Beginning(e.id)]; }
      assert e.id !in w.state.runs && e.id !in w.state.approvals;
      hide Sound, Dropped, Held, Busy;
    }
  }

  lemma HandQueues(w: World, e: Event)
    requires Sound(w) && QueuesSound(w) && (e.Results? || e.HandOver?)
    ensures QueuesSound(Next(w, e))
  {
    if HasCalls(w.state, e.id) {
      NotHeld(w, e.id);
      assert !Dropped(w.threads, e.id);
      var joined := if e.Results? then Preparing(e.id, e.tools) else RoundStarting(e.id);
      assert Next(w, e).threads == w.threads + [joined];
      forall id { Joining(w.threads, [joined], id); }
      hide Sound, Dropped, Held;
    }
  }

  lemma ConsentQueues(w: World, e: Event)
    requires QueuesSound(w) && e.Consent? && Enabled(w, e)
    ensures QueuesSound(Next(w, e))
  {
    var joined := Starting(e.ready);
    assert forall t <- joined :: t.Consented?;
    forall id { Joining(w.threads, joined, id); }
    forall id | id in WaitFor(w.state, e.provider) ensures Held(joined, id) {
      assert id in e.ready;
      var k :| 0 <= k < |e.ready| && e.ready[k] == id;
      assert joined[k] == Consented(id) && joined[k] in joined;
    }
    hide Dropped, Held, Starting;
  }

  lemma RefuseQueues(w: World, e: Event)
    requires Sound(w) && QueuesSound(w) && e.RefuseAll?
    ensures QueuesSound(Next(w, e))
  {
    hide Apart, Placed, Known, OneLive, Asked, Dropped, Held;
  }

  lemma StopQueues(w: World, e: Event)
    requires QueuesSound(w) && (e.StopRun? || e.WorkspaceChanged?)
    ensures QueuesSound(Next(w, e))
  {
    hide Dropped, Held;
  }

  lemma PromptQueues(w: World, e: Event)
    requires QueuesSound(w) && e.PromptAnswered?
    ensures QueuesSound(Next(w, e))
  {
    hide Dropped, Held;
  }

  lemma PluginQueued(s: State, plugin: Id, orphans: seq<Id>, id: Id)
    requires id in s.runs && Lists(orphans, Orphaned(s, plugin))
    ensures var next := PluginDisabled(s, plugin, orphans);
      && id in next.runs
      && (next.runs[id].status == WaitingForApproval <==> s.runs[id].status == WaitingForApproval || id in orphans)
      && (next.runs[id].status == WaitingForConsent ==>
            next.runs[id] == s.runs[id] && (id in s.waiting ==> id in next.waiting))
  {
  }

  lemma PluginQueues(w: World, e: Event)
    requires Sound(w) && QueuesSound(w) && e.PluginGone? && Enabled(w, e)
    ensures QueuesSound(Next(w, e))
  {
    var s, next := w.state, Next(w, e);
    PluginIs(w, e);
    forall id <- s.runs { PluginQueued(s, e.plugin, e.orphans, id); }
    var joined := if e.open then Orphans(e.orphans) else [];
    assert forall t <- joined :: t.RoundStarting?;
    forall id { Joining(w.threads, joined, id); }
    forall id | id in e.orphans ensures id in s.runs && !Dropped(w.threads, id) {
      assert id in Orphaned(s, e.plugin);
    }
    assert next.state.approvals == s.approvals + e.orphans;
    assert next.state.runs.Keys == s.runs.Keys;
    hide Sound, Next, Enabled, Lists, Orphaned, Dropped, Held, PluginDisabled, Orphans;
  }

  lemma NextQueues(w: World, e: Event)
    requires Sound(w) && QueuesSound(w) && Enabled(w, e)
    ensures QueuesSound(Next(w, e))
  {
    hide Next, Enabled, Sound, QueuesSound;
    match e
    case Send(_, _, _, _, _, _) => SendQueues(w, e);
    case Results(_, _) => HandQueues(w, e);
    case HandOver(_, _) => HandQueues(w, e);
    case Consent(_, _) => ConsentQueues(w, e);
    case RefuseAll(_, _) => RefuseQueues(w, e);
    case PluginGone(_, _, _) => PluginQueues(w, e);
    case StopRun(_) => StopQueues(w, e);
    case PromptAnswered(_, _, _) => PromptQueues(w, e);
    case WorkspaceChanged => StopQueues(w, e);
    case _ => if e.thread < |w.threads| { OwnQueuesSound(w, e); } else { NoThread(w, e); }
  }

  lemma NoThread(w: World, e: Event)
    requires !FromOutside(e) && e.thread >= |w.threads|
    ensures Next(w, e) == w
  {
  }

  lemma {:induction false} RunQueues(events: seq<Event>)
    requires AllEnabled(QUIET, events)
    ensures QueuesSound(After(QUIET, events))
  {
    hide Next, Enabled;
    if events != [] {
      var n := |events| - 1;
      EnabledPrefix(QUIET, events, n);
      RunQueues(events[..n]);
      RunSound(events[..n]);
      hide QueuesSound, Sound;
      NextQueues(After(QUIET, events[..n]), events[n]);
    }
  }

  /** However lock sections interleave: the prompt's queue holds exactly the runs whose calls
      are being settled, until their round fails; and a run that waits for consent is in the
      queue of its provider, or in the hands of a thread that starts or queues it. */
  lemma QueuesExact(events: seq<Event>, id: Id)
    requires AllEnabled(QUIET, events)
    ensures var w := After(QUIET, events);
      && (id in w.state.approvals <==>
            && id in w.state.runs && w.state.runs[id].status == WaitingForApproval
            && forall t <- w.threads :: t != RoundDropped(id))
      && (id in w.state.runs && w.state.runs[id].status == WaitingForConsent ==>
            id in w.state.waiting || exists t <- w.threads :: t == Beginning(id) || t == Consented(id))
  {
    RunQueues(events);
    hide After, AllEnabled;
  }
}
