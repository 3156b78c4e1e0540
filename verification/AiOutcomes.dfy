/** How runs begin, go on and end: what each event leaves of the run it is about, status by
    status, and that it touches no other. */
module AiOutcomes {
  import opened Wrappers
  import opened AiRuns
  import opened AiThreads
  import opened AiTheorems

  /** Every run but this one is as it was. */
  ghost predicate OnlyRun(s: State, next: State, id: Id) {
    && next.runs.Keys == s.runs.Keys && id in s.runs
    && forall other <- s.runs | other != id :: next.runs[other] == s.runs[other]
  }

  // ----- beginning -----

  /** A run begins exactly when none in its chat streams, waits for you, or has calls that
      nobody ran; it then waits for consent with all it was sent with. */
  lemma BeginsExactly(s: State, id: Id, plugin: Id, chat: Id, provider: Id, tools: seq<string>, reliesOn: set<Id>)
    ensures Begin(s, id, plugin, chat, provider, tools, reliesOn).None? <==>
      exists other <- s.runs ::
        var run := s.runs[other];
        && run.chat == chat
        && (run.status in {Streaming, WaitingForConsent, WaitingForApproval}
            || (run.status == Completed && run.toolCalls != [] && run.calls == []))
    ensures Begin(s, id, plugin, chat, provider, tools, reliesOn).Some? ==>
      var next := Begin(s, id, plugin, chat, provider, tools, reliesOn).value;
      && id in next.runs && next == s.(runs := s.runs[id := next.runs[id]])
      && var run := next.runs[id];
         && run.status == WaitingForConsent && run.plugin == plugin && run.chat == chat && run.provider == provider
         && run.tools == tools && run.reliesOn == reliesOn && run.toolCalls == [] && run.calls == []
         && !run.interrupted && !run.stopRequested && !run.operation && run.asking.None?
  {
  }

  /** A run starts only from what waits for consent, and then streams. */
  lemma StartsOnce(s: State, t: Thread, e: Event)
    requires e.StartRun? && (t.Beginning? || t.Consented?)
    ensures var section := Own(s, t, e);
      if t.id in s.runs && s.runs[t.id].ask then
        && OnlyRun(s, section.state, t.id) && section.thread == Preparing(t.id, s.runs[t.id].tools)
        && section.state.runs[t.id] == s.runs[t.id].(ask := false, status := Streaming)
      else section == Move(s, Idle)
  {
    hide OwnRound;
  }

  // ----- answers -----

  /** How a stream ended is how its run ended, unless a plugin left it meanwhile or its answer
      could not be written. An answer written with calls waits for its plugin. */
  lemma AnswerEnds(s: State, id: Id, ended: AiRuns.Ended, written: bool)
    requires id in s.runs
    ensures var run, next := s.runs[id], EndRun(s, id, HowEnded(s, id, ended), written).runs[id];
      && OnlyRun(s, EndRun(s, id, HowEnded(s, id, ended), written), id)
      && !next.operation && !next.stopRequested && next.toolCalls == run.toolCalls && next.calls == run.calls
      && (!written || ended == AsFailed <==> next.status == Failed)
      && (written && ended == AsCompleted && !run.interrupted <==> next.status == Completed)
      && (written && ended == AsCancelled && !run.interrupted <==> next.status == Cancelled)
      && (written && (ended == AsInterrupted || (run.interrupted && ended != AsFailed)) <==> next.status == Interrupted)
      && (next.status == Interrupted ==> next.interrupted && !next.ask)
  {
  }

  /** A run that failed stays in its chat as failed, with no stream. */
  lemma FailEnds(s: State, id: Id)
    requires id in s.runs
    ensures OnlyRun(s, Fail(s, id), id) && Fail(s, id).runs[id] == s.runs[id].(status := Failed, operation := false)
  {
  }

  // ----- rounds -----

  /** A round that wrote its results ends its run as interrupted when a plugin left it, as
      cancelled when it was stopped, and goes on to the provider otherwise. */
  lemma RoundEndsAs(s: State, id: Id)
    requires id in s.runs
    ensures var run, next := s.runs[id], RoundOver(s, id).runs[id];
      && OnlyRun(s, RoundOver(s, id), id) && next.asking.None? && id !in RoundOver(s, id).approvals
      && (next.status == Interrupted <==> run.interrupted)
      && (next.status == Cancelled <==> !run.interrupted && run.stopRequested)
      && (next.status == Streaming <==> !run.interrupted && !run.stopRequested)
      && next.calls == run.calls && next.tools == run.tools && next.interrupted == run.interrupted
  {
  }

  /** What one look at a call decides: first a plugin that left, then a stop, then a tool
      that nobody registered, then your answer. */
  lemma DecidesExactly(s: State, id: Id, index: nat, pending: Pending, announced: bool)
    requires id in s.runs && index < |s.runs[id].calls|
    ensures var run, d := s.runs[id], Decide(s, id, index, pending, announced);
      && (d == Disabled <==> run.interrupted)
      && (d.Go? ==> !run.interrupted && !run.stopRequested && run.calls[index].answer == Some(true) && pending.target == Some(d.target))
      && (!run.interrupted && !run.stopRequested ==>
            && (d == Unknown <==> pending.target.None?)
            && (pending.target.Some? ==>
                  && (d == Go(pending.target.value) <==> run.calls[index].answer == Some(true))
                  && (d == Deny <==> run.calls[index].answer == Some(false))
                  && (d.Announce? || d.Wait? <==> run.calls[index].answer.None?)
                  && (run.calls[index].answer == None ==> (d == Announce <==> !announced))))
      && (!run.interrupted && run.stopRequested ==> d == Deny)
    ensures Decide(s.(runs := s.runs - {id}), id, index, pending, announced) == Deny
  {
    match s.runs[id].calls[index].answer
    case Some(true) =>
    case Some(false) =>
    case None =>
  }

  /** An answer to the prompt reaches the call it asks about, when it was not answered, and
      no other call of any run. */
  lemma AnswerReaches(s: State, id: Id, call: Id, allow: bool)
    ensures var next := AnswerTool(s, id, call, allow);
      if id in s.runs && (exists k :: s.runs[id].asking == Some(k) && k < |s.runs[id].calls|
                                      && s.runs[id].calls[k].call.id == call && s.runs[id].calls[k].answer == None) then
        && OnlyRun(s, next, id) && next.runs[id].asking.None? && |next.runs[id].calls| == |s.runs[id].calls|
        && forall i | 0 <= i < |s.runs[id].calls| ::
             next.runs[id].calls[i] ==
               if s.runs[id].asking == Some(i) then s.runs[id].calls[i].(answer := Some(allow)) else s.runs[id].calls[i]
      else next == s
  {
  }

  // ----- from outside -----

  /** What Stop does to a run, status by status. */
  lemma StopsAs(s: State, id: Id)
    requires id in s.runs
    ensures var run, next := s.runs[id], Stop(s, id);
      && OnlyRun(s, next, id) && next.approvals == s.approvals
      && (run.status == WaitingForConsent ==>
            next.runs[id] == run.(status := Cancelled, ask := false) && id !in next.waiting)
      && (run.status == WaitingForApproval || (run.status == Streaming && !run.operation) ==>
            next.runs[id] == run.(stopRequested := true))
      && (run.status !in {WaitingForConsent, WaitingForApproval} && !(run.status == Streaming && !run.operation) ==> next == s)
      && (forall other | other != id :: other in next.waiting <==> other in s.waiting)
  {
  }

  /** A denied prompt, or a removed provider, ends exactly the runs queued for that provider. */
  lemma RefusesExactly(s: State, provider: Id, status: Status)
    ensures var next := Refused(s, provider, status);
      && next.runs.Keys == s.runs.Keys && next.approvals == s.approvals
      && (forall id <- s.runs ::
            next.runs[id] == if id in s.waiting && s.runs[id].provider == provider
                             then s.runs[id].(status := status, ask := false) else s.runs[id])
      && (forall id :: id in next.waiting <==> id in s.waiting && !(id in s.runs && s.runs[id].provider == provider))
  {
  }

  /** Consent starts exactly the runs queued for that provider, and leaves the other queues. */
  lemma ConsentsExactly(w: World, e: Event)
    requires e.Consent? && Enabled(w, e)
    ensures var next := Next(w, e);
      && next.state.runs == w.state.runs
      && (forall id :: id in next.state.waiting <==>
            id in w.state.waiting && !(id in w.state.runs && w.state.runs[id].provider == e.provider))
      && (forall id :: Consented(id) in next.threads <==>
            || Consented(id) in w.threads
            || (id in w.state.waiting && id in w.state.runs && w.state.runs[id].provider == e.provider))
  {
    var joined := Starting(e.ready);
    forall id ensures Consented(id) in joined <==> id in e.ready {
      if id in e.ready {
        var k :| 0 <= k < |e.ready| && e.ready[k] == id;
        assert joined[k] == Consented(id);
      }
    }
    hide Starting;
  }

  /** A plugin that is turned off: a run it sent, or whose tools it gave, is interrupted now
      when it waits for consent, and flagged when it streams or settles calls; its calls that
      nobody ran get a round without targets. No other run changes. */
  lemma PluginLeavesExactly(s: State, plugin: Id, orphans: seq<Id>, id: Id)
    requires id in s.runs
    ensures var run, next := s.runs[id], PluginDisabled(s, plugin, orphans);
      && next.runs.Keys == s.runs.Keys
      && (if run.plugin != plugin && plugin !in run.reliesOn then next.runs[id] == run
          else if run.status == WaitingForConsent then
            && next.runs[id] == run.(status := Interrupted, interrupted := true, ask := false)
            && id !in next.waiting
          else if run.status == Streaming then
            && next.runs[id].status == Streaming && next.runs[id].interrupted
            && (next.runs[id].stopRequested <==> run.stopRequested || !run.operation)
          else if run.status == WaitingForApproval then next.runs[id] == run.(interrupted := true)
          else if run.status == Completed && run.toolCalls != [] && run.calls == [] then
            && next.runs[id].status == WaitingForApproval && next.runs[id].interrupted
            && |next.runs[id].calls| == |run.toolCalls|
            && forall i | 0 <= i < |run.toolCalls| :: next.runs[id].calls[i] == Pending(run.toolCalls[i], None, None)
          else next.runs[id] == run)
  {
  }

  /** Only calls that nobody ran are handed over, or answered by their plugin. */
  lemma HandsExactly(s: State, id: Id, offered: map<string, Target>)
    ensures var waits := id in s.runs && s.runs[id].status == Completed && s.runs[id].toolCalls != [] && s.runs[id].calls == [];
      var handed, answered := RunTools(s, id, offered), AnswerTools(s, id);
      && (!waits ==> handed == s && answered == s)
      && (waits ==>
            && OnlyRun(s, handed, id) && OnlyRun(s, answered, id) && handed.approvals == s.approvals + [id]
            && handed.runs[id].status == WaitingForApproval && !handed.runs[id].stopRequested
            && |handed.runs[id].calls| == |s.runs[id].toolCalls|
            && (forall i | 0 <= i < |s.runs[id].toolCalls| ::
                  var name := s.runs[id].toolCalls[i].name;
                  handed.runs[id].calls[i] == Pending(s.runs[id].toolCalls[i],
                    if name in s.runs[id].tools && name in offered then Some(offered[name]) else None, None))
            && answered.runs[id] == s.runs[id].(status := Streaming, stopRequested := false))
  {
  }

  /** Another workspace forgets every run and every queue. */
  lemma ForgetsAll(w: World)
    ensures Next(w, WorkspaceChanged) == w.(state := State(map[], [], [], w.state.rounds))
  {
  }

  // ----- where a thread goes -----

  /** The thread of an answer: it begins the answer of a run that is there and whose message
      was written, takes its stream's calls, keeps how it ended, and leaves with its end. */
  lemma AnswerSteps(s: State, t: Thread, e: Event)
    ensures e.Enqueue? && t.Beginning? ==>
      Own(s, t, e).thread == Idle && Own(s, t, e).state == s.(waiting := s.waiting + [t.id])
    ensures e.Prepared? && t.Preparing? ==>
      Own(s, t, e) ==
        if t.id !in s.runs then Section(s, Idle, [])
        else if !e.written then Section(s, Failing(t.id), [])
        else Section(s.(runs := s.runs[t.id := s.runs[t.id].(toolCalls := [], calls := [], asking := None, tools := t.tools)]),
                     Answering(t.id), [])
    ensures t.Answering? && t.id in s.runs ==>
      var run := s.runs[t.id];
      && (e.StreamOpens? ==>
            Own(s, t, e) == Section(s.(runs := s.runs[t.id := run.(operation := true, stopRequested := false)]), t, []))
      && (e.StreamCloses? ==> Own(s, t, e) == Section(s.(runs := s.runs[t.id := run.(operation := false)]), t, []))
      && (e.StreamCall? ==>
            Own(s, t, e) == Section(s.(runs := s.runs[t.id := run.(
              toolCalls := run.toolCalls + [ToolCall(e.call, e.name, Arrival(t.id, run.arrived))], arrived := run.arrived + 1)]), t, []))
      && (e.AnswerOver? ==>
            Own(s, t, e) == Section(s, Ending(t.id,
              if run.interrupted && (e.ended == AsCompleted || e.ended == AsCancelled) then AsInterrupted else e.ended), []))
    ensures e.AnswerWritten? && t.Ending? ==> Own(s, t, e).thread == Idle && Own(s, t, e).done == []
    ensures e.Fails? && (t.Failing? || t.Answering?) ==>
      Own(s, t, e).thread == Idle && (t.id in s.runs ==> Own(s, t, e).state.runs[t.id].status == Failed)
  {
    hide OwnRound;
  }

  /** The thread of a round: it takes up its run's calls, looks at one until you answered or it
      need not ask, runs it when you allowed it, and only once its result was written goes on
      to look at the next. */
  lemma RoundSteps(s: State, t: Thread, e: Event)
    ensures e.RoundStarts? && t.RoundStarting? ==>
      OwnRound(s, t, e) == Section(s,
        if !e.spawned then RoundFailing(t.id)
        else if t.id !in s.runs then Idle
        else Rounding(t.id, s.runs[t.id].round, s.runs[t.id].tools, s.runs[t.id].calls, 0, Deciding(false)), [])
    ensures t.Rounding? && t.index < |t.calls| ==>
      && (e.Decides? && t.phase.Deciding? ==>
            var d := Decide(s, t.id, t.index, t.calls[t.index], t.phase.announced);
            && OwnRound(s, t, e).done == []
            && OwnRound(s, t, e).thread ==
                 (if d.Go? then t.(phase := Calling(d.target))
                  else if d == Wait then t
                  else if d == Announce then t.(phase := Deciding(true))
                  else t.(phase := Writing))
            && (if d == Announce && t.id in s.runs
                then OwnRound(s, t, e).state == s.(runs := s.runs[t.id := s.runs[t.id].(asking := Some(t.index))])
                else OwnRound(s, t, e).state == s))
      && (e.Calls? && t.phase.Calling? ==>
            OwnRound(s, t, e) == Section(s, t.(phase := Writing),
              if e.found then [Called(t.id, t.round, t.index, t.calls[t.index].call, t.phase.target, t.tools)] else []))
      && (e.Writes? && t.phase.Writing? ==>
            OwnRound(s, t, e) ==
              if e.written then Section(s, t.(index := t.index + 1, phase := Deciding(false)),
                                        [Recorded(t.round, t.index, t.calls[t.index].call)])
              else Section(s, RoundFailing(t.id), []))
    ensures e.RoundEnds? && t.Rounding? && t.index == |t.calls| ==>
      && OwnRound(s, t, e).done == [] && t.id !in OwnRound(s, t, e).state.approvals
      && OwnRound(s, t, e).thread ==
           if t.id in s.runs && !s.runs[t.id].interrupted && !s.runs[t.id].stopRequested then Preparing(t.id, s.runs[t.id].tools)
           else Idle
    ensures e.RoundDrops? && t.RoundFailing? ==>
      OwnRound(s, t, e).thread == RoundDropped(t.id) && OwnRound(s, t, e).state.runs == s.runs
      && t.id !in OwnRound(s, t, e).state.approvals
    ensures e.RoundStops? && t.RoundDropped? ==>
      OwnRound(s, t, e).thread == Idle && (t.id in s.runs ==> OwnRound(s, t, e).state.runs[t.id].status == Failed)
  {
    hide Decide;
  }

  /** A section that a thread is not at changes nothing. */
  lemma ElsewhereStays(s: State, t: Thread, e: Event)
    requires !FromOutside(e)
    requires match e
      case Enqueue(_) => !t.Beginning?
      case StartRun(_) => !t.Beginning? && !t.Consented?
      case Prepared(_, _) => !t.Preparing?
      case StreamOpens(_) => !t.Answering?
      case StreamCall(_, _, _) => !t.Answering?
      case StreamCloses(_) => !t.Answering?
      case AnswerOver(_, _) => !t.Answering?
      case AnswerWritten(_, _) => !t.Ending?
      case Fails(_) => !t.Failing? && !t.Answering?
      case RoundStarts(_, _) => !t.RoundStarting?
      case RoundDrops(_) => !t.RoundFailing?
      case RoundStops(_) => !t.RoundDropped?
      case Decides(_) => !t.Rounding? || !t.phase.Deciding? || t.index >= |t.calls|
      case Calls(_, _) => !t.Rounding? || !t.phase.Calling? || t.index >= |t.calls|
      case Writes(_, _) => !t.Rounding? || !t.phase.Writing? || t.index >= |t.calls|
      case RoundEnds(_) => !t.Rounding? || t.index < |t.calls|
      case _ => true
    ensures Own(s, t, e) == Section(s, t, [])
  {
  }

  /** Its own section changes only the thread that takes it. */
  lemma OneThread(w: World, e: Event)
    requires !FromOutside(e) && e.thread < |w.threads|
    ensures var next, section := Next(w, e), Own(w.state, w.threads[e.thread], e);
      && |next.threads| == |w.threads| && next.threads[e.thread] == section.thread
      && (forall i | 0 <= i < |w.threads| && i != e.thread :: next.threads[i] == w.threads[i])
      && next.state == section.state && next.log == w.log + section.done && next.used == w.used
  {
    hide Own;
  }

  /** What comes from outside: a message makes a run and its thread, answered or handed-over
      calls make one that goes on, and a stop, a refusal or an answer to the prompt change the
      run alone. */
  lemma OutsideSteps(w: World, e: Event)
    ensures e.StopRun? ==> Next(w, e) == w.(state := Stop(w.state, e.id))
    ensures e.RefuseAll? ==> Next(w, e) == w.(state := Refused(w.state, e.provider, if e.removed then Failed else Denied))
    ensures e.PromptAnswered? ==>
      Next(w, e).state == AnswerTool(w.state, e.id, e.asked, e.allow) && Next(w, e).threads == w.threads
    ensures e.PromptAnswered? && Answers(w.state, e.id, e.asked) && e.allow ==>
      Next(w, e).log == w.log + [Allowed(e.id, w.state.runs[e.id].round, w.state.runs[e.id].asking.value, e.asked)]
    ensures e.PromptAnswered? && !(Answers(w.state, e.id, e.asked) && e.allow) ==> Next(w, e).log == w.log
    ensures e.Send? ==>
      match Begin(w.state, e.id, e.plugin, e.chat, e.provider, e.tools, e.reliesOn)
      case None => Next(w, e) == w
      case Some(next) => Next(w, e) == World(next, w.threads + [Beginning(e.id)], w.used + {e.id}, w.log)
    ensures e.Results? && HasCalls(w.state, e.id) ==>
      Next(w, e) == w.(state := AnswerTools(w.state, e.id), threads := w.threads + [Preparing(e.id, e.tools)])
    ensures e.HandOver? && HasCalls(w.state, e.id) ==>
      Next(w, e) == w.(state := RunTools(w.state, e.id, e.offered), threads := w.threads + [RoundStarting(e.id)])
  {
    hide Begin, RunTools, AnswerTools, Stop, Refused;
  }
}
