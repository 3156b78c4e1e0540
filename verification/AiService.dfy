/** The AI service: its runs and queues, changed under one lock by each of these methods. */
module AiService {
  import opened Wrappers
  import Runs = AiRuns
  import opened AiRuns

  class Ai {
    var runs: map<Id, Run>
    var waiting: seq<Id>
    var approvals: seq<Id>
    var rounds: nat

    function Snapshot(): State
      reads this
    {
      State(runs, waiting, approvals, rounds)
    }

    constructor ()
      ensures Snapshot() == State(map[], [], [], 0)
    {
      runs, waiting, approvals, rounds := map[], [], [], 0;
    }

    /** Keep the ids of a queue that are not gone. */
    method Retain(queue: seq<Id>, gone: set<Id>) returns (left: seq<Id>)
      ensures left == Runs.Without(queue, gone)
    {
      left := [];
      for i := 0 to |queue|
        invariant left == Runs.Without(queue[..i], gone)
      {
        assert queue[..i + 1][..i] == queue[..i];
        if queue[i] !in gone { left := left + [queue[i]]; }
      }
      assert queue[..|queue|] == queue;
    }

    method BeginRun(id: Id, plugin: Id, chat: Id, provider: Id, tools: seq<string>, reliesOn: set<Id>)
      returns (begun: bool)
      modifies this`runs
      ensures match Runs.Begin(old(Snapshot()), id, plugin, chat, provider, tools, reliesOn)
        case None => !begun && Snapshot() == old(Snapshot())
        case Some(next) => begun && Snapshot() == next
    {
      var left := runs.Keys;
      while left != {}
        invariant left <= runs.Keys
        invariant forall other <- runs.Keys - left :: !(runs[other].chat == chat && runs[other].Live())
      {
        var other :| other in left;
        if runs[other].chat == chat && runs[other].Live() { return false; }
        left := left - {other};
      }
      runs := runs[id := Run(plugin, chat, provider, WaitingForConsent, true, false, false, tools, reliesOn, [], [], None,
                             false, 0, 0)];
      return true;
    }

    method Enqueue(id: Id)
      modifies this`waiting
      ensures Snapshot() == Runs.Queue(old(Snapshot()), id)
    {
      waiting := waiting + [id];
    }

    method Start(id: Id) returns (started: bool)
      modifies this`runs
      ensures Snapshot() == Runs.Start(old(Snapshot()), id) && started == Runs.MayStart(old(Snapshot()), id)
    {
      if id !in runs || !runs[id].ask { return false; }
      runs := runs[id := runs[id].(ask := false, status := Streaming)];
      return true;
    }

    /** Take the runs that wait for a provider out of the queue. */
    method TakeWaiting(provider: Id) returns (taken: set<Id>)
      modifies this`waiting
      ensures taken == Runs.WaitFor(old(Snapshot()), provider) && Snapshot() == Runs.Granted(old(Snapshot()), provider)
    {
      taken := {};
      for i := 0 to |waiting|
        invariant taken == (set id | id in waiting[..i] && id in runs && runs[id].provider == provider)
        invariant waiting == old(waiting)
      {
        assert waiting[..i + 1] == waiting[..i] + [waiting[i]];
        if waiting[i] in runs && runs[waiting[i]].provider == provider { taken := taken + {waiting[i]}; }
      }
      assert waiting[..|waiting|] == waiting;
      waiting := Retain(waiting, taken);
    }

    /** End some runs before they start. */
    method EndWaiting(gone: set<Id>, status: Status)
      requires gone <= runs.Keys
      modifies this`runs
      ensures runs == map id | id in old(runs) ::
        if id in gone then old(runs)[id].(status := status, ask := false) else old(runs)[id]
    {
      ghost var before := runs;
      var left := gone;
      while left != {}
        invariant left <= gone && runs.Keys == before.Keys
        invariant forall id <- before ::
          runs[id] == if id in gone - left then before[id].(status := status, ask := false) else before[id]
      {
        var id :| id in left;
        runs := runs[id := runs[id].(status := status, ask := false)];
        left := left - {id};
      }
    }

    /** End what waits for a provider: you said no, or the provider was removed. */
    method Refuse(provider: Id, status: Status) returns (gone: set<Id>)
      modifies this`runs, this`waiting
      ensures Snapshot() == Runs.Refused(old(Snapshot()), provider, status)
    {
      gone := TakeWaiting(provider);
      EndWaiting(gone, status);
    }

    method Fail(id: Id)
      modifies this`runs
      ensures Snapshot() == Runs.Fail(old(Snapshot()), id)
    {
      if id in runs { runs := runs[id := runs[id].(status := Failed, operation := false)]; }
    }

    method BeginAnswer(id: Id, tools: seq<string>)
      modifies this`runs
      ensures Snapshot() == Runs.AnswerBegins(old(Snapshot()), id, tools)
    {
      if id in runs {
        runs := runs[id := runs[id].(toolCalls := [], calls := [], asking := None, tools := tools)];
      }
    }

    /** Record that the run streams; answers whether Stop was pressed before. */
    method RecordStream(id: Id) returns (stop: bool)
      modifies this`runs
      ensures Snapshot() == Runs.StreamBegins(old(Snapshot()), id)
      ensures stop <==> id !in old(runs) || old(runs)[id].stopRequested
    {
      if id !in runs { return true; }
      stop := runs[id].stopRequested;
      runs := runs[id := runs[id].(operation := true, stopRequested := false)];
    }

    method PushCall(id: Id, call: Id, name: string)
      modifies this`runs
      ensures Snapshot() == Runs.CallArrives(old(Snapshot()), id, call, name)
    {
      if id in runs {
        var run := runs[id];
        var arrived := ToolCall(call, name, Arrival(id, run.arrived));
        runs := runs[id := run.(toolCalls := run.toolCalls + [arrived], arrived := run.arrived + 1)];
      }
    }

    method RecordStreamEnd(id: Id)
      modifies this`runs
      ensures Snapshot() == Runs.StreamEnds(old(Snapshot()), id)
    {
      if id in runs { runs := runs[id := runs[id].(operation := false)]; }
    }

    /** Write how the run's answer ended. */
    method End(id: Id, ended: Ended, written: bool)
      modifies this`runs
      ensures Snapshot() == Runs.EndRun(old(Snapshot()), id, ended, written)
    {
      if id !in runs { return; }
      var run := runs[id].(operation := false, stopRequested := false);
      if !written {
        run := run.(status := Failed);
      } else {
        match ended
        case AsCompleted => run := run.(status := Completed);
        case AsCancelled => run := run.(status := Cancelled);
        case AsInterrupted => run := run.Interrupt();
        case AsFailed => run := run.(status := Failed);
      }
      runs := runs[id := run];
    }

    // ----- tool calls -----

    method PendingCalls(run: Run, offered: map<string, Target>) returns (calls: seq<Pending>)
      ensures calls == Runs.PendingCalls(run, run.toolCalls, offered)
    {
      calls := [];
      for i := 0 to |run.toolCalls|
        invariant calls == Runs.PendingCalls(run, run.toolCalls[..i], offered)
      {
        assert run.toolCalls[..i + 1][..i] == run.toolCalls[..i];
        var call := run.toolCalls[i];
        var target := if call.name in run.tools && call.name in offered then Some(offered[call.name]) else None;
        calls := calls + [Pending(call, target, None)];
      }
      assert run.toolCalls[..|run.toolCalls|] == run.toolCalls;
    }

    method AnswerTools(id: Id) returns (accepted: bool)
      modifies this`runs
      ensures Snapshot() == Runs.AnswerTools(old(Snapshot()), id) && accepted == Runs.HasCalls(old(Snapshot()), id)
    {
      if id !in runs || runs[id].status != Completed || runs[id].toolCalls == [] || runs[id].calls != [] {
        return false;
      }
      runs := runs[id := runs[id].(status := Streaming, stopRequested := false)];
      return true;
    }

    method RunTools(id: Id, offered: map<string, Target>) returns (accepted: bool)
      modifies this
      ensures Snapshot() == Runs.RunTools(old(Snapshot()), id, offered)
      ensures accepted == Runs.HasCalls(old(Snapshot()), id)
    {
      hide Runs.PendingCalls;
      if id !in runs || !runs[id].Live() || runs[id].status != Completed { return false; }
      var calls := PendingCalls(runs[id], offered);
      runs := runs[id := runs[id].(calls := calls, status := WaitingForApproval, stopRequested := false, round := rounds)];
      approvals, rounds := approvals + [id], rounds + 1;
      return true;
    }

    method AnswerTool(id: Id, call: Id, allow: bool)
      modifies this`runs
      ensures Snapshot() == Runs.AnswerTool(old(Snapshot()), id, call, allow)
    {
      if id !in runs || runs[id].asking.None? { return; }
      var run, index := runs[id], runs[id].asking.value;
      if index >= |run.calls| || run.calls[index].call.id != call || run.calls[index].answer.Some? { return; }
      runs := runs[id := run.(calls := run.calls[index := run.calls[index].(answer := Some(allow))], asking := None)];
    }

    /** One look at a call: what to do with it, or that the prompt has to ask first. */
    method Decide(id: Id, index: nat, pending: Pending, announced: bool) returns (decision: Decision)
      modifies this`runs
      ensures decision == Runs.Decide(old(Snapshot()), id, index, pending, announced)
      ensures Snapshot() ==
        if decision == Announce then Runs.Announced(old(Snapshot()), id, index) else old(Snapshot())
    {
      if id !in runs { return Deny; }
      var run := runs[id];
      if run.interrupted { return Disabled; }
      if run.stopRequested { return Deny; }
      if pending.target.None? { return Unknown; }
      var answer := if index < |run.calls| then run.calls[index].answer else None;
      match answer
      case Some(true) => return Go(pending.target.value);
      case Some(false) => return Deny;
      case None =>
        if announced { return Wait; }
        runs := runs[id := run.(asking := Some(index))];
        return Announce;
    }

    /** Every result is written: end the run, or have it ask its provider again. */
    method EndRound(id: Id)
      modifies this`runs, this`approvals
      ensures Snapshot() == Runs.RoundOver(old(Snapshot()), id)
    {
      approvals := Retain(approvals, {id});
      if id !in runs { return; }
      var run := runs[id].(asking := None);
      if run.interrupted {
        run := run.Interrupt();
      } else if run.stopRequested {
        run := run.(stopRequested := false, status := Cancelled);
      } else {
        run := run.(status := Streaming);
      }
      runs := runs[id := run];
    }

    // ----- from outside a run -----

    method Stop(id: Id)
      modifies this`runs, this`waiting
      ensures Snapshot() == Runs.Stop(old(Snapshot()), id)
    {
      if id !in runs { return; }
      var run := runs[id];
      match run.status
      case WaitingForConsent =>
        runs := runs[id := run.(status := Cancelled, ask := false)];
        waiting := Retain(waiting, {id});
      case WaitingForApproval => runs := runs[id := run.(stopRequested := true)];
      case Streaming => if !run.operation { runs := runs[id := run.(stopRequested := true)]; }
      case _ =>
    }

    /** A plugin was turned off: walk every run, and give those whose calls nobody ran a
        round of their own. */
    method PluginDisabled(plugin: Id) returns (orphans: seq<Id>)
      modifies this
      ensures Runs.Lists(orphans, Runs.Orphaned(old(Snapshot()), plugin))
      ensures Snapshot() == Runs.PluginDisabled(old(Snapshot()), plugin, orphans)
    {
      ghost var before := Snapshot();
      hide Walked, Runs.Disturbed;
      var stopped: set<Id> := {};
      var left := runs.Keys;
      orphans := [];
      NothingWalked(before, plugin);
      while left != {}
        invariant Snapshot() == before.(runs := runs) && Walked(before, plugin, runs, left, orphans, stopped)
      {
        var id :| id in left;
        WalkOne(before, plugin, runs, left, orphans, stopped, id);
        var run, round := runs[id], rounds + |orphans|;
        if run.ReliesOn(plugin) {
          if run.status == WaitingForConsent { stopped := stopped + {id}; }
          if run.status == Completed && run.Live() { orphans := orphans + [id]; }
          runs := runs[id := Runs.Disturbed(run, round)];
        }
        left := left - {id};
      }
      AllWalked(before, plugin, runs, orphans, stopped);
      waiting := Retain(waiting, stopped);
      approvals, rounds := approvals + orphans, rounds + |orphans|;
    }

    /** A workspace with another identity opens. */
    method OpenWorkspace()
      modifies this`runs, this`waiting, this`approvals
      ensures Snapshot() == Runs.Closed(old(Snapshot()))
    {
      runs, waiting, approvals := map[], [], [];
    }
  }

  function Consenting(s: State, plugin: Id): set<Id> {
    set id | id in s.runs && s.runs[id].ReliesOn(plugin) && s.runs[id].status == WaitingForConsent
  }

  /** What walking the runs has done, but for those left. */
  ghost predicate Walked(s: State, plugin: Id, runs: map<Id, Run>, left: set<Id>, orphans: seq<Id>, stopped: set<Id>) {
    && runs.Keys == s.runs.Keys && left <= runs.Keys
    && Runs.Lists(orphans, Runs.Orphaned(s, plugin) - left)
    && stopped == Consenting(s, plugin) - left
    && forall id <- s.runs :: runs[id] == WalkedRun(s, plugin, left, orphans, id)
  }

  lemma NothingWalked(s: State, plugin: Id)
    ensures Walked(s, plugin, s.runs, s.runs.Keys, [], {})
  {
  }

  lemma AllWalked(s: State, plugin: Id, runs: map<Id, Run>, orphans: seq<Id>, stopped: set<Id>)
    requires Walked(s, plugin, runs, {}, orphans, stopped)
    ensures Runs.Lists(orphans, Runs.Orphaned(s, plugin)) && stopped == Consenting(s, plugin)
    ensures runs == Runs.PluginDisabled(s, plugin, orphans).runs
  {
    hide Runs.Disturbed;
    assert Runs.Orphaned(s, plugin) - {} == Runs.Orphaned(s, plugin) && Consenting(s, plugin) - {} == Consenting(s, plugin);
  }

  /** Walking one more run. */
  lemma WalkOne(s: State, plugin: Id, runs: map<Id, Run>, left: set<Id>, orphans: seq<Id>, stopped: set<Id>, id: Id)
    requires Walked(s, plugin, runs, left, orphans, stopped) && id in left
    ensures id in runs && id in s.runs && runs[id] == s.runs[id]
    ensures var run := s.runs[id];
      var more := if run.ReliesOn(plugin) && run.status == Completed && run.Live() then orphans + [id] else orphans;
      Walked(s, plugin,
             if run.ReliesOn(plugin) then runs[id := Runs.Disturbed(run, s.rounds + |orphans|)] else runs,
             left - {id}, more,
             if run.ReliesOn(plugin) && run.status == WaitingForConsent then stopped + {id} else stopped)
  {
    hide WalkedRun;
    var run, all := s.runs[id], Runs.Orphaned(s, plugin);
    assert id in all <==> run.ReliesOn(plugin) && run.status == Completed && run.Live();
    var more := if id in all then orphans + [id] else orphans;
    ListedOne(orphans, more, all, left, id);
    ListsOnly(orphans, all - left);
    assert runs[id] == s.runs[id] by { NotWalked(s, plugin, left, orphans, id); }
    WalkRuns(s, plugin, runs, left, orphans, more, id);
    WalkStopped(s, plugin, left, id);
    hide Runs.Disturbed, Runs.IndexOf, Runs.Lists, Runs.Orphaned, Consenting;
  }

  lemma NotWalked(s: State, plugin: Id, left: set<Id>, orphans: seq<Id>, id: Id)
    requires id in s.runs && id in left
    ensures WalkedRun(s, plugin, left, orphans, id) == s.runs[id]
  {
  }

  lemma WalkStopped(s: State, plugin: Id, left: set<Id>, id: Id)
    requires id in left && id in s.runs
    ensures Consenting(s, plugin) - (left - {id}) ==
      if id in Consenting(s, plugin) then Consenting(s, plugin) - left + {id} else Consenting(s, plugin) - left
    ensures id in Consenting(s, plugin) <==> s.runs[id].ReliesOn(plugin) && s.runs[id].status == WaitingForConsent
  {
  }

  /** What walking does to one run, but for those left. */
  function WalkedRun(s: State, plugin: Id, left: set<Id>, orphans: seq<Id>, id: Id): Run
    requires id in s.runs
  {
    if id !in left && s.runs[id].ReliesOn(plugin)
    then Runs.Disturbed(s.runs[id], s.rounds + Runs.IndexOf(orphans, id)) else s.runs[id]
  }

  lemma WalkRuns(s: State, plugin: Id, runs: map<Id, Run>, left: set<Id>, orphans: seq<Id>, more: seq<Id>, id: Id)
    requires runs.Keys == s.runs.Keys && id in left && id in s.runs
    requires forall other <- s.runs :: runs[other] == WalkedRun(s, plugin, left, orphans, other)
    requires forall other :: other in orphans <==> other in Runs.Orphaned(s, plugin) - left
    requires forall other <- orphans :: Runs.IndexOf(more, other) == Runs.IndexOf(orphans, other)
    requires id in Runs.Orphaned(s, plugin) ==> Runs.IndexOf(more, id) == |orphans|
    ensures var run := s.runs[id];
      var next := if run.ReliesOn(plugin) then runs[id := Runs.Disturbed(run, s.rounds + |orphans|)] else runs;
      && next.Keys == s.runs.Keys
      && forall other <- s.runs :: next[other] == WalkedRun(s, plugin, left - {id}, more, other)
  {
    hide WalkedRun, Runs.Disturbed, Runs.IndexOf;
    NotWalked(s, plugin, left, orphans, id);
    WalkedThis(s, plugin, left, orphans, more, id);
    forall other | other in s.runs && other != id
      ensures WalkedRun(s, plugin, left - {id}, more, other) == WalkedRun(s, plugin, left, orphans, other)
    {
      WalkedOther(s, plugin, left, orphans, more, id, other);
    }
    hide Runs.Orphaned;
  }

  lemma WalkedThis(s: State, plugin: Id, left: set<Id>, orphans: seq<Id>, more: seq<Id>, id: Id)
    requires id in s.runs && (id in Runs.Orphaned(s, plugin) ==> Runs.IndexOf(more, id) == |orphans|)
    ensures WalkedRun(s, plugin, left - {id}, more, id) ==
      if s.runs[id].ReliesOn(plugin) then Runs.Disturbed(s.runs[id], s.rounds + |orphans|) else s.runs[id]
  {
    hide Runs.Disturbed, Runs.IndexOf;
    Quietly(s.runs[id], s.rounds + |orphans|, s.rounds + Runs.IndexOf(more, id));
  }

  lemma WalkedOther(s: State, plugin: Id, left: set<Id>, orphans: seq<Id>, more: seq<Id>, id: Id, other: Id)
    requires other in s.runs && other != id
    requires forall k :: k in orphans <==> k in Runs.Orphaned(s, plugin) - left
    requires forall k <- orphans :: Runs.IndexOf(more, k) == Runs.IndexOf(orphans, k)
    ensures WalkedRun(s, plugin, left - {id}, more, other) == WalkedRun(s, plugin, left, orphans, other)
  {
    hide Runs.Disturbed, Runs.IndexOf, Runs.Orphaned;
    if other !in left && s.runs[other].ReliesOn(plugin) {
      WalkedAlike(s, plugin, left, orphans, more, other);
    }
  }

  lemma WalkedAlike(s: State, plugin: Id, left: set<Id>, orphans: seq<Id>, more: seq<Id>, other: Id)
    requires other in s.runs && other !in left && s.runs[other].ReliesOn(plugin)
    requires forall id :: id in orphans <==> id in Runs.Orphaned(s, plugin) - left
    requires forall id <- orphans :: Runs.IndexOf(more, id) == Runs.IndexOf(orphans, id)
    ensures Runs.Disturbed(s.runs[other], s.rounds + Runs.IndexOf(more, other))
         == Runs.Disturbed(s.runs[other], s.rounds + Runs.IndexOf(orphans, other))
  {
    hide Runs.Disturbed, Runs.IndexOf;
    if other !in orphans {
      Quietly(s.runs[other], s.rounds + Runs.IndexOf(more, other), s.rounds + Runs.IndexOf(orphans, other));
    }
  }

  lemma ListsOnly(ids: seq<Id>, all: set<Id>)
    requires Runs.Lists(ids, all)
    ensures forall id :: id in ids <==> id in all
  {
  }

  /** Listing one more run, if it belongs on the list, moves no other. */
  lemma ListedOne(ids: seq<Id>, more: seq<Id>, all: set<Id>, left: set<Id>, id: Id)
    requires Runs.Lists(ids, all - left) && id in left && more == if id in all then ids + [id] else ids
    ensures Runs.Lists(more, all - (left - {id}))
    ensures id in all ==> Runs.IndexOf(more, id) == |ids|
    ensures forall other <- ids :: Runs.IndexOf(more, other) == Runs.IndexOf(ids, other)
  {
    assert id !in ids;
    if id in all { assert more[..|more| - 1] == ids; }
  }

  /** Only a run whose calls wait depends on the number of its round. */
  lemma Quietly(run: Run, a: nat, b: nat)
    ensures !(run.status == Completed && run.Live()) ==> Runs.Disturbed(run, a) == Runs.Disturbed(run, b)
  {
  }
}
