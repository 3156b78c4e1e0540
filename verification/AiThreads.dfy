/** The threads that drive runs, each between two of its lock sections, and every way they
    interleave with prompts, stops, plugins that go and workspaces that close. */
module AiThreads {
  import opened Wrappers
  import opened AiRuns

  datatype Phase = Deciding(announced: bool) | Calling(target: Target) | Writing

  /** Where a thread is. `Beginning` holds a run not yet started or queued, `Consented` one
      whose consent came. The rest drive a run that was started. */
  datatype Thread =
    | Idle
    | Beginning(id: Id)
    | Consented(id: Id)
    | Preparing(id: Id, tools: seq<string>)
    | Answering(id: Id)
    | Ending(id: Id, ended: Ended)
    | Failing(id: Id)
    | RoundStarting(id: Id)
    | Rounding(id: Id, round: nat, tools: seq<string>, calls: seq<Pending>, index: nat, phase: Phase)
    | RoundFailing(id: Id)
    | RoundDropped(id: Id)
  {
    function Holds(): Option<Id> { if Idle? then None else Some(id) }

    /** Whether it drives a run that started. */
    predicate Drives() { !Idle? && !Beginning? && !Consented? }

    /** The status of the run it drives. */
    function Driven(): Status {
      if RoundStarting? || Rounding? || RoundFailing? || RoundDropped? then WaitingForApproval else Streaming
    }
  }

  /** What happened to tool calls, oldest first: you allowed one, its plugin got it from a
      run that offered `tools`, or its result was written. */
  datatype Action =
    | Allowed(run: Id, round: nat, index: nat, asked: Id)
    | Called(run: Id, round: nat, index: nat, call: ToolCall, target: Target, tools: seq<string>)
    | Recorded(round: nat, index: nat, call: ToolCall)

  /** `used` holds every run ID ever made. */
  datatype World = World(state: State, threads: seq<Thread>, used: set<Id>, log: seq<Action>)

  datatype Event =
    | Send(id: Id, plugin: Id, chat: Id, provider: Id, tools: seq<string>, reliesOn: set<Id>)
    | Enqueue(thread: nat)
    | StartRun(thread: nat)
    | Prepared(thread: nat, written: bool)
    | StreamOpens(thread: nat)
    | StreamCall(thread: nat, call: Id, name: string)
    | StreamCloses(thread: nat)
    | AnswerOver(thread: nat, ended: Ended)
    | AnswerWritten(thread: nat, written: bool)
    | Fails(thread: nat)
    | Results(id: Id, tools: seq<string>)
    | HandOver(id: Id, offered: map<string, Target>)
    | RoundStarts(thread: nat, spawned: bool)
    | Decides(thread: nat)
    | Calls(thread: nat, found: bool)
    | Writes(thread: nat, written: bool)
    | RoundEnds(thread: nat)
    | RoundDrops(thread: nat)
    | RoundStops(thread: nat)
    | Consent(provider: Id, ready: seq<Id>)
    | RefuseAll(provider: Id, removed: bool)
    | StopRun(id: Id)
    | PromptAnswered(id: Id, asked: Id, allow: bool)
    | PluginGone(plugin: Id, orphans: seq<Id>, open: bool)
    | WorkspaceChanged

  function Starting(ids: seq<Id>): (threads: seq<Thread>)
    ensures |threads| == |ids| && forall i | 0 <= i < |ids| :: threads[i] == Consented(ids[i])
  {
    seq(|ids|, i requires 0 <= i < |ids| => Consented(ids[i]))
  }

  function Orphans(ids: seq<Id>): (threads: seq<Thread>)
    ensures |threads| == |ids| && forall i | 0 <= i < |ids| :: threads[i] == RoundStarting(ids[i])
  {
    seq(|ids|, i requires 0 <= i < |ids| => RoundStarting(ids[i]))
  }

  /** A thread takes its next lock section: its run's rows, where it is then, and what it
      did to a tool call. */
  datatype Section = Section(state: State, thread: Thread, done: seq<Action>)

  function Move(s: State, t: Thread): Section { Section(s, t, []) }

  /** The lock sections of the thread at `e.thread`; one that it is not at changes nothing. */
  function Own(s: State, t: Thread, e: Event): Section {
    match e
    case Enqueue(_) => if t.Beginning? then Move(Queue(s, t.id), Idle) else Move(s, t)
    case StartRun(_) =>
      if !t.Beginning? && !t.Consented? then Move(s, t)
      else if !MayStart(s, t.id) then Move(s, Idle)
      else Move(Start(s, t.id), Preparing(t.id, s.runs[t.id].tools))
    case Prepared(_, written) =>
      if !t.Preparing? then Move(s, t)
      else if t.id !in s.runs then Move(s, Idle)
      else if !written then Move(s, Failing(t.id))
      else Move(AnswerBegins(s, t.id, t.tools), Answering(t.id))
    case StreamOpens(_) => if t.Answering? then Move(StreamBegins(s, t.id), t) else Move(s, t)
    case StreamCall(_, call, name) => if t.Answering? then Move(CallArrives(s, t.id, call, name), t) else Move(s, t)
    case StreamCloses(_) => if t.Answering? then Move(StreamEnds(s, t.id), t) else Move(s, t)
    case AnswerOver(_, ended) => if t.Answering? then Move(s, Ending(t.id, HowEnded(s, t.id, ended))) else Move(s, t)
    case AnswerWritten(_, written) => if t.Ending? then Move(EndRun(s, t.id, t.ended, written), Idle) else Move(s, t)
    case Fails(_) =>
      if t.Failing? || t.Answering? then Move(Fail(s, t.id), Idle) else Move(s, t)
    case _ => OwnRound(s, t, e)
  }

  function OwnRound(s: State, t: Thread, e: Event): Section {
    match e
    case RoundStarts(_, spawned) =>
      if !t.RoundStarting? then Move(s, t)
      else if !spawned then Move(s, RoundFailing(t.id))
      else if t.id !in s.runs then Move(s, Idle)
      else Move(s, Rounding(t.id, s.runs[t.id].round, s.runs[t.id].tools, s.runs[t.id].calls, 0, Deciding(false)))
    case Decides(_) =>
      if !t.Rounding? || !t.phase.Deciding? || t.index >= |t.calls| then Move(s, t)
      else
        (match Decide(s, t.id, t.index, t.calls[t.index], t.phase.announced)
         case Go(target) => Move(s, t.(phase := Calling(target)))
         case Announce => Move(Announced(s, t.id, t.index), t.(phase := Deciding(true)))
         case Wait => Move(s, t)
         case _ => Move(s, t.(phase := Writing)))
    case Calls(_, found) =>
      if !t.Rounding? || !t.phase.Calling? || t.index >= |t.calls| then Move(s, t)
      else Section(s, t.(phase := Writing),
                   if found then [Called(t.id, t.round, t.index, t.calls[t.index].call, t.phase.target, t.tools)] else [])
    case Writes(_, written) =>
      if !t.Rounding? || !t.phase.Writing? || t.index >= |t.calls| then Move(s, t)
      else if !written then Move(s, RoundFailing(t.id))
      else Section(s, t.(index := t.index + 1, phase := Deciding(false)),
                   [Recorded(t.round, t.index, t.calls[t.index].call)])
    case RoundEnds(_) =>
      if !t.Rounding? || t.index < |t.calls| then Move(s, t)
      else
        var next := RoundOver(s, t.id);
        Move(next, if t.id in next.runs && next.runs[t.id].status == Streaming then Preparing(t.id, next.runs[t.id].tools)
                   else Idle)
    case RoundDrops(_) => if t.RoundFailing? then Move(RoundFailed(s, t.id), RoundDropped(t.id)) else Move(s, t)
    case RoundStops(_) => if t.RoundDropped? then Move(Fail(s, t.id), Idle) else Move(s, t)
    case _ => Move(s, t)
  }

  /** Whether a list of the runs to act on is right: each once, and no other. */
  ghost predicate Enabled(w: World, e: Event) {
    match e
    case Send(id, _, _, _, _, _) => id !in w.used
    case Consent(provider, ready) => Lists(ready, WaitFor(w.state, provider))
    case PluginGone(plugin, orphans, _) => Lists(orphans, Orphaned(w.state, plugin))
    case _ => true
  }

  /** The steps that only set run states. */
  function Set(s: State, e: Event): State {
    match e
    case RefuseAll(provider, removed) => Refused(s, provider, if removed then Failed else Denied)
    case StopRun(id) => Stop(s, id)
    case WorkspaceChanged => Closed(s)
    case _ => s
  }

  function Next(w: World, e: Event): World {
    var s := w.state;
    match e
    case Send(id, plugin, chat, provider, tools, reliesOn) =>
      (match Begin(s, id, plugin, chat, provider, tools, reliesOn)
       case None => w
       case Some(next) => w.(state := next, threads := w.threads + [Beginning(id)], used := w.used + {id}))
    case Results(id, tools) =>
      if HasCalls(s, id) then w.(state := AnswerTools(s, id), threads := w.threads + [Preparing(id, tools)]) else w
    case HandOver(id, offered) =>
      if HasCalls(s, id) then w.(state := RunTools(s, id, offered), threads := w.threads + [RoundStarting(id)]) else w
    case Consent(provider, ready) => w.(state := Granted(s, provider), threads := w.threads + Starting(ready))
    case RefuseAll(_, _) => w.(state := Set(s, e))
    case StopRun(_) => w.(state := Set(s, e))
    case PromptAnswered(id, asked, allow) =>
      if !Answers(s, id, asked) then w
      else w.(state := AnswerTool(s, id, asked, allow),
              log := if allow then w.log + [Allowed(id, s.runs[id].round, s.runs[id].asking.value, asked)] else w.log)
    case PluginGone(plugin, orphans, open) =>
      w.(state := PluginDisabled(s, plugin, orphans), threads := if open then w.threads + Orphans(orphans) else w.threads)
    case WorkspaceChanged => w.(state := Set(s, e))
    case _ =>
      if e.thread >= |w.threads| then w
      else
        var section := Own(s, w.threads[e.thread], e);
        w.(state := section.state, threads := w.threads[e.thread := section.thread], log := w.log + section.done)
  }

  function After(w: World, events: seq<Event>): World {
    if events == [] then w else Next(After(w, events[..|events| - 1]), events[|events| - 1])
  }

  ghost predicate AllEnabled(w: World, events: seq<Event>) {
    forall i | 0 <= i < |events| :: Enabled(After(w, events[..i]), events[i])
  }

  const QUIET := World(State(map[], [], [], 0), [], {}, [])
}
