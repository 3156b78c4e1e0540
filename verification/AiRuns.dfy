/** The AI service's runs, and what each of its lock sections does to them. Files, streams
    and providers are choices of the environment. */
module AiRuns {
  import opened Wrappers

  type Id = string

  datatype Status =
    | WaitingForConsent | Streaming | WaitingForApproval | Completed | Cancelled | Denied | Failed | Interrupted

  /** One call in a run's stream: no two that arrive for a run share a number. */
  datatype Arrival = Arrival(run: Id, number: nat)

  /** The model names a call by `id` and may repeat one; `arrival` says which call it is. */
  datatype ToolCall = ToolCall(id: Id, name: string, arrival: Arrival)

  /** The registered tool a call names. */
  datatype Target = Target(plugin: Id, tool: string)

  datatype Pending = Pending(call: ToolCall, target: Option<Target>, answer: Option<bool>)

  /** `ask` says whether what to ask waits for consent, `operation` whether a stream runs.
      `round` numbers the calls handed over and `arrived` the calls that arrived, for the
      proofs. */
  datatype Run = Run(
    plugin: Id, chat: Id, provider: Id, status: Status, ask: bool, operation: bool, stopRequested: bool,
    tools: seq<string>, reliesOn: set<Id>, toolCalls: seq<ToolCall>, calls: seq<Pending>, asking: Option<nat>,
    interrupted: bool, round: nat, arrived: nat)
  {
    /** Whether the run still has work in its chat. */
    predicate Live() {
      match status
      case Streaming => true
      case WaitingForConsent => true
      case WaitingForApproval => true
      case Completed => toolCalls != [] && calls == []
      case _ => false
    }

    predicate ReliesOn(id: Id) { plugin == id || id in reliesOn }

    function Interrupt(): Run { this.(interrupted := true, ask := false, status := Interrupted) }
  }

  datatype State = State(runs: map<Id, Run>, waiting: seq<Id>, approvals: seq<Id>, rounds: nat)

  function Without(ids: seq<Id>, gone: set<Id>): (left: seq<Id>)
    ensures forall id :: id in left <==> id in ids && id !in gone
  {
    if ids == [] then []
    else
      assert ids == ids[..|ids| - 1] + [ids[|ids| - 1]];
      Without(ids[..|ids| - 1], gone) + if ids[|ids| - 1] in gone then [] else [ids[|ids| - 1]]
  }

  // ----- starting -----

  predicate Busy(s: State, chat: Id) {
    exists id <- s.runs :: s.runs[id].chat == chat && s.runs[id].Live()
  }

  /** A new run in a chat that has no live one. */
  function Begin(s: State, id: Id, plugin: Id, chat: Id, provider: Id, tools: seq<string>, reliesOn: set<Id>)
    : Option<State>
  {
    if Busy(s, chat) then None
    else Some(s.(runs := s.runs[id := Run(plugin, chat, provider, WaitingForConsent, true, false, false, tools, reliesOn,
                                          [], [], None, false, 0, 0)]))
  }

  /** Wait for consent. */
  function Queue(s: State, id: Id): State { s.(waiting := s.waiting + [id]) }

  predicate MayStart(s: State, id: Id) { id in s.runs && s.runs[id].ask }

  function Start(s: State, id: Id): State {
    if !MayStart(s, id) then s else s.(runs := s.runs[id := s.runs[id].(ask := false, status := Streaming)])
  }

  /** The runs that wait for consent to a provider. */
  function WaitFor(s: State, provider: Id): set<Id> {
    set id | id in s.waiting && id in s.runs && s.runs[id].provider == provider
  }

  function Granted(s: State, provider: Id): State { s.(waiting := Without(s.waiting, WaitFor(s, provider))) }

  /** A denied prompt, or a provider that was removed, ends what waited for it. */
  function Refused(s: State, provider: Id, status: Status): State {
    var gone := WaitFor(s, provider);
    s.(waiting := Without(s.waiting, gone),
       runs := map id | id in s.runs ::
         if id in gone then s.runs[id].(status := status, ask := false) else s.runs[id])
  }

  // ----- answering -----

  function Fail(s: State, id: Id): State {
    if id !in s.runs then s else s.(runs := s.runs[id := s.runs[id].(status := Failed, operation := false)])
  }

  /** The next answer begins: the calls of the one before are over. */
  function AnswerBegins(s: State, id: Id, tools: seq<string>): State {
    if id !in s.runs then s
    else s.(runs := s.runs[id := s.runs[id].(toolCalls := [], calls := [], asking := None, tools := tools)])
  }

  function StreamBegins(s: State, id: Id): State {
    if id !in s.runs then s else s.(runs := s.runs[id := s.runs[id].(operation := true, stopRequested := false)])
  }

  function CallArrives(s: State, id: Id, call: Id, name: string): State {
    if id !in s.runs then s
    else
      var run := s.runs[id];
      s.(runs := s.runs[id := run.(toolCalls := run.toolCalls + [ToolCall(call, name, Arrival(id, run.arrived))],
                                   arrived := run.arrived + 1)])
  }

  function StreamEnds(s: State, id: Id): State {
    if id !in s.runs then s else s.(runs := s.runs[id := s.runs[id].(operation := false)])
  }

  datatype Ended = AsCompleted | AsCancelled | AsInterrupted | AsFailed

  /** A run a plugin it relied on left ends as interrupted. */
  function HowEnded(s: State, id: Id, ended: Ended): Ended {
    if id in s.runs && s.runs[id].interrupted && ended in {AsCompleted, AsCancelled} then AsInterrupted else ended
  }

  function EndRun(s: State, id: Id, ended: Ended, written: bool): State {
    if id !in s.runs then s
    else
      var run := s.runs[id].(operation := false, stopRequested := false);
      var next := if !written then run.(status := Failed)
        else match ended
          case AsCompleted => run.(status := Completed)
          case AsCancelled => run.(status := Cancelled)
          case AsInterrupted => run.Interrupt()
          case AsFailed => run.(status := Failed);
      s.(runs := s.runs[id := next])
  }

  // ----- tool calls -----

  /** A call's target: the registered tool of its name, when the run offered that name. */
  function TargetOf(run: Run, name: string, offered: map<string, Target>): Option<Target> {
    if name in run.tools && name in offered then Some(offered[name]) else None
  }

  function PendingCalls(run: Run, calls: seq<ToolCall>, offered: map<string, Target>): (pending: seq<Pending>)
    ensures |pending| == |calls|
    ensures forall i | 0 <= i < |calls| ::
      pending[i] == Pending(calls[i], TargetOf(run, calls[i].name, offered), None)
  {
    if calls == [] then []
    else
      PendingCalls(run, calls[..|calls| - 1], offered)
        + [Pending(calls[|calls| - 1], TargetOf(run, calls[|calls| - 1].name, offered), None)]
  }

  predicate HasCalls(s: State, id: Id) {
    id in s.runs && s.runs[id].Live() && s.runs[id].status == Completed
  }

  /** The plugin answers the calls itself. */
  function AnswerTools(s: State, id: Id): State {
    if !HasCalls(s, id) then s
    else s.(runs := s.runs[id := s.runs[id].(status := Streaming, stopRequested := false)])
  }

  /** The plugin hands the calls to Noura. */
  function RunTools(s: State, id: Id, offered: map<string, Target>): State {
    if !HasCalls(s, id) then s
    else
      var run := s.runs[id];
      s.(runs := s.runs[id := run.(calls := PendingCalls(run, run.toolCalls, offered), status := WaitingForApproval,
                                   stopRequested := false, round := s.rounds)],
         approvals := s.approvals + [id], rounds := s.rounds + 1)
  }

  function AnswerTool(s: State, id: Id, call: Id, allow: bool): State {
    if !Answers(s, id, call) then s
    else
      var run := s.runs[id];
      var index := run.asking.value;
      s.(runs := s.runs[id := run.(calls := run.calls[index := run.calls[index].(answer := Some(allow))], asking := None)])
  }

  /** Whether the prompt asks about this call. */
  predicate Answers(s: State, id: Id, call: Id) {
    && id in s.runs && s.runs[id].asking.Some? && s.runs[id].asking.value < |s.runs[id].calls|
    && s.runs[id].calls[s.runs[id].asking.value].call.id == call
    && s.runs[id].calls[s.runs[id].asking.value].answer.None?
  }

  datatype Decision = Go(target: Target) | Deny | Unknown | Disabled | Announce | Wait

  function Decide(s: State, id: Id, index: nat, pending: Pending, announced: bool): Decision {
    if id !in s.runs then Deny
    else
      var run := s.runs[id];
      if run.interrupted then Disabled
      else if run.stopRequested then Deny
      else if pending.target.None? then Unknown
      else if index < |run.calls| && run.calls[index].answer == Some(true) then Go(pending.target.value)
      else if index < |run.calls| && run.calls[index].answer == Some(false) then Deny
      else if !announced then Announce
      else Wait
  }

  /** The prompt asks about a call. */
  function Announced(s: State, id: Id, index: nat): State {
    if id !in s.runs then s else s.(runs := s.runs[id := s.runs[id].(asking := Some(index))])
  }

  /** A round that wrote every result: the run ends, or asks its provider again. */
  function RoundOver(s: State, id: Id): State {
    var left := s.(approvals := Without(s.approvals, {id}));
    if id !in s.runs then left
    else
      var run := s.runs[id].(asking := None);
      left.(runs := s.runs[id :=
        if run.interrupted then run.Interrupt()
        else if run.stopRequested then run.(stopRequested := false, status := Cancelled)
        else run.(status := Streaming)])
  }

  function RoundFailed(s: State, id: Id): State { s.(approvals := Without(s.approvals, {id})) }

  // ----- from outside the run -----

  function Stop(s: State, id: Id): State {
    if id !in s.runs then s
    else
      var run := s.runs[id];
      match run.status
      case WaitingForConsent =>
        s.(runs := s.runs[id := run.(status := Cancelled, ask := false)], waiting := Without(s.waiting, {id}))
      case WaitingForApproval => s.(runs := s.runs[id := run.(stopRequested := true)])
      case Streaming => if run.operation then s else s.(runs := s.runs[id := run.(stopRequested := true)])
      case _ => s
  }

  /** One run when a plugin it relies on is turned off. Calls nobody ran each get a result
      in a round of their own. */
  function Disturbed(run: Run, round: nat): Run {
    match run.status
    case Streaming => run.(interrupted := true, stopRequested := run.stopRequested || !run.operation)
    case WaitingForApproval => run.(interrupted := true)
    case WaitingForConsent => run.Interrupt()
    case Completed =>
      if run.Live() then
        run.(interrupted := true, calls := PendingCalls(run, run.toolCalls, map[]), status := WaitingForApproval,
             round := round)
      else run
    case _ => run
  }

  /** The runs whose calls get a round when the plugin goes. */
  function Orphaned(s: State, plugin: Id): set<Id> {
    set id | id in s.runs && s.runs[id].ReliesOn(plugin) && HasCalls(s, id)
  }

  ghost predicate Lists(ids: seq<Id>, all: set<Id>) {
    && (forall id :: id in ids <==> id in all)
    && (forall i, j | 0 <= i < j < |ids| :: ids[i] != ids[j])
  }

  function IndexOf(ids: seq<Id>, id: Id): (i: nat)
    ensures id in ids ==> i < |ids| && ids[i] == id
  {
    if ids == [] then 0
    else if ids[|ids| - 1] == id then |ids| - 1
    else
      assert ids == ids[..|ids| - 1] + [ids[|ids| - 1]];
      IndexOf(ids[..|ids| - 1], id)
  }

  /** `orphans` lists the runs that get a round, in the order the map is walked. */
  function PluginDisabled(s: State, plugin: Id, orphans: seq<Id>): State {
    s.(runs := map id | id in s.runs ::
         if s.runs[id].ReliesOn(plugin) then Disturbed(s.runs[id], s.rounds + IndexOf(orphans, id)) else s.runs[id],
       waiting := Without(s.waiting,
         set id | id in s.runs && s.runs[id].ReliesOn(plugin) && s.runs[id].status == WaitingForConsent),
       approvals := s.approvals + orphans, rounds := s.rounds + |orphans|)
  }

  /** Another workspace opens: every run is forgotten. */
  function Closed(s: State): State { s.(runs := map[], waiting := [], approvals := []) }
}
