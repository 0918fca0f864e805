/**
 What packages/core/src/replay.ts computes, as functions of the log.

 A workflow function is deterministic: what it does next depends only on the answers its
 earlier calls were given. It awaits its calls one batch at a time, until all have settled.
 */
module ReplaySpec {
  import opened Wrappers
  import opened Texts
  import opened Json
  import opened Requests
  import opened Events
  import opened Drain

  datatype Action = Return(result: Json) | Throw(error: Text) | Await(calls: seq<Call>)

  type Answers = seq<seq<Answer>>

  // ticks: microtask turns the function takes to get from those answers to its next action.
  datatype Workflow = Workflow(next: Answers -> Action, ticks: Answers -> nat)

  type Hash = Text -> Text

  datatype ReplayError =
    | NonDeterminism(callIndex: nat, expectedType: Text, actualType: Text)
    | StepMismatch(stepId: Text, callIndex: nat, expectedHash: Text, actualHash: Text, isTool: bool)

  // What one call gets during a pass.
  datatype Reply = Settled(answer: Answer) | Hanging | New(command: Command) | Mismatch(error: ReplayError)

  datatype ReplayResult =
    | Running(commands: seq<Command>, pending: map<Text, LlmRequest>)
    | Completed(result: Json)
    | Failed(error: Text)
    | Raised(cause: ReplayError)

  // ---------------------------------------------------------------- one call

  function RequestHash(hash: Hash, r: LlmRequest): Text {
    hash(CanonicalLlmRequest(r))
  }

  function ArgsHash(hash: Hash, tool: Text, args: Json): Text {
    hash(CanonicalToolCall(tool, args))
  }

  // The recorded schedule event is one this call could have caused.
  predicate Matches(hash: Hash, e: Event, c: Call, index: nat)
    requires EventLane(e) == Some(LaneOf(c))
  {
    match c
    case Activity(activityType, _) => e.activityType == activityType
    case Sleep(_) => true
    case Llm(request) => e.stepId == LlmStepId(index) && e.requestHash == RequestHash(hash, request)
    case Tool(tool, args) => e.stepId == ToolStepId(index) && e.argsHash == ArgsHash(hash, tool, args)
    case WaitSignal(_) => true
  }

  function MismatchError(hash: Hash, e: Event, c: Call, index: nat): ReplayError
    requires EventLane(e) == Some(LaneOf(c)) && !Matches(hash, e, c, index)
  {
    match c
    case Activity(activityType, _) => NonDeterminism(index, e.activityType, activityType)
    case Llm(request) => StepMismatch(LlmStepId(index), index, e.requestHash, RequestHash(hash, request), false)
    case Tool(tool, args) => StepMismatch(ToolStepId(index), index, e.argsHash, ArgsHash(hash, tool, args), true)
  }

  function CommandFor(hash: Hash, c: Call, index: nat): Command
    requires !c.WaitSignal?
  {
    match c
    case Activity(activityType, input) => ScheduleActivity(activityType, input)
    case Sleep(durationMs) => ScheduleTimer(durationMs)
    case Llm(request) => RequestLlmCall(LlmStepId(index), request, RequestHash(hash, request))
    case Tool(tool, args) => RequestToolCall(ToolStepId(index), tool, args, ArgsHash(hash, tool, args))
  }

  // The index-th call of its lane.
  function Respond(hash: Hash, log: seq<Stored>, c: Call, index: nat): Reply {
    var lane := LaneOf(c);
    var events := Recorded(log, lane);
    if c.WaitSignal? then
      if index < |events| then Settled(Value(events[index].event.payload)) else Hanging
    else if index < |events| then
      if !Matches(hash, events[index].event, c, index) then Mismatch(MismatchError(hash, events[index].event, c, index))
      else
        match OutcomeIn(log, lane, events[index].seqNo)
        case Some(answer) => Settled(answer)
        case None => Hanging
    else New(CommandFor(hash, c, index))
  }

  // ---------------------------------------------------------------- one batch

  function InLane(calls: seq<Call>, lane: Lane): (r: seq<Call>)
    ensures forall i :: 0 <= i < |r| ==> LaneOf(r[i]) == lane
  {
    if calls == [] then []
    else
      var rest := InLane(calls[..|calls| - 1], lane);
      if LaneOf(calls[|calls| - 1]) == lane then rest + [calls[|calls| - 1]] else rest
  }

  // How many calls of this call's lane came before it.
  function Position(before: seq<Call>, c: Call): nat {
    |InLane(before, LaneOf(c))|
  }

  function Replies(hash: Hash, log: seq<Stored>, prior: seq<Call>, calls: seq<Call>): seq<Reply> {
    seq(|calls|, i requires 0 <= i < |calls| => Respond(hash, log, calls[i], Position(prior + calls[..i], calls[i])))
  }

  predicate AllSettled(rs: seq<Reply>) {
    forall i :: 0 <= i < |rs| ==> rs[i].Settled?
  }

  function AnswersIn(rs: seq<Reply>): seq<Answer>
    requires AllSettled(rs)
  {
    seq(|rs|, i requires 0 <= i < |rs| => rs[i].answer)
  }

  function NewCommands(rs: seq<Reply>): seq<Command> {
    if rs == [] then []
    else NewCommands(rs[..|rs| - 1]) + if rs[|rs| - 1].New? then [rs[|rs| - 1].command] else []
  }

  // nonDeterminismError keeps the last mismatch of a pass.
  function LastMismatch(rs: seq<Reply>): Option<ReplayError> {
    if rs == [] then None
    else if rs[|rs| - 1].Mismatch? then Some(rs[|rs| - 1].error)
    else LastMismatch(rs[..|rs| - 1])
  }

  // The LLM requests in flight, by step id.
  function PendingLlm(rs: seq<Reply>, prior: seq<Call>, calls: seq<Call>): map<Text, LlmRequest>
    requires |rs| == |calls|
  {
    if rs == [] then map[]
    else
      var n := |rs| - 1;
      var rest := PendingLlm(rs[..n], prior, calls[..n]);
      if rs[n].Hanging? && calls[n].Llm? then
        rest[LlmStepId(Position(prior + calls[..n], calls[n])) := calls[n].request]
      else rest
  }

  // ---------------------------------------------------------------- one pass

  function CallsAt(wf: Workflow, a: Answers): seq<Call> {
    match wf.next(a)
    case Await(calls) => calls
    case _ => []
  }

  // Every call made before the answers `a` were all in.
  function Prior(wf: Workflow, a: Answers): seq<Call> {
    if a == [] then []
    else Prior(wf, a[..|a| - 1]) + CallsAt(wf, a[..|a| - 1])
  }

  function RepliesAt(hash: Hash, wf: Workflow, log: seq<Stored>, a: Answers): seq<Reply> {
    Replies(hash, log, Prior(wf, a), CallsAt(wf, a))
  }

  // What a pass that ends at `a` reports.
  function Verdict(hash: Hash, wf: Workflow, log: seq<Stored>, a: Answers): ReplayResult {
    match wf.next(a)
    case Return(v) => Completed(v)
    case Throw(e) => Failed(e)
    case Await(calls) =>
      var rs := RepliesAt(hash, wf, log, a);
      match LastMismatch(rs)
      case Some(e) => Raised(e)
      case None => Running(NewCommands(rs), PendingLlm(rs, Prior(wf, a), calls))
  }

  function TurnAt(hash: Hash, wf: Workflow, log: seq<Stored>, a: Answers): Turn<seq<Answer>, ReplayResult> {
    if wf.next(a).Await? && AllSettled(RepliesAt(hash, wf, log, a)) then Advance(AnswersIn(RepliesAt(hash, wf, log, a)))
    else Stop(Verdict(hash, wf, log, a))
  }

  function PassOf(hash: Hash, wf: Workflow, log: seq<Stored>): Pass<seq<Answer>, ReplayResult> {
    Pass(a => TurnAt(hash, wf, log, a), wf.ticks)
  }

  const EXHAUSTED := Running([], map[])

  const MAX_DRAIN_TICKS := 1000

  function ReplayOf(hash: Hash, wf: Workflow, log: seq<Stored>, budget: nat): ReplayResult {
    Drive(PassOf(hash, wf, log), [], budget, EXHAUSTED)
  }
}
