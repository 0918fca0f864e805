/** packages/core/src/workflow.ts and replay.ts: the events of a log and the commands a replay asks for. */
module Events {
  import opened Wrappers
  import opened Texts
  import opened Json
  import opened Requests

  datatype RequestStorage = FullCopy | RedactedCopy | TruncatedCopy | NoCopy

  datatype LlmToolCall = LlmToolCall(id: Text, name: Text, arguments: Json)

  // What workflow code receives from ctx.llmCall.
  datatype LlmCallResult = LlmCallResult(
    text: Text, toolCalls: seq<LlmToolCall>, model: Text, tokensIn: int, tokensOut: int, truncated: bool)

  datatype Event =
    | WorkflowStarted(workflowType: Text, input: Json)
    | ActivityScheduled(activityType: Text, activityInput: Json)
    | ActivityCompleted(scheduledEventSeq: nat, result: Json)
    | ActivityFailed(scheduledEventSeq: nat, error: Text)
    | WorkflowCompleted(result: Json)
    | WorkflowFailed(error: Text)
    | TimerScheduled(fireAt: int)
    | TimerFired(scheduledEventSeq: nat)
    | SignalReceived(signalName: Text, payload: Json)
    | CancellationRequested(reason: Option<Text>)
    | WorkflowCanceled(reason: Option<Text>)
    | LlmRequested(stepId: Text, requestHash: Text, storage: RequestStorage, request: Option<LlmRequest>,
      maxAttempts: int)
    | LlmCompleted(stepId: Text, scheduledEventSeq: nat, requestHash: Text, response: LlmCallResult, latencyMs: int,
      costUsd: Option<int>, attempt: int)
    | LlmFailed(stepId: Text, scheduledEventSeq: nat, error: Text, code: Text, retryable: bool, attempts: int)
    | ToolRequested(stepId: Text, tool: Text, args: Json, argsHash: Text, maxAttempts: int)
    | ToolCompleted(stepId: Text, scheduledEventSeq: nat, tool: Text, result: Json, latencyMs: int, attempt: int)
    | ToolFailed(stepId: Text, scheduledEventSeq: nat, tool: Text, error: Text, code: Text, retryable: bool,
      attempts: int)

  // The event store assigns seq at append time.
  datatype Stored = Stored(seqNo: nat, event: Event)

  // A call of workflow code on its context.
  datatype Call =
    | Activity(activityType: Text, input: Json)
    | Sleep(durationMs: int)
    | Llm(request: LlmRequest)
    | Tool(tool: Text, args: Json)
    | WaitSignal(name: Text)

  // How a context promise settles.
  datatype Answer =
    | Value(value: Json)
    | Response(response: LlmCallResult)
    | Fired
    | Rejected(error: Text)

  datatype Command =
    | ScheduleActivity(activityType: Text, input: Json)
    | CompleteWorkflow(result: Json)
    | FailWorkflow(error: Text)
    | ScheduleTimer(durationMs: int)
    | RequestLlmCall(stepId: Text, request: LlmRequest, requestHash: Text)
    | RequestToolCall(stepId: Text, tool: Text, args: Json, argsHash: Text)

  // The five kinds of position a call can take; each signal name has its own.
  datatype Lane = ActivityLane | TimerLane | LlmLane | ToolLane | SignalLane(name: Text)

  function LaneOf(c: Call): Lane {
    match c
    case Activity(_, _) => ActivityLane
    case Sleep(_) => TimerLane
    case Llm(_) => LlmLane
    case Tool(_, _) => ToolLane
    case WaitSignal(name) => SignalLane(name)
  }

  // The lane an event takes a place in: schedule events and received signals do.
  function EventLane(e: Event): Option<Lane> {
    match e
    case ActivityScheduled(_, _) => Some(ActivityLane)
    case TimerScheduled(_) => Some(TimerLane)
    case LlmRequested(_, _, _, _, _) => Some(LlmLane)
    case ToolRequested(_, _, _, _, _) => Some(ToolLane)
    case SignalReceived(name, _) => Some(SignalLane(name))
    case _ => None
  }

  predicate IsSchedule(e: Event) {
    EventLane(e).Some? && !e.SignalReceived?
  }

  datatype Outcome = Outcome(lane: Lane, seqNo: nat, answer: Answer)

  // Which schedule event an outcome event settles, and how.
  function OutcomeOf(e: Event): Option<Outcome> {
    match e
    case ActivityCompleted(s, result) => Some(Outcome(ActivityLane, s, Value(result)))
    case ActivityFailed(s, error) => Some(Outcome(ActivityLane, s, Rejected(error)))
    case TimerFired(s) => Some(Outcome(TimerLane, s, Fired))
    case LlmCompleted(_, s, _, response, _, _, _) => Some(Outcome(LlmLane, s, Response(response)))
    case LlmFailed(_, s, error, _, _, _) => Some(Outcome(LlmLane, s, Rejected(error)))
    case ToolCompleted(_, s, _, result, _, _) => Some(Outcome(ToolLane, s, Value(result)))
    case ToolFailed(_, s, _, error, _, _, _) => Some(Outcome(ToolLane, s, Rejected(error)))
    case _ => None
  }

  function LlmStepId(index: nat): Text { Lit("llm-") + Decimal(index) }

  function ToolStepId(index: nat): Text { Lit("tool-") + Decimal(index) }

  lemma StepIdsInjective(i: nat, j: nat)
    ensures LlmStepId(i) == LlmStepId(j) ==> i == j
    ensures ToolStepId(i) == ToolStepId(j) ==> i == j
    ensures LlmStepId(i) != ToolStepId(j)
  {
    assert LlmStepId(i)[0] != ToolStepId(j)[0];
    assert LlmStepId(i)[4..] == Decimal(i) && LlmStepId(j)[4..] == Decimal(j);
    assert ToolStepId(i)[5..] == Decimal(i) && ToolStepId(j)[5..] == Decimal(j);
    if LlmStepId(i) == LlmStepId(j) || ToolStepId(i) == ToolStepId(j) {
      DecimalInjective(i, j);
    }
  }

  // A step id names the kind of its step and, in digits, its position.
  lemma StepIdsSay(i: nat)
    ensures var x := LlmStepId(i);
      |x| > 4 && x[..4] == Lit("llm-") && (forall k :: 0 <= k < |x[4..]| ==> IsDigit(x[4..][k])) &&
        NumeralValue(x[4..]) == i
    ensures var x := ToolStepId(i);
      |x| > 5 && x[..5] == Lit("tool-") && (forall k :: 0 <= k < |x[5..]| ==> IsDigit(x[5..][k])) &&
        NumeralValue(x[5..]) == i
  {
    assert LlmStepId(i)[4..] == Digits(i) && ToolStepId(i)[5..] == Digits(i);
    NumeralValueOfDigits(i);
  }

  // ---------------------------------------------------------------- logs

  // The seqs the event store hands out after n events.
  function Stamp(n: nat, events: seq<Event>): seq<Stored> {
    seq(|events|, i requires 0 <= i < |events| => Stored(n + 1 + i, events[i]))
  }

  // The events of a log that take a place in a lane, in order.
  function Recorded(log: seq<Stored>, lane: Lane): (r: seq<Stored>)
    ensures forall i :: 0 <= i < |r| ==> EventLane(r[i].event) == Some(lane)
  {
    if log == [] then []
    else
      var rest := Recorded(log[..|log| - 1], lane);
      var last := log[|log| - 1];
      if EventLane(last.event) == Some(lane) then rest + [last] else rest
  }

  // The outcome a log holds for a schedule event: the last one counts.
  function OutcomeIn(log: seq<Stored>, lane: Lane, s: nat): Option<Answer> {
    if log == [] then None
    else
      var o := OutcomeOf(log[|log| - 1].event);
      if o.Some? && o.value.lane == lane && o.value.seqNo == s then Some(o.value.answer)
      else OutcomeIn(log[..|log| - 1], lane, s)
  }

  lemma {:induction false} RecordedConcat(a: seq<Stored>, b: seq<Stored>, lane: Lane)
    ensures Recorded(a + b, lane) == Recorded(a, lane) + Recorded(b, lane)
  {
    if b == [] {
      assert a + b == a;
    } else {
      RecordedConcat(a, b[..|b| - 1], lane);
      assert (a + b)[..|a + b| - 1] == a + b[..|b| - 1];
    }
  }

  lemma {:induction false} OutcomeInConcat(a: seq<Stored>, b: seq<Stored>, lane: Lane, s: nat)
    ensures OutcomeIn(a + b, lane, s) ==
      if OutcomeIn(b, lane, s).Some? then OutcomeIn(b, lane, s) else OutcomeIn(a, lane, s)
  {
    if b == [] {
      assert a + b == a;
    } else {
      OutcomeInConcat(a, b[..|b| - 1], lane, s);
      assert (a + b)[..|a + b| - 1] == a + b[..|b| - 1];
    }
  }
}
