/** The fields of the folded state, read off the events themselves. */
module FoldFields {
  import opened Wrappers
  import opened Json
  import opened Events
  import opened WorkflowFold

  // ---------------------------------------------------------------- what is scheduled

  // The state has this event's step, with what it was scheduled with.
  predicate ShowsStep(st: WorkflowState, x: Stored) {
    var s := x.seqNo;
    match x.event
    case ActivityScheduled(activityType, _) => s in st.activities && st.activities[s].activityType == activityType
    case TimerScheduled(fireAt) => s in st.timers && st.timers[s].fireAt == fireAt
    case LlmRequested(stepId, requestHash, _, _, _) =>
      s in st.llmCalls && st.llmCalls[s].stepId == stepId && st.llmCalls[s].requestHash == requestHash
    case ToolRequested(stepId, tool, _, argsHash, _) =>
      && s in st.toolCalls
      && st.toolCalls[s].stepId == stepId && st.toolCalls[s].tool == tool && st.toolCalls[s].argsHash == argsHash
    case _ => true
  }

  // Steps never leave the state, and keep what they were scheduled with but where one is scheduled anew.
  lemma ActivityStays(st: WorkflowState, y: Stored, s: nat)
    requires s in st.activities && ApplyEvent(st, y).Some?
    ensures var st' := ApplyEvent(st, y).value;
      && s in st'.activities
      && (y.seqNo != s ==> st'.activities[s].activityType == st.activities[s].activityType)
      && (!OfActivity(y, s) ==> st'.activities[s] == st.activities[s])
  {
    if !IsActivityEvent(y.event) {
      ActivitiesUntouched(st, y);
      hide ApplyEvent;
    }
  }

  lemma TimerStays(st: WorkflowState, y: Stored, s: nat)
    requires s in st.timers && ApplyEvent(st, y).Some?
    ensures var st' := ApplyEvent(st, y).value;
      && s in st'.timers
      && (y.seqNo != s ==> st'.timers[s].fireAt == st.timers[s].fireAt)
      && (st.timers[s].hasFired && !(y.event.TimerScheduled? && y.seqNo == s) ==> st'.timers[s].hasFired)
  {
    if !IsTimerEvent(y.event) {
      TimersUntouched(st, y);
      hide ApplyEvent;
    }
  }

  lemma LlmCallStays(st: WorkflowState, y: Stored, s: nat)
    requires s in st.llmCalls && ApplyEvent(st, y).Some?
    ensures var st' := ApplyEvent(st, y).value;
      && s in st'.llmCalls
      && (y.seqNo != s ==>
           st'.llmCalls[s].stepId == st.llmCalls[s].stepId && st'.llmCalls[s].requestHash == st.llmCalls[s].requestHash)
      && (!OfLlmCall(y, s) ==> st'.llmCalls[s] == st.llmCalls[s])
  {
    if !IsLlmEvent(y.event) {
      LlmCallsUntouched(st, y);
      hide ApplyEvent;
    }
  }

  lemma ToolCallStays(st: WorkflowState, y: Stored, s: nat)
    requires s in st.toolCalls && ApplyEvent(st, y).Some?
    ensures var st' := ApplyEvent(st, y).value;
      && s in st'.toolCalls
      && (y.seqNo != s ==>
           && st'.toolCalls[s].stepId == st.toolCalls[s].stepId && st'.toolCalls[s].tool == st.toolCalls[s].tool
           && st'.toolCalls[s].argsHash == st.toolCalls[s].argsHash)
      && (!OfToolCall(y, s) ==> st'.toolCalls[s] == st.toolCalls[s])
  {
    if !IsToolEvent(y.event) {
      ToolCallsUntouched(st, y);
      hide ApplyEvent;
    }
  }

  lemma EndStays(st: WorkflowState, y: Stored)
    requires ApplyEvent(st, y).Some?
    ensures var st' := ApplyEvent(st, y).value;
      && (!y.event.WorkflowStarted? ==> st'.start == st.start)
      && (!y.event.WorkflowCompleted? ==> st'.result == st.result)
      && (!y.event.WorkflowFailed? && !y.event.WorkflowCanceled? ==> st'.error == st.error)
  {
    hide ApplyEvent;
    if !y.event.WorkflowStarted? { StartStays(st, y); }
    if !y.event.WorkflowCompleted? { ResultStays(st, y); }
    if !y.event.WorkflowFailed? && !y.event.WorkflowCanceled? { ErrorStays(st, y); }
  }

  lemma StartStays(st: WorkflowState, y: Stored)
    requires ApplyEvent(st, y).Some? && !y.event.WorkflowStarted?
    ensures ApplyEvent(st, y).value.start == st.start
  {
  }

  lemma ResultStays(st: WorkflowState, y: Stored)
    requires ApplyEvent(st, y).Some? && !y.event.WorkflowCompleted?
    ensures ApplyEvent(st, y).value.result == st.result
  {
  }

  lemma ErrorStays(st: WorkflowState, y: Stored)
    requires ApplyEvent(st, y).Some? && !y.event.WorkflowFailed? && !y.event.WorkflowCanceled?
    ensures ApplyEvent(st, y).value.error == st.error
  {
  }

  lemma ShowsStepStays(st: WorkflowState, x: Stored, y: Stored)
    requires ShowsStep(st, x) && y.seqNo != x.seqNo && ApplyEvent(st, y).Some?
    ensures ShowsStep(ApplyEvent(st, y).value, x)
  {
    hide ApplyEvent, OfActivity, OfLlmCall, OfToolCall;
    match x.event
    case ActivityScheduled(_, _) => ActivityStays(st, y, x.seqNo);
    case TimerScheduled(_) => TimerStays(st, y, x.seqNo);
    case LlmRequested(_, _, _, _, _) => LlmCallStays(st, y, x.seqNo);
    case ToolRequested(_, _, _, _, _) => ToolCallStays(st, y, x.seqNo);
    case _ =>
  }

  // Whatever follows, a step stays in the state as it was scheduled.
  lemma {:induction false} StepsAreFolded(log: seq<Stored>, i: nat)
    requires FoldEvents(log).Some? && i < |log|
    requires forall j :: i < j < |log| ==> log[j].seqNo != log[i].seqNo
    ensures ShowsStep(FoldEvents(log).value, log[i])
  {
    var n := |log| - 1;
    if i < n {
      StepsAreFolded(log[..n], i);
      hide ShowsStep, ApplyEvent;
      assert log[..n][i] == log[i];
      ShowsStepStays(FoldEvents(log[..n]).value, log[i], log[n]);
    }
  }

  // ---------------------------------------------------------------- what is reported

  // The state has what this event reports.
  predicate Shows(st: WorkflowState, e: Event) {
    match e
    case WorkflowStarted(workflowType, input) => st.start == Some((workflowType, input))
    case WorkflowCompleted(result) => st.result == Some(result)
    case WorkflowFailed(error) => st.error == Some(error)
    case WorkflowCanceled(reason) => st.error == reason
    case ActivityCompleted(s, result) =>
      s in st.activities && st.activities[s].status == Finished && st.activities[s].result == Some(result)
    case ActivityFailed(s, error) =>
      s in st.activities && st.activities[s].status == Broken && st.activities[s].error == Some(error)
    case TimerFired(s) => s in st.timers && st.timers[s].hasFired
    case LlmCompleted(_, s, _, response, latencyMs, costUsd, _) =>
      && s in st.llmCalls && st.llmCalls[s].status == Finished && st.llmCalls[s].view.Some?
      && var view := st.llmCalls[s].view.value;
        && view.text == response.text && view.model == response.model && view.truncated == response.truncated
        && view.tokensIn == response.tokensIn && view.tokensOut == response.tokensOut
        && view.latencyMs == latencyMs && view.costUsd == costUsd
    case LlmFailed(_, s, error, _, _, _) =>
      s in st.llmCalls && st.llmCalls[s].status == Broken && st.llmCalls[s].error == Some(error)
    case ToolCompleted(_, s, _, result, latencyMs, _) =>
      && s in st.toolCalls && st.toolCalls[s].status == Finished
      && st.toolCalls[s].result == Some(result) && st.toolCalls[s].latencyMs == Some(latencyMs)
    case ToolFailed(_, s, _, error, _, _, _) =>
      s in st.toolCalls && st.toolCalls[s].status == Broken && st.toolCalls[s].error == Some(error)
    case _ => true
  }

  // The later event has something else to say about the same part of the state.
  predicate Overwrites(x: Stored, e: Event) {
    match e
    case WorkflowStarted(_, _) => x.event.WorkflowStarted?
    case WorkflowCompleted(_) => x.event.WorkflowCompleted?
    case WorkflowFailed(_) => x.event.WorkflowFailed? || x.event.WorkflowCanceled?
    case WorkflowCanceled(_) => x.event.WorkflowFailed? || x.event.WorkflowCanceled?
    case ActivityCompleted(s, _) => OfActivity(x, s)
    case ActivityFailed(s, _) => OfActivity(x, s)
    case TimerFired(s) => x.event.TimerScheduled? && x.seqNo == s
    case LlmCompleted(_, s, _, _, _, _, _) => OfLlmCall(x, s)
    case LlmFailed(_, s, _, _, _, _) => OfLlmCall(x, s)
    case ToolCompleted(_, s, _, _, _, _) => OfToolCall(x, s)
    case ToolFailed(_, s, _, _, _, _, _) => OfToolCall(x, s)
    case _ => false
  }

  predicate OfActivity(x: Stored, s: nat) {
    || (x.event.ActivityScheduled? && x.seqNo == s)
    || (x.event.ActivityCompleted? && x.event.scheduledEventSeq == s)
    || (x.event.ActivityFailed? && x.event.scheduledEventSeq == s)
  }

  predicate OfLlmCall(x: Stored, s: nat) {
    || (x.event.LlmRequested? && x.seqNo == s)
    || (x.event.LlmCompleted? && x.event.scheduledEventSeq == s)
    || (x.event.LlmFailed? && x.event.scheduledEventSeq == s)
  }

  predicate OfToolCall(x: Stored, s: nat) {
    || (x.event.ToolRequested? && x.seqNo == s)
    || (x.event.ToolCompleted? && x.event.scheduledEventSeq == s)
    || (x.event.ToolFailed? && x.event.scheduledEventSeq == s)
  }

  // The step an outcome names is in the state already; else the outcome is ignored.
  predicate Known(st: WorkflowState, e: Event) {
    match e
    case ActivityCompleted(s, _) => s in st.activities
    case ActivityFailed(s, _) => s in st.activities
    case TimerFired(s) => s in st.timers
    case LlmCompleted(_, s, _, _, _, _, _) => s in st.llmCalls
    case LlmFailed(_, s, _, _, _, _) => s in st.llmCalls
    case ToolCompleted(_, s, _, _, _, _) => s in st.toolCalls
    case ToolFailed(_, s, _, _, _, _, _) => s in st.toolCalls
    case _ => true
  }

  // The event schedules the step this outcome is of.
  predicate IsOf(e: Event, x: Stored) {
    match e
    case ActivityCompleted(s, _) => x.event.ActivityScheduled? && x.seqNo == s
    case ActivityFailed(s, _) => x.event.ActivityScheduled? && x.seqNo == s
    case TimerFired(s) => x.event.TimerScheduled? && x.seqNo == s
    case LlmCompleted(_, s, _, _, _, _, _) => x.event.LlmRequested? && x.seqNo == s
    case LlmFailed(_, s, _, _, _, _) => x.event.LlmRequested? && x.seqNo == s
    case ToolCompleted(_, s, _, _, _, _) => x.event.ToolRequested? && x.seqNo == s
    case ToolFailed(_, s, _, _, _, _, _) => x.event.ToolRequested? && x.seqNo == s
    case _ => false
  }

  lemma KnownNow(st: WorkflowState, e: Event, x: Stored)
    requires IsOf(e, x) && ApplyEvent(st, x).Some?
    ensures Known(ApplyEvent(st, x).value, e)
  {
  }

  lemma KnownStays(st: WorkflowState, e: Event, y: Stored)
    requires Known(st, e) && ApplyEvent(st, y).Some?
    ensures Known(ApplyEvent(st, y).value, e)
  {
    hide ApplyEvent, OfActivity, OfLlmCall, OfToolCall;
    match e
    case ActivityCompleted(s, _) => ActivityStays(st, y, s);
    case ActivityFailed(s, _) => ActivityStays(st, y, s);
    case TimerFired(s) => TimerStays(st, y, s);
    case LlmCompleted(_, s, _, _, _, _, _) => LlmCallStays(st, y, s);
    case LlmFailed(_, s, _, _, _, _) => LlmCallStays(st, y, s);
    case ToolCompleted(_, s, _, _, _, _) => ToolCallStays(st, y, s);
    case ToolFailed(_, s, _, _, _, _, _) => ToolCallStays(st, y, s);
    case _ =>
  }

  lemma {:induction false} ScheduledIsKnown(log: seq<Stored>, e: Event, h: nat)
    requires FoldEvents(log).Some? && h < |log| && IsOf(e, log[h])
    ensures Known(FoldEvents(log).value, e)
  {
    hide Known, IsOf, ApplyEvent;
    var n := |log| - 1;
    if h < n {
      assert log[..n][h] == log[h];
      ScheduledIsKnown(log[..n], e, h);
      KnownStays(FoldEvents(log[..n]).value, e, log[n]);
    } else {
      KnownNow(FoldEvents(log[..n]).value, e, log[n]);
    }
  }

  lemma ShowsNow(st: WorkflowState, x: Stored)
    requires Known(st, x.event) && ApplyEvent(st, x).Some?
    ensures Shows(ApplyEvent(st, x).value, x.event)
  {
  }

  lemma ShowsStays(st: WorkflowState, e: Event, x: Stored)
    requires Shows(st, e) && !Overwrites(x, e) && ApplyEvent(st, x).Some?
    ensures Shows(ApplyEvent(st, x).value, e)
  {
    hide ApplyEvent, OfActivity, OfLlmCall, OfToolCall;
    EndStays(st, x);
    match e
    case ActivityCompleted(s, _) => ActivityStays(st, x, s);
    case ActivityFailed(s, _) => ActivityStays(st, x, s);
    case TimerFired(s) => TimerStays(st, x, s);
    case LlmCompleted(_, s, _, _, _, _, _) => LlmCallStays(st, x, s);
    case LlmFailed(_, s, _, _, _, _) => LlmCallStays(st, x, s);
    case ToolCompleted(_, s, _, _, _, _) => ToolCallStays(st, x, s);
    case ToolFailed(_, s, _, _, _, _, _) => ToolCallStays(st, x, s);
    case _ =>
  }

  predicate IsOutcome(e: Event) {
    || e.ActivityCompleted? || e.ActivityFailed? || e.TimerFired? || e.LlmCompleted? || e.LlmFailed?
    || e.ToolCompleted? || e.ToolFailed?
  }

  // The state has what each event reports until a later one overwrites it; outcomes follow their step.
  lemma {:induction false} ReportsAreFolded(log: seq<Stored>, i: nat)
    requires FoldEvents(log).Some? && i < |log|
    requires IsOutcome(log[i].event) ==> exists h: nat :: h < i && IsOf(log[i].event, log[h])
    requires forall j :: i < j < |log| ==> !Overwrites(log[j], log[i].event)
    ensures Shows(FoldEvents(log).value, log[i].event)
  {
    hide Shows, ApplyEvent, Overwrites, IsOf;
    var n := |log| - 1;
    var st := FoldEvents(log[..n]).value;
    if i < n {
      assert log[..n][i] == log[i] && (forall h: nat :: h < i ==> log[..n][h] == log[h]);
      ReportsAreFolded(log[..n], i);
      ShowsStays(st, log[i].event, log[n]);
    } else {
      if IsOutcome(log[n].event) {
        var h: nat :| h < n && IsOf(log[n].event, log[h]);
        assert log[..n][h] == log[h];
        ScheduledIsKnown(log[..n], log[n].event, h);
      }
      ShowsNow(st, log[n]);
    }
  }

  // And it has no result, error or start without an event that reports one.
  lemma {:induction false} EndIsFolded(log: seq<Stored>)
    requires FoldEvents(log).Some?
    ensures FoldEvents(log).value.result.Some? ==> exists i: nat :: i < |log| && log[i].event.WorkflowCompleted?
    ensures FoldEvents(log).value.error.Some? ==>
      exists i: nat :: i < |log| && (log[i].event.WorkflowFailed? || log[i].event.WorkflowCanceled?)
    ensures FoldEvents(log).value.start.Some? ==> exists i: nat :: i < |log| && log[i].event.WorkflowStarted?
  {
    if log != [] {
      var n := |log| - 1;
      EndIsFolded(log[..n]);
      EndStays(FoldEvents(log[..n]).value, log[n]);
      assert forall i: nat :: i < n ==> log[..n][i] == log[i];
    }
  }

  predicate IsEnd(e: Event) {
    e.WorkflowCompleted? || e.WorkflowFailed? || e.WorkflowCanceled?
  }

  // The status is what the last end of the workflow makes it, and RUNNING without one.
  lemma {:induction false} StatusIsFolded(log: seq<Stored>, i: nat)
    requires FoldEvents(log).Some?
    ensures (forall j :: 0 <= j < |log| ==> !IsEnd(log[j].event)) ==> FoldEvents(log).value.status == RUNNING
    ensures i < |log| && IsEnd(log[i].event) && (forall j :: i < j < |log| ==> !IsEnd(log[j].event)) ==>
      FoldEvents(log).value.status ==
        if log[i].event.WorkflowCompleted? then COMPLETED
        else if log[i].event.WorkflowFailed? then FAILED
        else CANCELED
  {
    if log != [] {
      var n := |log| - 1;
      StatusIsFolded(log[..n], i);
      assert forall j :: 0 <= j < n ==> log[..n][j] == log[j];
      StatusStays(FoldEvents(log[..n]).value, log[n]);
      hide ApplyEvent;
    }
  }

  lemma StatusStays(st: WorkflowState, x: Stored)
    requires ApplyEvent(st, x).Some?
    ensures ApplyEvent(st, x).value.status ==
      if x.event.WorkflowCompleted? then COMPLETED
      else if x.event.WorkflowFailed? then FAILED
      else if x.event.WorkflowCanceled? then CANCELED
      else st.status
  {
  }
}
