/** packages/core/src/workflow.ts: the state folded from a log, which everything but replay looks at. */
module WorkflowFold {
  import opened Wrappers
  import opened Texts
  import opened Json
  import opened Events
  import opened ReplaySpec
  import opened Decisions

  datatype Status = RUNNING | COMPLETED | FAILED | CANCELED

  datatype StepStatus = Scheduled | Finished | Broken

  datatype ActivityState = ActivityState(
    activityType: Text, status: StepStatus, result: Option<Json>, error: Option<Text>)

  datatype TimerState = TimerState(fireAt: int, hasFired: bool)

  datatype LlmView = LlmView(
    text: Text, model: Text, tokensIn: int, tokensOut: int, truncated: bool, latencyMs: int, costUsd: Option<int>)

  datatype LlmCallState = LlmCallState(
    stepId: Text, status: StepStatus, requestHash: Text, view: Option<LlmView>, error: Option<Text>)

  datatype ToolCallState = ToolCallState(
    stepId: Text, tool: Text, status: StepStatus, argsHash: Text, result: Option<Json>, latencyMs: Option<int>,
    error: Option<Text>)

  datatype WorkflowState = WorkflowState(
    status: Status,
    start: Option<(Text, Json)>,
    activities: map<nat, ActivityState>,
    timers: map<nat, TimerState>,
    llmCalls: map<nat, LlmCallState>,
    toolCalls: map<nat, ToolCallState>,
    signals: map<Text, seq<Json>>,
    result: Option<Json>,
    error: Option<Text>)

  const INITIAL := WorkflowState(RUNNING, None, map[], map[], map[], map[], map[], None, None)

  // Names a JavaScript object answers to without having been given them. Looking one of them up in
  // `signals` finds no array, and spreading what it finds throws.
  const INHERITED: set<Text> := {
    Lit("constructor"), Lit("__proto__"), Lit("__defineGetter__"), Lit("__defineSetter__"), Lit("__lookupGetter__"),
    Lit("__lookupSetter__"), Lit("hasOwnProperty"), Lit("isPrototypeOf"), Lit("propertyIsEnumerable"),
    Lit("toLocaleString"), Lit("toString"), Lit("valueOf")
  }

  function Payloads(st: WorkflowState, name: Text): seq<Json> {
    if name in st.signals then st.signals[name] else []
  }

  // applyEvent; None where it throws
  function ApplyEvent(st: WorkflowState, stored: Stored): Option<WorkflowState> {
    match stored.event
    case WorkflowStarted(workflowType, input) => Some(st.(start := Some((workflowType, input))))
    case ActivityScheduled(activityType, _) =>
      Some(st.(activities := st.activities[stored.seqNo := ActivityState(activityType, Scheduled, None, None)]))
    case ActivityCompleted(s, result) =>
      if s !in st.activities then Some(st)
      else Some(st.(activities := st.activities[s := st.activities[s].(status := Finished, result := Some(result))]))
    case ActivityFailed(s, error) =>
      if s !in st.activities then Some(st)
      else Some(st.(activities := st.activities[s := st.activities[s].(status := Broken, error := Some(error))]))
    case WorkflowCompleted(result) => Some(st.(status := COMPLETED, result := Some(result)))
    case WorkflowFailed(error) => Some(st.(status := FAILED, error := Some(error)))
    case TimerScheduled(fireAt) => Some(st.(timers := st.timers[stored.seqNo := TimerState(fireAt, false)]))
    case TimerFired(s) =>
      if s !in st.timers then Some(st) else Some(st.(timers := st.timers[s := st.timers[s].(hasFired := true)]))
    case SignalReceived(name, payload) =>
      if name in INHERITED && name !in st.signals then None
      else Some(st.(signals := st.signals[name := Payloads(st, name) + [payload]]))
    case CancellationRequested(_) => Some(st)
    case WorkflowCanceled(reason) => Some(st.(status := CANCELED, error := reason))
    case LlmRequested(stepId, requestHash, _, _, _) =>
      Some(st.(llmCalls := st.llmCalls[stored.seqNo := LlmCallState(stepId, Scheduled, requestHash, None, None)]))
    case LlmCompleted(_, s, _, r, latencyMs, costUsd, _) =>
      if s !in st.llmCalls then Some(st)
      else
        var view := LlmView(r.text, r.model, r.tokensIn, r.tokensOut, r.truncated, latencyMs, costUsd);
        Some(st.(llmCalls := st.llmCalls[s := st.llmCalls[s].(status := Finished, view := Some(view))]))
    case LlmFailed(_, s, error, _, _, _) =>
      if s !in st.llmCalls then Some(st)
      else Some(st.(llmCalls := st.llmCalls[s := st.llmCalls[s].(status := Broken, error := Some(error))]))
    case ToolRequested(stepId, tool, _, argsHash, _) =>
      Some(st.(toolCalls :=
        st.toolCalls[stored.seqNo := ToolCallState(stepId, tool, Scheduled, argsHash, None, None, None)]))
    case ToolCompleted(_, s, _, result, latencyMs, _) =>
      if s !in st.toolCalls then Some(st)
      else
        var done := st.toolCalls[s].(status := Finished, result := Some(result), latencyMs := Some(latencyMs));
        Some(st.(toolCalls := st.toolCalls[s := done]))
    case ToolFailed(_, s, _, error, _, _, _) =>
      if s !in st.toolCalls then Some(st)
      else Some(st.(toolCalls := st.toolCalls[s := st.toolCalls[s].(status := Broken, error := Some(error))]))
  }

  function FoldEvents(log: seq<Stored>): Option<WorkflowState> {
    if log == [] then Some(INITIAL)
    else
      match FoldEvents(log[..|log| - 1])
      case Some(st) => ApplyEvent(st, log[|log| - 1])
      case None => None
  }

  // ---------------------------------------------------------------- signals

  predicate SignalsFoldable(log: seq<Stored>) {
    forall i :: 0 <= i < |log| && log[i].event.SignalReceived? ==> log[i].event.signalName !in INHERITED
  }

  function PayloadsOf(r: seq<Stored>): seq<Json>
    requires forall i :: 0 <= i < |r| ==> r[i].event.SignalReceived?
  {
    seq(|r|, i requires 0 <= i < |r| => r[i].event.payload)
  }

  function SignalsNamed(log: seq<Stored>, name: Text): seq<Stored> {
    Recorded(log, SignalLane(name))
  }

  lemma SignalStep(st: WorkflowState, x: Stored, name: Text)
    requires ApplyEvent(st, x).Some?
    ensures Payloads(ApplyEvent(st, x).value, name) ==
      Payloads(st, name) + if x.event.SignalReceived? && x.event.signalName == name then [x.event.payload] else []
    ensures name in ApplyEvent(st, x).value.signals <==>
      name in st.signals || x.event == SignalReceived(name, if x.event.SignalReceived? then x.event.payload else JNull)
  {
    assert Payloads(st, name) + [] == Payloads(st, name);
  }

  // The fold of a log throws exactly when some signal of it bears an inherited name.
  lemma {:induction false} FoldThrowsIff(log: seq<Stored>)
    ensures FoldEvents(log).Some? <==> SignalsFoldable(log)
    ensures FoldEvents(log).Some? ==> forall name :: name in INHERITED ==> name !in FoldEvents(log).value.signals
  {
    if log != [] {
      var n := |log| - 1;
      FoldThrowsIff(log[..n]);
      assert forall i :: 0 <= i < n ==> log[..n][i] == log[i];
      if FoldEvents(log[..n]).Some? && ApplyEvent(FoldEvents(log[..n]).value, log[n]).Some? {
        forall name { SignalStep(FoldEvents(log[..n]).value, log[n], name); }
      }
    }
  }

  lemma {:induction false} FoldSignals(log: seq<Stored>, name: Text)
    requires FoldEvents(log).Some?
    ensures Payloads(FoldEvents(log).value, name) == PayloadsOf(SignalsNamed(log, name))
  {
    if log != [] {
      var n := |log| - 1;
      FoldSignals(log[..n], name);
      SignalStep(FoldEvents(log[..n]).value, log[n], name);
      var before := SignalsNamed(log[..n], name);
      if EventLane(log[n].event) == Some(SignalLane(name)) {
        assert PayloadsOf(before + [log[n]]) == PayloadsOf(before) + [log[n].event.payload];
      }
    }
  }

  // signals[name][i] is what the i-th waitForSignal(name) returns.
  lemma SignalsAgree(hash: Hash, log: seq<Stored>, name: Text, i: nat)
    requires FoldEvents(log).Some?
    ensures var payloads := Payloads(FoldEvents(log).value, name);
      Respond(hash, log, WaitSignal(name), i) == if i < |payloads| then Settled(Value(payloads[i])) else Hanging
  {
    FoldSignals(log, name);
  }

  // ---------------------------------------------------------------- outcomes

  // Events are numbered apart, and outcomes refer to earlier schedule events of their own lane.
  ghost predicate WellReferenced(log: seq<Stored>) {
    && (forall i, j :: 0 <= i < j < |log| ==> log[i].seqNo != log[j].seqNo)
    && forall i :: 0 <= i < |log| && OutcomeOf(log[i].event).Some? ==>
         IsScheduled(log[..i], OutcomeOf(log[i].event).value.lane, OutcomeOf(log[i].event).value.seqNo)
  }

  ghost predicate IsScheduled(log: seq<Stored>, lane: Lane, s: nat) {
    exists j :: 0 <= j < |log| && log[j].seqNo == s && EventLane(log[j].event) == Some(lane)
  }

  // What the folded state says about a step: its status and value.
  datatype StepView = Absent | Open | Result(answer: Answer)

  function ViewOf(st: WorkflowState, lane: Lane, s: nat): Option<StepView> {
    match lane
    case ActivityLane => (
      match Get(st.activities, s)
      case None => Some(Absent)
      case Some(a) => (
        match (a.status, a.result, a.error)
        case (Scheduled, _, _) => Some(Open)
        case (Finished, Some(v), _) => Some(Result(Value(v)))
        case (Broken, _, Some(e)) => Some(Result(Rejected(e)))
        case _ => None))
    case TimerLane => (
      match Get(st.timers, s)
      case None => Some(Absent)
      case Some(t) => Some(if t.hasFired then Result(Fired) else Open))
    case ToolLane => (
      match Get(st.toolCalls, s)
      case None => Some(Absent)
      case Some(a) => (
        match (a.status, a.result, a.error)
        case (Scheduled, _, _) => Some(Open)
        case (Finished, Some(v), _) => Some(Result(Value(v)))
        case (Broken, _, Some(e)) => Some(Result(Rejected(e)))
        case _ => None))
    case LlmLane => (
      match Get(st.llmCalls, s)
      case None => Some(Absent)
      case Some(a) => (
        match (a.status, a.view, a.error)
        case (Scheduled, _, _) => Some(Open)
        case (Finished, Some(v), _) =>
          Some(Result(Response(LlmCallResult(v.text, [], v.model, v.tokensIn, v.tokensOut, v.truncated))))
        case (Broken, _, Some(e)) => Some(Result(Rejected(e)))
        case _ => None))
    case SignalLane(_) => Some(Absent)
  }

  // The folded state keeps everything of an LLM answer but its tool calls.
  function Shown(a: Answer): Answer {
    match a
    case Response(r) => Response(r.(toolCalls := []))
    case _ => a
  }

  ghost function Expected(log: seq<Stored>, lane: Lane, s: nat): StepView {
    if !IsScheduled(log, lane, s) then Absent
    else
      match OutcomeIn(log, lane, s)
      case None => Open
      case Some(a) => Result(Shown(a))
  }

  // What an event makes of the view of one step.
  function ViewAfter(x: Stored, lane: Lane, s: nat, before: Option<StepView>): Option<StepView> {
    var o := OutcomeOf(x.event);
    if EventLane(x.event) == Some(lane) && x.seqNo == s then Some(Open)
    else if o.Some? && o.value.lane == lane && o.value.seqNo == s && before != Some(Absent) then
      Some(Result(Shown(o.value.answer)))
    else before
  }

  predicate IsActivityEvent(e: Event) {
    e.ActivityScheduled? || e.ActivityCompleted? || e.ActivityFailed?
  }

  lemma ActivitiesUntouched(st: WorkflowState, x: Stored)
    requires ApplyEvent(st, x).Some? && !IsActivityEvent(x.event)
    ensures ApplyEvent(st, x).value.activities == st.activities
    ensures EventLane(x.event) != Some(ActivityLane)
    ensures OutcomeOf(x.event).Some? ==> OutcomeOf(x.event).value.lane != ActivityLane
  {
  }

  lemma ActivityEventView(st: WorkflowState, x: Stored, s: nat)
    requires ApplyEvent(st, x).Some? && ViewOf(st, ActivityLane, s).Some? && IsActivityEvent(x.event)
    ensures ViewOf(ApplyEvent(st, x).value, ActivityLane, s) ==
      ViewAfter(x, ActivityLane, s, ViewOf(st, ActivityLane, s))
  {
  }

  lemma ActivityViewStep(st: WorkflowState, x: Stored, s: nat)
    requires ApplyEvent(st, x).Some? && ViewOf(st, ActivityLane, s).Some?
    ensures ViewOf(ApplyEvent(st, x).value, ActivityLane, s) ==
      ViewAfter(x, ActivityLane, s, ViewOf(st, ActivityLane, s))
  {
    hide ApplyEvent, EventLane, OutcomeOf, IsActivityEvent;
    if IsActivityEvent(x.event) { ActivityEventView(st, x, s); } else { ActivitiesUntouched(st, x); }
  }

  predicate IsTimerEvent(e: Event) {
    e.TimerScheduled? || e.TimerFired?
  }

  lemma TimersUntouched(st: WorkflowState, x: Stored)
    requires ApplyEvent(st, x).Some? && !IsTimerEvent(x.event)
    ensures ApplyEvent(st, x).value.timers == st.timers
    ensures EventLane(x.event) != Some(TimerLane)
    ensures OutcomeOf(x.event).Some? ==> OutcomeOf(x.event).value.lane != TimerLane
  {
  }

  lemma TimerEventView(st: WorkflowState, x: Stored, s: nat)
    requires ApplyEvent(st, x).Some? && ViewOf(st, TimerLane, s).Some? && IsTimerEvent(x.event)
    ensures ViewOf(ApplyEvent(st, x).value, TimerLane, s) == ViewAfter(x, TimerLane, s, ViewOf(st, TimerLane, s))
  {
  }

  lemma TimerViewStep(st: WorkflowState, x: Stored, s: nat)
    requires ApplyEvent(st, x).Some? && ViewOf(st, TimerLane, s).Some?
    ensures ViewOf(ApplyEvent(st, x).value, TimerLane, s) == ViewAfter(x, TimerLane, s, ViewOf(st, TimerLane, s))
  {
    hide ApplyEvent, EventLane, OutcomeOf, IsTimerEvent;
    if IsTimerEvent(x.event) { TimerEventView(st, x, s); } else { TimersUntouched(st, x); }
  }

  predicate IsLlmEvent(e: Event) {
    e.LlmRequested? || e.LlmCompleted? || e.LlmFailed?
  }

  lemma LlmCallsUntouched(st: WorkflowState, x: Stored)
    requires ApplyEvent(st, x).Some? && !IsLlmEvent(x.event)
    ensures ApplyEvent(st, x).value.llmCalls == st.llmCalls
    ensures EventLane(x.event) != Some(LlmLane)
    ensures OutcomeOf(x.event).Some? ==> OutcomeOf(x.event).value.lane != LlmLane
  {
  }

  lemma LlmEventView(st: WorkflowState, x: Stored, s: nat)
    requires ApplyEvent(st, x).Some? && ViewOf(st, LlmLane, s).Some? && IsLlmEvent(x.event)
    ensures ViewOf(ApplyEvent(st, x).value, LlmLane, s) == ViewAfter(x, LlmLane, s, ViewOf(st, LlmLane, s))
  {
  }

  lemma LlmViewStep(st: WorkflowState, x: Stored, s: nat)
    requires ApplyEvent(st, x).Some? && ViewOf(st, LlmLane, s).Some?
    ensures ViewOf(ApplyEvent(st, x).value, LlmLane, s) == ViewAfter(x, LlmLane, s, ViewOf(st, LlmLane, s))
  {
    hide ApplyEvent, EventLane, OutcomeOf, IsLlmEvent;
    if IsLlmEvent(x.event) { LlmEventView(st, x, s); } else { LlmCallsUntouched(st, x); }
  }

  predicate IsToolEvent(e: Event) {
    e.ToolRequested? || e.ToolCompleted? || e.ToolFailed?
  }

  lemma ToolCallsUntouched(st: WorkflowState, x: Stored)
    requires ApplyEvent(st, x).Some? && !IsToolEvent(x.event)
    ensures ApplyEvent(st, x).value.toolCalls == st.toolCalls
    ensures EventLane(x.event) != Some(ToolLane)
    ensures OutcomeOf(x.event).Some? ==> OutcomeOf(x.event).value.lane != ToolLane
  {
  }

  lemma ToolRequestView(st: WorkflowState, x: Stored, s: nat)
    requires ApplyEvent(st, x).Some? && ViewOf(st, ToolLane, s).Some? && x.event.ToolRequested?
    ensures ViewOf(ApplyEvent(st, x).value, ToolLane, s) == ViewAfter(x, ToolLane, s, ViewOf(st, ToolLane, s))
  {
  }

  lemma ToolOutcomeView(st: WorkflowState, x: Stored, s: nat)
    requires ApplyEvent(st, x).Some? && ViewOf(st, ToolLane, s).Some? && (x.event.ToolCompleted? || x.event.ToolFailed?)
    ensures ViewOf(ApplyEvent(st, x).value, ToolLane, s) == ViewAfter(x, ToolLane, s, ViewOf(st, ToolLane, s))
  {
  }

  lemma ToolCallsKept(st: WorkflowState, x: Stored, s: nat)
    requires ApplyEvent(st, x).Some? && ViewOf(st, ToolLane, s).Some? && !IsToolEvent(x.event)
    ensures ViewOf(ApplyEvent(st, x).value, ToolLane, s) == ViewAfter(x, ToolLane, s, ViewOf(st, ToolLane, s))
  {
    ToolCallsUntouched(st, x);
    hide ApplyEvent, EventLane, OutcomeOf;
  }

  lemma ToolViewStep(st: WorkflowState, x: Stored, s: nat)
    requires ApplyEvent(st, x).Some? && ViewOf(st, ToolLane, s).Some?
    ensures ViewOf(ApplyEvent(st, x).value, ToolLane, s) == ViewAfter(x, ToolLane, s, ViewOf(st, ToolLane, s))
  {
    hide ApplyEvent, EventLane, OutcomeOf, ViewOf, ViewAfter;
    if x.event.ToolRequested? {
      ToolRequestView(st, x, s);
    } else if IsToolEvent(x.event) {
      ToolOutcomeView(st, x, s);
    } else {
      ToolCallsKept(st, x, s);
    }
  }

  lemma ViewStep(st: WorkflowState, x: Stored, lane: Lane, s: nat)
    requires ApplyEvent(st, x).Some? && !IsSignal(lane) && ViewOf(st, lane, s).Some?
    ensures ViewOf(ApplyEvent(st, x).value, lane, s) == ViewAfter(x, lane, s, ViewOf(st, lane, s))
  {
    hide ApplyEvent, ViewOf, ViewAfter;
    match lane
    case ActivityLane => ActivityViewStep(st, x, s);
    case TimerLane => TimerViewStep(st, x, s);
    case LlmLane => LlmViewStep(st, x, s);
    case ToolLane => ToolViewStep(st, x, s);
    case SignalLane(_) =>
  }

  lemma ScheduledStep(log: seq<Stored>, lane: Lane, s: nat)
    requires log != []
    ensures IsScheduled(log, lane, s) <==>
      IsScheduled(log[..|log| - 1], lane, s) ||
        (log[|log| - 1].seqNo == s && EventLane(log[|log| - 1].event) == Some(lane))
  {
    var n := |log| - 1;
    if IsScheduled(log[..n], lane, s) {
      var j :| 0 <= j < n && log[..n][j].seqNo == s && EventLane(log[..n][j].event) == Some(lane);
      assert log[j] == log[..n][j];
    }
    if IsScheduled(log, lane, s) {
      var j :| 0 <= j < |log| && log[j].seqNo == s && EventLane(log[j].event) == Some(lane);
      if j < n { assert log[..n][j] == log[j]; }
    }
  }

  lemma WellReferencedPrefix(log: seq<Stored>, n: nat)
    requires WellReferenced(log) && n <= |log|
    ensures WellReferenced(log[..n])
  {
    forall i | 0 <= i < n && OutcomeOf(log[i].event).Some?
      ensures log[..n][..i] == log[..i]
    {
    }
  }

  lemma {:induction false} NoEarlyOutcome(log: seq<Stored>, lane: Lane, s: nat)
    requires WellReferenced(log) && OutcomeIn(log, lane, s).Some?
    ensures IsScheduled(log, lane, s)
  {
    var n := |log| - 1;
    ScheduledStep(log, lane, s);
    var o := OutcomeOf(log[n].event);
    if !(o.Some? && o.value.lane == lane && o.value.seqNo == s) {
      WellReferencedPrefix(log, n);
      NoEarlyOutcome(log[..n], lane, s);
    }
  }

  predicate Schedules(x: Stored, lane: Lane, s: nat) {
    x.seqNo == s && EventLane(x.event) == Some(lane)
  }

  // The step is scheduled again, or at last, after its last outcome.
  ghost predicate Stale(log: seq<Stored>, lane: Lane, s: nat) {
    exists i :: 0 <= i < |log| && StaleAt(log, lane, s, i)
  }

  predicate StaleAt(log: seq<Stored>, lane: Lane, s: nat, i: nat)
    requires i < |log|
  {
    Schedules(log[i], lane, s) && OutcomeIn(log[..i], lane, s).Some? && OutcomeIn(log[i..], lane, s).None?
  }

  lemma OneMore(log: seq<Stored>, lane: Lane, s: nat, i: nat)
    requires log != [] && i < |log|
    ensures var n := |log| - 1;
      && (i < n ==> log[..n][..i] == log[..i] && log[..n][i] == log[i])
      && (OutcomeIn(log[i..], lane, s).None? <==>
           OutcomeIn(log[..n][i..], lane, s).None? && OutcomeIn([log[n]], lane, s).None?)
  {
    var n := |log| - 1;
    assert log[i..] == log[..n][i..] + [log[n]];
    OutcomeInConcat(log[..n][i..], [log[n]], lane, s);
  }

  lemma StaleStep(log: seq<Stored>, lane: Lane, s: nat)
    requires log != []
    ensures var n := |log| - 1;
      Stale(log, lane, s) <==>
        && OutcomeIn([log[n]], lane, s).None?
        && (Stale(log[..n], lane, s) || (Schedules(log[n], lane, s) && OutcomeIn(log[..n], lane, s).Some?))
  {
    hide OutcomeIn, Schedules;
    var n := |log| - 1;
    NoneInNothing(lane, s);
    assert log[..n][n..] == [];
    forall i | 0 <= i < n
      ensures StaleAt(log, lane, s, i) <==> OutcomeIn([log[n]], lane, s).None? && StaleAt(log[..n], lane, s, i)
    {
      OneMore(log, lane, s, i);
    }
    OneMore(log, lane, s, n);
    assert StaleAt(log, lane, s, n) <==>
      OutcomeIn([log[n]], lane, s).None? && Schedules(log[n], lane, s) && OutcomeIn(log[..n], lane, s).Some?;
    hide StaleAt;
    if Stale(log[..n], lane, s) {
      var i :| 0 <= i < n && StaleAt(log[..n], lane, s, i);
      assert StaleAt(log, lane, s, i) <==> OutcomeIn([log[n]], lane, s).None?;
    }
  }

  lemma NoneInNothing(lane: Lane, s: nat)
    ensures OutcomeIn([], lane, s).None?
  {
  }

  lemma OutcomeSnoc(log: seq<Stored>, lane: Lane, s: nat)
    requires log != []
    ensures var n := |log| - 1;
      var o := OutcomeOf(log[n].event);
      var here := o.Some? && o.value.lane == lane && o.value.seqNo == s;
      && OutcomeIn(log, lane, s) == (if here then Some(o.value.answer) else OutcomeIn(log[..n], lane, s))
      && (OutcomeIn([log[n]], lane, s).Some? <==> here)
  {
    assert [log[|log| - 1]][..0] == [];
  }

  // What the fold makes of a step: as replay sees it, but for a stale outcome, which it has forgotten.
  lemma {:induction false} FoldView(log: seq<Stored>, lane: Lane, s: nat)
    requires FoldEvents(log).Some? && !IsSignal(lane)
    ensures ViewOf(FoldEvents(log).value, lane, s) == Some(if Stale(log, lane, s) then Open else Expected(log, lane, s))
    ensures Stale(log, lane, s) ==> Expected(log, lane, s).Result?
  {
    hide ViewOf, ApplyEvent, Stale;
    if log == [] {
      EmptyView(lane, s);
      NothingStale(lane, s);
    } else {
      var n := |log| - 1;
      FoldView(log[..n], lane, s);
      ViewStep(FoldEvents(log[..n]).value, log[n], lane, s);
      ScheduledStep(log, lane, s);
      StaleStep(log, lane, s);
      OutcomeSnoc(log, lane, s);
      hide IsScheduled, OutcomeIn, FoldEvents;
    }
  }

  lemma NothingStale(lane: Lane, s: nat)
    ensures !Stale([], lane, s)
  {
  }

  // On any log that folds, status and value of a step are the same in the folded state as in replay's outcome
  // maps exactly if its last outcome, if there is one, is not followed by its schedule event.
  lemma FoldAgreesIff(log: seq<Stored>, lane: Lane, s: nat)
    requires FoldEvents(log).Some? && !IsSignal(lane)
    ensures ViewOf(FoldEvents(log).value, lane, s) == Some(Expected(log, lane, s)) <==> !Stale(log, lane, s)
  {
    hide ViewOf, Stale, Expected;
    FoldView(log, lane, s);
  }

  // Where events are numbered apart and outcomes refer to earlier schedule events they agree on every step,
  // however often an outcome is recorded: the last one counts in both.
  lemma FoldAndReplayAgree(log: seq<Stored>, lane: Lane, s: nat)
    requires FoldEvents(log).Some? && WellReferenced(log) && !IsSignal(lane)
    ensures ViewOf(FoldEvents(log).value, lane, s) == Some(Expected(log, lane, s))
  {
    hide ViewOf, Expected, FoldEvents, OutcomeIn;
    FoldAgreesIff(log, lane, s);
    forall i | 0 <= i < |log| && Schedules(log[i], lane, s) ensures OutcomeIn(log[..i], lane, s).None? {
      if OutcomeIn(log[..i], lane, s).Some? {
        WellReferencedPrefix(log, i);
        NoEarlyOutcome(log[..i], lane, s);
      }
    }
  }

  lemma EmptyView(lane: Lane, s: nat)
    ensures ViewOf(INITIAL, lane, s) == Some(Absent)
  {
  }

  // ---------------------------------------------------------------- status

  function StatusBy(e: Event): Option<Status> {
    match e
    case WorkflowCompleted(_) => Some(COMPLETED)
    case WorkflowFailed(_) => Some(FAILED)
    case WorkflowCanceled(_) => Some(CANCELED)
    case _ => None
  }

  // The last terminal event decides.
  function StatusOf(log: seq<Stored>): Status {
    if log == [] then RUNNING
    else
      match StatusBy(log[|log| - 1].event)
      case Some(s) => s
      case None => StatusOf(log[..|log| - 1])
  }

  lemma StatusStep(st: WorkflowState, x: Stored)
    requires ApplyEvent(st, x).Some?
    ensures ApplyEvent(st, x).value.status == match StatusBy(x.event) case Some(s) => s case None => st.status
  {
  }

  // The status column caches the fold's status.
  lemma {:induction false} FoldStatus(log: seq<Stored>)
    requires FoldEvents(log).Some?
    ensures FoldEvents(log).value.status == StatusOf(log)
  {
    hide ApplyEvent;
    if log != [] {
      FoldStatus(log[..|log| - 1]);
      StatusStep(FoldEvents(log[..|log| - 1]).value, log[|log| - 1]);
    }
  }

  lemma {:induction false} StatusConcat(a: seq<Stored>, b: seq<Stored>)
    ensures StatusOf(a + b) ==
      if exists i :: 0 <= i < |b| && StatusBy(b[i].event).Some? then StatusOf(b) else StatusOf(a)
  {
    if b == [] {
      assert a + b == a;
    } else {
      var n := |b| - 1;
      StatusConcat(a, b[..n]);
      assert (a + b)[..|a + b| - 1] == a + b[..n];
      if StatusBy(b[n].event).None? {
        if i :| 0 <= i < |b| && StatusBy(b[i].event).Some? { assert b[..n][i] == b[i]; }
        if i :| 0 <= i < n && StatusBy(b[..n][i].event).Some? { assert b[..n][i] == b[i]; }
      }
    }
  }
}
