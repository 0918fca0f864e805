/**
 Runs of one workflow: workflow tasks that read the log, decide, and append, crashing and being
 redelivered at any point, while outcomes, signals and cancellation requests land in between.

 Workflow-task invocations of one workflow do not overlap; each activity, LLM and tool step has
 one outcome; timers may fire repeatedly.
 */
module Engine {
  import opened Wrappers
  import opened Texts
  import opened Json
  import opened Requests
  import opened Events
  import opened StoredRequests
  import opened Drain
  import opened ReplaySpec
  import opened ReplayLaws
  import opened Decisions

  // What stays fixed over a run: the deployment and its workflow code.
  datatype Deployment = Deployment(
    hash: Hash, registry: map<Text, Json -> Workflow>, config: LlmStepConfig, budget: nat,
    describe: ReplayError -> Text)

  datatype Handled = Thrown | Nothing | Append(events: seq<Event>)

  function Started(log: seq<Stored>): Option<Event> {
    if log == [] then None
    else if log[0].event.WorkflowStarted? then Some(log[0].event)
    else Started(log[1..])
  }

  predicate AlreadyTerminal(log: seq<Stored>) {
    exists i :: 0 <= i < |log| &&
      (log[i].event.WorkflowCompleted? || log[i].event.WorkflowFailed? || log[i].event.WorkflowCanceled?)
  }

  function CancelRequest(log: seq<Stored>): Option<Event> {
    if log == [] then None
    else if log[0].event.CancellationRequested? then Some(log[0].event)
    else CancelRequest(log[1..])
  }

  function Decided(r: ReplayResult, d: Deployment, now: int): Handled {
    match r
    case Completed(v) => Append([CommandToEvent(CompleteWorkflow(v), d.config, now)])
    case Failed(e) => Append([CommandToEvent(FailWorkflow(e), d.config, now)])
    case Running(commands, _) =>
      if commands == [] then Nothing else Append(EventsOf(commands, c => CommandToEvent(c, d.config, now)))
    case Raised(cause) => if cause.StepMismatch? then Append([WorkflowFailed(d.describe(cause))]) else Thrown
  }

  // createWorkflowReplayHandler
  function Handle(d: Deployment, log: seq<Stored>, now: int): Handled {
    match Started(log)
    case Some(WorkflowStarted(workflowType, input)) =>
      if workflowType !in d.registry then Thrown
      else if CancelRequest(log).Some? && !AlreadyTerminal(log) then
        Append([WorkflowCanceled((
          match CancelRequest(log)
          case Some(CancellationRequested(reason)) => reason
          case _ => None))])
      else Decided(ReplayOf(d.hash, d.registry[workflowType](input), log, d.budget), d, now)
    case _ => Thrown
  }

  function EventsIn(h: Handled): seq<Event> {
    match h
    case Append(events) => events
    case _ => []
  }

  // ---------------------------------------------------------------- the run

  // The history a workflow task has read and the clock it will stamp timers with.
  datatype Read = Read(length: nat, now: int)

  datatype State = State(log: seq<Stored>, reading: Option<Read>)

  function InitialLog(workflowType: Text, input: Json): seq<Stored> {
    [Stored(1, WorkflowStarted(workflowType, input))]
  }

  // What others append: a first outcome of a schedule event, TimerFired again, a signal, a cancellation request.
  ghost predicate FromOutside(log: seq<Stored>, e: Event) {
    || e.SignalReceived?
    || e.CancellationRequested?
    || (OutcomeOf(e).Some? &&
        var o := OutcomeOf(e).value;
        && 1 <= o.seqNo <= |log|
        && EventLane(log[o.seqNo - 1].event) == Some(o.lane)
        && (OutcomeIn(log, o.lane, o.seqNo).None? || e.TimerFired?))
  }

  datatype Step = ReadHistory(now: int) | AppendDecision | Crash | Outside(event: Event)

  ghost predicate Next(d: Deployment, s: State, t: State, step: Step) {
    match step
    case ReadHistory(now) => s.reading.None? && t == s.(reading := Some(Read(|s.log|, now)))
    case AppendDecision =>
      && s.reading.Some?
      && s.reading.value.length <= |s.log|
      && t.reading == None
      && t.log == s.log + Stamp(|s.log|, EventsIn(Handle(d, s.log[..s.reading.value.length], s.reading.value.now)))
    case Crash => t == s.(reading := None)
    case Outside(e) => FromOutside(s.log, e) && t == s.(log := s.log + [Stored(|s.log| + 1, e)])
  }

  ghost predicate Run(d: Deployment, states: seq<State>, steps: seq<Step>, workflowType: Text, input: Json) {
    && |states| == |steps| + 1
    && states[0] == State(InitialLog(workflowType, input), None)
    && forall i :: 0 <= i < |steps| ==> Next(d, states[i], states[i + 1], steps[i])
  }

  // ---------------------------------------------------------------- what every log keeps

  // The schedule events are exactly those of the calls `asked`, lane by lane, in order.
  ghost predicate Follows(hash: Hash, log: seq<Stored>, asked: seq<Call>) {
    forall lane :: !IsSignal(lane) ==>
      |Recorded(log, lane)| == |InLane(asked, lane)| && Caused(hash, Recorded(log, lane), InLane(asked, lane), 0, lane)
  }

  // The calls asked for once the answers `a` are in.
  function Asked(wf: Workflow, a: Answers): seq<Call> {
    Prior(wf, a) + CallsAt(wf, a)
  }

  // The last scheduling decision was taken at `a`.
  ghost predicate DecidedAt(d: Deployment, wf: Workflow, log: seq<Stored>, a: Answers) {
    && Trace(PassOf(d.hash, wf, log), a)
    && TicksTo(PassOf(d.hash, wf, log), a) <= d.budget
    && Follows(d.hash, log, Asked(wf, a))
  }

  ghost predicate Scheduling(d: Deployment, wf: Workflow, log: seq<Stored>) {
    Follows(d.hash, log, []) || exists a :: DecidedAt(d, wf, log, a)
  }

  // A terminal event says how the workflow function itself ended.
  ghost predicate EndsAt(d: Deployment, wf: Workflow, log: seq<Stored>, e: Event, a: Answers) {
    && Trace(PassOf(d.hash, wf, log), a)
    && TicksTo(PassOf(d.hash, wf, log), a) <= d.budget
    && (e.WorkflowCompleted? ==> wf.next(a) == Return(e.result))
    && (e.WorkflowFailed? ==> wf.next(a) == Throw(e.error))
  }

  ghost predicate EndedAs(d: Deployment, wf: Workflow, log: seq<Stored>, e: Event) {
    exists a :: EndsAt(d, wf, log, e, a)
  }

  ghost predicate Terminals(d: Deployment, wf: Workflow, log: seq<Stored>) {
    forall i :: 0 <= i < |log| && (log[i].event.WorkflowCompleted? || log[i].event.WorkflowFailed?) ==>
      EndedAs(d, wf, log, log[i].event)
  }

  ghost predicate Numbered(log: seq<Stored>) {
    forall i :: 0 <= i < |log| ==> log[i].seqNo == i + 1
  }

  ghost predicate LogInvariant(d: Deployment, wf: Workflow, log: seq<Stored>) {
    && Numbered(log)
    && OutcomesOfPast(log)
    && Scheduling(d, wf, log)
    && Terminals(d, wf, log)
  }

  // How a log may grow between a history read and the append that follows it.
  ghost predicate GrowsBy(log: seq<Stored>, more: seq<Stored>) {
    KeepsOutcomes(log, more) && NoSchedules(more)
  }

  // ---------------------------------------------------------------- extension

  lemma FollowsStays(hash: Hash, log: seq<Stored>, more: seq<Stored>, asked: seq<Call>)
    requires Follows(hash, log, asked) && NoSchedules(more)
    ensures Follows(hash, log + more, asked)
  {
    forall lane | !IsSignal(lane)
      ensures Recorded(log + more, lane) == Recorded(log, lane)
    {
      RecordedConcat(log, more, lane);
      NothingRecorded(more, lane);
    }
  }

  lemma {:induction false} SameTicks<A, R>(p: Pass<A, R>, q: Pass<A, R>, a: seq<A>)
    requires p.ticks == q.ticks
    ensures TicksTo(p, a) == TicksTo(q, a)
    decreases |a|
  {
    if a != [] { SameTicks(p, q, a[..|a| - 1]); }
  }

  lemma SchedulingStays(d: Deployment, wf: Workflow, log: seq<Stored>, more: seq<Stored>)
    requires Scheduling(d, wf, log) && GrowsBy(log, more)
    ensures Scheduling(d, wf, log + more)
  {
    if Follows(d.hash, log, []) {
      FollowsStays(d.hash, log, more, []);
    } else {
      var a :| DecidedAt(d, wf, log, a);
      TraceStays(d.hash, wf, log, more, a);
      SameTicks(PassOf(d.hash, wf, log), PassOf(d.hash, wf, log + more), a);
      FollowsStays(d.hash, log, more, Asked(wf, a));
      assert DecidedAt(d, wf, log + more, a);
    }
  }

  lemma EndedStays(d: Deployment, wf: Workflow, log: seq<Stored>, more: seq<Stored>, e: Event)
    requires EndedAs(d, wf, log, e) && KeepsOutcomes(log, more)
    ensures EndedAs(d, wf, log + more, e)
  {
    var a :| EndsAt(d, wf, log, e, a);
    TraceStays(d.hash, wf, log, more, a);
    SameTicks(PassOf(d.hash, wf, log), PassOf(d.hash, wf, log + more), a);
    assert EndsAt(d, wf, log + more, e, a);
  }

  lemma TerminalsStay(d: Deployment, wf: Workflow, log: seq<Stored>, more: seq<Stored>)
    requires Terminals(d, wf, log) && KeepsOutcomes(log, more)
    requires forall i :: 0 <= i < |more| && (more[i].event.WorkflowCompleted? || more[i].event.WorkflowFailed?) ==>
      EndedAs(d, wf, log + more, more[i].event)
    ensures Terminals(d, wf, log + more)
  {
    var all := log + more;
    forall i | 0 <= i < |all| && (all[i].event.WorkflowCompleted? || all[i].event.WorkflowFailed?)
      ensures EndedAs(d, wf, all, all[i].event)
    {
      if i < |log| {
        EndedStays(d, wf, log, more, log[i].event);
      } else {
        assert all[i] == more[i - |log|];
      }
    }
  }

  // ---------------------------------------------------------------- the schedule and the code agree

  // A lane of the log is a prefix of what the code asks for, each event caused by its call.
  ghost predicate LaneAgrees(hash: Hash, wf: Workflow, log: seq<Stored>, b: Answers, lane: Lane) {
    var r, m := Recorded(log, lane), InLane(Asked(wf, b), lane);
    |r| <= |m| && forall i :: 0 <= i < |r| ==> Matches(hash, r[i].event, m[i], i)
  }

  lemma AskedGrows(wf: Workflow, a: Answers, b: Answers)
    requires a <= b
    ensures Asked(wf, a) <= Asked(wf, b)
  {
    if a != b {
      var c := b[..|a| + 1];
      assert c[..|c| - 1] == a;
      PriorMonotone(wf, c, b);
    }
  }

  lemma LanesAgree(d: Deployment, wf: Workflow, log: seq<Stored>, b: Answers, lane: Lane)
    requires Scheduling(d, wf, log) && FullTrace(PassOf(d.hash, wf, log), b) && !IsSignal(lane)
    ensures LaneAgrees(d.hash, wf, log, b, lane)
  {
    if !Follows(d.hash, log, []) {
      var a :| DecidedAt(d, wf, log, a);
      TraceWithin(PassOf(d.hash, wf, log), a, b);
      AskedGrows(wf, a, b);
      var rest := Asked(wf, b)[|Asked(wf, a)|..];
      assert Asked(wf, b) == Asked(wf, a) + rest;
      InLaneConcat(Asked(wf, a), rest, lane);
    }
  }

  function PositionAt(wf: Workflow, b: Answers, i: nat): nat
    requires i < |CallsAt(wf, b)|
  {
    Position(Prior(wf, b) + CallsAt(wf, b)[..i], CallsAt(wf, b)[i])
  }

  // The i-th call of the batch at `b` stands in its lane of everything asked for.
  lemma StandsAt(wf: Workflow, b: Answers, i: nat)
    requires i < |CallsAt(wf, b)|
    ensures var c := CallsAt(wf, b)[i];
      && PositionAt(wf, b, i) < |InLane(Asked(wf, b), LaneOf(c))|
      && InLane(Asked(wf, b), LaneOf(c))[PositionAt(wf, b, i)] == c
  {
    var prior, calls := Prior(wf, b), CallsAt(wf, b);
    var all, j := prior + calls, |prior| + i;
    assert all[..j] == prior + calls[..i] && all[j] == calls[i];
    CallAtPosition(all, j);
  }

  // A call whose event is there waits for its outcome and nothing else.
  lemma ScheduledReply(hash: Hash, log: seq<Stored>, c: Call, index: nat)
    requires !c.WaitSignal? && index < |Recorded(log, LaneOf(c))|
    requires Matches(hash, Recorded(log, LaneOf(c))[index].event, c, index)
    ensures Respond(hash, log, c, index) ==
      match OutcomeIn(log, LaneOf(c), Recorded(log, LaneOf(c))[index].seqNo)
      case Some(answer) => Settled(answer)
      case None => Hanging
  {
  }

  // Where the lanes agree no call of the batch mismatches.
  lemma AgreeingReply(hash: Hash, wf: Workflow, log: seq<Stored>, b: Answers, i: nat)
    requires i < |CallsAt(wf, b)|
    requires !IsSignal(LaneOf(CallsAt(wf, b)[i])) ==> LaneAgrees(hash, wf, log, b, LaneOf(CallsAt(wf, b)[i]))
    ensures !RepliesAt(hash, wf, log, b)[i].Mismatch?
  {
    StandsAt(wf, b, i);
  }

  lemma NoMismatchAt(d: Deployment, wf: Workflow, log: seq<Stored>, b: Answers)
    requires Scheduling(d, wf, log) && FullTrace(PassOf(d.hash, wf, log), b)
    ensures NoMismatch(RepliesAt(d.hash, wf, log, b))
    ensures LastMismatch(RepliesAt(d.hash, wf, log, b)).None?
  {
    var rs := RepliesAt(d.hash, wf, log, b);
    forall i | 0 <= i < |rs| ensures !rs[i].Mismatch? {
      var lane := LaneOf(CallsAt(wf, b)[i]);
      if !IsSignal(lane) { LanesAgree(d, wf, log, b, lane); }
      AgreeingReply(d.hash, wf, log, b, i);
    }
    NoMismatchIff(rs);
  }

  // With its own log unchanged code never sees a mismatch, whatever the tick budget.
  lemma NeverRaises(d: Deployment, wf: Workflow, log: seq<Stored>, budget: nat)
    requires Scheduling(d, wf, log)
    ensures !ReplayOf(d.hash, wf, log, budget).Raised?
  {
    if ReplayOf(d.hash, wf, log, budget) != EXHAUSTED {
      var b := DriveEnds(PassOf(d.hash, wf, log), budget, EXHAUSTED);
      NoMismatchAt(d, wf, log, b);
    }
  }

  // ---------------------------------------------------------------- a scheduling decision

  function Converter(d: Deployment, now: int): Command -> Event {
    c => CommandToEvent(c, d.config, now)
  }

  // The events appended for the batch at `b`, decided on `seen` after the log has grown to n events.
  function NewEvents(d: Deployment, wf: Workflow, seen: seq<Stored>, b: Answers, n: nat, now: int): seq<Stored> {
    Stamp(n, EventsOf(NewCommands(RepliesAt(d.hash, wf, seen, b)), Converter(d, now)))
  }

  lemma ScheduleNoOutcome(e: Event)
    ensures IsSchedule(e) ==> OutcomeOf(e).None?
  {
  }

  lemma NewEventsQuiet(d: Deployment, wf: Workflow, seen: seq<Stored>, b: Answers, n: nat, now: int)
    requires NoMismatch(RepliesAt(d.hash, wf, seen, b))
    ensures var added := NewEvents(d, wf, seen, b, n, now);
      forall i :: 0 <= i < |added| ==> IsSchedule(added[i].event) && OutcomeOf(added[i].event).None?
  {
    hide CommandToEvent, Respond, IsSchedule, OutcomeOf, EventLane;
    CommandToEventFaithful(d.hash, d.config, now);
    assert Faithful(d.hash, Converter(d, now));
    hide Faithful, NoMismatch;
    var added := NewEvents(d, wf, seen, b, n, now);
    forall i | 0 <= i < |added| ensures IsSchedule(added[i].event) && OutcomeOf(added[i].event).None? {
      ScheduleNoOutcome(added[i].event);
      NewCommandsScheduled(d.hash, Converter(d, now), seen, Prior(wf, b), CallsAt(wf, b), i);
    }
  }

  // After the append every call of the batch stands in its lane, and nothing else was added.
  lemma BatchFollows(
    d: Deployment, wf: Workflow, seen: seq<Stored>, more: seq<Stored>, b: Answers, n: nat, now: int, lane: Lane)
    requires Scheduling(d, wf, seen) && NoSchedules(more) && FullTrace(PassOf(d.hash, wf, seen), b) && !IsSignal(lane)
    ensures var log := seen + more + NewEvents(d, wf, seen, b, n, now);
      |Recorded(log, lane)| == |InLane(Asked(wf, b), lane)| &&
        Caused(d.hash, Recorded(log, lane), InLane(Asked(wf, b), lane), 0, lane)
  {
    hide CommandToEvent;
    var prior, calls, rs := Prior(wf, b), CallsAt(wf, b), RepliesAt(d.hash, wf, seen, b);
    CommandToEventFaithful(d.hash, d.config, now);
    NoMismatchAt(d, wf, seen, b);
    PriorCaused(d.hash, wf, seen, b, lane);
    LanesAgree(d, wf, seen, b, lane);
    BatchScheduled(d.hash, Converter(d, now), seen, prior, calls, n, lane);
    LaneOfAppended(seen, more, NewEvents(d, wf, seen, b, n, now), lane);
    LaneComplete(
      d.hash, Recorded(seen, lane), Recorded(NewEvents(d, wf, seen, b, n, now), lane),
      InLane(prior, lane), InLane(Asked(wf, b), lane), lane) by {
      InLaneConcat(prior, calls, lane);
    }
  }

  lemma LaneOfAppended(seen: seq<Stored>, more: seq<Stored>, added: seq<Stored>, lane: Lane)
    requires NoSchedules(more) && !IsSignal(lane)
    ensures Recorded(seen + more + added, lane) == Recorded(seen, lane) + Recorded(added, lane)
  {
    RecordedConcat(seen, more, lane);
    NothingRecorded(more, lane);
    RecordedConcat(seen + more, added, lane);
  }

  lemma LaneComplete(hash: Hash, base: seq<Stored>, added: seq<Stored>, p: seq<Call>, m: seq<Call>, lane: Lane)
    requires forall i :: 0 <= i < |base| ==> EventLane(base[i].event) == Some(lane)
    requires forall i :: 0 <= i < |added| ==> EventLane(added[i].event) == Some(lane)
    requires forall i :: 0 <= i < |m| ==> LaneOf(m[i]) == lane
    requires p <= m && |base| <= |m|
    requires Caused(hash, base, p, 0, lane) && Caused(hash, base + added, m, |p|, lane)
    requires added != [] ==> |base| + |added| == |m|
    ensures |base + added| == |m| && Caused(hash, base + added, m, 0, lane)
  {
    var r := base + added;
    forall i | 0 <= i < |m| ensures Matches(hash, r[i].event, m[i], i) {
      if i < |p| { assert r[i] == base[i] && m[i] == p[i]; }
    }
  }

  lemma DecisionSchedules(
    d: Deployment, wf: Workflow, seen: seq<Stored>, more: seq<Stored>, b: Answers, n: nat, now: int)
    requires Scheduling(d, wf, seen) && GrowsBy(seen, more) && FullTrace(PassOf(d.hash, wf, seen), b)
    requires TicksTo(PassOf(d.hash, wf, seen), b) <= d.budget
    ensures DecidedAt(d, wf, seen + more + NewEvents(d, wf, seen, b, n, now), b)
  {
    var added := NewEvents(d, wf, seen, b, n, now);
    var log := seen + more + added;
    NoMismatchAt(d, wf, seen, b);
    NewEventsQuiet(d, wf, seen, b, n, now);
    forall lane, s ensures OutcomeIn(more + added, lane, s) == OutcomeIn(more, lane, s) {
      OutcomeInConcat(more, added, lane, s);
      NoOutcome(added, lane, s);
    }
    assert seen + (more + added) == log;
    TraceStays(d.hash, wf, seen, more + added, b);
    SameTicks(PassOf(d.hash, wf, seen), PassOf(d.hash, wf, log), b);
    forall lane | !IsSignal(lane)
      ensures |Recorded(log, lane)| == |InLane(Asked(wf, b), lane)|
      ensures Caused(d.hash, Recorded(log, lane), InLane(Asked(wf, b), lane), 0, lane)
    {
      BatchFollows(d, wf, seen, more, b, n, now, lane);
    }
  }

  // A decision to schedule, appended after whatever arrived since the history was read, is never
  // taken again: replaying the new log raises no mismatch and asks for nothing.
  lemma DecisionIdempotent(
    d: Deployment, wf: Workflow, seen: seq<Stored>, more: seq<Stored>, commands: seq<Command>,
    pending: map<Text, LlmRequest>, now: int)
    requires Scheduling(d, wf, seen) && GrowsBy(seen, more) && OutcomesOfPast(seen + more)
    requires ReplayOf(d.hash, wf, seen, d.budget) == Running(commands, pending) && commands != []
    ensures var log := seen + more + Stamp(|seen + more|, EventsOf(commands, Converter(d, now)));
      && Scheduling(d, wf, log)
      && ReplayOf(d.hash, wf, log, d.budget).Running?
      && ReplayOf(d.hash, wf, log, d.budget).commands == []
  {
    hide CommandToEvent, Respond;
    var b := DriveEnds(PassOf(d.hash, wf, seen), d.budget, EXHAUSTED);
    var n := |seen + more|;
    var log := seen + more + NewEvents(d, wf, seen, b, n, now);
    DecisionSchedules(d, wf, seen, more, b, n, now);
    assert Scheduling(d, wf, log);
    NoMismatchAt(d, wf, seen, b);
    NoCommandsIff(RepliesAt(d.hash, wf, seen, b));
    var i :| 0 <= i < |RepliesAt(d.hash, wf, seen, b)| && RepliesAt(d.hash, wf, seen, b)[i].New?;
    NowWaiting(d, wf, seen, more, b, now, i);
    BlockedAgain(d, wf, log, b, i);
    BoundedDrain(PassOf(d.hash, wf, log), b, d.budget, EXHAUSTED);
  }

  lemma CausedAt(hash: Hash, r: seq<Stored>, m: seq<Call>, p: nat, lane: Lane)
    requires forall i :: 0 <= i < |r| ==> EventLane(r[i].event) == Some(lane)
    requires forall i :: 0 <= i < |m| ==> LaneOf(m[i]) == lane
    requires Caused(hash, r, m, 0, lane) && p < |m|
    ensures p < |r| && Matches(hash, r[p].event, m[p], p)
  {
  }

  // The place of a call scheduled by this very append: its event is there, and numbered after the rest.
  lemma NewPlace(
    d: Deployment, wf: Workflow, seen: seq<Stored>, more: seq<Stored>, b: Answers, n: nat, now: int, i: nat)
    requires Scheduling(d, wf, seen) && NoSchedules(more) && FullTrace(PassOf(d.hash, wf, seen), b)
    requires i < |CallsAt(wf, b)|
    requires RepliesAt(d.hash, wf, seen, b)[i].New?
    ensures var c, p := CallsAt(wf, b)[i], PositionAt(wf, b, i);
      var r := Recorded(seen + more + NewEvents(d, wf, seen, b, n, now), LaneOf(c));
      !c.WaitSignal? && p < |r| && Matches(d.hash, r[p].event, c, p) && r[p].seqNo > n
  {
    hide Respond, Matches, NewEvents, Scheduling, FullTrace, NoSchedules, EventLane, Caused, InLane, Recorded, Asked;
    var c, p := CallsAt(wf, b)[i], PositionAt(wf, b, i);
    var lane := LaneOf(c);
    StandsAt(wf, b, i);
    NewBeyond(d.hash, seen, c, p);
    BatchFollows(d, wf, seen, more, b, n, now, lane);
    var added := NewEvents(d, wf, seen, b, n, now);
    CausedAt(d.hash, Recorded(seen + more + added, lane), InLane(Asked(wf, b), lane), p, lane);
    LaneOfAppended(seen, more, added, lane);
    NewEventsNumbered(d, wf, seen, b, n, now);
    RecordedNumbers(added, lane, n, p - |Recorded(seen, lane)|);
  }

  // A call scheduled by this very append is waiting for its outcome.
  lemma NowWaiting(d: Deployment, wf: Workflow, seen: seq<Stored>, more: seq<Stored>, b: Answers, now: int, i: nat)
    requires Scheduling(d, wf, seen) && GrowsBy(seen, more) && OutcomesOfPast(seen + more)
    requires FullTrace(PassOf(d.hash, wf, seen), b) && i < |CallsAt(wf, b)|
    requires RepliesAt(d.hash, wf, seen, b)[i].New?
    ensures RepliesAt(d.hash, wf, seen + more + NewEvents(d, wf, seen, b, |seen + more|, now), b)[i].Hanging?
  {
    hide Respond, Matches, NewEvents, Scheduling, OutcomesOfPast, GrowsBy, FullTrace;
    var n := |seen + more|;
    var added := NewEvents(d, wf, seen, b, n, now);
    var log := seen + more + added;
    var c, p := CallsAt(wf, b)[i], PositionAt(wf, b, i);
    QuietGrowth(seen, more);
    NewPlace(d, wf, seen, more, b, n, now, i);
    var x := Recorded(log, LaneOf(c))[p];
    NoMismatchAt(d, wf, seen, b);
    NewEventsQuiet(d, wf, seen, b, n, now);
    OutcomeInConcat(seen + more, added, LaneOf(c), x.seqNo);
    NoOutcome(added, LaneOf(c), x.seqNo);
    PastOnly(seen + more, LaneOf(c), x.seqNo);
    ScheduledReply(d.hash, log, c, p);
  }

  lemma QuietGrowth(log: seq<Stored>, more: seq<Stored>)
    requires GrowsBy(log, more)
    ensures NoSchedules(more)
  {
  }

  lemma PastOnly(log: seq<Stored>, lane: Lane, s: nat)
    requires OutcomesOfPast(log) && s > |log|
    ensures OutcomeIn(log, lane, s).None?
  {
  }

  lemma NewEventsNumbered(d: Deployment, wf: Workflow, seen: seq<Stored>, b: Answers, n: nat, now: int)
    ensures var added := NewEvents(d, wf, seen, b, n, now); forall i :: 0 <= i < |added| ==> added[i].seqNo > n
  {
  }

  lemma NewBeyond(hash: Hash, log: seq<Stored>, c: Call, index: nat)
    requires Respond(hash, log, c, index).New?
    ensures !c.WaitSignal? && index >= |Recorded(log, LaneOf(c))|
  {
  }

  lemma {:induction false} RecordedNumbers(log: seq<Stored>, lane: Lane, n: nat, i: nat)
    requires forall j :: 0 <= j < |log| ==> log[j].seqNo > n
    requires i < |Recorded(log, lane)|
    ensures Recorded(log, lane)[i].seqNo > n
  {
    if i < |Recorded(log[..|log| - 1], lane)| { RecordedNumbers(log[..|log| - 1], lane, n, i); }
  }

  // Where the whole batch stands in the log a pass ends with nothing to ask for.
  lemma BlockedAgain(d: Deployment, wf: Workflow, log: seq<Stored>, b: Answers, i: nat)
    requires DecidedAt(d, wf, log, b) && i < |CallsAt(wf, b)|
    requires RepliesAt(d.hash, wf, log, b)[i].Hanging?
    ensures FullTrace(PassOf(d.hash, wf, log), b)
    ensures Verdict(d.hash, wf, log, b).Running? && Verdict(d.hash, wf, log, b).commands == []
  {
    hide Respond, Matches;
    var rs := RepliesAt(d.hash, wf, log, b);
    assert Scheduling(d, wf, log);
    assert !AllSettled(rs);
    assert FullTrace(PassOf(d.hash, wf, log), b);
    NoMismatchAt(d, wf, log, b);
    forall k | 0 <= k < |rs| ensures !rs[k].New? {
      var c := CallsAt(wf, b)[k];
      StandsAt(wf, b, k);
      if rs[k].New? { NewBeyond(d.hash, log, c, PositionAt(wf, b, k)); }
    }
    NoCommandsIff(rs);
  }
}
