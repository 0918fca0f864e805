/**
 The schedule events of whole runs, arguments and all: each is the event its call makes, at a clock
 reading of the run, and its task is the one that call asks for.
 */
module Schedules {
  import opened Wrappers
  import opened Texts
  import opened Json
  import opened Requests
  import opened Events
  import opened StoredRequests
  import opened Drain
  import opened ReplaySpec
  import opened ReplayLaws
  import opened Decisions
  import opened Engine
  import opened Runs
  import opened Queue
  import opened EventStore

  // The event carries the call's own data: what is asked for, under which step id and hash, how often it may
  // be tried, and for a timer when it is due if it is decided at that time.
  predicate Carries(d: Deployment, e: Event, c: Call, index: nat, now: int) {
    match c
    case Activity(activityType, input) =>
      e.ActivityScheduled? && e.activityType == activityType && e.activityInput == input
    case Sleep(durationMs) => e.TimerScheduled? && e.fireAt == now + durationMs
    case Llm(request) =>
      && e.LlmRequested?
      && e.stepId == Lit("llm-") + Decimal(index)
      && e.requestHash == d.hash(CanonicalLlmRequest(request))
      && StoredRequest(e.storage, e.request) == BuildStoredRequest(request, d.config)
      && e.maxAttempts == d.config.maxAttempts
    case Tool(tool, args) =>
      && e.ToolRequested?
      && e.stepId == Lit("tool-") + Decimal(index)
      && e.tool == tool && e.args == args
      && e.argsHash == d.hash(CanonicalToolCall(tool, args))
      && e.maxAttempts == d.config.toolMaxAttempts
    case WaitSignal(_) => false
  }

  lemma CommandCarries(d: Deployment, c: Call, index: nat, now: int)
    requires !c.WaitSignal?
    ensures Carries(d, CommandToEvent(CommandFor(d.hash, c, index), d.config, now), c, index, now)
  {
    hide BuildStoredRequest, CanonicalLlmRequest, CanonicalToolCall;
  }

  ghost predicate MadeBy(d: Deployment, e: Event, c: Call, index: nat, times: set<int>) {
    !c.WaitSignal? && exists now :: now in times && Carries(d, e, c, index, now)
  }

  // The lane holds the events of exactly these calls, each decided at one of these times.
  ghost predicate LaneMade(d: Deployment, r: seq<Stored>, m: seq<Call>, times: set<int>) {
    |r| == |m| && forall k :: 0 <= k < |m| ==> MadeBy(d, r[k].event, m[k], k, times)
  }

  ghost predicate AllMade(d: Deployment, log: seq<Stored>, asked: seq<Call>, times: set<int>) {
    forall lane :: !IsSignal(lane) ==> LaneMade(d, Recorded(log, lane), InLane(asked, lane), times)
  }

  ghost predicate Made(d: Deployment, wf: Workflow, log: seq<Stored>, times: set<int>) {
    || AllMade(d, log, [], times)
    || exists a :: DecidedAt(d, wf, log, a) && AllMade(d, log, Asked(wf, a), times)
  }

  // ---------------------------------------------------------------- one batch

  // The events added for a batch stand in their lane at the positions of their calls.
  ghost predicate AddedMade(
    hash: Hash, toEvent: Command -> Event, log: seq<Stored>, prior: seq<Call>, calls: seq<Call>, rs: seq<Reply>,
    n: nat, lane: Lane) {
    var r, m := LaneThen(log, rs, toEvent, n, lane), InLane(prior + calls, lane);
    forall k :: |Recorded(log, lane)| <= k < |r| ==>
      k < |m| && !m[k].WaitSignal? && r[k].event == toEvent(CommandFor(hash, m[k], k))
  }

  lemma NewIsFor(hash: Hash, log: seq<Stored>, c: Call, index: nat)
    requires Respond(hash, log, c, index).New?
    ensures !c.WaitSignal? && Respond(hash, log, c, index).command == CommandFor(hash, c, index)
    ensures index >= |Recorded(log, LaneOf(c))|
  {
  }

  lemma AddedStep(
    hash: Hash, toEvent: Command -> Event, log: seq<Stored>, prior: seq<Call>, calls: seq<Call>, rs: seq<Reply>,
    n: nat, lane: Lane)
    requires !IsSignal(lane) && calls != [] && |rs| == |calls|
    requires var k := |calls| - 1;
      && rs[k] == Respond(hash, log, calls[k], Position(prior + calls[..k], calls[k]))
      && Scheduled(hash, toEvent, log, prior, calls[..k], rs[..k], n, lane)
      && AddedMade(hash, toEvent, log, prior, calls[..k], rs[..k], n, lane)
      && (rs[k].New? ==> EventLane(toEvent(rs[k].command)) == Some(LaneOf(calls[k])))
    ensures AddedMade(hash, toEvent, log, prior, calls, rs, n, lane)
  {
    hide Respond, Matches, NewCommands, EventsOf, InLane, Recorded;
    var k := |calls| - 1;
    BatchStep(rs, toEvent, n, lane);
    LaneOfLast(prior, calls, lane);
    if rs[k].New? { NewIsFor(hash, log, calls[k], Position(prior + calls[..k], calls[k])); }
    var before, after := LaneThen(log, rs[..k], toEvent, n, lane), LaneThen(log, rs, toEvent, n, lane);
    var m, q := InLane(prior + calls[..k], lane), InLane(prior + calls, lane);
    assert |m| <= |before|;
    forall i | |Recorded(log, lane)| <= i < |after|
      ensures i < |q| && !q[i].WaitSignal? && after[i].event == toEvent(CommandFor(hash, q[i], i))
    {
      if i < |before| { assert after[i] == before[i] && q[i] == m[i]; }
    }
  }

  lemma {:induction false} BatchMade(
    hash: Hash, toEvent: Command -> Event, log: seq<Stored>, prior: seq<Call>, calls: seq<Call>, n: nat, lane: Lane)
    requires Faithful(hash, toEvent) && !IsSignal(lane)
    requires |InLane(prior, lane)| <= |Recorded(log, lane)|
    requires NoMismatch(Replies(hash, log, prior, calls))
    ensures AddedMade(hash, toEvent, log, prior, calls, Replies(hash, log, prior, calls), n, lane)
    decreases |calls|
  {
    if calls != [] {
      var k := |calls| - 1;
      RepliesPrefix(hash, log, prior, calls);
      BatchMade(hash, toEvent, log, prior, calls[..k], n, lane);
      BatchScheduled(hash, toEvent, log, prior, calls[..k], n, lane);
      RespondCases(hash, toEvent, log, calls[k], Position(prior + calls[..k], calls[k]));
      hide Respond, Faithful, Scheduled, AddedMade;
      AddedStep(hash, toEvent, log, prior, calls, Replies(hash, log, prior, calls), n, lane);
    }
  }

  // ---------------------------------------------------------------- what a step does

  lemma MadeStays(d: Deployment, wf: Workflow, log: seq<Stored>, more: seq<Stored>, times: set<int>)
    requires Made(d, wf, log, times) && GrowsBy(log, more)
    ensures Made(d, wf, log + more, times)
  {
    hide LaneMade;
    forall lane | !IsSignal(lane) ensures Recorded(log + more, lane) == Recorded(log, lane) {
      RecordedConcat(log, more, lane);
      NothingRecorded(more, lane);
    }
    if !AllMade(d, log, [], times) {
      var a :| DecidedAt(d, wf, log, a) && AllMade(d, log, Asked(wf, a), times);
      TraceStays(d.hash, wf, log, more, a);
      SameTicks(PassOf(d.hash, wf, log), PassOf(d.hash, wf, log + more), a);
      FollowsStays(d.hash, log, more, Asked(wf, a));
      assert DecidedAt(d, wf, log + more, a);
    }
  }

  lemma LaneLater(d: Deployment, r: seq<Stored>, m: seq<Call>, times: set<int>, later: set<int>)
    requires LaneMade(d, r, m, times) && times <= later
    ensures LaneMade(d, r, m, later)
  {
    hide Carries;
    assert forall e, c, k :: MadeBy(d, e, c, k, times) ==> MadeBy(d, e, c, k, later);
  }

  lemma LaterMade(d: Deployment, wf: Workflow, log: seq<Stored>, times: set<int>, later: set<int>)
    requires Made(d, wf, log, times) && times <= later
    ensures Made(d, wf, log, later)
  {
    forall r, m | LaneMade(d, r, m, times) ensures LaneMade(d, r, m, later) { LaneLater(d, r, m, times, later); }
    hide LaneMade;
    if !AllMade(d, log, [], times) {
      var a :| DecidedAt(d, wf, log, a) && AllMade(d, log, Asked(wf, a), times);
      assert AllMade(d, log, Asked(wf, a), later);
    }
  }

  // What the lane held before was made by calls the code still makes first.
  lemma OldMade(d: Deployment, wf: Workflow, seen: seq<Stored>, b: Answers, lane: Lane, times: set<int>)
    requires Made(d, wf, seen, times) && FullTrace(PassOf(d.hash, wf, seen), b) && !IsSignal(lane)
    ensures var r, m := Recorded(seen, lane), InLane(Asked(wf, b), lane);
      |r| <= |m| && LaneMade(d, r, m[..|r|], times)
  {
    hide LaneMade, Carries;
    if AllMade(d, seen, [], times) {
      assert InLane(Asked(wf, b), lane)[..0] == [] == InLane([], lane);
      SameLength(d, Recorded(seen, lane), [], times);
    } else {
      var a :| DecidedAt(d, wf, seen, a) && AllMade(d, seen, Asked(wf, a), times);
      TraceWithin(PassOf(d.hash, wf, seen), a, b);
      AskedGrows(wf, a, b);
      var rest := Asked(wf, b)[|Asked(wf, a)|..];
      assert Asked(wf, b) == Asked(wf, a) + rest;
      InLaneConcat(Asked(wf, a), rest, lane);
      SameLength(d, Recorded(seen, lane), InLane(Asked(wf, a), lane), times);
      assert InLane(Asked(wf, b), lane)[..|Recorded(seen, lane)|] == InLane(Asked(wf, a), lane);
    }
  }

  lemma SameLength(d: Deployment, r: seq<Stored>, m: seq<Call>, times: set<int>)
    requires LaneMade(d, r, m, times)
    ensures |r| == |m|
  {
  }

  lemma LaneDecided(
    d: Deployment, wf: Workflow, seen: seq<Stored>, more: seq<Stored>, b: Answers, n: nat, now: int, lane: Lane,
    times: set<int>)
    requires Made(d, wf, seen, times) && now in times && Scheduling(d, wf, seen) && NoSchedules(more)
    requires FullTrace(PassOf(d.hash, wf, seen), b) && !IsSignal(lane)
    ensures LaneMade(d, Recorded(seen + more + NewEvents(d, wf, seen, b, n, now), lane), InLane(Asked(wf, b), lane),
      times)
  {
    hide CommandToEvent, Faithful, Made, Scheduling, FullTrace, NoSchedules, Respond, Matches, Caused;
    var prior, calls := Prior(wf, b), CallsAt(wf, b);
    CommandToEventFaithful(d.hash, d.config, now);
    NoMismatchAt(d, wf, seen, b);
    AnsweredAreRecorded(d, wf, seen, b, lane);
    BatchMade(d.hash, Converter(d, now), seen, prior, calls, n, lane);
    LaneOfAppended(seen, more, NewEvents(d, wf, seen, b, n, now), lane);
    BatchFollows(d, wf, seen, more, b, n, now, lane);
    OldMade(d, wf, seen, b, lane, times);
    assert AddedMade(d.hash, Converter(d, now), seen, prior, calls, RepliesAt(d.hash, wf, seen, b), n, lane);
    JoinMade(d, seen, prior, calls, RepliesAt(d.hash, wf, seen, b), n, now, lane, times);
  }

  lemma AnsweredAreRecorded(d: Deployment, wf: Workflow, seen: seq<Stored>, b: Answers, lane: Lane)
    requires FullTrace(PassOf(d.hash, wf, seen), b) && !IsSignal(lane)
    ensures |InLane(Prior(wf, b), lane)| <= |Recorded(seen, lane)|
  {
    PriorCaused(d.hash, wf, seen, b, lane);
  }

  lemma JoinMade(
    d: Deployment, seen: seq<Stored>, prior: seq<Call>, calls: seq<Call>, rs: seq<Reply>, n: nat, now: int,
    lane: Lane, times: set<int>)
    requires now in times && AddedMade(d.hash, Converter(d, now), seen, prior, calls, rs, n, lane)
    requires var r, m := Recorded(seen, lane), InLane(prior + calls, lane);
      |r| <= |m| && LaneMade(d, r, m[..|r|], times)
    requires |LaneThen(seen, rs, Converter(d, now), n, lane)| == |InLane(prior + calls, lane)|
    ensures LaneMade(d, LaneThen(seen, rs, Converter(d, now), n, lane), InLane(prior + calls, lane), times)
  {
    hide CommandToEvent, CommandFor;
    var r, base, m := LaneThen(seen, rs, Converter(d, now), n, lane), Recorded(seen, lane), InLane(prior + calls, lane);
    forall k | 0 <= k < |m| ensures MadeBy(d, r[k].event, m[k], k, times) {
      if k < |base| {
        assert r[k] == base[k] && m[..|base|][k] == m[k];
      } else {
        assert r[k].event == CommandToEvent(CommandFor(d.hash, m[k], k), d.config, now);
        CommandCarries(d, m[k], k, now);
      }
    }
  }

  lemma DecisionMade(
    d: Deployment, wf: Workflow, seen: seq<Stored>, more: seq<Stored>, commands: seq<Command>,
    pending: map<Text, LlmRequest>, now: int, times: set<int>)
    requires Made(d, wf, seen, times) && now in times && Scheduling(d, wf, seen) && GrowsBy(seen, more)
    requires ReplayOf(d.hash, wf, seen, d.budget) == Running(commands, pending) && commands != []
    ensures Made(d, wf, seen + more + Stamp(|seen + more|, EventsOf(commands, Converter(d, now))), times)
  {
    hide LaneMade, DecidedAt, Respond, CommandToEvent;
    var b := DriveEnds(PassOf(d.hash, wf, seen), d.budget, EXHAUSTED);
    var n := |seen + more|;
    DecisionSchedules(d, wf, seen, more, b, n, now);
    NoMismatchAt(d, wf, seen, b);
    forall lane | !IsSignal(lane)
      ensures LaneMade(d, Recorded(seen + more + NewEvents(d, wf, seen, b, n, now), lane), InLane(Asked(wf, b), lane),
        times)
    {
      LaneDecided(d, wf, seen, more, b, n, now, lane, times);
    }
    assert AllMade(d, seen + more + NewEvents(d, wf, seen, b, n, now), Asked(wf, b), times);
  }

  // Neither a schedule nor an outcome.
  lemma QuietGrows(log: seq<Stored>, events: seq<Event>)
    requires forall i :: 0 <= i < |events| ==> !IsSchedule(events[i]) && OutcomeOf(events[i]).None?
    ensures GrowsBy(log, Stamp(|log|, events))
  {
    forall lane, s: nat ensures OutcomeIn(Stamp(|log|, events), lane, s).None? {
      NoOutcome(Stamp(|log|, events), lane, s);
    }
  }

  lemma EndMade(d: Deployment, wf: Workflow, log: seq<Stored>, events: seq<Event>, times: set<int>)
    requires Made(d, wf, log, times)
    requires forall i :: 0 <= i < |events| ==> !IsSchedule(events[i]) && OutcomeOf(events[i]).None?
    ensures Made(d, wf, log + Stamp(|log|, events), times)
  {
    hide Made;
    QuietGrows(log, events);
    MadeStays(d, wf, log, Stamp(|log|, events), times);
  }

  lemma DecidedMade(d: Deployment, wf: Workflow, seen: seq<Stored>, more: seq<Stored>, now: int, times: set<int>)
    requires Made(d, wf, seen, times) && now in times && Scheduling(d, wf, seen) && GrowsBy(seen, more)
    ensures Made(d, wf, seen + more +
      Stamp(|seen + more|, EventsIn(Decided(ReplayOf(d.hash, wf, seen, d.budget), d, now))), times)
  {
    var r := ReplayOf(d.hash, wf, seen, d.budget);
    NeverRaises(d, wf, seen, d.budget);
    MadeStays(d, wf, seen, more, times);
    hide Made, Scheduling, GrowsBy, ReplayOf;
    TerminalEvents(d, now);
    match r
    case Running(commands, pending) =>
      if commands != [] {
        DecisionMade(d, wf, seen, more, commands, pending, now, times);
        assert EventsIn(Decided(r, d, now)) == EventsOf(commands, Converter(d, now));
      } else {
        EndMade(d, wf, seen + more, [], times);
      }
    case Completed(v) => EndMade(d, wf, seen + more, [WorkflowCompleted(v)], times);
    case Failed(e) => EndMade(d, wf, seen + more, [WorkflowFailed(e)], times);
  }

  lemma HandledMade(
    d: Deployment, workflowType: Text, input: Json, seen: seq<Stored>, more: seq<Stored>, now: int, times: set<int>)
    requires workflowType in d.registry && Begun(seen, workflowType, input)
    requires var wf := d.registry[workflowType](input);
      Made(d, wf, seen, times) && now in times && Scheduling(d, wf, seen) && GrowsBy(seen, more)
    ensures Made(d, d.registry[workflowType](input), seen + more + Stamp(|seen + more|, EventsIn(Handle(d, seen, now))),
      times)
  {
    var wf := d.registry[workflowType](input);
    MadeStays(d, wf, seen, more, times);
    hide Made, Scheduling, GrowsBy, ReplayOf, Decided;
    if CancelRequest(seen).Some? && !AlreadyTerminal(seen) {
      EndMade(d, wf, seen + more, EventsIn(Handle(d, seen, now)), times);
    } else {
      DecidedMade(d, wf, seen, more, now, times);
    }
  }

  // ---------------------------------------------------------------- whole runs

  // The clock readings of the workflow tasks so far.
  function ClockReadings(steps: seq<Step>, i: nat): set<int>
    requires i <= |steps|
  {
    set m | 0 <= m < i && steps[m].ReadHistory? :: steps[m].now
  }

  ghost predicate StateMade(d: Deployment, wf: Workflow, s: State, times: set<int>) {
    && Made(d, wf, s.log, times)
    && (s.reading.Some? && s.reading.value.length <= |s.log| ==>
         s.reading.value.now in times && Made(d, wf, s.log[..s.reading.value.length], times))
  }

  lemma StateMadeLater(d: Deployment, wf: Workflow, s: State, times: set<int>, later: set<int>)
    requires StateMade(d, wf, s, times) && times <= later
    ensures StateMade(d, wf, s, later)
  {
    hide Made;
    LaterMade(d, wf, s.log, times, later);
    if s.reading.Some? && s.reading.value.length <= |s.log| {
      LaterMade(d, wf, s.log[..s.reading.value.length], times, later);
    }
  }

  lemma NextMade(d: Deployment, workflowType: Text, input: Json, s: State, t: State, step: Step, times: set<int>)
    requires workflowType in d.registry && StateInvariant(d, workflowType, input, s) && Next(d, s, t, step)
    requires StateMade(d, d.registry[workflowType](input), s, times) && (step.ReadHistory? ==> step.now in times)
    ensures StateMade(d, d.registry[workflowType](input), t, times)
  {
    hide Made, Handle, GrowsBy, FromOutside, Scheduling, Terminals, OutcomesOfPast;
    var wf := d.registry[workflowType](input);
    match step
    case ReadHistory(_) => assert s.log[..|s.log|] == s.log;
    case AppendDecision =>
      var n := s.reading.value.length;
      assert s.log[..n] + s.log[n..] == s.log;
      HandledMade(d, workflowType, input, s.log[..n], s.log[n..], s.reading.value.now, times);
    case Crash =>
    case Outside(e) =>
      OutsideKeeps(s.log, e);
      MadeStays(d, wf, s.log, [Stored(|s.log| + 1, e)], times);
      if s.reading.Some? { assert t.log[..s.reading.value.length] == s.log[..s.reading.value.length]; }
  }

  lemma InitialMade(d: Deployment, workflowType: Text, input: Json)
    requires workflowType in d.registry
    ensures StateMade(d, d.registry[workflowType](input), State(InitialLog(workflowType, input), None), {})
  {
    var log := InitialLog(workflowType, input);
    forall lane | !IsSignal(lane) ensures Recorded(log, lane) == [] { NothingRecorded(log, lane); }
    assert AllMade(d, log, [], {});
  }

  lemma {:induction false} RunMade(
    d: Deployment, states: seq<State>, steps: seq<Step>, workflowType: Text, input: Json, i: nat)
    requires Run(d, states, steps, workflowType, input) && workflowType in d.registry && i < |states|
    ensures StateMade(d, d.registry[workflowType](input), states[i], ClockReadings(steps, i))
  {
    hide StateMade, StateInvariant, Next;
    if i == 0 {
      InitialMade(d, workflowType, input);
      assert ClockReadings(steps, 0) == {};
    } else {
      RunMade(d, states, steps, workflowType, input, i - 1);
      RunHolds(d, states, steps, workflowType, input, i - 1);
      StateMadeLater(d, d.registry[workflowType](input), states[i - 1], ClockReadings(steps, i - 1),
        ClockReadings(steps, i));
      NextMade(d, workflowType, input, states[i - 1], states[i], steps[i - 1], ClockReadings(steps, i));
    }
  }

  // In every run there is one sequence of calls the code makes such that each activity, timer, LLM and tool
  // event is, arguments and all, the event of the call at its place in its lane, made at a clock reading of
  // the run; each call has made exactly one.
  lemma EventsAreOfTheCalls(
    d: Deployment, states: seq<State>, steps: seq<Step>, workflowType: Text, input: Json, i: nat)
    returns (asked: seq<Call>)
    requires Run(d, states, steps, workflowType, input) && workflowType in d.registry && i < |states|
    ensures asked == [] || exists a ::
      DecidedAt(d, d.registry[workflowType](input), states[i].log, a) &&
      asked == Asked(d.registry[workflowType](input), a)
    ensures forall lane :: !IsSignal(lane) ==>
      LaneMade(d, Recorded(states[i].log, lane), InLane(asked, lane), ClockReadings(steps, i))
  {
    hide LaneMade, DecidedAt, ClockReadings;
    RunMade(d, states, steps, workflowType, input, i);
    var wf, log, times := d.registry[workflowType](input), states[i].log, ClockReadings(steps, i);
    if AllMade(d, log, [], times) {
      asked := [];
    } else {
      var a :| DecidedAt(d, wf, log, a) && AllMade(d, log, Asked(wf, a), times);
      asked := Asked(wf, a);
    }
  }

  // ---------------------------------------------------------------- from a call to its task

  // The task is the one to do what the call asks for: in the default queue, untried and held by nobody, with
  // the attempts of its kind, due at once or, for a timer, when the time asked for has passed.
  ghost predicate TaskAsAsked(d: Deployment, c: Call, t: Task, w: nat, seqNo: nat, at: int, times: set<int>) {
    && t.workflowId == w && t.scheduledEventSeq == Some(seqNo) && t.queue == Lit("default")
    && t.status == Pending && t.attempt == 0
    && t.lastError == None && t.leasedBy == None && t.leaseExpiresAt == None
    && match c
       case Activity(_, _) => t.taskType == ActivityTask && t.maxAttempts == 3 && t.runAfter == at
       case Llm(_) => t.taskType == LlmTask && t.maxAttempts == d.config.maxAttempts && t.runAfter == at
       case Tool(_, _) => t.taskType == ToolTask && t.maxAttempts == d.config.toolMaxAttempts && t.runAfter == at
       case Sleep(durationMs) =>
         && t.taskType == TimerTask && t.maxAttempts == 3
         && exists now :: now in times && t.runAfter == now + durationMs
       case WaitSignal(_) => false
  }

  lemma EventBecomesTask(
    d: Deployment, e: Event, c: Call, k: nat, now: int, w: nat, seqNo: nat, at: int, times: set<int>)
    requires Carries(d, e, c, k, now) && now in times
    ensures var t := TaskFor(w, Stored(seqNo, e), at); t.Some? && TaskAsAsked(d, c, t.value, w, seqNo, at, times)
  {
    hide BuildStoredRequest, CanonicalLlmRequest, CanonicalToolCall, Decimal;
  }

  lemma TasksAreAsAsked(
    d: Deployment, states: seq<State>, steps: seq<Step>, workflowType: Text, input: Json, i: nat, w: nat, at: int)
    returns (asked: seq<Call>)
    requires Run(d, states, steps, workflowType, input) && workflowType in d.registry && i < |states|
    ensures asked == [] || exists a ::
      DecidedAt(d, d.registry[workflowType](input), states[i].log, a) &&
      asked == Asked(d.registry[workflowType](input), a)
    ensures forall lane, k :: !IsSignal(lane) && 0 <= k < |Recorded(states[i].log, lane)| ==>
      && k < |InLane(asked, lane)|
      && var x := Recorded(states[i].log, lane)[k];
      && var t := TaskFor(w, x, at);
        t.Some? && TaskAsAsked(d, InLane(asked, lane)[k], t.value, w, x.seqNo, at, ClockReadings(steps, i))
  {
    hide DecidedAt, TaskFor, TaskAsAsked, Carries, ClockReadings, Next;
    asked := EventsAreOfTheCalls(d, states, steps, workflowType, input, i);
    var times := ClockReadings(steps, i);
    forall lane, k | !IsSignal(lane) && 0 <= k < |Recorded(states[i].log, lane)|
      ensures k < |InLane(asked, lane)|
      ensures var x := Recorded(states[i].log, lane)[k];
        && var t := TaskFor(w, x, at);
          t.Some? && TaskAsAsked(d, InLane(asked, lane)[k], t.value, w, x.seqNo, at, times)
    {
      var x, c := Recorded(states[i].log, lane)[k], InLane(asked, lane)[k];
      assert MadeBy(d, x.event, c, k, times);
      var now :| now in times && Carries(d, x.event, c, k, now);
      EventBecomesTask(d, x.event, c, k, now, w, x.seqNo, at, times);
      assert x == Stored(x.seqNo, x.event);
    }
  }
}
