/** Safety of whole runs: every reachable log agrees with running the workflow code directly. */
module Runs {
  import opened Wrappers
  import opened Texts
  import opened Json
  import opened Requests
  import opened Events
  import opened Drain
  import opened ReplaySpec
  import opened Readings
  import opened ReplayLaws
  import opened Decisions
  import opened Engine

  // ---------------------------------------------------------------- running the code directly

  // The answer recorded for the i-th call of a lane.
  function RecordedAnswer(log: seq<Stored>, lane: Lane, i: nat): Option<Answer> {
    var r := Recorded(log, lane);
    if i >= |r| then None
    else if IsSignal(lane) then Some(Value(r[i].event.payload))
    else OutcomeIn(log, lane, r[i].seqNo)
  }

  type Oracle = (Lane, nat) -> Option<Answer>

  function OracleOf(log: seq<Stored>): Oracle {
    (lane, i: nat) => RecordedAnswer(log, lane, i)
  }

  // The event at this place, or the last one to name it, tells this.
  ghost predicate ToldAt(log: seq<Stored>, lane: Lane, q: nat, a: Answer)
    requires q < |log| && Asks(log[q].event, lane)
  {
    if lane.SignalLane? then a == Value(log[q].event.payload) else Told(log, lane, log[q].seqNo, a)
  }

  // The oracle says what the events of the log tell.
  lemma OracleIsTold(log: seq<Stored>, lane: Lane, k: nat, a: Answer)
    ensures OracleOf(log)(lane, k) == Some(a) <==>
      exists q: nat :: StandsFor(log, lane, k, q) && ToldAt(log, lane, q, a)
  {
    hide Told, OutcomeIn;
    if q: nat :| StandsFor(log, lane, k, q) && ToldAt(log, lane, q, a) {
      AtPlace(log, lane, k, q);
      OutcomeTells(log, lane, log[q].seqNo, a);
    }
    if k < |Recorded(log, lane)| {
      var q := PlaceOf(log, lane, k);
      OutcomeTells(log, lane, log[q].seqNo, a);
    }
  }

  function DirectAnswers(oracle: Oracle, prior: seq<Call>, calls: seq<Call>): seq<Option<Answer>> {
    seq(|calls|, i requires 0 <= i < |calls| => oracle(LaneOf(calls[i]), Position(prior + calls[..i], calls[i])))
  }

  // Running the function with an oracle for its calls: no log, no hashes, no commands. It ends within
  // `rounds` awaits, or not at all as far as this says.
  function DirectRun(wf: Workflow, oracle: Oracle, a: Answers, prior: seq<Call>, rounds: nat): Option<Action>
    decreases rounds
  {
    match wf.next(a)
    case Await(calls) =>
      var xs := DirectAnswers(oracle, prior, calls);
      if rounds == 0 || exists i :: 0 <= i < |xs| && xs[i].None? then None
      else DirectRun(wf, oracle, a + [seq(|xs|, i requires 0 <= i < |xs| => xs[i].value)], prior + calls, rounds - 1)
    case end => Some(end)
  }

  lemma SettledIsRecorded(hash: Hash, log: seq<Stored>, c: Call, index: nat)
    requires Respond(hash, log, c, index).Settled?
    ensures RecordedAnswer(log, LaneOf(c), index) == Some(Respond(hash, log, c, index).answer)
  {
  }

  lemma DirectAnswersSettled(hash: Hash, log: seq<Stored>, prior: seq<Call>, calls: seq<Call>)
    requires AllSettled(Replies(hash, log, prior, calls))
    ensures var xs := DirectAnswers(OracleOf(log), prior, calls);
      && (forall i :: 0 <= i < |xs| ==> xs[i].Some?)
      && seq(|xs|, i requires 0 <= i < |xs| => xs[i].value) == AnswersIn(Replies(hash, log, prior, calls))
  {
    hide Respond;
    var rs, xs := Replies(hash, log, prior, calls), DirectAnswers(OracleOf(log), prior, calls);
    forall i | 0 <= i < |xs| ensures xs[i] == Some(rs[i].answer) {
      assert rs[i].Settled?;
      SettledIsRecorded(hash, log, calls[i], Position(prior + calls[..i], calls[i]));
    }
  }

  lemma DirectStep(hash: Hash, wf: Workflow, log: seq<Stored>, b: Answers, x: seq<Answer>, rounds: nat)
    requires TurnAt(hash, wf, log, b) == Advance(x)
    ensures DirectRun(wf, OracleOf(log), b, Prior(wf, b), rounds + 1) ==
      DirectRun(wf, OracleOf(log), b + [x], Prior(wf, b) + CallsAt(wf, b), rounds)
  {
    hide Replies, DirectAnswers, Verdict;
    DirectAnswersSettled(hash, log, Prior(wf, b), CallsAt(wf, b));
  }

  lemma {:induction false} DirectFollowsTrace(hash: Hash, wf: Workflow, log: seq<Stored>, a: Answers, n: nat)
    requires Trace(PassOf(hash, wf, log), a) && n <= |a| && !wf.next(a).Await?
    ensures DirectRun(wf, OracleOf(log), a[..n], Prior(wf, a[..n]), |a| - n) == Some(wf.next(a))
    decreases |a| - n
  {
    hide TurnAt;
    if n == |a| {
      assert a[..n] == a;
    } else {
      assert PassOf(hash, wf, log).turn(a[..n]) == Advance(a[n]);
      DirectStep(hash, wf, log, a[..n], a[n], |a| - n - 1);
      assert a[..n + 1][..n] == a[..n];
      assert a[..n] + [a[n]] == a[..n + 1];
      DirectFollowsTrace(hash, wf, log, a, n + 1);
    }
  }

  // ---------------------------------------------------------------- the invariant

  ghost predicate Begun(log: seq<Stored>, workflowType: Text, input: Json) {
    log != [] && log[0] == InitialLog(workflowType, input)[0]
  }

  ghost predicate StateInvariant(d: Deployment, workflowType: Text, input: Json, s: State)
    requires workflowType in d.registry
  {
    var wf := d.registry[workflowType](input);
    && Begun(s.log, workflowType, input)
    && LogInvariant(d, wf, s.log)
    && (s.reading.Some? ==>
         var n := s.reading.value.length;
         && 1 <= n <= |s.log|
         && LogInvariant(d, wf, s.log[..n])
         && GrowsBy(s.log[..n], s.log[n..]))
  }

  lemma InitialHolds(d: Deployment, workflowType: Text, input: Json)
    requires workflowType in d.registry
    ensures StateInvariant(d, workflowType, input, State(InitialLog(workflowType, input), None))
  {
    var wf := d.registry[workflowType](input);
    var log := InitialLog(workflowType, input);
    assert log[..0] == [];
    forall lane, s: nat ensures OutcomeIn(log, lane, s).None? { NoOutcome(log, lane, s); }
    forall lane | !IsSignal(lane) ensures Recorded(log, lane) == [] { NothingRecorded(log, lane); }
    assert Follows(d.hash, log, []);
  }

  lemma {:induction false} TimerAnswers(log: seq<Stored>, s: nat)
    ensures OutcomeIn(log, TimerLane, s).Some? ==> OutcomeIn(log, TimerLane, s) == Some(Fired)
  {
    if log != [] { TimerAnswers(log[..|log| - 1], s); }
  }

  lemma OneOutcome(x: Stored, lane: Lane, s: nat)
    ensures OutcomeIn([x], lane, s) ==
      if OutcomeOf(x.event).Some? && OutcomeOf(x.event).value.lane == lane && OutcomeOf(x.event).value.seqNo == s
      then Some(OutcomeOf(x.event).value.answer) else None
  {
    assert [x][..0] == [];
  }

  lemma OutsideKeeps(log: seq<Stored>, e: Event)
    requires FromOutside(log, e) && OutcomesOfPast(log)
    ensures GrowsBy(log, [Stored(|log| + 1, e)])
    ensures OutcomesOfPast(log + [Stored(|log| + 1, e)])
  {
    var x := Stored(|log| + 1, e);
    forall lane, s: nat
      ensures OutcomeIn(log, lane, s).Some? && OutcomeIn([x], lane, s).Some? ==>
        OutcomeIn([x], lane, s) == OutcomeIn(log, lane, s)
      ensures OutcomeIn(log + [x], lane, s).Some? ==> s <= |log|
    {
      OneOutcome(x, lane, s);
      OutcomeInConcat(log, [x], lane, s);
      TimerAnswers(log, s);
    }
  }

  // Events that are neither schedules nor outcomes keep the invariant, given the terminal ones are true.
  lemma QuietExtension(d: Deployment, wf: Workflow, log: seq<Stored>, e: Event)
    requires LogInvariant(d, wf, log) && !IsSchedule(e) && OutcomeOf(e).None?
    requires e.WorkflowCompleted? || e.WorkflowFailed? ==> EndedAs(d, wf, log, e)
    ensures LogInvariant(d, wf, log + [Stored(|log| + 1, e)])
  {
    var x := Stored(|log| + 1, e);
    forall lane, s: nat
      ensures OutcomeIn([x], lane, s).None?
      ensures OutcomeIn(log + [x], lane, s) == OutcomeIn(log, lane, s)
    {
      OneOutcome(x, lane, s);
      OutcomeInConcat(log, [x], lane, s);
    }
    assert GrowsBy(log, [x]);
    SchedulingStays(d, wf, log, [x]);
    if e.WorkflowCompleted? || e.WorkflowFailed? { EndedStays(d, wf, log, [x], e); }
    TerminalsStay(d, wf, log, [x]);
  }

  lemma OutsideStep(d: Deployment, wf: Workflow, log: seq<Stored>, e: Event)
    requires LogInvariant(d, wf, log) && FromOutside(log, e)
    ensures LogInvariant(d, wf, log + [Stored(|log| + 1, e)])
  {
    var x := Stored(|log| + 1, e);
    OutsideKeeps(log, e);
    SchedulingStays(d, wf, log, [x]);
    TerminalsStay(d, wf, log, [x]);
  }

  lemma ReadingGrows(log: seq<Stored>, more: seq<Stored>, e: Event)
    requires GrowsBy(log, more) && FromOutside(log + more, e)
    ensures GrowsBy(log, more + [Stored(|log + more| + 1, e)])
  {
    var x := Stored(|log + more| + 1, e);
    forall lane, s: nat
      ensures OutcomeIn(log, lane, s).Some? && OutcomeIn(more + [x], lane, s).Some? ==>
        OutcomeIn(more + [x], lane, s) == OutcomeIn(log, lane, s)
    {
      OneOutcome(x, lane, s);
      OutcomeInConcat(more, [x], lane, s);
      OutcomeInConcat(log, more, lane, s);
      TimerAnswers(log, s);
      TimerAnswers(log + more, s);
    }
  }

  // ---------------------------------------------------------------- the append of a decision

  lemma StampOne(n: nat, e: Event)
    ensures Stamp(n, [e]) == [Stored(n + 1, e)] && Stamp(n, []) == []
  {
  }

  // A terminal verdict says how the function ended.
  lemma VerdictEnds(d: Deployment, wf: Workflow, seen: seq<Stored>, more: seq<Stored>)
    requires KeepsOutcomes(seen, more)
    ensures var r := ReplayOf(d.hash, wf, seen, d.budget);
      && (r.Completed? ==> EndedAs(d, wf, seen + more, WorkflowCompleted(r.result)))
      && (r.Failed? ==> EndedAs(d, wf, seen + more, WorkflowFailed(r.error)))
  {
    var r := ReplayOf(d.hash, wf, seen, d.budget);
    if r.Completed? || r.Failed? {
      var b := DriveEnds(PassOf(d.hash, wf, seen), d.budget, EXHAUSTED);
      var e := if r.Completed? then WorkflowCompleted(r.result) else WorkflowFailed(r.error);
      assert EndsAt(d, wf, seen, e, b);
      EndedStays(d, wf, seen, more, e);
    }
  }

  lemma QuietAppend(d: Deployment, wf: Workflow, log: seq<Stored>, events: seq<Event>)
    requires Numbered(log) && OutcomesOfPast(log) && Terminals(d, wf, log)
    requires forall i :: 0 <= i < |events| ==> IsSchedule(events[i]) && OutcomeOf(events[i]).None?
    ensures var all := log + Stamp(|log|, events); Numbered(all) && OutcomesOfPast(all) && Terminals(d, wf, all)
  {
    hide EndedAs;
    var more := Stamp(|log|, events);
    forall lane, s: nat
      ensures OutcomeIn(more, lane, s).None?
      ensures OutcomeIn(log + more, lane, s) == OutcomeIn(log, lane, s)
    {
      NoOutcome(more, lane, s);
      OutcomeInConcat(log, more, lane, s);
    }
    TerminalsStay(d, wf, log, more);
  }

  lemma DecisionQuiet(
    d: Deployment, wf: Workflow, seen: seq<Stored>, commands: seq<Command>, pending: map<Text, LlmRequest>, now: int)
    requires Scheduling(d, wf, seen)
    requires ReplayOf(d.hash, wf, seen, d.budget) == Running(commands, pending) && commands != []
    ensures var events := EventsOf(commands, Converter(d, now));
      forall i :: 0 <= i < |events| ==> IsSchedule(events[i]) && OutcomeOf(events[i]).None?
  {
    hide CommandToEvent, Respond, Matches, Scheduling;
    var b := DriveEnds(PassOf(d.hash, wf, seen), d.budget, EXHAUSTED);
    NoMismatchAt(d, wf, seen, b);
    var events := EventsOf(commands, Converter(d, now));
    CommandToEventFaithful(d.hash, d.config, now);
    forall i | 0 <= i < |events| ensures IsSchedule(events[i]) && OutcomeOf(events[i]).None? {
      NewCommandsScheduled(d.hash, Converter(d, now), seen, Prior(wf, b), CallsAt(wf, b), i);
    }
  }

  lemma SchedulingAppend(
    d: Deployment, wf: Workflow, seen: seq<Stored>, more: seq<Stored>, commands: seq<Command>,
    pending: map<Text, LlmRequest>, now: int)
    requires LogInvariant(d, wf, seen) && GrowsBy(seen, more) && LogInvariant(d, wf, seen + more)
    requires ReplayOf(d.hash, wf, seen, d.budget) == Running(commands, pending) && commands != []
    ensures LogInvariant(d, wf, seen + more + Stamp(|seen + more|, EventsOf(commands, Converter(d, now))))
  {
    hide CommandToEvent, Scheduling, Terminals, GrowsBy, ReplayOf, OutcomesOfPast, Numbered;
    DecisionQuiet(d, wf, seen, commands, pending, now);
    QuietAppend(d, wf, seen + more, EventsOf(commands, Converter(d, now)));
    DecisionIdempotent(d, wf, seen, more, commands, pending, now);
  }

  // Appending a terminal event that says how the code ended.
  lemma EndAppended(d: Deployment, wf: Workflow, log: seq<Stored>, e: Event)
    requires LogInvariant(d, wf, log) && (e.WorkflowCompleted? || e.WorkflowFailed?) && EndedAs(d, wf, log, e)
    ensures LogInvariant(d, wf, log + Stamp(|log|, [e]))
  {
    hide LogInvariant, EndedAs;
    StampOne(|log|, e);
    QuietExtension(d, wf, log, e);
  }

  lemma CancelAppended(d: Deployment, wf: Workflow, log: seq<Stored>, e: Event)
    requires LogInvariant(d, wf, log) && e.WorkflowCanceled?
    ensures LogInvariant(d, wf, log + Stamp(|log|, [e]))
  {
    hide LogInvariant, EndedAs;
    StampOne(|log|, e);
    QuietExtension(d, wf, log, e);
  }

  lemma DecidedHolds(d: Deployment, wf: Workflow, seen: seq<Stored>, more: seq<Stored>, now: int)
    requires LogInvariant(d, wf, seen) && GrowsBy(seen, more) && LogInvariant(d, wf, seen + more)
    ensures LogInvariant(d, wf,
      seen + more + Stamp(|seen + more|, EventsIn(Decided(ReplayOf(d.hash, wf, seen, d.budget), d, now))))
  {
    var log := seen + more;
    var r := ReplayOf(d.hash, wf, seen, d.budget);
    NeverRaises(d, wf, seen, d.budget);
    VerdictEnds(d, wf, seen, more);
    hide EndedAs, CommandToEvent, LogInvariant, GrowsBy, ReplayOf;
    TerminalEvents(d, now);
    match r
    case Running(commands, pending) =>
      if commands != [] {
        SchedulingAppend(d, wf, seen, more, commands, pending, now);
      } else {
        assert Stamp(|log|, []) == [] && log + [] == log;
      }
    case Completed(v) => EndAppended(d, wf, log, WorkflowCompleted(v));
    case Failed(e) => EndAppended(d, wf, log, WorkflowFailed(e));
  }

  lemma AppendHolds(d: Deployment, workflowType: Text, input: Json, seen: seq<Stored>, more: seq<Stored>, now: int)
    requires workflowType in d.registry && Begun(seen, workflowType, input)
    requires var wf := d.registry[workflowType](input);
      LogInvariant(d, wf, seen) && GrowsBy(seen, more) && LogInvariant(d, wf, seen + more)
    ensures LogInvariant(d, d.registry[workflowType](input),
      seen + more + Stamp(|seen + more|, EventsIn(Handle(d, seen, now))))
  {
    hide LogInvariant, GrowsBy, ReplayOf, Decided;
    var wf := d.registry[workflowType](input);
    if CancelRequest(seen).Some? && !AlreadyTerminal(seen) {
      CancelAppended(d, wf, seen + more, Handle(d, seen, now).events[0]);
      assert EventsIn(Handle(d, seen, now)) == [Handle(d, seen, now).events[0]];
    } else {
      DecidedHolds(d, wf, seen, more, now);
    }
  }

  lemma TerminalEvents(d: Deployment, now: int)
    ensures forall v :: Decided(Completed(v), d, now) == Append([WorkflowCompleted(v)])
    ensures forall e :: Decided(Failed(e), d, now) == Append([WorkflowFailed(e)])
  {
  }

  lemma GrowsByNothing(log: seq<Stored>)
    ensures GrowsBy(log, []) && log[..|log|] == log && log[|log|..] == []
  {
  }

  lemma OutsideHolds(d: Deployment, workflowType: Text, input: Json, s: State, e: Event)
    requires workflowType in d.registry && StateInvariant(d, workflowType, input, s) && FromOutside(s.log, e)
    ensures StateInvariant(d, workflowType, input, s.(log := s.log + [Stored(|s.log| + 1, e)]))
  {
    hide LogInvariant, FromOutside, GrowsBy;
    var log := s.log + [Stored(|s.log| + 1, e)];
    OutsideStep(d, d.registry[workflowType](input), s.log, e);
    if s.reading.Some? {
      var n := s.reading.value.length;
      assert s.log[..n] + s.log[n..] == s.log;
      ReadingGrows(s.log[..n], s.log[n..], e);
      assert log[..n] == s.log[..n] && log[n..] == s.log[n..] + [Stored(|s.log| + 1, e)];
    }
  }

  lemma NextHolds(d: Deployment, workflowType: Text, input: Json, s: State, t: State, step: Step)
    requires workflowType in d.registry && StateInvariant(d, workflowType, input, s) && Next(d, s, t, step)
    ensures StateInvariant(d, workflowType, input, t)
  {
    hide LogInvariant, Handle, GrowsBy, FromOutside;
    match step
    case ReadHistory(_) => GrowsByNothing(s.log);
    case AppendDecision =>
      var n := s.reading.value.length;
      assert s.log[..n] + s.log[n..] == s.log;
      AppendHolds(d, workflowType, input, s.log[..n], s.log[n..], s.reading.value.now);
    case Crash =>
    case Outside(e) => OutsideHolds(d, workflowType, input, s, e);
  }

  lemma {:induction false} RunHolds(
    d: Deployment, states: seq<State>, steps: seq<Step>, workflowType: Text, input: Json, i: nat)
    requires Run(d, states, steps, workflowType, input) && workflowType in d.registry && i < |states|
    ensures StateInvariant(d, workflowType, input, states[i])
  {
    if i == 0 {
      InitialHolds(d, workflowType, input);
    } else {
      RunHolds(d, states, steps, workflowType, input, i - 1);
      NextHolds(d, workflowType, input, states[i - 1], states[i], steps[i - 1]);
    }
  }

  // ---------------------------------------------------------------- running directly within the ticks

  // The direct interpreter with a tick budget, as the drain of a pass is billed: how the code ends, if it
  // gets there.
  function DirectEnd(wf: Workflow, oracle: Oracle, a: Answers, prior: seq<Call>, left: nat): Option<Action>
    decreases left, if a == [] then 1 else 0
  {
    var cost := if a == [] then wf.ticks(a) else 1 + wf.ticks(a);
    if left < cost then None
    else
      match wf.next(a)
      case Await(calls) =>
        var xs := DirectAnswers(oracle, prior, calls);
        if exists i :: 0 <= i < |xs| && xs[i].None? then None
        else DirectEnd(wf, oracle, a + [seq(|xs|, i requires 0 <= i < |xs| => xs[i].value)], prior + calls, left - cost)
      case end => Some(end)
  }

  // The end replay reports, as an action of the code.
  function EndReported(r: ReplayResult): Option<Action> {
    match r
    case Completed(v) => Some(Return(v))
    case Failed(e) => Some(Throw(e))
    case _ => None
  }

  // A call that has no answer yet has none recorded.
  lemma UnsettledIsMissing(hash: Hash, log: seq<Stored>, c: Call, index: nat)
    requires !Respond(hash, log, c, index).Settled? && !Respond(hash, log, c, index).Mismatch?
    ensures RecordedAnswer(log, LaneOf(c), index) == None
  {
  }

  lemma UnsettledStops(d: Deployment, wf: Workflow, log: seq<Stored>, a: Answers)
    requires Scheduling(d, wf, log) && FullTrace(PassOf(d.hash, wf, log), a) && wf.next(a).Await?
    ensures var xs := DirectAnswers(OracleOf(log), Prior(wf, a), CallsAt(wf, a));
      exists i :: 0 <= i < |xs| && xs[i].None?
  {
    hide Scheduling, Verdict, Respond, Position, RecordedAnswer, LastMismatch;
    var calls, prior := CallsAt(wf, a), Prior(wf, a);
    NoMismatchAt(d, wf, log, a);
    assert TurnAt(d.hash, wf, log, a).Stop?;
    var i := StoppedUnsettled(d.hash, wf, log, a);
    assert !Replies(d.hash, log, prior, calls)[i].Mismatch?;
    UnsettledIsMissing(d.hash, log, calls[i], Position(prior + calls[..i], calls[i]));
    assert DirectAnswers(OracleOf(log), prior, calls)[i].None?;
  }

  lemma StoppedUnsettled(hash: Hash, wf: Workflow, log: seq<Stored>, a: Answers) returns (i: nat)
    requires wf.next(a).Await? && TurnAt(hash, wf, log, a).Stop?
    ensures i < |CallsAt(wf, a)| && !Replies(hash, log, Prior(wf, a), CallsAt(wf, a))[i].Settled?
  {
    i :| 0 <= i < |CallsAt(wf, a)| && !Replies(hash, log, Prior(wf, a), CallsAt(wf, a))[i].Settled?;
  }

  lemma TraceSnoc(hash: Hash, wf: Workflow, log: seq<Stored>, a: Answers, x: seq<Answer>)
    requires Trace(PassOf(hash, wf, log), a) && TurnAt(hash, wf, log, a) == Advance(x)
    ensures Trace(PassOf(hash, wf, log), a + [x]) && Prior(wf, a + [x]) == Prior(wf, a) + CallsAt(wf, a)
  {
    hide TurnAt;
    var p, b := PassOf(hash, wf, log), a + [x];
    assert b[..|a|] == a;
    forall i | 0 <= i < |b| ensures p.turn(b[..i]) == Advance(b[i]) {
      assert b[..i] == a[..i];
      if i == |a| { assert a[..i] == a; }
    }
  }

  lemma {:induction false} DriveEndsDirectly(d: Deployment, wf: Workflow, log: seq<Stored>, a: Answers, left: nat)
    requires Scheduling(d, wf, log) && Trace(PassOf(d.hash, wf, log), a)
    ensures EndReported(Drive(PassOf(d.hash, wf, log), a, left, EXHAUSTED)) ==
      DirectEnd(wf, OracleOf(log), a, Prior(wf, a), left)
    decreases left, if a == [] then 1 else 0
  {
    hide Scheduling, RepliesAt, DirectAnswers;
    var p := PassOf(d.hash, wf, log);
    assert p.turn(a) == TurnAt(d.hash, wf, log, a);
    if Cost(p, a) <= left && wf.next(a).Await? {
      if TurnAt(d.hash, wf, log, a).Advance? {
        var x := TurnAt(d.hash, wf, log, a).answers;
        TraceSnoc(d.hash, wf, log, a, x);
        assert AllSettled(Replies(d.hash, log, Prior(wf, a), CallsAt(wf, a))) by {
          AdvancedSettled(d.hash, wf, log, a);
        }
        DirectAnswersSettled(d.hash, log, Prior(wf, a), CallsAt(wf, a));
        AdvancedSettled(d.hash, wf, log, a);
        DriveEndsDirectly(d, wf, log, a + [x], left - Cost(p, a));
      } else {
        UnsettledStops(d, wf, log, a);
      }
    }
  }

  lemma AdvancedSettled(hash: Hash, wf: Workflow, log: seq<Stored>, a: Answers)
    requires TurnAt(hash, wf, log, a).Advance?
    ensures var rs := Replies(hash, log, Prior(wf, a), CallsAt(wf, a));
      AllSettled(rs) && TurnAt(hash, wf, log, a) == Advance(AnswersIn(rs))
  {
  }

  // On a log of its own code replay, at any budget, reports exactly the end the direct interpreter reaches
  // within the same ticks, and no end where it reaches none.
  lemma ReplayEndsDirectly(d: Deployment, wf: Workflow, log: seq<Stored>, budget: nat)
    requires Scheduling(d, wf, log)
    ensures EndReported(ReplayOf(d.hash, wf, log, budget)) == DirectEnd(wf, OracleOf(log), [], [], budget)
    ensures DirectEnd(wf, OracleOf(log), [], [], budget).None? <==> ReplayOf(d.hash, wf, log, budget).Running?
  {
    DriveEndsDirectly(d, wf, log, [], budget);
    NeverRaises(d, wf, log, budget);
  }

  // ---------------------------------------------------------------- the theorems

  // How the code ends when run directly against the outcomes a log records.
  ghost predicate EndsDirectly(wf: Workflow, log: seq<Stored>, end: Action) {
    exists rounds: nat :: DirectRun(wf, OracleOf(log), [], [], rounds) == Some(end)
  }

  function EndOf(e: Event): Action
    requires e.WorkflowCompleted? || e.WorkflowFailed?
  {
    if e.WorkflowCompleted? then Return(e.result) else Throw(e.error)
  }

  lemma EndedDirectly(d: Deployment, wf: Workflow, log: seq<Stored>, e: Event)
    requires (e.WorkflowCompleted? || e.WorkflowFailed?) && EndedAs(d, wf, log, e)
    ensures EndsDirectly(wf, log, EndOf(e))
  {
    var a :| EndsAt(d, wf, log, e, a);
    DirectFollowsTrace(d.hash, wf, log, a, 0);
    assert a[..0] == [] && Prior(wf, []) == [];
    assert DirectRun(wf, OracleOf(log), [], [], |a|) == Some(EndOf(e));
  }

  // Every terminal event of every run reports what the code does when it is run directly against
  // the recorded outcomes.
  lemma EngineRefinesDirectRun(
    d: Deployment, states: seq<State>, steps: seq<Step>, workflowType: Text, input: Json, i: nat, j: nat)
    requires Run(d, states, steps, workflowType, input) && workflowType in d.registry
    requires i < |states| && j < |states[i].log|
    requires var e := states[i].log[j].event; e.WorkflowCompleted? || e.WorkflowFailed?
    ensures EndsDirectly(d.registry[workflowType](input), states[i].log, EndOf(states[i].log[j].event))
  {
    RunHolds(d, states, steps, workflowType, input, i);
    EndedDirectly(d, d.registry[workflowType](input), states[i].log, states[i].log[j].event);
  }

  // A finished workflow redelivered appends its end again, and nothing else, ever.
  lemma RedeliveryRepeatsTheEnd(
    d: Deployment, states: seq<State>, steps: seq<Step>, workflowType: Text, input: Json, i: nat, j: nat, now: int)
    requires Run(d, states, steps, workflowType, input) && workflowType in d.registry
    requires i < |states| && j < |states[i].log|
    requires var e := states[i].log[j].event; e.WorkflowCompleted? || e.WorkflowFailed?
    ensures Handle(d, states[i].log, now) == Append([states[i].log[j].event])
  {
    hide LogInvariant;
    RunHolds(d, states, steps, workflowType, input, i);
    var wf, log := d.registry[workflowType](input), states[i].log;
    var e := log[j].event;
    TerminalReplay(d, wf, log, j);
    TerminalEvents(d, now);
    assert AlreadyTerminal(log);
  }

  lemma TerminalReplay(d: Deployment, wf: Workflow, log: seq<Stored>, j: nat)
    requires LogInvariant(d, wf, log) && j < |log|
    requires log[j].event.WorkflowCompleted? || log[j].event.WorkflowFailed?
    ensures ReplayOf(d.hash, wf, log, d.budget) ==
      if log[j].event.WorkflowCompleted? then Completed(log[j].event.result) else Failed(log[j].event.error)
  {
    hide RepliesAt, Scheduling;
    assert EndedAs(d, wf, log, log[j].event);
    var a :| EndsAt(d, wf, log, log[j].event, a);
    BoundedDrain(PassOf(d.hash, wf, log), a, d.budget, EXHAUSTED);
  }

  // All terminal events of a workflow are the same.
  lemma OneEnd(
    d: Deployment, states: seq<State>, steps: seq<Step>, workflowType: Text, input: Json, i: nat, j: nat, k: nat)
    requires Run(d, states, steps, workflowType, input) && workflowType in d.registry
    requires i < |states| && j < |states[i].log| && k < |states[i].log|
    requires var e := states[i].log[j].event; e.WorkflowCompleted? || e.WorkflowFailed?
    requires var e := states[i].log[k].event; e.WorkflowCompleted? || e.WorkflowFailed?
    ensures states[i].log[j].event == states[i].log[k].event
  {
    RedeliveryRepeatsTheEnd(d, states, steps, workflowType, input, i, j, 0);
    RedeliveryRepeatsTheEnd(d, states, steps, workflowType, input, i, k, 0);
  }

  // In every run each activity, timer, LLM and tool event was caused by exactly one call of the code:
  // lane by lane the log holds the calls the code has asked for, in order, none twice.
  lemma SchedulesNothingTwice(
    d: Deployment, states: seq<State>, steps: seq<Step>, workflowType: Text, input: Json, i: nat)
    requires Run(d, states, steps, workflowType, input) && workflowType in d.registry && i < |states|
    ensures Scheduling(d, d.registry[workflowType](input), states[i].log)
    ensures forall budget :: !ReplayOf(d.hash, d.registry[workflowType](input), states[i].log, budget).Raised?
  {
    RunHolds(d, states, steps, workflowType, input, i);
    forall budget: nat { NeverRaises(d, d.registry[workflowType](input), states[i].log, budget); }
  }
}
