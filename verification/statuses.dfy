/** Which folded states a whole run can pass through. */
module Statuses {
  import opened Wrappers
  import opened Texts
  import opened Json
  import opened Events
  import opened StoredRequests
  import opened ReplaySpec
  import opened Decisions
  import opened Engine
  import opened Runs
  import opened WorkflowFold

  // ---------------------------------------------------------------- references

  lemma QuietReferences(log: seq<Stored>, more: seq<Stored>)
    requires WellReferenced(log) && Numbered(log) && Numbered(log + more)
    requires forall i :: 0 <= i < |more| ==> OutcomeOf(more[i].event).None?
    ensures WellReferenced(log + more)
  {
    var all := log + more;
    assert forall i :: |log| <= i < |all| ==> all[i] == more[i - |log|];
    forall i | 0 <= i < |all| && OutcomeOf(all[i].event).Some?
      ensures IsScheduled(all[..i], OutcomeOf(all[i].event).value.lane, OutcomeOf(all[i].event).value.seqNo)
    {
      assert i < |log|;
      assert all[..i] == log[..i];
    }
  }

  lemma OutsideReferences(log: seq<Stored>, e: Event)
    requires WellReferenced(log) && Numbered(log) && FromOutside(log, e)
    ensures WellReferenced(log + [Stored(|log| + 1, e)])
  {
    var all := log + [Stored(|log| + 1, e)];
    forall i | 0 <= i < |all| && OutcomeOf(all[i].event).Some?
      ensures IsScheduled(all[..i], OutcomeOf(all[i].event).value.lane, OutcomeOf(all[i].event).value.seqNo)
    {
      assert all[..i] == log[..i];
      if i == |log| { assert log[..i][OutcomeOf(e).value.seqNo - 1].seqNo == OutcomeOf(e).value.seqNo; }
    }
  }

  lemma CommandsHaveNoOutcome(d: Deployment, now: int)
    ensures forall c :: OutcomeOf(CommandToEvent(c, d.config, now)).None?
  {
    hide BuildStoredRequest;
  }

  // The events a decision appends record no outcomes.
  lemma DecisionHasNoOutcome(d: Deployment, log: seq<Stored>, now: int)
    ensures forall i :: 0 <= i < |EventsIn(Handle(d, log, now))| ==> OutcomeOf(EventsIn(Handle(d, log, now))[i]).None?
  {
    hide CommandToEvent, ReplayOf;
    CommandsHaveNoOutcome(d, now);
  }

  lemma {:induction false} RunWellReferenced(
    d: Deployment, states: seq<State>, steps: seq<Step>, workflowType: Text, input: Json, i: nat)
    requires Run(d, states, steps, workflowType, input) && workflowType in d.registry && i < |states|
    ensures WellReferenced(states[i].log)
  {
    hide Handle, LogInvariant;
    if i == 0 {
      var log := states[0].log;
      assert forall j :: 0 <= j < |log| ==> OutcomeOf(log[j].event).None?;
    } else {
      RunWellReferenced(d, states, steps, workflowType, input, i - 1);
      RunHolds(d, states, steps, workflowType, input, i - 1);
      RunHolds(d, states, steps, workflowType, input, i);
      var s, t := states[i - 1], states[i];
      InvariantNumbers(d, workflowType, input, s);
      InvariantNumbers(d, workflowType, input, t);
      assert Next(d, s, t, steps[i - 1]);
      match steps[i - 1]
      case AppendDecision =>
        var seen, now := s.log[..s.reading.value.length], s.reading.value.now;
        DecisionHasNoOutcome(d, seen, now);
        QuietReferences(s.log, Stamp(|s.log|, EventsIn(Handle(d, seen, now))));
      case Outside(e) => OutsideReferences(s.log, e);
      case _ =>
    }
  }

  lemma InvariantNumbers(d: Deployment, workflowType: Text, input: Json, s: State)
    requires workflowType in d.registry && StateInvariant(d, workflowType, input, s)
    ensures Numbered(s.log)
  {
  }

  // In every run the folded state and replay agree on every step and every signal.
  lemma RunsFoldAsTheyReplay(
    d: Deployment, states: seq<State>, steps: seq<Step>, workflowType: Text, input: Json, i: nat, lane: Lane, s: nat)
    requires Run(d, states, steps, workflowType, input) && workflowType in d.registry && i < |states|
    requires SignalsFoldable(states[i].log) && !IsSignal(lane)
    ensures FoldEvents(states[i].log).Some?
    ensures FoldEvents(states[i].log).value.status == StatusOf(states[i].log)
    ensures ViewOf(FoldEvents(states[i].log).value, lane, s) == Some(Expected(states[i].log, lane, s))
  {
    hide ViewOf;
    RunWellReferenced(d, states, steps, workflowType, input, i);
    FoldThrowsIff(states[i].log);
    FoldStatus(states[i].log);
    FoldAndReplayAgree(states[i].log, lane, s);
  }

  // ---------------------------------------------------------------- final statuses

  predicate Terminal(e: Event) {
    StatusBy(e).Some?
  }

  ghost predicate NoTerminals(more: seq<Stored>) {
    forall i :: 0 <= i < |more| ==> !Terminal(more[i].event)
  }

  // Only workflow tasks end workflows, so none has while this one was reading.
  ghost predicate QuietSinceRead(s: State) {
    s.reading.Some? ==> s.reading.value.length <= |s.log| && NoTerminals(s.log[s.reading.value.length..])
  }

  lemma {:induction false} ReadersMissNoEnd(
    d: Deployment, states: seq<State>, steps: seq<Step>, workflowType: Text, input: Json, i: nat)
    requires Run(d, states, steps, workflowType, input) && i < |states|
    ensures QuietSinceRead(states[i])
  {
    hide Handle;
    if i > 0 {
      ReadersMissNoEnd(d, states, steps, workflowType, input, i - 1);
      assert Next(d, states[i - 1], states[i], steps[i - 1]);
    }
  }

  lemma {:induction false} LastTerminal(log: seq<Stored>) returns (j: nat)
    requires StatusOf(log) != RUNNING
    ensures j < |log| && StatusBy(log[j].event) == Some(StatusOf(log))
  {
    j := |log| - 1;
    if StatusBy(log[j].event).None? { j := LastTerminal(log[..j]); }
  }

  lemma StatusOfOne(x: Stored)
    ensures StatusOf([x]) == match StatusBy(x.event) case Some(s) => s case None => RUNNING
  {
    assert [x][..0] == [];
  }

  lemma {:induction false} NoStatus(events: seq<Stored>)
    requires NoTerminals(events)
    ensures StatusOf(events) == RUNNING
  {
    if events != [] { NoStatus(events[..|events| - 1]); }
  }

  lemma FinalStep(d: Deployment, workflowType: Text, input: Json, s: State, t: State, step: Step)
    requires workflowType in d.registry && StateInvariant(d, workflowType, input, s) && QuietSinceRead(s)
    requires Next(d, s, t, step)
    requires StatusOf(s.log) == COMPLETED || StatusOf(s.log) == FAILED
    ensures StatusOf(t.log) == StatusOf(s.log)
  {
    hide LogInvariant, Handle;
    match step
    case AppendDecision =>
      var n := s.reading.value.length;
      var j := LastTerminal(s.log);
      assert forall k :: n <= k < |s.log| ==> s.log[n..][k - n] == s.log[k];
      assert j < n;
      var seen, e := s.log[..n], s.log[j].event;
      assert seen[j] == s.log[j];
      TerminalHandle(d, workflowType, input, seen, j, s.reading.value.now);
      var x := Stored(|s.log| + 1, e);
      StampOne(|s.log|, e);
      StatusConcat(s.log, [x]);
      StatusOfOne(x);
      assert StatusBy([x][0].event).Some?;
    case Outside(e) =>
      StatusConcat(s.log, [Stored(|s.log| + 1, e)]);
    case _ =>
  }

  lemma TerminalHandle(d: Deployment, workflowType: Text, input: Json, log: seq<Stored>, j: nat, now: int)
    requires workflowType in d.registry && Begun(log, workflowType, input)
    requires LogInvariant(d, d.registry[workflowType](input), log)
    requires j < |log| && (log[j].event.WorkflowCompleted? || log[j].event.WorkflowFailed?)
    ensures EventsIn(Handle(d, log, now)) == [log[j].event]
  {
    hide LogInvariant;
    TerminalReplay(d, d.registry[workflowType](input), log, j);
    TerminalEvents(d, now);
    assert AlreadyTerminal(log);
  }

  // COMPLETED and FAILED are final in every run.
  lemma {:induction false} FinalStatusStays(
    d: Deployment, states: seq<State>, steps: seq<Step>, workflowType: Text, input: Json, i: nat, j: nat)
    requires Run(d, states, steps, workflowType, input) && workflowType in d.registry && i <= j < |states|
    requires StatusOf(states[i].log) == COMPLETED || StatusOf(states[i].log) == FAILED
    ensures StatusOf(states[j].log) == StatusOf(states[i].log)
    decreases j
  {
    hide StateInvariant, Next, StatusOf;
    if i < j {
      FinalStatusStays(d, states, steps, workflowType, input, i, j - 1);
      RunHolds(d, states, steps, workflowType, input, j - 1);
      ReadersMissNoEnd(d, states, steps, workflowType, input, j - 1);
      FinalStep(d, workflowType, input, states[j - 1], states[j], steps[j - 1]);
    }
  }

  lemma {:induction false} FirstRequest(log: seq<Stored>, j: nat)
    requires j < |log| && log[j].event.CancellationRequested?
    requires forall k :: 0 <= k < j ==> !log[k].event.CancellationRequested?
    ensures CancelRequest(log) == Some(log[j].event)
  {
    if j > 0 { FirstRequest(log[1..], j - 1); }
  }

  // A workflow task that reads a cancellation request and no end cancels for the reason first given, and
  // schedules and ends nothing, whatever the code would have done.
  lemma CancellationPreemptsCode(
    d: Deployment, states: seq<State>, steps: seq<Step>, workflowType: Text, input: Json, i: nat, j: nat)
    requires Run(d, states, steps, workflowType, input) && workflowType in d.registry && i < |steps|
    requires steps[i].AppendDecision?
    requires states[i].reading.Some? && states[i].reading.value.length <= |states[i].log|
    requires var seen := states[i].log[..states[i].reading.value.length];
      && j < |seen| && seen[j].event.CancellationRequested?
      && (forall k :: 0 <= k < j ==> !seen[k].event.CancellationRequested?)
      && NoTerminals(seen)
    ensures states[i + 1].log ==
      states[i].log + [Stored(|states[i].log| + 1, WorkflowCanceled(states[i].log[j].event.reason))]
  {
    hide LogInvariant, ReplayOf, Decided;
    RunHolds(d, states, steps, workflowType, input, i);
    var seen := states[i].log[..states[i].reading.value.length];
    FirstRequest(seen, j);
    StampOne(|states[i].log|, WorkflowCanceled(seen[j].event.reason));
    assert Next(d, states[i], states[i + 1], steps[i]);
  }

  // The status after one more terminal event, or none.
  lemma OneMoreEnd(log: seq<Stored>, e: Event)
    requires StatusBy(e).Some?
    ensures StatusOf(log + Stamp(|log|, [e])) == StatusBy(e).value
  {
    var x := Stored(|log| + 1, e);
    StampOne(|log|, e);
    StatusConcat(log, [x]);
    StatusOfOne(x);
    assert StatusBy([x][0].event).Some?;
  }

  lemma NoMoreEnds(log: seq<Stored>, events: seq<Event>)
    requires forall i :: 0 <= i < |events| ==> StatusBy(events[i]).None?
    ensures StatusOf(log + Stamp(|log|, events)) == StatusOf(log)
  {
    StatusConcat(log, Stamp(|log|, events));
  }

  lemma RunningEndsNothing(d: Deployment, wf: Workflow, seen: seq<Stored>, now: int)
    requires Scheduling(d, wf, seen) && ReplayOf(d.hash, wf, seen, d.budget).Running?
    ensures var events := EventsIn(Decided(ReplayOf(d.hash, wf, seen, d.budget), d, now));
      forall i :: 0 <= i < |events| ==> StatusBy(events[i]).None?
  {
    var r := ReplayOf(d.hash, wf, seen, d.budget);
    hide CommandToEvent, ReplayOf, Scheduling;
    if r.commands != [] {
      DecisionQuiet(d, wf, seen, r.commands, r.pending, now);
      assert EventsIn(Decided(r, d, now)) == EventsOf(r.commands, Converter(d, now));
      hide Decided, EventsOf;
    }
  }

  // What a decision on `seen` makes of the status of a log it is appended to.
  lemma AfterDecision(d: Deployment, wf: Workflow, seen: seq<Stored>, log: seq<Stored>, now: int)
    requires LogInvariant(d, wf, seen)
    ensures var r := ReplayOf(d.hash, wf, seen, d.budget);
      StatusOf(log + Stamp(|log|, EventsIn(Decided(r, d, now)))) ==
        if r.Completed? then COMPLETED else if r.Failed? then FAILED else StatusOf(log)
  {
    hide CommandToEvent, ReplayOf, Scheduling, OutcomesOfPast, Numbered, Terminals, StatusOf, Stamp;
    var r := ReplayOf(d.hash, wf, seen, d.budget);
    NeverRaises(d, wf, seen, d.budget);
    TerminalEvents(d, now);
    match r
    case Running(commands, pending) =>
      RunningEndsNothing(d, wf, seen, now);
      NoMoreEnds(log, EventsIn(Decided(r, d, now)));
    case Completed(v) => OneMoreEnd(log, WorkflowCompleted(v));
    case Failed(e) => OneMoreEnd(log, WorkflowFailed(e));
  }

  // The code, run directly against the outcomes recorded by then, ends within the ticks a workflow task has.
  predicate CodeEnds(d: Deployment, wf: Workflow, log: seq<Stored>) {
    DirectEnd(wf, OracleOf(log), [], [], d.budget).Some?
  }

  // The workflow task that appends at m has read a history on which the code ends.
  ghost predicate EndSeen(d: Deployment, wf: Workflow, states: seq<State>, steps: seq<Step>, m: nat)
    requires m < |steps| && m < |states|
  {
    steps[m].AppendDecision? && states[m].reading.Some? && states[m].reading.value.length <= |states[m].log| &&
    CodeEnds(d, wf, states[m].log[..states[m].reading.value.length])
  }

  // A canceled workflow's task still replays; whatever ended it was there to be read.
  lemma CanceledStep(d: Deployment, workflowType: Text, input: Json, s: State, t: State, step: Step)
    requires workflowType in d.registry && StateInvariant(d, workflowType, input, s) && QuietSinceRead(s)
    requires Next(d, s, t, step)
    requires StatusOf(s.log) == CANCELED
    ensures if step.AppendDecision? && CodeEnds(d, d.registry[workflowType](input), s.log[..s.reading.value.length])
      then StatusOf(t.log) == COMPLETED || StatusOf(t.log) == FAILED else StatusOf(t.log) == CANCELED
  {
    hide LogInvariant, DirectEnd;
    match step
    case AppendDecision => CanceledDecision(d, workflowType, input, s, t);
    case Outside(e) => StatusConcat(s.log, [Stored(|s.log| + 1, e)]);
    case _ =>
  }

  lemma CanceledDecision(d: Deployment, workflowType: Text, input: Json, s: State, t: State)
    requires workflowType in d.registry && StateInvariant(d, workflowType, input, s) && QuietSinceRead(s)
    requires Next(d, s, t, AppendDecision)
    requires StatusOf(s.log) == CANCELED
    ensures if CodeEnds(d, d.registry[workflowType](input), s.log[..s.reading.value.length])
      then StatusOf(t.log) == COMPLETED || StatusOf(t.log) == FAILED else StatusOf(t.log) == CANCELED
  {
    hide LogInvariant, DirectEnd, ReplayOf, Decided, StatusOf;
    var wf, n := d.registry[workflowType](input), s.reading.value.length;
    var seen := s.log[..n];
    var j := LastTerminal(s.log);
    assert forall k :: n <= k < |s.log| ==> s.log[n..][k - n] == s.log[k];
    assert seen[j] == s.log[j] && AlreadyTerminal(seen);
    assert Handle(d, seen, s.reading.value.now) ==
      Decided(ReplayOf(d.hash, wf, seen, d.budget), d, s.reading.value.now);
    AfterDecision(d, wf, seen, s.log, s.reading.value.now);
    assert Scheduling(d, wf, seen) by { InvariantSchedules(d, wf, seen); }
    ReplayEndsDirectly(d, wf, seen, d.budget);
  }

  lemma InvariantSchedules(d: Deployment, wf: Workflow, log: seq<Stored>)
    requires LogInvariant(d, wf, log)
    ensures Scheduling(d, wf, log)
  {
  }

  // CANCELED is not final. From i, whatever arrives, it still holds at j exactly when no workflow task in
  // between has appended after reading a history on which the code, run directly, ends by itself; after the
  // first one that has, the workflow is COMPLETED or FAILED.
  lemma {:induction false} CanceledHoldsIff(
    d: Deployment, states: seq<State>, steps: seq<Step>, workflowType: Text, input: Json, i: nat, j: nat)
    requires Run(d, states, steps, workflowType, input) && workflowType in d.registry && i <= j < |states|
    requires StatusOf(states[i].log) == CANCELED
    ensures StatusOf(states[j].log) == CANCELED <==>
      forall m :: i <= m < j ==> !EndSeen(d, d.registry[workflowType](input), states, steps, m)
    ensures StatusOf(states[j].log) == CANCELED || StatusOf(states[j].log) == COMPLETED ||
      StatusOf(states[j].log) == FAILED
    decreases j
  {
    hide StateInvariant, StatusOf, CodeEnds, Handle, QuietSinceRead;
    if i < j {
      CanceledHoldsIff(d, states, steps, workflowType, input, i, j - 1);
      RunHolds(d, states, steps, workflowType, input, j - 1);
      ReadersMissNoEnd(d, states, steps, workflowType, input, j - 1);
      var s, t := states[j - 1], states[j];
      assert Next(d, s, t, steps[j - 1]);
      if StatusOf(s.log) == CANCELED {
        CanceledStep(d, workflowType, input, s, t, steps[j - 1]);
        assert EndSeen(d, d.registry[workflowType](input), states, steps, j - 1) <==>
          steps[j - 1].AppendDecision? && CodeEnds(d, d.registry[workflowType](input), s.log[..s.reading.value.length]);
      } else {
        FinalStep(d, workflowType, input, s, t, steps[j - 1]);
      }
    }
  }

  // A cancelled workflow can complete: code that returns at once, cancelled before its first task,
  // is COMPLETED after its second.
  lemma CanceledIsNotFinal(
    d: Deployment, workflowType: Text, input: Json, v: Json) returns (states: seq<State>, steps: seq<Step>)
    requires workflowType in d.registry
    requires d.registry[workflowType](input).next([]) == Return(v)
    requires d.registry[workflowType](input).ticks([]) <= d.budget
    ensures Run(d, states, steps, workflowType, input)
    ensures exists i, j ::
      0 <= i < j < |states| && StatusOf(states[i].log) == CANCELED && StatusOf(states[j].log) == COMPLETED
  {
    AskedIsCanceled(d, workflowType, input);
    CanceledCompletes(d, workflowType, input, v);
    hide Handle;
    states, steps := CanceledRun(d, workflowType, input, v);
    var asked := CancelAsked(workflowType, input);
    StatusOfOne(Stored(3, WorkflowCanceled(None)));
    StatusOfOne(Stored(4, WorkflowCompleted(v)));
    var x, y := [Stored(3, WorkflowCanceled(None))], [Stored(4, WorkflowCompleted(v))];
    assert StatusBy(x[0].event).Some? && StatusBy(y[0].event).Some?;
    StatusConcat(asked, x);
    StatusConcat(asked + x, y);
    assert StatusOf(states[3].log) == CANCELED && StatusOf(states[5].log) == COMPLETED;
  }

  function CancelAsked(workflowType: Text, input: Json): seq<Stored> {
    InitialLog(workflowType, input) + [Stored(2, CancellationRequested(None))]
  }

  function CanceledLog(workflowType: Text, input: Json): seq<Stored> {
    CancelAsked(workflowType, input) + [Stored(3, WorkflowCanceled(None))]
  }

  // Cancelled while the first task is pending, canceled by it, completed by the next.
  lemma CanceledRun(
    d: Deployment, workflowType: Text, input: Json, v: Json) returns (states: seq<State>, steps: seq<Step>)
    requires Handle(d, CancelAsked(workflowType, input), 0) == Append([WorkflowCanceled(None)])
    requires Handle(d, CanceledLog(workflowType, input), 0) == Append([WorkflowCompleted(v)])
    ensures Run(d, states, steps, workflowType, input) && |states| == 6
    ensures states[3].log == CanceledLog(workflowType, input)
    ensures states[5].log == CanceledLog(workflowType, input) + [Stored(4, WorkflowCompleted(v))]
  {
    hide Handle;
    var started, asked, canceled :=
      InitialLog(workflowType, input), CancelAsked(workflowType, input), CanceledLog(workflowType, input);
    assert asked[..2] == asked && canceled[..3] == canceled;
    StampOne(2, WorkflowCanceled(None));
    StampOne(3, WorkflowCompleted(v));
    states := [State(started, None), State(asked, None), State(asked, Some(Read(2, 0))), State(canceled, None),
      State(canceled, Some(Read(3, 0))), State(canceled + [Stored(4, WorkflowCompleted(v))], None)];
    steps := [Outside(CancellationRequested(None)), ReadHistory(0), AppendDecision, ReadHistory(0), AppendDecision];
    assert Next(d, states[0], states[1], steps[0]);
    assert Next(d, states[1], states[2], steps[1]);
    assert Next(d, states[2], states[3], steps[2]);
    assert Next(d, states[3], states[4], steps[3]);
    assert Next(d, states[4], states[5], steps[4]);
  }

  lemma AskedIsCanceled(d: Deployment, workflowType: Text, input: Json)
    requires workflowType in d.registry
    ensures Handle(d, CancelAsked(workflowType, input), 0) == Append([WorkflowCanceled(None)])
  {
    var asked := CancelAsked(workflowType, input);
    assert asked[1..] == [Stored(2, CancellationRequested(None))];
    assert CancelRequest(asked) == Some(CancellationRequested(None));
  }

  lemma CanceledCompletes(d: Deployment, workflowType: Text, input: Json, v: Json)
    requires workflowType in d.registry
    requires d.registry[workflowType](input).next([]) == Return(v)
    requires d.registry[workflowType](input).ticks([]) <= d.budget
    ensures Handle(d, CanceledLog(workflowType, input), 0) == Append([WorkflowCompleted(v)])
  {
    var log := CanceledLog(workflowType, input);
    assert log[2].event.WorkflowCanceled?;
    assert AlreadyTerminal(log);
    TerminalEvents(d, 0);
  }
}
