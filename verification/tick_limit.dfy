/** What the tick limit of packages/core/src/replay.ts does to a run: a workflow that outgrows it stalls for good. */
module TickLimit {
  import opened Wrappers
  import opened Texts
  import opened Json
  import opened Events
  import opened Drain
  import opened ReplaySpec
  import opened ReplayLaws
  import opened Decisions
  import opened Engine
  import opened Runs
  import opened Statuses

  // Outcomes recorded in the one log read the same in the other.
  ghost predicate SameOutcomes(log: seq<Stored>, later: seq<Stored>) {
    forall lane, s :: OutcomeIn(log, lane, s).Some? ==> OutcomeIn(later, lane, s) == OutcomeIn(log, lane, s)
  }

  lemma SameKeeps(log: seq<Stored>, more: seq<Stored>)
    requires SameOutcomes(log, log + more)
    ensures KeepsOutcomes(log, more)
  {
    forall lane, s
      ensures OutcomeIn(more, lane, s).Some? ==> OutcomeIn(log + more, lane, s) == OutcomeIn(more, lane, s)
    {
      OutcomeInConcat(log, more, lane, s);
    }
  }

  lemma KeepsSame(log: seq<Stored>, later: seq<Stored>, more: seq<Stored>)
    requires SameOutcomes(log, later) && KeepsOutcomes(later, more)
    ensures SameOutcomes(log, later + more)
  {
    forall lane, s
      ensures OutcomeIn(later, lane, s).Some? ==> OutcomeIn(later + more, lane, s) == OutcomeIn(later, lane, s)
    {
      OutcomeInConcat(later, more, lane, s);
    }
  }

  lemma QuietKeeps(log: seq<Stored>, more: seq<Stored>)
    requires forall i :: 0 <= i < |more| ==> OutcomeOf(more[i].event).None?
    ensures KeepsOutcomes(log, more)
  {
    forall lane, s: nat ensures OutcomeIn(more, lane, s).None? { NoOutcome(more, lane, s); }
  }

  // What one step appends, up to any length.
  lemma StepKeeps(d: Deployment, workflowType: Text, input: Json, s: State, t: State, step: Step, n: nat)
    requires workflowType in d.registry && StateInvariant(d, workflowType, input, s) && Next(d, s, t, step)
    requires |s.log| < n <= |t.log|
    ensures s.log <= t.log && KeepsOutcomes(s.log, t.log[|s.log|..n])
  {
    hide Handle, LogInvariant, FromOutside;
    match step
    case AppendDecision =>
      DecisionHasNoOutcome(d, s.log[..s.reading.value.length], s.reading.value.now);
      QuietKeeps(s.log, t.log[|s.log|..n]);
    case Outside(e) =>
      assert OutcomesOfPast(s.log) by { InvariantPast(d, d.registry[workflowType](input), s.log); }
      OutsideKeeps(s.log, e);
      assert t.log[|s.log|..n] == [Stored(|s.log| + 1, e)];
    case ReadHistory(_) =>
    case Crash =>
  }

  lemma InvariantPast(d: Deployment, wf: Workflow, log: seq<Stored>)
    requires LogInvariant(d, wf, log)
    ensures OutcomesOfPast(log)
  {
  }

  lemma LogGrows(d: Deployment, s: State, t: State, step: Step)
    requires Next(d, s, t, step)
    ensures s.log <= t.log
  {
    hide Handle;
  }

  // In every run the log a task reads keeps the outcomes of every earlier log it goes on from.
  lemma {:induction false} RunKeeps(
    d: Deployment, states: seq<State>, steps: seq<Step>, workflowType: Text, input: Json, i: nat, j: nat, n: nat)
    requires Run(d, states, steps, workflowType, input) && workflowType in d.registry && i <= j < |states|
    requires |states[i].log| <= n <= |states[j].log|
    ensures states[i].log <= states[j].log && SameOutcomes(states[i].log, states[j].log[..n])
    decreases j
  {
    hide Next, StateInvariant;
    if i == j {
      assert states[j].log[..n] == states[i].log;
    } else {
      var s, t := states[j - 1], states[j];
      RunHolds(d, states, steps, workflowType, input, j - 1);
      LogGrows(d, s, t, steps[j - 1]);
      LaterIsLonger(d, states, steps, workflowType, input, i, j - 1);
      if n <= |s.log| {
        RunKeeps(d, states, steps, workflowType, input, i, j - 1, n);
        assert t.log[..n] == s.log[..n];
      } else {
        RunKeeps(d, states, steps, workflowType, input, i, j - 1, |s.log|);
        StepKeeps(d, workflowType, input, s, t, steps[j - 1], n);
        assert s.log[..|s.log|] == s.log;
        KeepsSame(states[i].log, s.log, t.log[|s.log|..n]);
        assert s.log + t.log[|s.log|..n] == t.log[..n];
      }
    }
  }

  lemma {:induction false} LaterIsLonger(
    d: Deployment, states: seq<State>, steps: seq<Step>, workflowType: Text, input: Json, i: nat, j: nat)
    requires Run(d, states, steps, workflowType, input) && i <= j < |states|
    ensures states[i].log <= states[j].log
    decreases j
  {
    hide Next;
    if i < j {
      LaterIsLonger(d, states, steps, workflowType, input, i, j - 1);
      LogGrows(d, states[j - 1], states[j], steps[j - 1]);
    }
  }

  // The awaits answered on this log take more ticks than a workflow task has.
  ghost predicate Outgrown(d: Deployment, wf: Workflow, log: seq<Stored>) {
    exists a :: Trace(PassOf(d.hash, wf, log), a) && TicksTo(PassOf(d.hash, wf, log), a) > d.budget
  }

  // Then replay stops with nothing, and only then can a task have got as far as the end of its pass.
  lemma OutgrownStops(d: Deployment, wf: Workflow, log: seq<Stored>)
    ensures Outgrown(d, wf, log) ==> ReplayOf(d.hash, wf, log, d.budget) == EXHAUSTED
    ensures ReplayOf(d.hash, wf, log, d.budget) != EXHAUSTED ==>
      exists a :: FullTrace(PassOf(d.hash, wf, log), a) && TicksTo(PassOf(d.hash, wf, log), a) <= d.budget
  {
    if Outgrown(d, wf, log) {
      var a :| Trace(PassOf(d.hash, wf, log), a) && TicksTo(PassOf(d.hash, wf, log), a) > d.budget;
      DriveRunsOut(PassOf(d.hash, wf, log), a, d.budget, EXHAUSTED);
    }
    if ReplayOf(d.hash, wf, log, d.budget) != EXHAUSTED {
      var a := DriveEnds(PassOf(d.hash, wf, log), d.budget, EXHAUSTED);
    }
  }

  lemma OutgrownStays(d: Deployment, wf: Workflow, log: seq<Stored>, more: seq<Stored>)
    requires Outgrown(d, wf, log) && KeepsOutcomes(log, more)
    ensures Outgrown(d, wf, log + more)
  {
    var a :| Trace(PassOf(d.hash, wf, log), a) && TicksTo(PassOf(d.hash, wf, log), a) > d.budget;
    TraceStays(d.hash, wf, log, more, a);
    SameTicks(PassOf(d.hash, wf, log), PassOf(d.hash, wf, log + more), a);
  }

  lemma NothingDecided(d: Deployment, workflowType: Text, input: Json, log: seq<Stored>, now: int)
    requires workflowType in d.registry && Begun(log, workflowType, input)
    requires Outgrown(d, d.registry[workflowType](input), log)
    ensures Handle(d, log, now) == Nothing ||
      (CancelRequest(log).Some? && !AlreadyTerminal(log) && exists reason ::
        Handle(d, log, now) == Append([WorkflowCanceled(reason)]))
  {
    OutgrownStops(d, d.registry[workflowType](input), log);
    hide ReplayOf, Outgrown;
  }

  // Once the answered awaits of a run need more ticks than the limit, no workflow task that reads its history
  // after that ever decides anything again, whatever arrives: all it may append is WorkflowCanceled.
  lemma OutgrownIsStuck(
    d: Deployment, states: seq<State>, steps: seq<Step>, workflowType: Text, input: Json, i: nat, j: nat)
    requires Run(d, states, steps, workflowType, input) && workflowType in d.registry && i <= j < |steps|
    requires Outgrown(d, d.registry[workflowType](input), states[i].log)
    requires steps[j].AppendDecision? && states[j].reading.Some?
    requires |states[i].log| <= states[j].reading.value.length <= |states[j].log|
    ensures states[j + 1].log == states[j].log ||
      exists reason :: states[j + 1].log == states[j].log + [Stored(|states[j].log| + 1, WorkflowCanceled(reason))]
  {
    var n, now := states[j].reading.value.length, states[j].reading.value.now;
    var wf, log, seen := d.registry[workflowType](input), states[i].log, states[j].log[..n];
    RunHolds(d, states, steps, workflowType, input, i);
    assert Begun(log, workflowType, input);
    RunKeeps(d, states, steps, workflowType, input, i, j, n);
    var more := seen[|log|..];
    assert log + more == seen;
    SameKeeps(log, more);
    OutgrownStays(d, wf, log, more);
    hide Outgrown, StateInvariant, SameOutcomes, KeepsOutcomes;
    assert Begun(seen, workflowType, input);
    NothingDecided(d, workflowType, input, seen, now);
    assert Next(d, states[j], states[j + 1], steps[j]);
    hide Handle;
    if Handle(d, seen, now) == Nothing {
      StampOne(|states[j].log|, WorkflowCanceled(None));
    } else {
      var reason :| Handle(d, seen, now) == Append([WorkflowCanceled(reason)]);
      StampOne(|states[j].log|, WorkflowCanceled(reason));
      assert states[j + 1].log == states[j].log + [Stored(|states[j].log| + 1, WorkflowCanceled(reason))];
    }
  }
}
