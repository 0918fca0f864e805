/** Laws of replay across logs: answers are never taken back, decisions are idempotent. */
module ReplayLaws {
  import opened Events
  import opened Drain
  import opened ReplaySpec

  // The last round of a trace: every call of its batch was answered.
  lemma LastRound(hash: Hash, wf: Workflow, log: seq<Stored>, a: Answers)
    requires Trace(PassOf(hash, wf, log), a) && a != []
    ensures var b := a[..|a| - 1];
      && Trace(PassOf(hash, wf, log), b)
      && AllSettled(RepliesAt(hash, wf, log, b))
      && Prior(wf, a) == Prior(wf, b) + CallsAt(wf, b)
  {
    hide RepliesAt, Verdict;
    TracePrefix(PassOf(hash, wf, log), a, |a| - 1);
    assert PassOf(hash, wf, log).turn(a[..|a| - 1]) == Advance(a[|a| - 1]);
  }

  // ---------------------------------------------------------------- extension

  // New events leave every outcome already recorded as it was: first outcomes, repeated TimerFired,
  // signals and the engine's own events all do.
  ghost predicate KeepsOutcomes(log: seq<Stored>, more: seq<Stored>) {
    forall lane, s :: OutcomeIn(log, lane, s).Some? && OutcomeIn(more, lane, s).Some? ==>
      OutcomeIn(more, lane, s) == OutcomeIn(log, lane, s)
  }

  lemma SettledStays(hash: Hash, log: seq<Stored>, more: seq<Stored>, c: Call, index: nat)
    requires KeepsOutcomes(log, more) && Respond(hash, log, c, index).Settled?
    ensures Respond(hash, log + more, c, index) == Respond(hash, log, c, index)
  {
    var lane := LaneOf(c);
    RecordedConcat(log, more, lane);
    if !c.WaitSignal? {
      OutcomeInConcat(log, more, lane, Recorded(log, lane)[index].seqNo);
    }
  }

  lemma AdvanceStays(hash: Hash, wf: Workflow, log: seq<Stored>, more: seq<Stored>, a: Answers)
    requires KeepsOutcomes(log, more) && TurnAt(hash, wf, log, a).Advance?
    ensures TurnAt(hash, wf, log + more, a) == TurnAt(hash, wf, log, a)
  {
    var before, after := RepliesAt(hash, wf, log, a), RepliesAt(hash, wf, log + more, a);
    var prior, calls := Prior(wf, a), CallsAt(wf, a);
    forall i | 0 <= i < |before| ensures after[i] == before[i] {
      assert before[i].Settled?;
      SettledStays(hash, log, more, calls[i], Position(prior + calls[..i], calls[i]));
    }
    assert after == before;
  }

  // An answer once given is given for ever.
  lemma TraceStays(hash: Hash, wf: Workflow, log: seq<Stored>, more: seq<Stored>, a: Answers)
    requires KeepsOutcomes(log, more) && Trace(PassOf(hash, wf, log), a)
    ensures Trace(PassOf(hash, wf, log + more), a)
  {
    forall i | 0 <= i < |a| ensures PassOf(hash, wf, log + more).turn(a[..i]) == Advance(a[i]) {
      assert PassOf(hash, wf, log).turn(a[..i]) == Advance(a[i]);
      AdvanceStays(hash, wf, log, more, a[..i]);
    }
  }

  // The calls answered on a log, and their answers, are a prefix of those answered on any extension.
  lemma PrefixStability(hash: Hash, wf: Workflow, log: seq<Stored>, more: seq<Stored>, a: Answers, b: Answers)
    requires KeepsOutcomes(log, more)
    requires FullTrace(PassOf(hash, wf, log), a) && FullTrace(PassOf(hash, wf, log + more), b)
    ensures a <= b && Prior(wf, a) <= Prior(wf, b)
  {
    TraceStays(hash, wf, log, more, a);
    TraceWithin(PassOf(hash, wf, log + more), a, b);
    PriorMonotone(wf, a, b);
  }

  lemma {:induction false} PriorMonotone(wf: Workflow, a: Answers, b: Answers)
    requires a <= b
    ensures Prior(wf, a) <= Prior(wf, b)
    decreases |b|
  {
    if |a| < |b| {
      PriorMonotone(wf, a, b[..|b| - 1]);
    } else {
      assert a == b;
    }
  }

  // ---------------------------------------------------------------- tick budgets

  // The answer replay has with all the ticks it wants: what its one full pass reports.
  ghost predicate Unbounded(hash: Hash, wf: Workflow, log: seq<Stored>, r: ReplayResult) {
    exists a :: FullTrace(PassOf(hash, wf, log), a) && r == Verdict(hash, wf, log, a)
  }

  // There is at most one, and a bounded drain gives it or RUNNING with no commands; with enough ticks for
  // the awaits that are answered it gives it.
  lemma BoundedReplay(hash: Hash, wf: Workflow, log: seq<Stored>, a: Answers, budget: nat, r: ReplayResult)
    requires FullTrace(PassOf(hash, wf, log), a)
    ensures Unbounded(hash, wf, log, r) <==> r == Verdict(hash, wf, log, a)
    ensures ReplayOf(hash, wf, log, budget) ==
      if TicksTo(PassOf(hash, wf, log), a) <= budget then Verdict(hash, wf, log, a) else Running([], map[])
  {
    hide RepliesAt;
    BoundedDrain(PassOf(hash, wf, log), a, budget, EXHAUSTED);
    if Unbounded(hash, wf, log, r) {
      var b :| FullTrace(PassOf(hash, wf, log), b) && r == Verdict(hash, wf, log, b);
      TraceWithin(PassOf(hash, wf, log), b, a);
    }
  }

  // Code that would never stop is RUNNING with no commands at any budget.
  lemma EndlessReplay(hash: Hash, wf: Workflow, log: seq<Stored>, budget: nat)
    requires forall a :: !FullTrace(PassOf(hash, wf, log), a)
    ensures ReplayOf(hash, wf, log, budget) == Running([], map[])
  {
    if ReplayOf(hash, wf, log, budget) != EXHAUSTED {
      var a := DriveEnds(PassOf(hash, wf, log), budget, EXHAUSTED);
    }
  }
}
