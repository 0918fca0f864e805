/** The promises of the step protocol: exactly-once effects, one fenced outcome, outcome and effect agree. */
module StepEffects {
  import opened Wrappers
  import opened Texts
  import opened Json
  import opened Queue
  import opened StepProtocol
  import opened StepSafety

  // ---------------------------------------------------------------- exactly once

  lemma {:induction false} DistinctOnce<T>(xs: seq<T>, x: T)
    requires forall a, b :: 0 <= a < b < |xs| ==> xs[a] != xs[b]
    ensures multiset(xs)[x] <= 1
  {
    if xs != [] {
      var n := |xs| - 1;
      DistinctOnce(xs[..n], x);
      assert xs == xs[..n] + [xs[n]];
      assert x == xs[n] ==> x !in xs[..n];
    }
  }

  // However invocations crash, overlap, lose their leases and are requeued, the effect of a step is
  // committed at most once, exactly when its ledger row is, and no ledger row lacks a result.
  lemma ExactlyOnceEffect(states: seq<State>, actions: seq<Action>, n: nat, key: Key)
    requires Run(states, actions) && n < |states|
    ensures multiset(states[n].effects)[key] <= 1
    ensures key in states[n].effects <==> key in states[n].ledger
    ensures key in states[n].ledger ==> states[n].ledger[key].Some?
  {
    hide InvocationHolds, Exclusive, LogHolds, KeysKnown;
    RunInv(states, actions, n);
    DistinctOnce(states[n].effects, key);
  }

  // ---------------------------------------------------------------- one fenced outcome

  // No schedule event ever has two outcomes.
  lemma OneOutcome(states: seq<State>, actions: seq<Action>, n: nat, a: nat, b: nat)
    requires Run(states, actions) && n < |states| && a < |states[n].log| && b < |states[n].log|
    requires SameStep(states[n].log[a], states[n].log[b])
    ensures a == b
  {
    hide InvocationHolds, Exclusive, KeysKnown;
    RunInv(states, actions, n);
  }

  // Outcomes are only added, one at a time, for a task whose schedule event had none, and carry the
  // attempt the task has at that moment under a live lease.
  lemma OutcomeIsFenced(states: seq<State>, actions: seq<Action>, n: nat) returns (k: nat, r: Row)
    requires Run(states, actions) && n < |actions| && states[n + 1].log != states[n].log
    ensures states[n + 1].log == states[n].log + [r]
    ensures k < |states[n].tasks| && IsStepTask(states[n].tasks[k]) && IsStepOutcome(r.event)
    ensures Settles(states[n].tasks[k], r.workflow, r.event) && !HasOutcome(states[n].log, states[n].tasks[k])
    ensures exists worker ::
      LeaseOwned(states[n].tasks[k], worker, states[n].tasks[k].attempt) &&
      AttemptOf(r.event) == states[n].tasks[k].attempt
  {
    RunInv(states, actions, n);
    var s, action := states[n], actions[n];
    assert Next(s, action, states[n + 1]);
    CommitsOnly(s, action);
    var x := s.invocations[action.i];
    assert Holds(s, action.i);
    k, r := x.token.task, Row(TaskOf(s, action.i).workflowId, x.writes.event.value);
    assert LeaseOwned(s.tasks[k], x.token.worker, s.tasks[k].attempt);
  }

  // Shared rows change only when a transaction commits.
  lemma CommitsOnly(s: State, a: Action)
    requires Structure(s) && Enabled(s, a)
    ensures var t := Apply(s, a);
      if a.Commit? || a.CommitUnheard? then
        t.log == CommitLog(s, a.i) && t.ledger == CommitLedger(s, a.i) && t.tasks == s.tasks && t.specs == s.specs
      else t.log == s.log && t.ledger == s.ledger && t.effects == s.effects
  {
  }

  // ---------------------------------------------------------------- tokens and outcomes

  // Still on its way to an effect or an outcome.
  predicate Working(p: Phase) {
    p == Checked || p == Calling || InToolTransaction(p)
  }

  // Has not got to the end of its handler.
  predicate Unfinished(p: Phase) {
    p != Returning && p != Throwing && p != Gone
  }

  predicate Fails(log: seq<Row>, t: Task)
    requires IsStepTask(t)
  {
    exists a :: 0 <= a < |log| && Settles(t, log[a].workflow, log[a].event) && log[a].event.ToolFailed?
  }

  // Some step's recorded outcome is TOOL_FAILED, and its effect is committed.
  ghost predicate DeniesEffect(s: State)
    requires Structure(s)
  {
    exists k :: 0 <= k < |s.tasks| && Fails(s.log, s.tasks[k]) && KeyOf(s, k) in s.effects
  }

  // Another outcome of the step may still come, from an invocation that is not done yet.
  predicate Open(s: State, i: nat)
    requires Structure(s) && i < |s.invocations|
  {
    TaskOf(s, i).taskType == ToolTask && !HasOutcome(s.log, TaskOf(s, i)) && Unfinished(s.invocations[i].phase)
  }

  predicate BothOpen(s: State, i: nat, j: nat)
    requires Structure(s) && i < |s.invocations| && j < |s.invocations|
  {
    s.invocations[i].token.task == s.invocations[j].token.task && Open(s, i) && Open(s, j)
  }

  // While a tool step has no outcome the attempts of its task tell its unfinished invocations apart.
  ghost predicate TokensHold(s: State)
    requires Structure(s)
  {
    && (forall i :: 0 <= i < |s.invocations| && Open(s, i) ==> s.invocations[i].token.attempt <= TaskOf(s, i).attempt)
    && forall i, j :: 0 <= i < j < |s.invocations| && BothOpen(s, i, j) ==>
         s.invocations[i].token.attempt != s.invocations[j].token.attempt
  }

  predicate WorksAfterFailure(s: State, i: nat)
    requires Structure(s) && i < |s.invocations|
  {
    Working(s.invocations[i].phase) && TaskOf(s, i).taskType == ToolTask && Fails(s.log, TaskOf(s, i))
  }

  // Once a tool step has failed, whoever still works on it has lost its lease for good.
  ghost predicate PastHolds(s: State)
    requires Structure(s)
  {
    forall i :: 0 <= i < |s.invocations| && WorksAfterFailure(s, i) ==>
      s.invocations[i].token.attempt < TaskOf(s, i).attempt
  }

  // This row says the step completed with what the ledger holds, or failed without an effect.
  predicate RowAgrees(r: Row, key: Key, ledger: map<Key, Option<Json>>) {
    && (r.event.ToolCompleted? ==> key in ledger && ledger[key] == Some(r.event.result))
    && (r.event.ToolFailed? ==> key !in ledger)
  }

  ghost predicate Completes(log: seq<Row>, t: Task)
    requires IsStepTask(t)
  {
    exists a :: 0 <= a < |log| && Settles(t, log[a].workflow, log[a].event) && log[a].event.ToolCompleted?
  }

  ghost predicate EffectsAgree(s: State)
    requires Structure(s)
  {
    && (forall a, k ::
         0 <= a < |s.log| && 0 <= k < |s.tasks| && Settles(s.tasks[k], s.log[a].workflow, s.log[a].event) ==>
           RowAgrees(s.log[a], KeyOf(s, k), s.ledger))
    && forall k :: 0 <= k < |s.tasks| && s.tasks[k].taskType == ToolTask && KeyOf(s, k) in s.ledger ==>
      Completes(s.log, s.tasks[k])
  }

  ghost predicate Orderly(s: State) {
    Inv(s) && TokensHold(s) && PastHolds(s) && EffectsAgree(s)
  }

  /**
   Requeueing a tool task resets its attempts, and tokens handed out before may come back. That is a
   danger while an invocation is unfinished and the step has no outcome, or while one still works on a
   step that has failed. An operator can check it: it is over when every handler call has ended.
   */
  predicate Endangers(s: State, id: nat)
    requires Structure(s)
  {
    id < |s.tasks| && s.tasks[id].taskType == ToolTask &&
    exists i ::
      && 0 <= i < |s.invocations| && s.invocations[i].token.task == id
      && if HasOutcome(s.log, s.tasks[id]) then Fails(s.log, s.tasks[id]) && Working(s.invocations[i].phase)
         else Unfinished(s.invocations[i].phase)
  }

  // Every handler call of the task has ended.
  predicate AllEnded(s: State, id: nat) {
    forall i :: 0 <= i < |s.invocations| && s.invocations[i].token.task == id ==> !Unfinished(s.invocations[i].phase)
  }

  lemma EndedIsSafe(s: State, id: nat)
    requires Structure(s) && AllEnded(s, id)
    ensures !Endangers(s, id)
  {
  }

  // No requeue so far came while it endangered its step.
  ghost predicate SafeRequeues(states: seq<State>, actions: seq<Action>, n: nat) {
    forall m :: 0 <= m < n && m < |actions| && m < |states| && actions[m].Requeue? ==>
      Structure(states[m]) && !Endangers(states[m], actions[m].id)
  }

  // ---------------------------------------------------------------- steps that commit nothing

  // What every step but a commit and a requeue may change.
  ghost predicate Quiet(s: State, t: State)
    requires Structure(s) && Structure(t)
  {
    && SameSteps(s, t)
    && |s.invocations| <= |t.invocations|
    && (forall k :: 0 <= k < |s.tasks| ==> s.tasks[k].attempt <= t.tasks[k].attempt)
    && (forall i :: 0 <= i < |s.invocations| ==> MovesOn(s, t, i))
    && (forall i :: |s.invocations| <= i < |t.invocations| ==>
         i == |s.invocations| && !Working(t.invocations[i].phase) &&
         var k := t.invocations[i].token.task;
           k < |s.tasks| && t.invocations[i].token.attempt == t.tasks[k].attempt &&
             s.tasks[k].attempt < t.tasks[k].attempt)
  }

  predicate MovesOn(s: State, t: State, i: nat)
    requires Structure(s) && i < |s.invocations| && i < |t.invocations|
  {
    && t.invocations[i].token == s.invocations[i].token
    && (Unfinished(t.invocations[i].phase) ==> Unfinished(s.invocations[i].phase))
    && (Working(t.invocations[i].phase) ==> Working(s.invocations[i].phase) || !HasOutcome(s.log, TaskOf(s, i)))
  }

  // A step inside one invocation.
  lemma QuietInside(s: State, i: nat, x: Invocation, calls: seq<nat>)
    requires Structure(s) && i < |s.invocations| && x.token == s.invocations[i].token
    requires Unfinished(x.phase) ==> Unfinished(s.invocations[i].phase)
    requires Working(x.phase) ==> Working(s.invocations[i].phase) || !HasOutcome(s.log, TaskOf(s, i))
    ensures var t := s.(invocations := s.invocations[i := x], calls := calls); Structure(t) && Quiet(s, t)
  {
    hide HasOutcome, Apart;
  }

  // A step on one task row, and perhaps a new invocation of it or the end of one.
  lemma QuietRow(s: State, k: nat, u: Task)
    requires Structure(s) && k < |s.tasks| && SameIdentity(s.tasks[k], u) && s.tasks[k].attempt <= u.attempt
    ensures var t := s.(tasks := s.tasks[k := u]); Structure(t) && Quiet(s, t)
  {
    hide HasOutcome;
  }

  lemma QuietSchedule(s: State, a: Action)
    requires Structure(s) && Enabled(s, a) && a.Schedule?
    ensures var t := Apply(s, a); Structure(t) && Quiet(s, t)
  {
    hide HasOutcome;
  }

  lemma QuietDequeue(s: State, a: Action)
    requires Structure(s) && Enabled(s, a) && a.Dequeue?
    ensures var t := Apply(s, a); Structure(t) && Quiet(s, t)
  {
    hide HasOutcome, RowLocked;
  }

  lemma QuietReport(s: State, a: Action)
    requires Structure(s) && Enabled(s, a) && a.Report?
    ensures var t := Apply(s, a); Structure(t) && Quiet(s, t)
  {
    hide HasOutcome, RowLocked;
  }

  lemma QuietStep(s: State, a: Action)
    requires Structure(s) && Enabled(s, a) && !a.Requeue? && !a.Commit? && !a.CommitUnheard?
    ensures Structure(Apply(s, a)) && Quiet(s, Apply(s, a))
  {
    hide HasOutcome, RowLocked, ClaimPending, Quiet, Structure, LeaseOwned;
    var t := Apply(s, a);
    if a.Schedule? {
      QuietSchedule(s, a);
    } else if a.Dequeue? {
      QuietDequeue(s, a);
    } else if a.Reclaim? {
      QuietRow(s, a.id, t.tasks[a.id]);
    } else if a.Report? {
      QuietReport(s, a);
    } else {
      QuietInside(s, a.i, t.invocations[a.i], t.calls);
      assert t == s.(invocations := s.invocations[a.i := t.invocations[a.i]], calls := t.calls);
    }
  }

  lemma SettlesKnown(s: State, t: State, a: nat, k: nat)
    requires Inv(s) && Structure(t) && SameSteps(s, t) && a < |s.log| && k < |t.tasks|
    requires Settles(t.tasks[k], s.log[a].workflow, s.log[a].event)
    ensures k < |s.tasks| && Settles(s.tasks[k], s.log[a].workflow, s.log[a].event)
  {
    assert Known(s, s.log[a]);
    var j :| 0 <= j < |s.tasks| && Settles(s.tasks[j], s.log[a].workflow, s.log[a].event);
    SettlesOne(t, j, k, s.log[a].workflow, s.log[a].event);
  }

  lemma SameOutcomes(log: seq<Row>, t: Task, u: Task)
    requires IsStepTask(t) && SameIdentity(t, u)
    ensures IsStepTask(u) && HasOutcome(log, u) == HasOutcome(log, t) && Fails(log, u) == Fails(log, t)
  {
    assert forall w, e :: Settles(u, w, e) == Settles(t, w, e);
  }

  lemma QuietOpen(s: State, t: State, i: nat)
    requires Structure(s) && Structure(t) && Quiet(s, t) && i < |s.invocations| && Open(t, i)
    ensures Open(s, i)
  {
    hide HasOutcome, Apart;
    assert MovesOn(s, t, i);
    SameOutcomes(s.log, TaskOf(s, i), TaskOf(t, i));
  }

  lemma QuietTokens(s: State, t: State)
    requires Structure(s) && Structure(t) && TokensHold(s) && Quiet(s, t)
    ensures TokensHold(t)
  {
    hide Open, Apart, IsStepTask;
    forall i | 0 <= i < |t.invocations| && Open(t, i) ensures t.invocations[i].token.attempt <= TaskOf(t, i).attempt {
      if i < |s.invocations| {
        QuietOpen(s, t, i);
        assert MovesOn(s, t, i);
      }
    }
    forall i, j | 0 <= i < j < |t.invocations| && BothOpen(t, i, j)
      ensures t.invocations[i].token.attempt != t.invocations[j].token.attempt
    {
      QuietOpen(s, t, i);
      assert MovesOn(s, t, i);
      if j < |s.invocations| {
        QuietOpen(s, t, j);
        assert MovesOn(s, t, j);
      }
    }
  }

  lemma FailsHas(log: seq<Row>, t: Task)
    requires IsStepTask(t)
    ensures Fails(log, t) ==> HasOutcome(log, t)
  {
  }

  lemma QuietPast(s: State, t: State)
    requires Structure(s) && Structure(t) && PastHolds(s) && Quiet(s, t)
    ensures PastHolds(t)
  {
    hide Apart, IsStepTask, HasOutcome, Fails, Working;
    forall i | 0 <= i < |t.invocations| && WorksAfterFailure(t, i)
      ensures t.invocations[i].token.attempt < TaskOf(t, i).attempt
    {
      assert i < |s.invocations|;
      assert MovesOn(s, t, i);
      SameOutcomes(s.log, TaskOf(s, i), TaskOf(t, i));
      FailsHas(s.log, TaskOf(s, i));
    }
  }

  lemma SameCompletes(log: seq<Row>, t: Task, u: Task)
    requires IsStepTask(t) && SameIdentity(t, u) && Completes(log, t)
    ensures IsStepTask(u) && Completes(log, u)
  {
    var a :| 0 <= a < |log| && Settles(t, log[a].workflow, log[a].event) && log[a].event.ToolCompleted?;
    assert Settles(u, log[a].workflow, log[a].event);
  }

  lemma KeyUnique(s: State, j: nat, k: nat)
    requires Structure(s) && j < |s.tasks| && k < |s.tasks|
    requires s.tasks[j].taskType == s.tasks[k].taskType && KeyOf(s, j) == KeyOf(s, k)
    ensures j == k
  {
    assert j < k ==> Apart(s.tasks[j], s.specs[j], s.tasks[k], s.specs[k]);
    assert k < j ==> Apart(s.tasks[k], s.specs[k], s.tasks[j], s.specs[j]);
  }

  lemma QuietEffects(s: State, t: State)
    requires Inv(s) && EffectsAgree(s) && Inv(t) && SameSteps(s, t)
    ensures EffectsAgree(t)
  {
    hide InvocationHolds, Exclusive, LedgerHolds, LogHolds, Holds, HasOutcome, RowAgrees, Completes, WritesMatch;
    assert forall k :: 0 <= k < |s.tasks| ==> KeyOf(t, k) == KeyOf(s, k);
    forall a, k | 0 <= a < |t.log| && 0 <= k < |t.tasks| && Settles(t.tasks[k], t.log[a].workflow, t.log[a].event)
      ensures RowAgrees(t.log[a], KeyOf(t, k), t.ledger)
    {
      SettlesKnown(s, t, a, k);
    }
    forall k | 0 <= k < |t.tasks| && t.tasks[k].taskType == ToolTask && KeyOf(t, k) in t.ledger
      ensures Completes(t.log, t.tasks[k])
    {
      var j :| 0 <= j < |s.tasks| && s.tasks[j].taskType == ToolTask && KeyOf(s, j) == KeyOf(t, k);
      KeyUnique(t, j, k);
      SameCompletes(s.log, s.tasks[k], t.tasks[k]);
    }
  }

  // ---------------------------------------------------------------- commits

  lemma CompletesHas(log: seq<Row>, t: Task)
    requires IsStepTask(t)
    ensures Completes(log, t) ==> HasOutcome(log, t)
  {
  }

  lemma EitherWay(log: seq<Row>, t: Task)
    requires IsStepTask(t) && t.taskType == ToolTask
    ensures HasOutcome(log, t) ==> Completes(log, t) || Fails(log, t)
  {
  }

  // An invocation at its commit finds no failure recorded; if nothing is recorded it has claimed the key
  // and writes TOOL_COMPLETED, and otherwise it writes nothing.
  lemma CommitterIsFirst(s: State, i: nat)
    requires Orderly(s) && i < |s.invocations| && s.invocations[i].phase.Ready?
    ensures !Fails(s.log, TaskOf(s, i))
    ensures var w := s.invocations[i].writes;
      if HasOutcome(s.log, TaskOf(s, i)) then w.event.None? && w.row.None? && !w.effect
      else w.event.Some? && w.row.Some?
  {
    ReadyHolds(s, i);
    hide Inv, TokensHold, EffectsAgree, HasOutcome, Fails, Completes, IsStepTask, Apart;
    EitherWay(s.log, TaskOf(s, i));
    CompletesHas(s.log, TaskOf(s, i));
    FailsHas(s.log, TaskOf(s, i));
    CompletedInLedger(s, s.invocations[i].token.task);
  }

  lemma ReadyHolds(s: State, i: nat)
    requires Inv(s) && i < |s.invocations| && s.invocations[i].phase.Ready?
    ensures var x, t, key := s.invocations[i], TaskOf(s, i), KeyOf(s, s.invocations[i].token.task);
      && t.taskType == ToolTask && x.token.attempt == t.attempt
      && (x.writes.row.Some? <==> key !in s.ledger) && (x.writes.row.None? ==> !x.writes.effect)
      && (x.writes.event.Some? <==> !HasOutcome(s.log, t))
  {
    hide Exclusive, LedgerHolds, LogHolds, KeysKnown, HasOutcome, Apart, OwnOutcome;
    assert Holds(s, i);
  }

  lemma CompletedInLedger(s: State, k: nat)
    requires Structure(s) && EffectsAgree(s) && k < |s.tasks| && s.tasks[k].taskType == ToolTask
    ensures Completes(s.log, s.tasks[k]) <==> KeyOf(s, k) in s.ledger
  {
    if Completes(s.log, s.tasks[k]) {
      var a :| 0 <= a < |s.log| && Settles(s.tasks[k], s.log[a].workflow, s.log[a].event) &&
        s.log[a].event.ToolCompleted?;
      assert RowAgrees(s.log[a], KeyOf(s, k), s.ledger);
    }
  }

  // What a commit leaves of the invocations.
  lemma CommitInvocations(s: State, i: nat, heard: bool, error: Text)
    requires Inv(s) && i < |s.invocations| && AtCommit(s.invocations[i].phase)
    ensures var t := CommitOf(s, i, heard, error);
      && t.tasks == s.tasks && t.specs == s.specs && |t.invocations| == |s.invocations| && t.log == CommitLog(s, i) &&
        Structure(t)
      && (forall j :: 0 <= j < |s.invocations| ==> t.invocations[j].token == s.invocations[j].token)
      && (forall j :: 0 <= j < |s.invocations| && j != i ==> t.invocations[j] == s.invocations[j])
      && !Working(t.invocations[i].phase) && Unfinished(s.invocations[i].phase)
  {
    hide InvocationHolds, Exclusive, LedgerHolds, LogHolds, KeysKnown, Apart;
    var t := CommitOf(s, i, heard, error);
    assert t.tasks == s.tasks && t.specs == s.specs;
    assert Structure(t);
  }

  lemma CommitOpen(s: State, i: nat, heard: bool, error: Text, j: nat)
    requires Inv(s) && i < |s.invocations| && AtCommit(s.invocations[i].phase) && j < |s.invocations|
    requires Structure(CommitOf(s, i, heard, error)) && Open(CommitOf(s, i, heard, error), j)
    ensures Open(s, j)
  {
    CommitInvocations(s, i, heard, error);
    if s.invocations[i].writes.event.Some? {
      OutcomeSnoc(s.log, Row(TaskOf(s, i).workflowId, s.invocations[i].writes.event.value), TaskOf(s, j));
    }
  }

  lemma CommitTokens(s: State, i: nat, heard: bool, error: Text)
    requires Orderly(s) && i < |s.invocations| && AtCommit(s.invocations[i].phase)
    ensures var t := CommitOf(s, i, heard, error); Structure(t) && TokensHold(t)
  {
    var t := CommitOf(s, i, heard, error);
    CommitInvocations(s, i, heard, error);
    hide InvocationHolds, Exclusive, LedgerHolds, LogHolds, KeysKnown, PastHolds, EffectsAgree, Apart, Open, CommitOf,
      IsStepTask;
    forall j | 0 <= j < |t.invocations| && Open(t, j) ensures Open(s, j) { CommitOpen(s, i, heard, error, j); }
  }

  lemma FailsSnoc(log: seq<Row>, r: Row, t: Task)
    requires IsStepTask(t)
    ensures Fails(log + [r], t) ==> Fails(log, t) || (Settles(t, r.workflow, r.event) && r.event.ToolFailed?)
  {
    var more := log + [r];
    if Fails(more, t) {
      var a :| 0 <= a < |more| && Settles(t, more[a].workflow, more[a].event) && more[a].event.ToolFailed?;
      if a < |log| { assert log[a] == more[a]; }
    }
  }

  // A failure is recorded under the attempt its task has now, which no other unfinished invocation has.
  lemma CommitterAlone(s: State, i: nat, j: nat)
    requires Orderly(s) && i < |s.invocations| && j < |s.invocations| && j != i && AtCommit(s.invocations[i].phase)
    requires s.invocations[i].writes.event.Some? && Working(s.invocations[j].phase)
    requires TaskOf(s, j).taskType == ToolTask
    requires Settles(TaskOf(s, j), TaskOf(s, i).workflowId, s.invocations[i].writes.event.value)
    ensures s.invocations[j].token.attempt < TaskOf(s, j).attempt
  {
    assert Holds(s, i);
    SettlesOne(s, s.invocations[j].token.task, s.invocations[i].token.task, TaskOf(s, i).workflowId,
      s.invocations[i].writes.event.value);
    hide Exclusive, LedgerHolds, KeysKnown, EffectsAgree, HasOutcome, LogHolds, PastHolds;
    assert Open(s, i) && Open(s, j);
  }

  lemma CommitPast(s: State, i: nat, heard: bool, error: Text)
    requires Orderly(s) && i < |s.invocations| && AtCommit(s.invocations[i].phase)
    ensures var t := CommitOf(s, i, heard, error); Structure(t) && PastHolds(t)
  {
    CommitInvocations(s, i, heard, error);
    var t := CommitOf(s, i, heard, error);
    hide Inv, TokensHold, EffectsAgree, Fails, HasOutcome, CommitOf, Apart, IsStepTask;
    forall j | 0 <= j < |t.invocations| && WorksAfterFailure(t, j)
      ensures t.invocations[j].token.attempt < TaskOf(t, j).attempt
    {
      if s.invocations[i].writes.event.Some? {
        var r := Row(TaskOf(s, i).workflowId, s.invocations[i].writes.event.value);
        FailsSnoc(s.log, r, TaskOf(s, j));
        if !Fails(s.log, TaskOf(s, j)) { CommitterAlone(s, i, j); }
      }
    }
  }

  lemma CompletesStays(log: seq<Row>, r: Row, t: Task)
    requires IsStepTask(t) && Completes(log, t)
    ensures Completes(log + [r], t)
  {
    var a :| 0 <= a < |log| && Settles(t, log[a].workflow, log[a].event) && log[a].event.ToolCompleted?;
    assert (log + [r])[a] == log[a];
  }

  // An earlier row about a tool step concerns another key than a task without an outcome.
  lemma OtherKey(s: State, k: nat, j: nat, r: Row)
    requires Structure(s) && j < |s.tasks| && k < |s.tasks| && s.tasks[k].taskType == ToolTask
    requires r in s.log && Settles(s.tasks[j], r.workflow, r.event) && !HasOutcome(s.log, s.tasks[k])
    ensures r.event.ToolCompleted? || r.event.ToolFailed? ==> KeyOf(s, j) != KeyOf(s, k)
  {
    var a :| 0 <= a < |s.log| && s.log[a] == r;
    if s.tasks[j].taskType == ToolTask && KeyOf(s, j) == KeyOf(s, k) { KeyUnique(s, j, k); }
  }

  ghost predicate SameShared(s: State, t: State) {
    s.tasks == t.tasks && s.specs == t.specs && s.log == t.log && s.ledger == t.ledger
  }

  // A tool transaction adds ledger row and TOOL_COMPLETED together.
  lemma CompletionAdded(s: State, k: nat, r: Row, t: State)
    requires Structure(s) && EffectsAgree(s) && k < |s.tasks| && s.tasks[k].taskType == ToolTask
    requires !HasOutcome(s.log, s.tasks[k]) && Settles(s.tasks[k], r.workflow, r.event) && r.event.ToolCompleted?
    requires Structure(t)
    requires SameShared(s.(log := s.log + [r], ledger := s.ledger[KeyOf(s, k) := Some(r.event.result)]), t)
    ensures EffectsAgree(t)
  {
    hide HasOutcome;
    forall a, j | 0 <= a < |t.log| && 0 <= j < |t.tasks| && Settles(t.tasks[j], t.log[a].workflow, t.log[a].event)
      ensures RowAgrees(t.log[a], KeyOf(t, j), t.ledger)
    {
      if a < |s.log| {
        assert t.log[a] == s.log[a] && RowAgrees(s.log[a], KeyOf(s, j), s.ledger);
        OtherKey(s, k, j, s.log[a]);
      } else {
        SettlesOne(s, j, k, r.workflow, r.event);
      }
    }
    forall j | 0 <= j < |t.tasks| && t.tasks[j].taskType == ToolTask && KeyOf(t, j) in t.ledger
      ensures Completes(t.log, t.tasks[j])
    {
      if KeyOf(s, j) == KeyOf(s, k) {
        KeyUnique(s, j, k);
        assert t.log[|s.log|] == r;
      } else {
        CompletesStays(s.log, r, s.tasks[j]);
      }
    }
  }

  // A failure is recorded only where the step has neither outcome nor effect.
  lemma OutcomeAdded(s: State, k: nat, r: Row, t: State)
    requires Structure(s) && EffectsAgree(s) && k < |s.tasks|
    requires !HasOutcome(s.log, s.tasks[k]) && Settles(s.tasks[k], r.workflow, r.event) && !r.event.ToolCompleted?
    requires Structure(t) && SameShared(s.(log := s.log + [r]), t)
    ensures EffectsAgree(t)
  {
    CompletesHas(s.log, s.tasks[k]);
    hide HasOutcome;
    forall a, j | 0 <= a < |t.log| && 0 <= j < |t.tasks| && Settles(t.tasks[j], t.log[a].workflow, t.log[a].event)
      ensures RowAgrees(t.log[a], KeyOf(t, j), t.ledger)
    {
      if a < |s.log| {
        assert t.log[a] == s.log[a] && RowAgrees(s.log[a], KeyOf(s, j), s.ledger);
      } else {
        SettlesOne(s, j, k, r.workflow, r.event);
      }
    }
    forall j | 0 <= j < |t.tasks| && t.tasks[j].taskType == ToolTask && KeyOf(t, j) in t.ledger
      ensures Completes(t.log, t.tasks[j])
    {
      CompletesStays(s.log, r, s.tasks[j]);
    }
  }

  lemma CommitAgrees(s: State, i: nat, heard: bool, error: Text)
    requires Orderly(s) && i < |s.invocations| && AtCommit(s.invocations[i].phase)
    ensures var t := CommitOf(s, i, heard, error); Structure(t) && EffectsAgree(t)
  {
    hide Exclusive, LedgerHolds, KeysKnown, TokensHold, PastHolds, EffectsAgree, HasOutcome, Fails;
    assert Holds(s, i);
    var x, k := s.invocations[i], s.invocations[i].token.task;
    var t := CommitOf(s, i, heard, error);
    assert Structure(t) by { CommitterHolds(s, i, heard, error); }
    if x.phase.Ready? { CommitterIsFirst(s, i); }
    if x.writes.event.Some? {
      var r := Row(TaskOf(s, i).workflowId, x.writes.event.value);
      if x.phase.Ready? { CompletionAdded(s, k, r, t); } else { OutcomeAdded(s, k, r, t); }
    } else {
      NothingAdded(s, t);
    }
  }

  lemma NothingAdded(s: State, t: State)
    requires Structure(s) && Structure(t) && EffectsAgree(s) && SameShared(s, t)
    ensures EffectsAgree(t)
  {
    assert forall k :: 0 <= k < |s.tasks| ==> KeyOf(t, k) == KeyOf(s, k);
  }

  // ---------------------------------------------------------------- requeues that endanger nothing

  lemma RequeueOrderly(s: State, id: nat, now: int)
    requires Orderly(s) && Enabled(s, Requeue(id, now)) && !Endangers(s, id)
    ensures var t := Apply(s, Requeue(id, now)); Inv(t) && TokensHold(t) && PastHolds(t) && SameSteps(s, t)
  {
    var t := Apply(s, Requeue(id, now));
    InvStep(s, Requeue(id, now), t);
    hide Inv, EffectsAgree, HasOutcome, Fails, Apart, RowLocked;
    forall i | 0 <= i < |s.invocations|
      ensures HasOutcome(t.log, TaskOf(t, i)) == HasOutcome(s.log, TaskOf(s, i))
      ensures Fails(t.log, TaskOf(t, i)) == Fails(s.log, TaskOf(s, i))
    {
      SameOutcomes(s.log, TaskOf(s, i), TaskOf(t, i));
      FailsHas(s.log, TaskOf(s, i));
    }
    RequeueKeeps(s, t, id);
  }

  lemma RequeueKeeps(s: State, t: State, id: nat)
    requires Structure(s) && Structure(t) && TokensHold(s) && PastHolds(s) && id < |s.tasks| && !Endangers(s, id)
    requires t.invocations == s.invocations && |t.tasks| == |s.tasks|
    requires forall k :: 0 <= k < |s.tasks| && k != id ==> t.tasks[k] == s.tasks[k]
    requires SameIdentity(s.tasks[id], t.tasks[id])
    requires forall i :: 0 <= i < |s.invocations| ==>
      HasOutcome(t.log, TaskOf(t, i)) == HasOutcome(s.log, TaskOf(s, i)) &&
        Fails(t.log, TaskOf(t, i)) == Fails(s.log, TaskOf(s, i))
    requires forall i :: 0 <= i < |s.invocations| && Fails(s.log, TaskOf(s, i)) ==> HasOutcome(s.log, TaskOf(s, i))
    ensures TokensHold(t) && PastHolds(t)
  {
    hide HasOutcome, Fails, Apart, IsStepTask;
    forall i | 0 <= i < |t.invocations| && Open(t, i) ensures s.invocations[i].token.task != id && Open(s, i) {}
    forall i | 0 <= i < |t.invocations| && WorksAfterFailure(t, i)
      ensures s.invocations[i].token.task != id
    {
    }
  }

  // ---------------------------------------------------------------- every run

  lemma OrderlyStep(s: State, a: Action, t: State)
    requires Orderly(s) && Next(s, a, t) && (a.Requeue? ==> !Endangers(s, a.id))
    ensures Orderly(t)
  {
    InvStep(s, a, t);
    hide Inv, TokensHold, PastHolds, EffectsAgree, CommitOf, Quiet, SameSteps, Endangers;
    if a.Commit? || a.CommitUnheard? {
      var heard, error := a.Commit?, if a.Commit? then [] else a.error;
      CommitTokens(s, a.i, heard, error);
      CommitPast(s, a.i, heard, error);
      CommitAgrees(s, a.i, heard, error);
    } else if a.Requeue? {
      RequeueOrderly(s, a.id, a.now);
      QuietEffects(s, t);
    } else {
      QuietStep(s, a);
      QuietTokens(s, t);
      QuietPast(s, t);
      QuietIsSame(s, t);
      QuietEffects(s, t);
    }
  }

  lemma QuietIsSame(s: State, t: State)
    requires Structure(s) && Structure(t) && Quiet(s, t)
    ensures SameSteps(s, t)
  {
  }

  lemma {:induction false} RunOrderly(states: seq<State>, actions: seq<Action>, n: nat)
    requires Run(states, actions) && n < |states| && SafeRequeues(states, actions, n)
    ensures Orderly(states[n])
  {
    hide Next, Endangers;
    if n == 0 {
      InitialHolds();
    } else {
      hide Orderly;
      RunOrderly(states, actions, n - 1);
      OrderlyStep(states[n - 1], actions[n - 1], states[n]);
    }
  }

  // What the log says of a tool step is what became of its effect: it is recorded as completed exactly
  // when the effect is committed, with the result of the ledger, and as failed only when there is none.
  ghost predicate OutcomeTellsEffect(s: State, k: nat)
    requires Structure(s) && k < |s.tasks|
  {
    var key := KeyOf(s, k);
    && (Completes(s.log, s.tasks[k]) <==> key in s.effects)
    && forall a :: 0 <= a < |s.log| && Settles(s.tasks[k], s.log[a].workflow, s.log[a].event) ==>
         && (s.log[a].event.ToolCompleted? ==> key in s.ledger && s.ledger[key] == Some(s.log[a].event.result))
         && (s.log[a].event.ToolFailed? ==> key !in s.effects)
  }

  lemma AgreesAt(s: State, k: nat)
    requires Structure(s) && EffectsAgree(s) && LedgerHolds(s) && k < |s.tasks| && s.tasks[k].taskType == ToolTask
    ensures OutcomeTellsEffect(s, k)
  {
    forall a | 0 <= a < |s.log| && Settles(s.tasks[k], s.log[a].workflow, s.log[a].event)
      ensures RowAgrees(s.log[a], KeyOf(s, k), s.ledger)
    {
    }
  }

  lemma OutcomeMatchesEffect(states: seq<State>, actions: seq<Action>, n: nat, k: nat)
    requires Run(states, actions) && n < |states| && SafeRequeues(states, actions, n)
    requires k < |states[n].tasks| && states[n].tasks[k].taskType == ToolTask
    ensures Structure(states[n]) && OutcomeTellsEffect(states[n], k)
  {
    hide Structure, EffectsAgree, LedgerHolds, OutcomeTellsEffect, Next, SafeRequeues;
    RunOrderly(states, actions, n);
    AgreesAt(states[n], k);
  }
}
