/**
 packages/worker-sdk/src/toolHandler.ts, fencing.ts and packages/db/src/toolStore.ts as they are
 written: one invocation on the tables it changes. Others get to its task row while the tool runs, and
 the database may fail.
 */
module ToolHandler {
  import opened Wrappers
  import opened Texts
  import opened Json
  import opened Requests
  import opened Events
  import opened Queue
  import opened StepProtocol
  import opened StepSafety
  import opened StepEffects

  // The tables a step touches.
  datatype Tables = Tables(tasks: seq<Task>, log: seq<Row>, ledger: map<Key, Option<Json>>, effects: seq<Key>)

  datatype Ran = Returned(result: Json) | Failed(error: Text, code: Text, retryable: bool)

  // How executeAtomically ends.
  datatype Attempt = Committed | LeaseLost | Errored(error: Text, code: Text, retryable: bool)

  datatype Claim = Fresh | Existing(result: Json)

  // What stands before the tool: registry and hash checks refuse the step, or something that should be
  // there is not and the handler throws.
  datatype Gate = Pass | Refuse(error: Text, code: Text) | NoEvent | NoTool

  // What the database does to a transaction: an error rolls it back, or it commits and only the answer is lost.
  datatype Fault = NoFault | RolledBack(error: Text) | Unheard(error: Text)

  // What a handler call meets: its token and step, the gate, what the tool does, how others have left the
  // task row by the time each of its two transactions locks it, and the faults of the two.
  datatype Job = Job(
    token: Token, spec: Spec, gate: Gate, ran: Ran, latencyMs: int,
    rowAtFence: Task, fault: Fault, rowAtPersist: Task, persistFault: Fault)

  predicate JobFits(j: Job, tasks: seq<Task>) {
    j.token.task < |tasks| && IsStepTask(tasks[j.token.task]) && tasks[j.token.task].taskType == ToolTask &&
    SameIdentity(tasks[j.token.task], j.rowAtFence) && SameIdentity(tasks[j.token.task], j.rowAtPersist)
  }

  function JobKey(j: Job, tasks: seq<Task>): Key
    requires JobFits(j, tasks)
  {
    Key(tasks[j.token.task].workflowId, j.spec.stepId)
  }

  // ---------------------------------------------------------------- what it comes to

  // appendStepOutcome, which finds the row like this; false means it threw.
  function Persisted(d: Tables, token: Token, event: Event, row: Task, fault: Fault): (Tables, bool)
    requires token.task < |d.tasks| && IsStepTask(row)
  {
    var d' := d.(tasks := d.tasks[token.task := row]);
    if fault.RolledBack? || !LeaseOwned(row, token.worker, token.attempt) then (d', false)
    else (if HasOutcome(d.log, row) then d' else d'.(log := d.log + [Row(row.workflowId, event)]), fault.NoFault?)
  }

  // The result a claim leads to.
  function ResultOf(d: Tables, j: Job): Json
    requires JobFits(j, d.tasks) && (JobKey(j, d.tasks) !in d.ledger ==> j.ran.Returned?)
  {
    if JobKey(j, d.tasks) in d.ledger then (match d.ledger[JobKey(j, d.tasks)] case Some(v) => v case None => JNull)
    else j.ran.result
  }

  function Executed(d: Tables, j: Job): (Tables, Attempt)
    requires JobFits(j, d.tasks)
  {
    var t, key := d.tasks[j.token.task], JobKey(j, d.tasks);
    if !LeaseOwned(t, j.token.worker, j.token.attempt) then (d, LeaseLost)
    else if key !in d.ledger && j.ran.Failed? then (d, Errored(j.ran.error, j.ran.code, j.ran.retryable))
    else if j.fault.RolledBack? then (d, Errored(j.fault.error, TOOL_ERROR, false))
    else
      var tasks := d.tasks[j.token.task := j.rowAtFence];
      if !LeaseOwned(j.rowAtFence, j.token.worker, j.token.attempt) then (d.(tasks := tasks), LeaseLost)
      else
        var latencyMs := if key in d.ledger then 0 else j.latencyMs;
        var log := if HasOutcome(d.log, t) then d.log
          else d.log + [Row(t.workflowId, CompletedEvent(t, j.spec, j.token, ResultOf(d, j), latencyMs))];
        (if key in d.ledger then d.(tasks := tasks, log := log)
         else Tables(tasks, log, d.ledger[key := Some(OrNull(j.ran.result))], d.effects + [key]),
         if j.fault.Unheard? then Errored(j.fault.error, TOOL_ERROR, false) else Committed)
  }

  // The whole handler; true means it throws.
  function Handled(d: Tables, j: Job): (Tables, bool)
    requires JobFits(j, d.tasks)
  {
    var t := d.tasks[j.token.task];
    if j.gate.NoEvent? then (d, true)
    else if HasOutcome(d.log, t) then (d, false)
    else if j.gate.Refuse? then
      var e := FailureOf(t, j.spec, j.token, j.gate.error, j.gate.code, false);
      var (d', ok) := Persisted(d, j.token, e, j.rowAtPersist, j.persistFault);
      (d', !ok)
    else if j.gate.NoTool? then (d, true)
    else
      var (d', attempt) := Executed(d, j);
      match attempt
      case Committed => (d', false)
      case LeaseLost => (d', true)
      case Errored(error, code, retryable) =>
        if retryable && j.token.attempt < t.maxAttempts then (d', true)
        else
          var e := FailureOf(t, j.spec, j.token, error, code, retryable);
          var (d'', ok) := Persisted(d', j.token, e, j.rowAtPersist, j.persistFault);
          (d'', retryable || !ok)
  }

  // The rows hasStepOutcome looks for.
  predicate IsOutcomeOf(r: Row, t: Task)
    requires IsStepTask(t)
  {
    && r.workflow == t.workflowId
    && if t.taskType == ToolTask then
         || (r.event.ToolCompleted? && r.event.scheduledEventSeq == t.scheduledEventSeq.value)
         || (r.event.ToolFailed? && r.event.scheduledEventSeq == t.scheduledEventSeq.value)
       else
         || (r.event.LlmCompleted? && r.event.scheduledEventSeq == t.scheduledEventSeq.value)
         || (r.event.LlmFailed? && r.event.scheduledEventSeq == t.scheduledEventSeq.value)
  }

  lemma OutcomesAreThese(log: seq<Row>, t: Task)
    requires IsStepTask(t)
    ensures HasOutcome(log, t) <==> exists i: nat :: i < |log| && IsOutcomeOf(log[i], t)
  {
    assert forall r: Row :: Settles(t, r.workflow, r.event) <==> IsOutcomeOf(r, t);
  }

  // ---------------------------------------------------------------- as it is written

  class StepTables {
    var tasks: seq<Task>
    var log: seq<Row>
    var ledger: map<Key, Option<Json>>
    var effects: seq<Key>

    function Contents(): Tables
      reads this
    {
      Tables(tasks, log, ledger, effects)
    }

    // hasStepOutcome
    method HasStepOutcome(t: Task) returns (found: bool)
      requires IsStepTask(t)
      ensures found == HasOutcome(log, t)
      ensures found <==> exists i: nat :: i < |log| && IsOutcomeOf(log[i], t)
    {
      OutcomesAreThese(log, t);
      for i := 0 to |log|
        invariant forall k :: 0 <= k < i ==> !Settles(t, log[k].workflow, log[k].event)
      {
        if Settles(t, log[i].workflow, log[i].event) { return true; }
      }
      return false;
    }

    // claimToolExecution
    method ClaimExecution(key: Key) returns (claim: Claim)
      modifies this`ledger
      ensures key in old(ledger) ==>
        claim == Existing(match old(ledger)[key] case Some(v) => v case None => JNull) && ledger == old(ledger)
      ensures key !in old(ledger) ==> claim == Fresh && ledger == old(ledger)[key := None]
    {
      if key !in ledger {
        ledger := ledger[key := None];
        return Fresh;
      }
      return Existing(match ledger[key] case Some(v) => v case None => JNull);
    }

    // completeToolExecution
    method CompleteExecution(key: Key, result: Json)
      requires key in ledger
      modifies this`ledger
      ensures ledger == old(ledger)[key := Some(OrNull(result))]
    {
      ledger := ledger[key := Some(OrNull(result))];
    }

    // appendStepOutcome
    method AppendStepOutcome(token: Token, event: Event, row: Task, fault: Fault) returns (ok: bool)
      requires token.task < |tasks| && IsStepTask(row)
      modifies this`tasks, this`log
      ensures (Contents(), ok) == Persisted(old(Contents()), token, event, row, fault)
    {
      tasks := tasks[token.task := row];
      var t := tasks[token.task];
      if fault.RolledBack? || !LeaseOwned(t, token.worker, token.attempt) { return false; }
      var recorded := HasStepOutcome(t);
      if !recorded { log := log + [Row(t.workflowId, event)]; }
      return fault.NoFault?;
    }

    // executeAtomically: claim, run, record, fence and append in one transaction.
    method ExecuteAtomically(j: Job) returns (attempt: Attempt)
      requires JobFits(j, tasks)
      modifies this
      ensures (Contents(), attempt) == Executed(old(Contents()), j)
    {
      var savedLedger, savedEffects := ledger, effects;
      var t := tasks[j.token.task];
      if !LeaseOwned(t, j.token.worker, j.token.attempt) { return LeaseLost; }
      var key := JobKey(j, tasks);
      var claim := ClaimExecution(key);
      var result: Json;
      var latencyMs := 0;
      match claim {
        case Fresh =>
          match j.ran {
            case Failed(error, code, retryable) =>
              ledger, effects := savedLedger, savedEffects;
              return Errored(error, code, retryable);
            case Returned(value) =>
              effects := effects + [key];
              result, latencyMs := value, j.latencyMs;
              CompleteExecution(key, result);
              assert ledger == savedLedger[key := Some(OrNull(result))];
          }
        case Existing(value) =>
          result := value;
      }
      if j.fault.RolledBack? {
        ledger, effects := savedLedger, savedEffects;
        return Errored(j.fault.error, TOOL_ERROR, false);
      }
      tasks := tasks[j.token.task := j.rowAtFence];
      if !LeaseOwned(tasks[j.token.task], j.token.worker, j.token.attempt) {
        ledger, effects := savedLedger, savedEffects;
        return LeaseLost;
      }
      var recorded := HasStepOutcome(t);
      if !recorded { log := log + [Row(t.workflowId, CompletedEvent(t, j.spec, j.token, result, latencyMs))]; }
      return if j.fault.Unheard? then Errored(j.fault.error, TOOL_ERROR, false) else Committed;
    }

    // createToolCallHandler
    method Handle(j: Job) returns (throws: bool)
      requires JobFits(j, tasks)
      modifies this
      ensures (Contents(), throws) == Handled(old(Contents()), j)
    {
      var t := tasks[j.token.task];
      if j.gate.NoEvent? { return true; }
      var recorded := HasStepOutcome(t);
      if recorded { return false; }
      if j.gate.Refuse? {
        var e := FailureOf(t, j.spec, j.token, j.gate.error, j.gate.code, false);
        var ok := AppendStepOutcome(j.token, e, j.rowAtPersist, j.persistFault);
        return !ok;
      }
      if j.gate.NoTool? { return true; }
      var attempt := ExecuteAtomically(j);
      match attempt {
        case Committed => return false;
        case LeaseLost => return true;
        case Errored(error, code, retryable) =>
          var exhausted := j.token.attempt >= t.maxAttempts;
          if retryable && !exhausted { return true; }
          var e := FailureOf(t, j.spec, j.token, error, code, retryable);
          var ok := AppendStepOutcome(j.token, e, j.rowAtPersist, j.persistFault);
          if !ok || retryable { return true; }
          return false;
      }
    }
  }

  // ---------------------------------------------------------------- what a handler call leaves behind

  // An effect goes in with its ledger row and its TOOL_COMPLETED, under a live lease, where there was none;
  // otherwise ledger and effects stay as they are. An event goes in where the step had no outcome, and is one.
  ghost predicate Leaves(d: Tables, j: Job, d': Tables)
    requires JobFits(j, d.tasks)
  {
    var t, key := d.tasks[j.token.task], JobKey(j, d.tasks);
    && (d'.effects != d.effects ==>
         && key !in d.ledger && d'.effects == d.effects + [key] && j.ran.Returned?
         && LeaseOwned(j.rowAtFence, j.token.worker, j.token.attempt)
         && d'.ledger == d.ledger[key := Some(OrNull(j.ran.result))]
         && (d'.log == d.log + [Row(t.workflowId, CompletedEvent(t, j.spec, j.token, j.ran.result, j.latencyMs))]))
    && (d'.effects == d.effects ==> d'.ledger == d.ledger)
    && (d'.log != d.log ==>
         !HasOutcome(d.log, t) && exists e :: d'.log == d.log + [Row(t.workflowId, e)] && OwnOutcome(t, j.token, e))
    && (!LeaseOwned(t, j.token.worker, j.token.attempt)
        && !LeaseOwned(j.rowAtPersist, j.token.worker, j.token.attempt) ==>
         d'.(tasks := d.tasks) == d)
  }

  // appendStepOutcome on the tables as they are, or as a commit that went unheard left them.
  lemma PersistedHolds(d: Tables, j: Job, event: Event, fault: Fault)
    requires JobFits(j, d.tasks) && !HasOutcome(d.log, d.tasks[j.token.task])
    requires OwnOutcome(d.tasks[j.token.task], j.token, event)
    ensures var (d', ok) := Persisted(d, j.token, event, j.rowAtPersist, fault);
      Leaves(d, j, d') && (ok ==> HasOutcome(d'.log, d.tasks[j.token.task]))
  {
    SameOutcomes(d.log, d.tasks[j.token.task], j.rowAtPersist);
    OutcomeSnoc(d.log, Row(d.tasks[j.token.task].workflowId, event), d.tasks[j.token.task]);
    hide HasOutcome, OwnOutcome, Settles, CompletedEvent, IsStepTask;
    var (d', ok) := Persisted(d, j.token, event, j.rowAtPersist, fault);
    assert d'.log != d.log ==> d'.log == d.log + [Row(d.tasks[j.token.task].workflowId, event)];
  }

  lemma PersistedFinds(d: Tables, token: Token, event: Event, row: Task, fault: Fault)
    requires token.task < |d.tasks| && IsStepTask(row) && HasOutcome(d.log, row)
    ensures Persisted(d, token, event, row, fault).0 == d.(tasks := d.tasks[token.task := row])
  {
  }

  lemma ExecutedHolds(d: Tables, j: Job)
    requires JobFits(j, d.tasks) && !HasOutcome(d.log, d.tasks[j.token.task])
    ensures var (d', attempt) := Executed(d, j);
      && Leaves(d, j, d')
      && (attempt.Committed? ==> HasOutcome(d'.log, d.tasks[j.token.task]))
      && (attempt.Errored? ==> d' == d || HasOutcome(d'.log, d'.tasks[j.token.task]))
  {
    var t := d.tasks[j.token.task];
    var (d', attempt) := Executed(d, j);
    if d'.log != d.log {
      var latencyMs := if JobKey(j, d.tasks) in d.ledger then 0 else j.latencyMs;
      var e := CompletedEvent(t, j.spec, j.token, ResultOf(d, j), latencyMs);
      assert OwnOutcome(t, j.token, e);
      OutcomeSnoc(d.log, Row(t.workflowId, e), t);
      hide HasOutcome, OwnOutcome, Settles, CompletedEvent, IsStepTask;
      assert d'.log == d.log + [Row(t.workflowId, e)];
      SameOutcomes(d'.log, t, d'.tasks[j.token.task]);
    }
  }

  // A handler that returns has seen to an outcome; a step that has one is left alone.
  lemma HandledHolds(d: Tables, j: Job)
    requires JobFits(j, d.tasks)
    ensures var (d', throws) := Handled(d, j);
      && Leaves(d, j, d')
      && (!throws ==> HasOutcome(d'.log, d.tasks[j.token.task]))
      && (HasOutcome(d.log, d.tasks[j.token.task]) ==> d' == d)
  {
    var t := d.tasks[j.token.task];
    if !j.gate.NoEvent? && !HasOutcome(d.log, t) {
      match j.gate
      case Refuse(error, code) =>
        FailureIsOwn(t, j.spec, j.token, error, code, false);
        hide HasOutcome, OwnOutcome, Leaves, Persisted, FailureOf;
        PersistedHolds(d, j, FailureOf(t, j.spec, j.token, error, code, false), j.persistFault);
      case NoTool =>
      case Pass => PassHolds(d, j);
    }
  }

  lemma LeavesOtherwise(d: Tables, j: Job, d': Tables, tasks: seq<Task>)
    requires JobFits(j, d.tasks) && Leaves(d, j, d')
    ensures Leaves(d, j, d'.(tasks := tasks))
  {
  }

  lemma PassHolds(d: Tables, j: Job)
    requires JobFits(j, d.tasks) && j.gate.Pass? && !HasOutcome(d.log, d.tasks[j.token.task])
    ensures var (d', throws) := Handled(d, j);
      Leaves(d, j, d') && (!throws ==> HasOutcome(d'.log, d.tasks[j.token.task]))
  {
    var t := d.tasks[j.token.task];
    hide HasOutcome, OwnOutcome, Leaves, Persisted, FailureOf, Executed, IsStepTask;
    ExecutedHolds(d, j);
    var (d', attempt) := Executed(d, j);
    if attempt.Errored? && !(attempt.retryable && j.token.attempt < t.maxAttempts) {
      var e := FailureOf(t, j.spec, j.token, attempt.error, attempt.code, attempt.retryable);
      FailureIsOwn(t, j.spec, j.token, attempt.error, attempt.code, attempt.retryable);
      if d' == d {
        PersistedHolds(d, j, e, j.persistFault);
      } else {
        SameOutcomes(d'.log, t, d'.tasks[j.token.task]);
        SameOutcomes(d'.log, t, j.rowAtPersist);
        PersistedFinds(d', j.token, e, j.rowAtPersist, j.persistFault);
        LeavesOtherwise(d, j, d', d'.tasks[j.token.task := j.rowAtPersist]);
      }
    }
  }

  // ---------------------------------------------------------------- what a handler call writes down

  predicate Owned(j: Job, row: Task) {
    LeaseOwned(row, j.token.worker, j.token.attempt)
  }

  // The tool itself throws: it is run where the ledger has nothing for its step.
  predicate ToolThrows(d: Tables, j: Job)
    requires JobFits(j, d.tasks)
  {
    && j.gate.Pass? && Owned(j, d.tasks[j.token.task])
    && JobKey(j, d.tasks) !in d.ledger && j.ran.Failed?
  }

  // There is a result, from the ledger or of the tool.
  predicate HasResult(d: Tables, j: Job)
    requires JobFits(j, d.tasks)
  {
    && j.gate.Pass? && Owned(j, d.tasks[j.token.task])
    && (JobKey(j, d.tasks) in d.ledger || j.ran.Returned?)
  }

  // It is committed, whether or not that is heard of.
  predicate Completes(d: Tables, j: Job)
    requires JobFits(j, d.tasks)
  {
    HasResult(d, j) && !j.fault.RolledBack? && Owned(j, j.rowAtFence)
  }

  // The failure to write down: the gate's, the tool's once it is final or out of attempts, or the database's.
  predicate ReportsFailure(d: Tables, j: Job, e: Event)
    requires JobFits(j, d.tasks)
  {
    var t := d.tasks[j.token.task];
    || (j.gate.Refuse? && FailedWith(e, t, j.spec, j.token, j.gate.error, j.gate.code, false))
    || (ToolThrows(d, j) && (j.ran.retryable ==> j.token.attempt >= t.maxAttempts)
        && FailedWith(e, t, j.spec, j.token, j.ran.error, j.ran.code, j.ran.retryable))
    || (HasResult(d, j) && j.fault.RolledBack?
        && FailedWith(e, t, j.spec, j.token, j.fault.error, Lit("tool_error"), false))
  }

  // What the ledger has for the step, at no latency, or what the tool returned; an absent result is null.
  predicate ReportsResult(d: Tables, j: Job, e: Event)
    requires JobFits(j, d.tasks)
  {
    var key := JobKey(j, d.tasks);
    && Completes(d, j)
    && CompletedWith(e, d.tasks[j.token.task], j.spec, j.token, if key in d.ledger then 0 else j.latencyMs)
    && var result :=
         if key !in d.ledger then j.ran.result else if d.ledger[key].Some? then d.ledger[key].value else JNull;
      e.result == if result.JUndefined? then JNull else result
  }

  predicate WritesFailure(j: Job) {
    Owned(j, j.rowAtPersist) && !j.persistFault.RolledBack?
  }

  // The event a handler call appends, field by field, and exactly when.
  lemma HandledRecords(d: Tables, j: Job, e: Event)
    requires JobFits(j, d.tasks)
    ensures var t, d' := d.tasks[j.token.task], Handled(d, j).0;
      d'.log == d.log + [Row(t.workflowId, e)] <==>
        !HasOutcome(d.log, t) && (ReportsResult(d, j, e) || (ReportsFailure(d, j, e) && WritesFailure(j)))
  {
    var t := d.tasks[j.token.task];
    if !HasOutcome(d.log, t) {
      SameOutcomes(d.log, t, j.rowAtPersist);
      if Completes(d, j) { CompletedIsAll(d, j); }
    }
    hide HasOutcome;
    assert forall r: Row :: (d.log + [r])[|d.log|] == r;
  }

  // Exactly when the effect of the tool is there to stay.
  lemma HandledEffectIff(d: Tables, j: Job)
    requires JobFits(j, d.tasks)
    ensures var t, d' := d.tasks[j.token.task], Handled(d, j).0;
      d'.effects == d.effects + [JobKey(j, d.tasks)] <==>
        !HasOutcome(d.log, t) && Completes(d, j) && JobKey(j, d.tasks) !in d.ledger
  {
  }

  // What an unheard commit has left, the handler finds and leaves alone.
  lemma CompletedIsAll(d: Tables, j: Job)
    requires JobFits(j, d.tasks) && !HasOutcome(d.log, d.tasks[j.token.task]) && Completes(d, j)
    ensures Handled(d, j).0.log == Executed(d, j).0.log
  {
    var t, d' := d.tasks[j.token.task], Executed(d, j).0;
    ExecutedHolds(d, j);
    if j.fault.Unheard? { SameOutcomes(d'.log, d'.tasks[j.token.task], j.rowAtPersist); }
    hide HasOutcome;
  }

  // And when it throws, on which the worker reports the task as failed.
  lemma HandledThrowsIff(d: Tables, j: Job)
    requires JobFits(j, d.tasks)
    ensures var unwritten := !Owned(j, j.rowAtPersist) || !j.persistFault.NoFault?;
      Handled(d, j).1 <==>
        || j.gate.NoEvent?
        || (!HasOutcome(d.log, d.tasks[j.token.task]) &&
            (|| j.gate.NoTool?
             || (j.gate.Refuse? && unwritten)
             || (j.gate.Pass? && !Owned(j, d.tasks[j.token.task]))
             || (ToolThrows(d, j) && (j.ran.retryable || unwritten))
             || (HasResult(d, j) && j.fault.RolledBack? && unwritten)
             || (HasResult(d, j) && !j.fault.RolledBack? && !Owned(j, j.rowAtFence))
             || (Completes(d, j) && j.fault.Unheard? && unwritten)))
  {
  }
}
