/**
 packages/worker-sdk/src/llmHandler.ts as it is written, on the tables it changes: resolve the request, call the
 provider, cap its answer, record it. The database may fail, and others get to the task row while it is away.
 */
module LlmHandler {
  import opened Wrappers
  import opened Texts
  import opened Json
  import opened Requests
  import opened Events
  import opened Queue
  import opened SizeCaps
  import opened StepProtocol
  import opened StepSafety
  import opened StepEffects
  import opened ToolHandler
  import opened HandlerPlays

  // What the provider comes back with.
  datatype Provider =
    | Answers(text: Text, toolCalls: seq<LlmToolCall>, model: Text, tokensIn: int, tokensOut: int, latencyMs: int,
      costUsd: Option<int>)
    | Fails(error: Text, code: Text, retryable: bool)

  // What a handler call meets: its token and step, whether the schedule event is there, the request resolveRequest
  // finds or why there is none, the provider, and the task row and database as it comes to write.
  datatype LlmJob = LlmJob(
    token: Token, spec: Spec, found: bool, resolved: Result<LlmRequest, Text>, requestHash: Text, provider: Provider,
    maxStoredBytes: int, rowAtPersist: Task, persistFault: Fault)

  predicate LlmJobFits(j: LlmJob, tasks: seq<Task>) {
    && j.token.task < |tasks| && IsStepTask(tasks[j.token.task]) && tasks[j.token.task].taskType == LlmTask
    && SameIdentity(tasks[j.token.task], j.rowAtPersist)
  }

  const REQUEST_UNAVAILABLE := Lit("request_unavailable")

  // The answer as it is stored.
  function Stored(j: LlmJob): LlmCallResult
    requires j.provider.Answers?
  {
    var capped := CappedResponse(j.provider.text, j.provider.toolCalls, j.maxStoredBytes);
    LlmCallResult(
      capped.text, capped.toolCalls, j.provider.model, j.provider.tokensIn, j.provider.tokensOut, capped.truncated)
  }

  // The event to record, unless the error is to be retried.
  function ToRecord(t: Task, j: LlmJob): Option<Event>
    requires IsStepTask(t)
  {
    match j.resolved
    case Err(reason) => Some(FailureOf(t, j.spec, j.token, reason, REQUEST_UNAVAILABLE, false))
    case Ok(_) =>
      match j.provider
      case Answers(_, _, _, _, _, latencyMs, costUsd) =>
        Some(LlmCompleted(
          j.spec.stepId, t.scheduledEventSeq.value, j.requestHash, Stored(j), latencyMs, costUsd, j.token.attempt))
      case Fails(error, code, retryable) =>
        if retryable && j.token.attempt < t.maxAttempts then None
        else Some(FailureOf(t, j.spec, j.token, error, code, retryable))
  }

  predicate Rethrows(j: LlmJob) {
    j.resolved.Ok? && j.provider.Fails? && j.provider.retryable
  }

  // How a handler call ends: the tables, whether it throws, whether it has called the provider.
  datatype End = End(tables: Tables, throws: bool, called: bool)

  function HandledLlm(d: Tables, j: LlmJob): End
    requires LlmJobFits(j, d.tasks)
  {
    var t := d.tasks[j.token.task];
    if !j.found then End(d, true, false)
    else if HasOutcome(d.log, t) then End(d, false, false)
    else
      match ToRecord(t, j)
      case None => End(d, true, true)
      case Some(e) =>
        var (d', ok) := Persisted(d, j.token, e, j.rowAtPersist, j.persistFault);
        End(d', !ok || Rethrows(j), j.resolved.Ok?)
  }

  // createLlmCallHandler
  method HandleLlm(tables: StepTables, j: LlmJob) returns (throws: bool, called: bool)
    requires LlmJobFits(j, tables.tasks)
    modifies tables
    ensures End(tables.Contents(), throws, called) == HandledLlm(old(tables.Contents()), j)
  {
    var t := tables.tasks[j.token.task];
    if !j.found { return true, false; }
    var recorded := tables.HasStepOutcome(t);
    if recorded { return false, false; }
    match j.resolved {
      case Err(reason) =>
        var e := FailureOf(t, j.spec, j.token, reason, REQUEST_UNAVAILABLE, false);
        var ok := tables.AppendStepOutcome(j.token, e, j.rowAtPersist, j.persistFault);
        return !ok, false;
      case Ok(_) =>
    }
    match j.provider {
      case Fails(error, code, retryable) =>
        var exhausted := j.token.attempt >= t.maxAttempts;
        if retryable && !exhausted { return true, true; }
        var e := FailureOf(t, j.spec, j.token, error, code, retryable);
        var ok := tables.AppendStepOutcome(j.token, e, j.rowAtPersist, j.persistFault);
        return !ok || retryable, true;
      case Answers(text, toolCalls, model, tokensIn, tokensOut, latencyMs, costUsd) =>
        var capped := CapResponse(text, toolCalls, j.maxStoredBytes);
        var response := LlmCallResult(capped.text, capped.toolCalls, model, tokensIn, tokensOut, capped.truncated);
        var e := LlmCompleted(
          j.spec.stepId, t.scheduledEventSeq.value, j.requestHash, response, latencyMs, costUsd, j.token.attempt);
        var ok := tables.AppendStepOutcome(j.token, e, j.rowAtPersist, j.persistFault);
        return !ok, true;
    }
  }

  // ---------------------------------------------------------------- what a handler call writes down

  // The answer is the provider's, within the cap and marked exactly if something of it is missing.
  ghost predicate StoresAnswer(j: LlmJob, r: LlmCallResult) {
    && j.provider.Answers?
    && r.model == j.provider.model && r.tokensIn == j.provider.tokensIn && r.tokensOut == j.provider.tokensOut
    && (j.maxStoredBytes >= 0 ==>
         && Utf8.ByteLength(r.text) + TotalSize(r.toolCalls) <= j.maxStoredBytes
         && Subsequence(r.toolCalls, j.provider.toolCalls)
         && (r.truncated <==> r.text != j.provider.text || r.toolCalls != j.provider.toolCalls)
         && (r.truncated <==>
              Utf8.ByteLength(j.provider.text) + TotalSize(j.provider.toolCalls) > j.maxStoredBytes))
  }

  // There is no request to send, or the provider's error is final or out of attempts, or it has answered.
  ghost predicate Reports(t: Task, j: LlmJob, e: Event) {
    || (j.resolved.Err? && FailedWith(e, t, j.spec, j.token, j.resolved.error, Lit("request_unavailable"), false))
    || (j.resolved.Ok? && j.provider.Fails? && (j.provider.retryable ==> j.token.attempt >= t.maxAttempts)
        && FailedWith(e, t, j.spec, j.token, j.provider.error, j.provider.code, j.provider.retryable))
    || (j.resolved.Ok? && j.provider.Answers? && e.LlmCompleted? && StoresAnswer(j, e.response)
        && e.response == Stored(j)
        && AnsweredWith(
             e, t, j.spec, j.token, e.response, j.requestHash, j.provider.latencyMs, j.provider.costUsd))
  }

  lemma StoredStores(j: LlmJob)
    requires j.provider.Answers?
    ensures StoresAnswer(j, Stored(j))
  {
    if j.maxStoredBytes >= 0 { CapHolds(j.provider.text, j.provider.toolCalls, j.maxStoredBytes); }
    hide CappedResponse;
  }

  lemma ReportsIff(t: Task, j: LlmJob, e: Event)
    requires IsStepTask(t) && t.taskType == LlmTask
    ensures ToRecord(t, j) == Some(e) <==> Reports(t, j, e)
  {
    hide StoresAnswer, Stored;
    if j.provider.Answers? { StoredStores(j); }
  }

  // The event a handler call appends, field by field, and exactly when.
  lemma LlmRecords(d: Tables, j: LlmJob, e: Event)
    requires LlmJobFits(j, d.tasks)
    ensures var t, d' := d.tasks[j.token.task], HandledLlm(d, j).tables;
      d'.log == d.log + [Row(t.workflowId, e)] <==>
        && j.found && !HasOutcome(d.log, t) && Reports(t, j, e)
        && LeaseOwned(j.rowAtPersist, j.token.worker, j.token.attempt) && !j.persistFault.RolledBack?
  {
    var t := d.tasks[j.token.task];
    ReportsIff(t, j, e);
    SameOutcomes(d.log, t, j.rowAtPersist);
    hide HasOutcome, Reports, ToRecord;
    assert forall r: Row :: (d.log + [r])[|d.log|] == r;
  }

  // It throws without its schedule event, when an error is to be retried or has used up the last attempt, and
  // when it does not hear that the outcome is written. The provider is called once there is a request for a step
  // without an outcome. Ledger and effects are not its business.
  lemma LlmThrowsIff(d: Tables, j: LlmJob)
    requires LlmJobFits(j, d.tasks)
    ensures var open := j.found && !HasOutcome(d.log, d.tasks[j.token.task]);
      && (HandledLlm(d, j).throws <==>
           || !j.found
           || (open && j.resolved.Ok? && j.provider.Fails? && j.provider.retryable)
           || (open && (!LeaseOwned(j.rowAtPersist, j.token.worker, j.token.attempt) || !j.persistFault.NoFault?)))
      && (HandledLlm(d, j).called <==> open && j.resolved.Ok?)
    ensures HandledLlm(d, j).tables.ledger == d.ledger && HandledLlm(d, j).tables.effects == d.effects
  {
    hide HasOutcome;
  }

  // ---------------------------------------------------------------- the protocol

  // The job is what this invocation meets: its task row is left alone, or reclaimed before it is locked.
  ghost predicate MeetsLlm(s: State, i: nat, j: LlmJob) {
    && Present(s, i) && LlmJobFits(j, s.tasks)
    && j.token == s.invocations[i].token && j.spec == s.specs[j.token.task]
    && Reaped(TaskOf(s, i), j.rowAtPersist)
  }

  function Called(s: State, i: nat): State {
    s.(calls := s.calls + [i])
  }

  function WayOut(throws: bool): Phase {
    if throws then Throwing else Returning
  }

  // An outcome to record, and recording it.
  lemma WritesOutcome(s: State, t: State, i: nat, e: Event, rethrow: bool, row: Task, fault: Fault)
    requires Present(t, i) && RowFree(t, i) && Reaped(TaskOf(t, i), row)
    requires Reaches(s, With(t, i, Persisting(e, rethrow), NOTHING))
    ensures var (d, ok) := Persisted(TablesOf(t), t.invocations[i].token, e, row, fault);
      Reaches(s, Moved(t, i, d, WayOut(rethrow || !ok), NOTHING))
  {
    var p := Persisting(e, rethrow);
    var u := With(t, i, p, NOTHING);
    InsideStands(t, i, p, NOTHING);
    hide Structure, Reaches, Persisted;
    PersistPlays(u, i, row, fault);
    var (d, ok) := Persisted(TablesOf(t), t.invocations[i].token, e, row, fault);
    MovedMoved(t, i, TablesOf(t), p, NOTHING, d, WayOut(rethrow || !ok), NOTHING);
    Then(s, u, Moved(t, i, d, WayOut(rethrow || !ok), NOTHING));
  }

  lemma UnresolvedPlays(s: State, i: nat, j: LlmJob)
    requires MeetsLlm(s, i, j) && RowFree(s, i) && s.invocations[i].phase == Checked
    requires j.found && !HasOutcome(s.log, TaskOf(s, i)) && j.resolved.Err?
    ensures var h := HandledLlm(TablesOf(s), j); Reaches(s, Moved(s, i, h.tables, WayOut(h.throws), NOTHING))
  {
    var e := FailureOf(TaskOf(s, i), j.spec, j.token, j.resolved.error, REQUEST_UNAVAILABLE, false);
    Takes(s, Reject(i, j.resolved.error, REQUEST_UNAVAILABLE));
    hide Structure, Reaches, FailureOf, Persisted;
    WritesOutcome(s, s, i, e, false, j.rowAtPersist, j.persistFault);
  }

  // Calling the provider moves the invocation on and is remembered.
  lemma CallPlays(s: State, i: nat, j: LlmJob)
    requires MeetsLlm(s, i, j) && RowFree(s, i) && s.invocations[i].phase == Checked
    ensures var u := With(Called(s, i), i, Calling, NOTHING);
      Reaches(s, u) && MeetsLlm(u, i, j) && RowFree(u, i) && TaskOf(u, i) == TaskOf(s, i)
  {
    Takes(s, CallProvider(i));
    InsideStands(Called(s, i), i, Calling, NOTHING);
    hide Reaches;
  }

  lemma AnswerPlays(s: State, i: nat, j: LlmJob)
    requires MeetsLlm(s, i, j) && RowFree(s, i) && s.invocations[i].phase == Calling
    requires j.found && !HasOutcome(s.log, TaskOf(s, i)) && j.resolved.Ok?
    ensures var h := HandledLlm(TablesOf(s), j); Reaches(s, Moved(s, i, h.tables, WayOut(h.throws), NOTHING))
  {
    var t := TaskOf(s, i);
    match j.provider
    case Answers(_, _, _, _, _, latencyMs, costUsd) =>
      var e := ToRecord(t, j).value;
      Takes(s, ProviderAnswers(i, Stored(j), j.requestHash, latencyMs, costUsd));
      hide Structure, Reaches, Persisted, Stored;
      WritesOutcome(s, s, i, e, false, j.rowAtPersist, j.persistFault);
    case Fails(error, code, retryable) =>
      Takes(s, ProviderFails(i, error, code, retryable));
      hide Structure, Reaches, Persisted, FailureOf;
      if !(retryable && j.token.attempt < t.maxAttempts) {
        WritesOutcome(s, s, i, FailureOf(t, j.spec, j.token, error, code, retryable), retryable, j.rowAtPersist,
          j.persistFault);
      }
  }

  lemma CheckedLlmPlays(s: State, i: nat, j: LlmJob)
    requires MeetsLlm(s, i, j) && RowFree(s, i) && s.invocations[i].phase == Checked
    requires j.found && !HasOutcome(s.log, TaskOf(s, i))
    ensures var h := HandledLlm(TablesOf(s), j);
      Reaches(s, Moved(if h.called then Called(s, i) else s, i, h.tables, WayOut(h.throws), NOTHING))
  {
    if j.resolved.Err? {
      UnresolvedPlays(s, i, j);
    } else {
      var u := With(Called(s, i), i, Calling, NOTHING);
      CallPlays(s, i, j);
      assert TablesOf(u) == TablesOf(s);
      hide Reaches, MeetsLlm, HasOutcome, RowFree;
      AnswerPlays(u, i, j);
      var h := HandledLlm(TablesOf(s), j);
      MovedMoved(Called(s, i), i, TablesOf(s), Calling, NOTHING, h.tables, WayOut(h.throws), NOTHING);
      Then(s, u, Moved(u, i, h.tables, WayOut(h.throws), NOTHING));
    }
  }

  /**
   A handler call that has its task row to itself, but for a lease lost before the row is locked, is a run of the
   protocol, whatever is resolved, whatever the provider does and whether or not the database fails: the run ends
   with the tables and the way out that the handler's code computes, and has called the provider as that has.
   */
  lemma LlmHandlerIsProtocol(s: State, i: nat, j: LlmJob)
    requires MeetsLlm(s, i, j) && RowFree(s, i)
    requires s.invocations[i].phase == Dispatched && s.invocations[i].writes == NOTHING
    ensures var h := HandledLlm(TablesOf(s), j);
      var read := if j.found then HasRead(s, i) else s;
      Reaches(s, Moved(if h.called then Called(read, i) else read, i, h.tables, WayOut(h.throws), NOTHING))
  {
    if !j.found {
      Takes(s, Throw(i));
    } else {
      Reads(s, i);
      if !HasOutcome(s.log, TaskOf(s, i)) { ReadLlmPlays(s, i, j); }
    }
  }

  lemma ReadLlmPlays(s: State, i: nat, j: LlmJob)
    requires MeetsLlm(s, i, j) && RowFree(s, i)
    requires s.invocations[i].phase == Dispatched && s.invocations[i].writes == NOTHING
    requires j.found && !HasOutcome(s.log, TaskOf(s, i))
    ensures var h, read := HandledLlm(TablesOf(s), j), HasRead(s, i);
      Reaches(s, Moved(if h.called then Called(read, i) else read, i, h.tables, WayOut(h.throws), NOTHING))
  {
    Reads(s, i);
    var read := HasRead(s, i);
    var t := With(read, i, Checked, NOTHING);
    assert MeetsLlm(t, i, j);
    hide Reaches, HandledLlm, HasOutcome;
    CheckedLlmPlays(t, i, j);
    var h := HandledLlm(TablesOf(s), j);
    hide Structure, RowFree, KeyFree;
    MovedMoved(read, i, TablesOf(s), Checked, NOTHING, h.tables, WayOut(h.throws), NOTHING);
    MovedMoved(Called(read, i), i, TablesOf(s), Checked, NOTHING, h.tables, WayOut(h.throws), NOTHING);
    Then(s, t, Moved(if h.called then Called(read, i) else read, i, h.tables, WayOut(h.throws), NOTHING));
  }
}
