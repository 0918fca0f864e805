/**
 LLM and tool steps: packages/worker-sdk/src/toolHandler.ts, llmHandler.ts and fencing.ts over
 packages/db/src/queue.ts and toolStore.ts, as a state machine.

 Any number of handler invocations are in flight, each a step at a time, crashing or losing its lease
 anywhere. What a transaction has written is its own until it commits: an uncommitted claim blocks
 other claims of its key, a locked task row blocks or is skipped by every statement that would change
 it, a rollback drops the writes. A lease may run out at any moment it is not locked: there is no clock
 here, so whatever the heartbeats do is covered.
 */
module StepProtocol {
  import opened Wrappers
  import opened Texts
  import opened Json
  import opened Requests
  import opened Events
  import opened Queue

  // What the handler reads off the schedule event.
  datatype Spec = Spec(stepId: Text, tool: Text)

  // An outcome event in a workflow's log.
  datatype Row = Row(workflow: nat, event: Event)

  // The (workflow_id, step_id) primary key of the tool ledger.
  datatype Key = Key(workflow: nat, stepId: Text)

  datatype Token = Token(task: nat, worker: Text, attempt: nat)

  // What an open transaction has written: a ledger row, the tool's effect, an event.
  datatype Writes = Writes(row: Option<Option<Json>>, effect: bool, event: Option<Event>)

  const NOTHING := Writes(None, false, None)

  datatype Phase =
    | Dispatched                                   // handed out by dequeue
    | Checked                                      // the history it read holds no outcome
    | Began | LeaseSeen                            // executeAtomically: BEGIN, the check without a lock
    | Claimed | Ran(result: Json) | Saved(result: Json)
    | Reusing(result: Json)                        // the claim found a committed row
    | Fenced(result: Json)                         // the task row is locked
    | Ready                                        // the event is written, or already recorded
    | Calling                                      // the provider has been called
    | Persisting(outcome: Event, rethrow: bool)    // appendStepOutcome
    | PersistFenced(outcome: Event, rethrow: bool)
    | PersistReady(rethrow: bool)
    | Returning | Throwing | Gone

  // seen: how much of the log the handler has read.
  datatype Invocation = Invocation(token: Token, phase: Phase, writes: Writes, seen: nat)

  // calls: which invocations have called the provider, in order.
  datatype State = State(
    tasks: seq<Task>, specs: seq<Spec>, log: seq<Row>, ledger: map<Key, Option<Json>>, effects: seq<Key>,
    invocations: seq<Invocation>, calls: seq<nat>)

  const INITIAL := State([], [], [], map[], [], [], [])

  // ---------------------------------------------------------------- steps and outcomes

  function LaneOfTask(t: Task): Lane {
    if t.taskType == ToolTask then ToolLane else LlmLane
  }

  predicate IsStepTask(t: Task) {
    (t.taskType == ToolTask || t.taskType == LlmTask) && t.scheduledEventSeq.Some?
  }

  // This event settles the task's schedule event.
  predicate Settles(t: Task, workflow: nat, e: Event)
    requires IsStepTask(t)
  {
    workflow == t.workflowId && OutcomeOf(e).Some? &&
    OutcomeOf(e).value.lane == LaneOfTask(t) && OutcomeOf(e).value.seqNo == t.scheduledEventSeq.value
  }

  // hasStepOutcome
  predicate HasOutcome(log: seq<Row>, t: Task)
    requires IsStepTask(t)
  {
    exists i :: 0 <= i < |log| && Settles(t, log[i].workflow, log[i].event)
  }

  predicate IsStepOutcome(e: Event) {
    e.LlmCompleted? || e.LlmFailed? || e.ToolCompleted? || e.ToolFailed?
  }

  // The attempt number an outcome carries.
  function AttemptOf(e: Event): int
    requires IsStepOutcome(e)
  {
    if e.LlmCompleted? || e.ToolCompleted? then e.attempt else e.attempts
  }

  // An outcome this invocation may write.
  predicate OwnOutcome(t: Task, token: Token, e: Event)
    requires IsStepTask(t)
  {
    IsStepOutcome(e) && Settles(t, t.workflowId, e) && AttemptOf(e) == token.attempt
  }

  // ---------------------------------------------------------------- what an outcome says

  // The failure of this step under this token, with what was thrown.
  predicate FailedWith(e: Event, t: Task, spec: Spec, token: Token, error: Text, code: Text, retryable: bool) {
    && t.scheduledEventSeq.Some?
    && if t.taskType == ToolTask then
         && e.ToolFailed?
         && e.stepId == spec.stepId && e.scheduledEventSeq == t.scheduledEventSeq.value && e.tool == spec.tool
         && e.error == error && e.code == code && e.retryable == retryable && e.attempts == token.attempt
       else
         && e.LlmFailed?
         && e.stepId == spec.stepId && e.scheduledEventSeq == t.scheduledEventSeq.value
         && e.error == error && e.code == code && e.retryable == retryable && e.attempts == token.attempt
  }

  // The provider's answer, whole.
  predicate AnsweredWith(
    e: Event, t: Task, spec: Spec, token: Token, response: LlmCallResult, requestHash: Text, latencyMs: int,
    costUsd: Option<int>)
  {
    && t.scheduledEventSeq.Some? && e.LlmCompleted?
    && e.stepId == spec.stepId && e.scheduledEventSeq == t.scheduledEventSeq.value
    && e.requestHash == requestHash && e.response == response && e.latencyMs == latencyMs && e.costUsd == costUsd
    && e.attempt == token.attempt
  }

  predicate CompletedWith(e: Event, t: Task, spec: Spec, token: Token, latencyMs: int) {
    && t.scheduledEventSeq.Some? && e.ToolCompleted?
    && e.stepId == spec.stepId && e.scheduledEventSeq == t.scheduledEventSeq.value && e.tool == spec.tool
    && e.latencyMs == latencyMs && e.attempt == token.attempt
  }

  // ---------------------------------------------------------------- the parts of a state

  ghost predicate Structure(s: State) {
    && |s.specs| == |s.tasks|
    && (forall k :: 0 <= k < |s.tasks| ==> IsStepTask(s.tasks[k]))
    && (forall j, k :: 0 <= j < k < |s.tasks| ==> Apart(s.tasks[j], s.specs[j], s.tasks[k], s.specs[k]))
    && (forall i :: 0 <= i < |s.invocations| ==> s.invocations[i].token.task < |s.tasks|)
  }

  // One task per schedule event, and step ids that tell the steps of a workflow apart.
  predicate Apart(t: Task, x: Spec, u: Task, y: Spec) {
    t.workflowId == u.workflowId && t.taskType == u.taskType ==>
      t.scheduledEventSeq != u.scheduledEventSeq && x.stepId != y.stepId
  }

  function TaskOf(s: State, i: nat): Task
    requires Structure(s) && i < |s.invocations|
  {
    s.tasks[s.invocations[i].token.task]
  }

  function KeyOf(s: State, k: nat): Key
    requires |s.specs| == |s.tasks| && k < |s.tasks|
  {
    Key(s.tasks[k].workflowId, s.specs[k].stepId)
  }

  predicate LocksRow(p: Phase) {
    p.Fenced? || p.Ready? || p.PersistFenced? || p.PersistReady?
  }

  predicate RowLocked(s: State, k: nat) {
    exists i :: 0 <= i < |s.invocations| && s.invocations[i].token.task == k && LocksRow(s.invocations[i].phase)
  }

  // Some other transaction has claimed the key and not committed.
  predicate ClaimPending(s: State, i: nat, key: Key)
    requires |s.specs| == |s.tasks|
    requires forall j :: 0 <= j < |s.invocations| ==> s.invocations[j].token.task < |s.tasks|
  {
    exists j :: 0 <= j < |s.invocations| && j != i && s.invocations[j].writes.row.Some? &&
      KeyOf(s, s.invocations[j].token.task) == key
  }

  predicate Owns(s: State, i: nat)
    requires i < |s.invocations| && s.invocations[i].token.task < |s.tasks|
  {
    var token := s.invocations[i].token;
    LeaseOwned(s.tasks[token.task], token.worker, token.attempt)
  }

  // ---------------------------------------------------------------- actions

  datatype Action =
    | Schedule(task: Task, spec: Spec)
    | Dequeue(id: nat, worker: Text, until: int)
    | Reclaim(id: nat)
    | Requeue(id: nat, now: int)
    | ReadHistory(i: nat)
    | Reject(i: nat, error: Text, code: Text)
    | Begin(i: nat)
    | CheckLease(i: nat)
    | Claim(i: nat)
    | RunHandler(i: nat, result: Json)
    | Record(i: nat)
    | Fence(i: nat)
    | CheckOutcome(i: nat, latencyMs: int)
    | Commit(i: nat)
    | CommitUnheard(i: nat, error: Text)           // it commits, the client hears of an error
    | Abort(i: nat, error: Text, code: Text, retryable: bool)
    | CallProvider(i: nat)
    | ProviderAnswers(i: nat, response: LlmCallResult, requestHash: Text, latencyMs: int, costUsd: Option<int>)
    | ProviderFails(i: nat, error: Text, code: Text, retryable: bool)
    | Throw(i: nat)
    | Crash(i: nat)
    | Report(i: nat, error: Text, retryAt: int)

  predicate InToolTransaction(p: Phase) {
    p.Began? || p.LeaseSeen? || p.Claimed? || p.Ran? || p.Saved? || p.Reusing? || p.Fenced? || p.Ready?
  }

  predicate Persists(p: Phase) {
    p.Persisting? || p.PersistFenced? || p.PersistReady?
  }

  predicate Tool(s: State, i: nat)
    requires Structure(s) && i < |s.invocations|
  {
    TaskOf(s, i).taskType == ToolTask
  }

  ghost predicate Enabled(s: State, a: Action)
    requires Structure(s)
  {
    match a
    case Schedule(task, spec) =>
      IsStepTask(task) && task.status == Pending && task.attempt == 0 &&
      forall k :: 0 <= k < |s.tasks| ==> Apart(s.tasks[k], s.specs[k], task, spec)
    case Dequeue(id, _, _) => id < |s.tasks| && s.tasks[id].status == Pending && !RowLocked(s, id)
    case Reclaim(id) => id < |s.tasks| && s.tasks[id].status == Leased && !RowLocked(s, id)
    case Requeue(id, _) => id < |s.tasks| && s.tasks[id].status == Dead && !RowLocked(s, id)
    case ReadHistory(i) => i < |s.invocations| && s.invocations[i].phase == Dispatched
    case Reject(i, _, _) => i < |s.invocations| && s.invocations[i].phase == Checked
    case Begin(i) => i < |s.invocations| && s.invocations[i].phase == Checked && Tool(s, i)
    case CheckLease(i) => i < |s.invocations| && s.invocations[i].phase == Began
    case Claim(i) =>
      && i < |s.invocations| && s.invocations[i].phase == LeaseSeen
      && !ClaimPending(s, i, KeyOf(s, s.invocations[i].token.task))
    case RunHandler(i, _) => i < |s.invocations| && s.invocations[i].phase == Claimed
    case Record(i) => i < |s.invocations| && s.invocations[i].phase.Ran?
    case Fence(i) =>
      i < |s.invocations| && !RowLocked(s, s.invocations[i].token.task) &&
      var p := s.invocations[i].phase; p.Saved? || p.Reusing? || p.Persisting?
    case CheckOutcome(i, _) =>
      i < |s.invocations| && (s.invocations[i].phase.Fenced? || s.invocations[i].phase.PersistFenced?)
    case Commit(i) => i < |s.invocations| && (s.invocations[i].phase.Ready? || s.invocations[i].phase.PersistReady?)
    case CommitUnheard(i, _) =>
      i < |s.invocations| && (s.invocations[i].phase.Ready? || s.invocations[i].phase.PersistReady?)
    case Abort(i, _, _, _) => i < |s.invocations| && InToolTransaction(s.invocations[i].phase)
    case CallProvider(i) => i < |s.invocations| && s.invocations[i].phase == Checked && !Tool(s, i)
    case ProviderAnswers(i, _, _, _, _) => i < |s.invocations| && s.invocations[i].phase == Calling
    case ProviderFails(i, _, _, _) => i < |s.invocations| && s.invocations[i].phase == Calling
    case Throw(i) =>
      && i < |s.invocations|
      && (s.invocations[i].phase == Dispatched || s.invocations[i].phase == Checked || Persists(s.invocations[i].phase))
    case Crash(i) => i < |s.invocations|
    case Report(i, _, _) =>
      i < |s.invocations| && (s.invocations[i].phase == Returning || s.invocations[i].phase == Throwing) &&
      !RowLocked(s, s.invocations[i].token.task)
  }

  // The failure event of the step, non-retryable errors and exhausted retries.
  function FailureOf(t: Task, spec: Spec, token: Token, error: Text, code: Text, retryable: bool): Event
    requires IsStepTask(t)
  {
    if t.taskType == ToolTask then
      ToolFailed(spec.stepId, t.scheduledEventSeq.value, spec.tool, error, code, retryable, token.attempt)
    else LlmFailed(spec.stepId, t.scheduledEventSeq.value, error, code, retryable, token.attempt)
  }

  // What both handlers do with an error: retry while attempts remain, else record the failure, and
  // rethrow a retryable one so that the task dead-letters.
  function AfterError(t: Task, spec: Spec, token: Token, error: Text, code: Text, retryable: bool): Phase
    requires IsStepTask(t)
  {
    if retryable && token.attempt < t.maxAttempts then Throwing
    else Persisting(FailureOf(t, spec, token, error, code, retryable), retryable)
  }

  function With(s: State, i: nat, p: Phase, w: Writes): State
    requires i < |s.invocations|
  {
    s.(invocations := s.invocations[i := s.invocations[i].(phase := p, writes := w)])
  }

  // What committing adds to the shared state.
  function Committed(s: State, workflow: nat, key: Key, w: Writes): State {
    s.(ledger := if w.row.Some? then s.ledger[key := w.row.value] else s.ledger,
       effects := if w.effect then s.effects + [key] else s.effects,
       log := if w.event.Some? then s.log + [Row(workflow, w.event.value)] else s.log)
  }

  const TOOL_ERROR := Lit("tool_error")

  // Where an invocation goes once its transaction has committed.
  function AfterCommit(t: Task, spec: Spec, token: Token, p: Phase, heard: bool, error: Text): Phase
    requires IsStepTask(t)
  {
    match p
    case PersistReady(rethrow) => if rethrow || !heard then Throwing else Returning
    case _ => if heard then Returning else AfterError(t, spec, token, error, TOOL_ERROR, false)
  }

  function CommitOf(s: State, i: nat, heard: bool, error: Text): State
    requires Structure(s) && i < |s.invocations|
  {
    var x := s.invocations[i];
    var k := x.token.task;
    With(Committed(s, s.tasks[k].workflowId, KeyOf(s, k), x.writes), i,
      AfterCommit(s.tasks[k], s.specs[k], x.token, x.phase, heard, error), NOTHING)
  }

  function CompletedEvent(t: Task, spec: Spec, token: Token, result: Json, latencyMs: int): Event
    requires IsStepTask(t)
  {
    ToolCompleted(spec.stepId, t.scheduledEventSeq.value, spec.tool, OrNull(result), latencyMs, token.attempt)
  }

  function Apply(s: State, a: Action): State
    requires Structure(s) && Enabled(s, a)
  {
    match a
    case Schedule(task, spec) => s.(tasks := s.tasks + [task], specs := s.specs + [spec])
    case Dequeue(id, worker, until) =>
      var t := Lease(s.tasks[id], worker, until);
      s.(tasks := s.tasks[id := t],
         invocations := s.invocations + [Invocation(Token(id, worker, t.attempt), Dispatched, NOTHING, 0)])
    case Reclaim(id) => s.(tasks := s.tasks[id := Reclaimed(s.tasks[id])])
    case Requeue(id, now) => s.(tasks := s.tasks[id := AfterRequeue(s.tasks[id], now)])
    case ReadHistory(i) =>
      s.(invocations := s.invocations[i := s.invocations[i].(
        phase := if HasOutcome(s.log, TaskOf(s, i)) then Returning else Checked, seen := |s.log|)])
    case Reject(i, error, code) =>
      var k := s.invocations[i].token.task;
      var e := FailureOf(s.tasks[k], s.specs[k], s.invocations[i].token, error, code, false);
      With(s, i, Persisting(e, false), NOTHING)
    case Begin(i) => With(s, i, Began, NOTHING)
    case CheckLease(i) => With(s, i, if Owns(s, i) then LeaseSeen else Throwing, NOTHING)
    case Claim(i) =>
      var key := KeyOf(s, s.invocations[i].token.task);
      if key in s.ledger then
        With(s, i, Reusing(match s.ledger[key] case Some(v) => v case None => JNull), NOTHING)
      else With(s, i, Claimed, Writes(Some(None), false, None))
    case RunHandler(i, result) => With(s, i, Ran(result), s.invocations[i].writes.(effect := true))
    case Record(i) =>
      var result := s.invocations[i].phase.result;
      With(s, i, Saved(result), s.invocations[i].writes.(row := Some(Some(OrNull(result)))))
    case Fence(i) =>
      if !Owns(s, i) then With(s, i, Throwing, NOTHING)
      else
        var x := s.invocations[i];
        With(s, i, (match x.phase
                    case Persisting(outcome, rethrow) => PersistFenced(outcome, rethrow)
                    case Saved(result) => Fenced(result)
                    case Reusing(result) => Fenced(result)), x.writes)
    case CheckOutcome(i, latencyMs) =>
      var x := s.invocations[i];
      var k := x.token.task;
      var recorded := HasOutcome(s.log, s.tasks[k]);
      (match x.phase
       case Fenced(result) =>
         var e := CompletedEvent(s.tasks[k], s.specs[k], x.token, result, latencyMs);
         With(s, i, Ready, x.writes.(event := if recorded then None else Some(e)))
       case PersistFenced(outcome, rethrow) =>
         With(s, i, PersistReady(rethrow), x.writes.(event := if recorded then None else Some(outcome))))
    case Commit(i) => CommitOf(s, i, true, [])
    case CommitUnheard(i, error) => CommitOf(s, i, false, error)
    case Abort(i, error, code, retryable) =>
      var k := s.invocations[i].token.task;
      With(s, i, AfterError(s.tasks[k], s.specs[k], s.invocations[i].token, error, code, retryable), NOTHING)
    case CallProvider(i) => With(s, i, Calling, NOTHING).(calls := s.calls + [i])
    case ProviderAnswers(i, response, requestHash, latencyMs, costUsd) =>
      var k := s.invocations[i].token.task;
      With(s, i, Persisting(
        LlmCompleted(s.specs[k].stepId, s.tasks[k].scheduledEventSeq.value, requestHash, response, latencyMs, costUsd,
          s.invocations[i].token.attempt),
        false), NOTHING)
    case ProviderFails(i, error, code, retryable) =>
      var k := s.invocations[i].token.task;
      With(s, i, AfterError(s.tasks[k], s.specs[k], s.invocations[i].token, error, code, retryable), NOTHING)
    case Throw(i) => With(s, i, Throwing, NOTHING)
    case Crash(i) => With(s, i, Gone, NOTHING)
    case Report(i, error, retryAt) =>
      var token := s.invocations[i].token;
      var t := s.tasks[token.task];
      With(s, i, Gone, NOTHING).(tasks := s.tasks[token.task :=
        if s.invocations[i].phase == Returning then AfterComplete(t, token.worker)
        else AfterFail(t, token.worker, error, retryAt)])
  }

  ghost predicate Next(s: State, a: Action, t: State) {
    Structure(s) && Enabled(s, a) && t == Apply(s, a)
  }

  ghost predicate Run(states: seq<State>, actions: seq<Action>) {
    && |states| == |actions| + 1
    && states[0] == INITIAL
    && forall n :: 0 <= n < |actions| ==> Next(states[n], actions[n], states[n + 1])
  }

  // ---------------------------------------------------------------- going on from a state

  // Steps one after another, none of them a requeue.
  ghost predicate Plays(s: State, actions: seq<Action>, t: State)
    decreases |actions|
  {
    if actions == [] then s == t
    else Structure(s) && Enabled(s, actions[0]) && !actions[0].Requeue? && Plays(Apply(s, actions[0]), actions[1..], t)
  }

  lemma {:induction false} PlaysThen(s: State, actions: seq<Action>, t: State, more: seq<Action>, u: State)
    requires Plays(s, actions, t) && Plays(t, more, u)
    ensures Plays(s, actions + more, u)
    decreases |actions|
  {
    hide Apply, Enabled, Structure;
    if actions == [] {
      assert actions + more == more;
    } else {
      assert (actions + more)[1..] == actions[1..] + more;
      PlaysThen(Apply(s, actions[0]), actions[1..], t, more, u);
    }
  }

  // One step more.
  lemma PlayOn(s: State, actions: seq<Action>, t: State, a: Action) returns (more: seq<Action>, u: State)
    requires Plays(s, actions, t) && Structure(t) && Enabled(t, a) && !a.Requeue?
    ensures u == Apply(t, a) && Plays(s, more, u)
  {
    hide Apply, Enabled, Structure;
    u := Apply(t, a);
    more := actions + [a];
    assert [a][1..] == [] && Plays(u, [], u);
    assert Plays(t, [a], u);
    PlaysThen(s, actions, t, [a], u);
  }
}
