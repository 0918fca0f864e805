/** A handler call of ToolHandler, the tables it leaves and how it ends, is a run of the step protocol. */
module HandlerPlays {
  import opened Wrappers
  import opened Texts
  import opened Json
  import opened Requests
  import opened Events
  import opened Queue
  import opened StepProtocol
  import opened ToolHandler

  // ---------------------------------------------------------------- getting from state to state

  ghost predicate Reaches(s: State, t: State) {
    exists actions :: Plays(s, actions, t)
  }

  lemma Stays(s: State)
    ensures Reaches(s, s)
  {
    assert Plays(s, [], s);
  }

  lemma Takes(s: State, a: Action)
    requires Structure(s) && Enabled(s, a) && !a.Requeue?
    ensures Reaches(s, Apply(s, a))
  {
    hide Apply, Enabled, Structure;
    assert Plays(s, [], s);
    var actions, t := PlayOn(s, [], s, a);
  }

  lemma Then(s: State, t: State, u: State)
    requires Reaches(s, t) && Reaches(t, u)
    ensures Reaches(s, u)
  {
    hide Plays;
    var actions :| Plays(s, actions, t);
    var more :| Plays(t, more, u);
    PlaysThen(s, actions, t, more, u);
  }

  function TablesOf(s: State): Tables {
    Tables(s.tasks, s.log, s.ledger, s.effects)
  }

  // The shared tables have changed, and one invocation has moved.
  function Moved(s: State, i: nat, d: Tables, p: Phase, w: Writes): State
    requires i < |s.invocations|
  {
    With(s.(tasks := d.tasks, log := d.log, ledger := d.ledger, effects := d.effects), i, p, w)
  }

  lemma MovedMoved(s: State, i: nat, d: Tables, p: Phase, w: Writes, e: Tables, q: Phase, v: Writes)
    requires i < |s.invocations|
    ensures Moved(Moved(s, i, d, p, w), i, e, q, v) == Moved(s, i, e, q, v)
  {
    var x, y := s.invocations[i].(phase := p, writes := w), s.invocations[i].(phase := q, writes := v);
    assert s.invocations[i := x][i := y] == s.invocations[i := y];
  }

  // An invocation and what its steps ask about; of a tool step.
  ghost predicate Present(s: State, i: nat) {
    Structure(s) && i < |s.invocations|
  }

  ghost predicate Stands(s: State, i: nat) {
    Present(s, i) && TaskOf(s, i).taskType == ToolTask
  }

  predicate RowFree(s: State, i: nat)
    requires i < |s.invocations|
  {
    !RowLocked(s, s.invocations[i].token.task)
  }

  predicate KeyFree(s: State, i: nat)
    requires |s.specs| == |s.tasks|
    requires forall j :: 0 <= j < |s.invocations| ==> s.invocations[j].token.task < |s.tasks|
    requires i < |s.invocations|
  {
    !ClaimPending(s, i, KeyOf(s, s.invocations[i].token.task))
  }

  // Moving inside the transaction changes none of that.
  lemma InsideStands(s: State, i: nat, p: Phase, w: Writes)
    requires Present(s, i)
    ensures var t := With(s, i, p, w);
      Present(t, i) && Stands(t, i) == Stands(s, i) && Owns(t, i) == Owns(s, i) && KeyFree(t, i) == KeyFree(s, i)
    ensures RowFree(s, i) && !LocksRow(p) ==> RowFree(With(s, i, p, w), i)
  {
    hide Apart;
    var t := With(s, i, p, w);
    var key := KeyOf(s, s.invocations[i].token.task);
    if ClaimPending(s, i, key) {
      var j :| 0 <= j < |s.invocations| && j != i && s.invocations[j].writes.row.Some? &&
        KeyOf(s, s.invocations[j].token.task) == key;
      assert t.invocations[j] == s.invocations[j];
    }
  }

  // A step to another phase, then on from there.
  lemma MoveThen(s: State, i: nat, a: Action, p: Phase, w: Writes, u: State)
    requires Present(s, i) && Enabled(s, a) && !a.Requeue? && Apply(s, a) == With(s, i, p, w)
    requires Reaches(With(s, i, p, w), u)
    ensures Reaches(s, u)
  {
    Takes(s, a);
    Then(s, Apply(s, a), u);
  }

  lemma WithWith(s: State, i: nat, p: Phase, w: Writes, q: Phase, v: Writes)
    requires i < |s.invocations|
    ensures With(With(s, i, p, w), i, q, v) == With(s, i, q, v)
  {
    MovedMoved(s, i, TablesOf(s), p, w, TablesOf(s), q, v);
  }

  // ---------------------------------------------------------------- up to the claim

  function ClaimPhase(s: State, i: nat): Phase
    requires |s.specs| == |s.tasks| && i < |s.invocations| && s.invocations[i].token.task < |s.tasks|
  {
    var key := KeyOf(s, s.invocations[i].token.task);
    if key in s.ledger then Reusing(match s.ledger[key] case Some(v) => v case None => JNull) else Claimed
  }

  function ClaimWrites(s: State, i: nat): Writes
    requires |s.specs| == |s.tasks| && i < |s.invocations| && s.invocations[i].token.task < |s.tasks|
  {
    if KeyOf(s, s.invocations[i].token.task) in s.ledger then NOTHING else Writes(Some(None), false, None)
  }

  predicate BeforeClaim(p: Phase) {
    p == Checked || p == Began || p == LeaseSeen
  }

  lemma Claims(s: State, i: nat)
    requires Stands(s, i) && KeyFree(s, i) && s.invocations[i].phase == LeaseSeen
    ensures Reaches(s, With(s, i, ClaimPhase(s, i), ClaimWrites(s, i)))
  {
    hide Structure, ClaimPending;
    Takes(s, Claim(i));
  }

  lemma {:induction false} ToClaim(s: State, i: nat)
    requires Stands(s, i) && Owns(s, i) && KeyFree(s, i)
    requires BeforeClaim(s.invocations[i].phase)
    ensures Reaches(s, With(s, i, ClaimPhase(s, i), ClaimWrites(s, i)))
    decreases if s.invocations[i].phase == Checked then 2 else if s.invocations[i].phase == Began then 1 else 0
  {
    if s.invocations[i].phase == LeaseSeen {
      Claims(s, i);
    } else {
      hide Reaches, KeyFree;
      var p := if s.invocations[i].phase == Checked then Began else LeaseSeen;
      var t := With(s, i, p, NOTHING);
      InsideStands(s, i, p, NOTHING);
      ToClaim(t, i);
      WithWith(s, i, p, NOTHING, ClaimPhase(s, i), ClaimWrites(s, i));
      MoveThen(s, i, if p == Began then Begin(i) else CheckLease(i), p, NOTHING,
        With(s, i, ClaimPhase(s, i), ClaimWrites(s, i)));
    }
  }

  // ---------------------------------------------------------------- running the tool

  function Done(result: Json): Writes { Writes(Some(Some(OrNull(result))), true, None) }

  lemma ToSaved(s: State, i: nat, result: Json)
    requires Stands(s, i) && s.invocations[i].phase == Claimed
    requires s.invocations[i].writes == Writes(Some(None), false, None)
    ensures Reaches(s, With(s, i, Saved(result), Done(result)))
  {
    var t := With(s, i, Ran(result), Writes(Some(None), true, None));
    InsideStands(s, i, Ran(result), Writes(Some(None), true, None));
    RanToSaved(t, i, result);
    WithWith(s, i, Ran(result), Writes(Some(None), true, None), Saved(result), Done(result));
    hide Structure, Reaches;
    MoveThen(s, i, RunHandler(i, result), Ran(result), Writes(Some(None), true, None),
      With(s, i, Saved(result), Done(result)));
  }

  lemma RanToSaved(s: State, i: nat, result: Json)
    requires Stands(s, i) && s.invocations[i].phase == Ran(result)
    requires s.invocations[i].writes == Writes(Some(None), true, None)
    ensures Reaches(s, With(s, i, Saved(result), Done(result)))
  {
    hide Structure;
    Takes(s, Record(i));
  }

  // ---------------------------------------------------------------- fence, outcome, commit

  function EventToWrite(s: State, i: nat, e: Event): Option<Event>
    requires Structure(s) && i < |s.invocations|
  {
    if HasOutcome(s.log, TaskOf(s, i)) then None else Some(e)
  }

  // What both transactions do once the row is locked.
  lemma LosesFence(s: State, i: nat)
    requires Present(s, i) && RowFree(s, i) && !Owns(s, i)
    requires s.invocations[i].phase.Saved? || s.invocations[i].phase.Reusing? || s.invocations[i].phase.Persisting?
    ensures Reaches(s, With(s, i, Throwing, NOTHING))
  {
    hide Structure, RowLocked;
    Takes(s, Fence(i));
  }

  lemma Fences(s: State, i: nat)
    requires Stands(s, i) && RowFree(s, i) && Owns(s, i)
    requires s.invocations[i].phase.Saved? || s.invocations[i].phase.Reusing?
    ensures Reaches(s, With(s, i, Fenced(s.invocations[i].phase.result), s.invocations[i].writes))
  {
    hide Structure, RowLocked;
    Takes(s, Fence(i));
  }

  lemma Checks(s: State, i: nat, latencyMs: int)
    requires Stands(s, i) && s.invocations[i].phase.Fenced?
    ensures var x := s.invocations[i];
      var e := CompletedEvent(TaskOf(s, i), s.specs[x.token.task], x.token, x.phase.result, latencyMs);
      Reaches(s, With(s, i, Ready, x.writes.(event := EventToWrite(s, i, e))))
  {
    hide Structure, HasOutcome;
    Takes(s, CheckOutcome(i, latencyMs));
  }

  function CommittedTables(s: State, i: nat, w: Writes): Tables
    requires Structure(s) && i < |s.invocations|
  {
    var k := s.invocations[i].token.task;
    TablesOf(StepProtocol.Committed(s, s.tasks[k].workflowId, KeyOf(s, k), w))
  }

  lemma Commits(s: State, i: nat, heard: bool, error: Text)
    requires Present(s, i) && (s.invocations[i].phase.Ready? || s.invocations[i].phase.PersistReady?)
    ensures var x := s.invocations[i];
      Reaches(s, Moved(s, i, CommittedTables(s, i, x.writes),
        AfterCommit(TaskOf(s, i), s.specs[x.token.task], x.token, x.phase, heard, error), NOTHING))
  {
    hide Structure;
    Takes(s, if heard then Commit(i) else CommitUnheard(i, error));
  }

  // From the recorded result to the commit.
  lemma Finishes(s: State, i: nat, latencyMs: int, heard: bool, error: Text)
    requires Stands(s, i) && RowFree(s, i) && Owns(s, i)
    requires s.invocations[i].phase.Saved? || s.invocations[i].phase.Reusing?
    ensures var x := s.invocations[i];
      var e := CompletedEvent(TaskOf(s, i), s.specs[x.token.task], x.token, x.phase.result, latencyMs);
      Reaches(s, Moved(s, i, CommittedTables(s, i, x.writes.(event := EventToWrite(s, i, e))),
        AfterCommit(TaskOf(s, i), s.specs[x.token.task], x.token, Ready, heard, error), NOTHING))
  {
    var x := s.invocations[i];
    var e := CompletedEvent(TaskOf(s, i), s.specs[x.token.task], x.token, x.phase.result, latencyMs);
    var w := x.writes.(event := EventToWrite(s, i, e));
    Fences(s, i);
    var t := With(s, i, Fenced(x.phase.result), x.writes);
    InsideStands(s, i, Fenced(x.phase.result), x.writes);
    hide Structure, HasOutcome, Reaches, CompletedEvent, AfterCommit;
    Checks(t, i, latencyMs);
    WithWith(s, i, Fenced(x.phase.result), x.writes, Ready, w);
    InsideStands(s, i, Ready, w);
    var u := With(s, i, Ready, w);
    Then(s, t, u);
    Commits(u, i, heard, error);
    MovedMoved(s, i, TablesOf(s), Ready, w, CommittedTables(s, i, w),
      AfterCommit(TaskOf(s, i), s.specs[x.token.task], x.token, Ready, heard, error), NOTHING);
    var p := AfterCommit(TaskOf(s, i), s.specs[x.token.task], x.token, Ready, heard, error);
    Then(s, u, Moved(s, i, CommittedTables(s, i, w), p, NOTHING));
  }

  // ---------------------------------------------------------------- appendStepOutcome

  lemma FencesPersist(s: State, i: nat)
    requires Present(s, i) && RowFree(s, i) && Owns(s, i) && s.invocations[i].phase.Persisting?
    ensures var x := s.invocations[i]; Reaches(s, With(s, i, PersistFenced(x.phase.outcome, x.phase.rethrow), x.writes))
  {
    hide Structure, RowLocked;
    Takes(s, Fence(i));
  }

  lemma ChecksPersist(s: State, i: nat)
    requires Present(s, i) && s.invocations[i].phase.PersistFenced?
    ensures var x := s.invocations[i];
      Reaches(s, With(s, i, PersistReady(x.phase.rethrow), x.writes.(event := EventToWrite(s, i, x.phase.outcome))))
  {
    hide Structure, HasOutcome;
    Takes(s, CheckOutcome(i, 0));
  }

  lemma PersistCommits(s: State, i: nat, heard: bool)
    requires Present(s, i) && RowFree(s, i) && Owns(s, i) && s.invocations[i].phase.Persisting?
    requires s.invocations[i].writes == NOTHING
    ensures var x := s.invocations[i];
      Reaches(s, Moved(s, i, CommittedTables(s, i, NOTHING.(event := EventToWrite(s, i, x.phase.outcome))),
        if x.phase.rethrow || !heard then Throwing else Returning, NOTHING))
  {
    var x := s.invocations[i];
    var p, w := PersistReady(x.phase.rethrow), NOTHING.(event := EventToWrite(s, i, x.phase.outcome));
    FencesPersist(s, i);
    var t := With(s, i, PersistFenced(x.phase.outcome, x.phase.rethrow), NOTHING);
    InsideStands(s, i, PersistFenced(x.phase.outcome, x.phase.rethrow), NOTHING);
    hide Structure, HasOutcome, Reaches;
    ChecksPersist(t, i);
    WithWith(s, i, PersistFenced(x.phase.outcome, x.phase.rethrow), NOTHING, p, w);
    InsideStands(s, i, p, w);
    var u := With(s, i, p, w);
    Then(s, t, u);
    Commits(u, i, heard, []);
    var q := if x.phase.rethrow || !heard then Throwing else Returning;
    MovedMoved(s, i, TablesOf(s), p, w, CommittedTables(s, i, w), q, NOTHING);
    Then(s, u, Moved(s, i, CommittedTables(s, i, w), q, NOTHING));
  }

  lemma KeptRowPlays(s: State, i: nat, fault: Fault)
    requires Present(s, i) && RowFree(s, i)
    requires s.invocations[i].phase.Persisting? && s.invocations[i].writes == NOTHING
    ensures var x := s.invocations[i];
      var (d, ok) := Persisted(TablesOf(s), x.token, x.phase.outcome, TaskOf(s, i), fault);
      Reaches(s, Moved(s, i, d, if x.phase.rethrow || !ok then Throwing else Returning, NOTHING))
  {
    var k := s.invocations[i].token.task;
    assert s.tasks[k := s.tasks[k]] == s.tasks;
    if fault.RolledBack? {
      Takes(s, Throw(i));
    } else if !Owns(s, i) {
      LosesFence(s, i);
    } else {
      PersistCommits(s, i, fault.NoFault?);
    }
  }

  // The row is left alone, or the reaper gets to it first.
  predicate Reaped(t: Task, u: Task) {
    u == t || (t.status == Leased && u == Reclaimed(t))
  }

  lemma PersistPlays(s: State, i: nat, row: Task, fault: Fault)
    requires Present(s, i) && RowFree(s, i) && Reaped(TaskOf(s, i), row)
    requires s.invocations[i].phase.Persisting? && s.invocations[i].writes == NOTHING
    ensures var x := s.invocations[i];
      var (d, ok) := Persisted(TablesOf(s), x.token, x.phase.outcome, row, fault);
      Reaches(s, Moved(s, i, d, if x.phase.rethrow || !ok then Throwing else Returning, NOTHING))
  {
    if row == TaskOf(s, i) {
      KeptRowPlays(s, i, fault);
    } else {
      var x := s.invocations[i];
      var t := s.(tasks := s.tasks[x.token.task := row]);
      Takes(s, Reclaim(x.token.task));
      assert Present(t, i);
      KeptRowPlays(t, i, fault);
      hide Structure, Reaches, HasOutcome;
      assert t.tasks[x.token.task := row] == t.tasks;
      var (d, ok) := Persisted(TablesOf(t), x.token, x.phase.outcome, row, fault);
      Then(s, t, Moved(s, i, d, if x.phase.rethrow || !ok then Throwing else Returning, NOTHING));
    }
  }

  // ---------------------------------------------------------------- executeAtomically

  // The job is what this invocation meets: its task row is left alone, or reclaimed before it is locked.
  ghost predicate Meets(s: State, i: nat, j: Job) {
    && Stands(s, i) && JobFits(j, s.tasks)
    && j.token == s.invocations[i].token && j.spec == s.specs[j.token.task]
    && (j.rowAtFence == TaskOf(s, i) || j.rowAtFence == Reclaimed(TaskOf(s, i)))
    && Reaped(TaskOf(s, i), j.rowAtPersist)
  }

  function After(s: State, i: nat, attempt: Attempt): Phase
    requires Structure(s) && i < |s.invocations|
  {
    var token := s.invocations[i].token;
    match attempt
    case Committed => Returning
    case LeaseLost => Throwing
    case Errored(error, code, retryable) => AfterError(TaskOf(s, i), s.specs[token.task], token, error, code, retryable)
  }

  lemma AbortPlays(s: State, i: nat, error: Text, code: Text, retryable: bool)
    requires Stands(s, i) && InToolTransaction(s.invocations[i].phase)
    ensures Reaches(s, With(s, i, After(s, i, Errored(error, code, retryable)), NOTHING))
  {
    hide Structure, AfterError;
    Takes(s, Abort(i, error, code, retryable));
  }

  lemma ReclaimedLoses(s: State, i: nat)
    requires Stands(s, i) && RowFree(s, i) && Owns(s, i)
    requires s.invocations[i].phase.Saved? || s.invocations[i].phase.Reusing?
    ensures var tasks := s.tasks[s.invocations[i].token.task := Reclaimed(TaskOf(s, i))];
      Reaches(s, Moved(s, i, TablesOf(s).(tasks := tasks), Throwing, NOTHING))
  {
    var k := s.invocations[i].token.task;
    var t := s.(tasks := s.tasks[k := Reclaimed(s.tasks[k])]);
    Takes(s, Reclaim(k));
    assert Stands(t, i);
    hide Structure, Reaches;
    LosesFence(t, i);
    Then(s, t, With(t, i, Throwing, NOTHING));
  }

  // The result is there: it was stored, or the tool has just returned it.
  predicate HasResult(s: State, i: nat, j: Job)
    requires Structure(s) && i < |s.invocations| && JobFits(j, s.tasks)
  {
    var x := s.invocations[i];
    if JobKey(j, s.tasks) in s.ledger then x.phase == ClaimPhase(s, i) && x.writes == NOTHING
    else j.ran.Returned? && x.phase == Saved(j.ran.result) && x.writes == Done(j.ran.result)
  }

  lemma FinishPlays(s: State, i: nat, j: Job)
    requires Meets(s, i, j) && RowFree(s, i) && Owns(s, i) && HasResult(s, i, j)
    ensures var (d, attempt) := Executed(TablesOf(s), j); Reaches(s, Moved(s, i, d, After(s, i, attempt), NOTHING))
  {
    hide Reaches;
    if j.fault.RolledBack? {
      AbortPlays(s, i, j.fault.error, TOOL_ERROR, false);
    } else if j.rowAtFence == TaskOf(s, i) {
      CommitPlays(s, i, j);
    } else {
      ReclaimedLoses(s, i);
    }
  }

  lemma CommitPlays(s: State, i: nat, j: Job)
    requires Meets(s, i, j) && RowFree(s, i) && Owns(s, i) && HasResult(s, i, j)
    requires !j.fault.RolledBack? && j.rowAtFence == TaskOf(s, i)
    ensures var (d, attempt) := Executed(TablesOf(s), j); Reaches(s, Moved(s, i, d, After(s, i, attempt), NOTHING))
  {
    var free := JobKey(j, s.tasks) !in s.ledger;
    var latencyMs := if free then j.latencyMs else 0;
    Finishes(s, i, latencyMs, j.fault.NoFault?, if j.fault.Unheard? then j.fault.error else []);
    hide Reaches, HasOutcome, CompletedEvent, AfterError, Apart;
    var x := s.invocations[i];
    var e := CompletedEvent(TaskOf(s, i), s.specs[x.token.task], x.token, x.phase.result, latencyMs);
    assert x.phase.result == ResultOf(TablesOf(s), j);
    assert s.tasks[j.token.task := j.rowAtFence] == s.tasks;
    assert Executed(TablesOf(s), j).0 == CommittedTables(s, i, x.writes.(event := EventToWrite(s, i, e)));
  }

  lemma ExecutePlays(s: State, i: nat, j: Job)
    requires Meets(s, i, j) && RowFree(s, i) && KeyFree(s, i) && s.invocations[i].phase == Checked
    requires s.invocations[i].writes == NOTHING
    ensures var (d, attempt) := Executed(TablesOf(s), j); Reaches(s, Moved(s, i, d, After(s, i, attempt), NOTHING))
  {
    if !Owns(s, i) {
      NoLeasePlays(s, i);
    } else {
      ClaimPlays(s, i, j);
    }
  }

  lemma NoLeasePlays(s: State, i: nat)
    requires Stands(s, i) && !Owns(s, i) && s.invocations[i].phase == Checked
    ensures Reaches(s, With(s, i, Throwing, NOTHING))
  {
    var t := With(s, i, Began, NOTHING);
    InsideStands(s, i, Began, NOTHING);
    Takes(t, CheckLease(i));
    WithWith(s, i, Began, NOTHING, Throwing, NOTHING);
    hide Structure, Reaches;
    MoveThen(s, i, Begin(i), Began, NOTHING, With(s, i, Throwing, NOTHING));
  }

  lemma ClaimPlays(s: State, i: nat, j: Job)
    requires Meets(s, i, j) && RowFree(s, i) && KeyFree(s, i) && Owns(s, i) && s.invocations[i].phase == Checked
    ensures var (d, attempt) := Executed(TablesOf(s), j); Reaches(s, Moved(s, i, d, After(s, i, attempt), NOTHING))
  {
    var p, w := ClaimPhase(s, i), ClaimWrites(s, i);
    var t := With(s, i, p, w);
    var (d, attempt) := Executed(TablesOf(s), j);
    ToClaim(s, i);
    InsideStands(s, i, p, w);
    assert Meets(t, i, j);
    hide Reaches;
    ResultPlays(t, i, j);
    hide Structure, Executed, After;
    MovedMoved(s, i, TablesOf(s), p, w, d, After(s, i, attempt), NOTHING);
    Then(s, t, Moved(s, i, d, After(s, i, attempt), NOTHING));
  }

  lemma ResultPlays(s: State, i: nat, j: Job)
    requires Meets(s, i, j) && RowFree(s, i) && Owns(s, i)
    requires s.invocations[i].phase == ClaimPhase(s, i) && s.invocations[i].writes == ClaimWrites(s, i)
    ensures var (d, attempt) := Executed(TablesOf(s), j); Reaches(s, Moved(s, i, d, After(s, i, attempt), NOTHING))
  {
    hide Reaches, RowFree, HasOutcome;
    if JobKey(j, s.tasks) in s.ledger {
      FinishPlays(s, i, j);
    } else if j.ran.Failed? {
      AbortPlays(s, i, j.ran.error, j.ran.code, j.ran.retryable);
    } else {
      var r := j.ran.result;
      ToSaved(s, i, r);
      var t := With(s, i, Saved(r), Done(r));
      InsideStands(s, i, Saved(r), Done(r));
      assert Meets(t, i, j);
      FinishPlays(t, i, j);
      hide Structure, Executed, After;
      var (d, attempt) := Executed(TablesOf(s), j);
      MovedMoved(s, i, TablesOf(s), Saved(r), Done(r), d, After(s, i, attempt), NOTHING);
      Then(s, t, Moved(s, i, d, After(s, i, attempt), NOTHING));
    }
  }

  // ---------------------------------------------------------------- the handler

  // An invocation that has read the log to its end.
  function HasRead(s: State, i: nat): State
    requires i < |s.invocations|
  {
    s.(invocations := s.invocations[i := s.invocations[i].(seen := |s.log|)])
  }

  lemma Reads(s: State, i: nat)
    requires Present(s, i) && s.invocations[i].phase == Dispatched && s.invocations[i].writes == NOTHING
    ensures Reaches(s, With(HasRead(s, i), i, if HasOutcome(s.log, TaskOf(s, i)) then Returning else Checked, NOTHING))
    ensures var t := With(HasRead(s, i), i, Checked, NOTHING);
      && Present(t, i) && Stands(t, i) == Stands(s, i)
      && (RowFree(s, i) ==> RowFree(t, i)) && KeyFree(t, i) == KeyFree(s, i)
  {
    Takes(s, ReadHistory(i));
    var t := HasRead(s, i);
    var x := s.invocations[i];
    var y := x.(seen := |s.log|);
    assert forall p :: s.invocations[i := y][i := y.(phase := p)] == s.invocations[i := y.(phase := p)];
    assert Present(t, i) && Stands(t, i) == Stands(s, i);
    assert forall k :: 0 <= k < |s.tasks| ==> KeyOf(t, k) == KeyOf(s, k);
    hide Structure, Reaches;
    var key := KeyOf(s, s.invocations[i].token.task);
    if ClaimPending(s, i, key) {
      var j :| 0 <= j < |s.invocations| && j != i && s.invocations[j].writes.row.Some? &&
        KeyOf(s, s.invocations[j].token.task) == key;
      assert t.invocations[j] == s.invocations[j];
    }
    InsideStands(t, i, Checked, NOTHING);
  }

  // Committing keeps what the steps of the task ask about.
  lemma MovedStands(s: State, i: nat, d: Tables, p: Phase, w: Writes)
    requires Present(s, i) && d.tasks == s.tasks && RowFree(s, i) && !LocksRow(p)
    ensures var t := Moved(s, i, d, p, w); Present(t, i) && Stands(t, i) == Stands(s, i) && RowFree(t, i)
  {
    hide Apart;
    InsideStands(s, i, p, w);
    var t := With(s, i, p, w);
    assert t.invocations == Moved(s, i, d, p, w).invocations;
  }

  lemma RejectPlays(s: State, i: nat, j: Job)
    requires Meets(s, i, j) && RowFree(s, i) && s.invocations[i].phase == Checked && j.gate.Refuse?
    ensures var t := TaskOf(s, i);
      var e := FailureOf(t, j.spec, j.token, j.gate.error, j.gate.code, false);
      var (d, ok) := Persisted(TablesOf(s), j.token, e, j.rowAtPersist, j.persistFault);
      Reaches(s, Moved(s, i, d, if ok then Returning else Throwing, NOTHING))
  {
    var p := Persisting(FailureOf(TaskOf(s, i), j.spec, j.token, j.gate.error, j.gate.code, false), false);
    var t := With(s, i, p, NOTHING);
    Takes(s, Reject(i, j.gate.error, j.gate.code));
    InsideStands(s, i, p, NOTHING);
    hide Structure, Reaches, Persisted, FailureOf;
    PersistPlays(t, i, j.rowAtPersist, j.persistFault);
    var (d, ok) := Persisted(TablesOf(s), j.token, p.outcome, j.rowAtPersist, j.persistFault);
    var q := if ok then Returning else Throwing;
    MovedMoved(s, i, TablesOf(s), p, NOTHING, d, q, NOTHING);
    Then(s, t, Moved(s, i, d, q, NOTHING));
  }

  lemma PassPlays(s: State, i: nat, j: Job)
    requires Meets(s, i, j) && RowFree(s, i) && KeyFree(s, i) && s.invocations[i].phase == Checked
    requires s.invocations[i].writes == NOTHING
    requires j.gate.Pass? && !HasOutcome(s.log, TaskOf(s, i))
    ensures var (d, throws) := Handled(TablesOf(s), j);
      Reaches(s, Moved(s, i, d, if throws then Throwing else Returning, NOTHING))
  {
    var (d, attempt) := Executed(TablesOf(s), j);
    hide Reaches, Persisted;
    ExecutePlays(s, i, j);
    if attempt.Errored? {
      ErroredPlays(s, i, j, d, attempt);
    }
  }

  lemma ErroredPlays(s: State, i: nat, j: Job, d: Tables, attempt: Attempt)
    requires Meets(s, i, j) && RowFree(s, i) && (d, attempt) == Executed(TablesOf(s), j) && d.tasks == s.tasks
    requires attempt.Errored?
    requires j.gate.Pass? && !HasOutcome(s.log, TaskOf(s, i))
    requires Reaches(s, Moved(s, i, d, After(s, i, attempt), NOTHING))
    ensures var (d, throws) := Handled(TablesOf(s), j);
      Reaches(s, Moved(s, i, d, if throws then Throwing else Returning, NOTHING))
  {
    var p := After(s, i, attempt);
    var t := Moved(s, i, d, p, NOTHING);
    MovedStands(s, i, d, p, NOTHING);
    hide Reaches, Persisted, Executed, FailureOf, HasOutcome, Structure;
    if p.Persisting? {
      PersistPlays(t, i, j.rowAtPersist, j.persistFault);
      var (d', ok) := Persisted(d, j.token, p.outcome, j.rowAtPersist, j.persistFault);
      var q := if p.rethrow || !ok then Throwing else Returning;
      MovedMoved(s, i, d, p, NOTHING, d', q, NOTHING);
      Then(s, t, Moved(s, i, d', q, NOTHING));
    }
  }

  lemma CheckedPlays(s: State, i: nat, j: Job)
    requires Meets(s, i, j) && RowFree(s, i) && KeyFree(s, i) && s.invocations[i].phase == Checked
    requires s.invocations[i].writes == NOTHING
    requires !j.gate.NoEvent? && !HasOutcome(s.log, TaskOf(s, i))
    ensures var (d, throws) := Handled(TablesOf(s), j);
      Reaches(s, Moved(s, i, d, if throws then Throwing else Returning, NOTHING))
  {
    hide Reaches, Executed, Persisted;
    match j.gate
    case Refuse(_, _) => RejectPlays(s, i, j);
    case NoTool => Takes(s, Throw(i));
    case Pass => PassPlays(s, i, j);
  }

  /**
   A handler call that has its task row and its key to itself, but for a lease lost before the row is locked,
   is a run of the protocol, whatever stands before the tool, whatever the tool does and whichever of its
   transactions fail: the run ends with the tables and the way out that the handler's code computes.
   */
  lemma HandlerIsProtocol(s: State, i: nat, j: Job)
    requires Meets(s, i, j) && RowFree(s, i) && KeyFree(s, i)
    requires s.invocations[i].phase == Dispatched && s.invocations[i].writes == NOTHING
    ensures var (d, throws) := Handled(TablesOf(s), j);
      var base := if j.gate.NoEvent? then s else HasRead(s, i);
      Reaches(s, Moved(base, i, d, if throws then Throwing else Returning, NOTHING))
  {
    if j.gate.NoEvent? {
      Takes(s, Throw(i));
    } else {
      Reads(s, i);
      if !HasOutcome(s.log, TaskOf(s, i)) {
        ReadPlays(s, i, j);
      }
    }
  }

  lemma ReadPlays(s: State, i: nat, j: Job)
    requires Meets(s, i, j) && RowFree(s, i) && KeyFree(s, i)
    requires s.invocations[i].phase == Dispatched && s.invocations[i].writes == NOTHING
    requires !j.gate.NoEvent? && !HasOutcome(s.log, TaskOf(s, i))
    ensures var (d, throws) := Handled(TablesOf(s), j);
      Reaches(s, Moved(HasRead(s, i), i, d, if throws then Throwing else Returning, NOTHING))
  {
    Reads(s, i);
    var t := With(HasRead(s, i), i, Checked, NOTHING);
    assert Meets(t, i, j);
    hide Reaches, Handled, HasOutcome;
    CheckedPlays(t, i, j);
    var (d, throws) := Handled(TablesOf(s), j);
    var q := if throws then Throwing else Returning;
    hide Structure, RowFree, KeyFree;
    MovedMoved(HasRead(s, i), i, TablesOf(s), Checked, NOTHING, d, q, NOTHING);
    Then(s, t, Moved(HasRead(s, i), i, d, q, NOTHING));
  }
}
