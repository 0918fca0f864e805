/**
 Exactly which requeues can make the log deny an effect: packages/db/src/dlq.ts under the step protocol.
 A requeue while an unfinished handler call of the task can still reach its commit makes its token good
 again after enough dequeues, and two calls under one token are no longer told apart.
 */
module RequeueDenies {
  import opened Wrappers
  import opened Texts
  import opened Json
  import opened Events
  import opened Queue
  import opened StepProtocol
  import opened StepSafety
  import opened StepEffects
  import opened ToolHandler
  import opened HandlerPlays

  // ---------------------------------------------------------------- every token was dealt out by a dequeue

  predicate Dealt(s: State) {
    forall i :: 0 <= i < |s.invocations| ==> s.invocations[i].token.attempt > 0
  }

  lemma DealtStep(s: State, a: Action)
    requires Structure(s) && Enabled(s, a) && Dealt(s)
    ensures Dealt(Apply(s, a))
  {
    hide Structure, RowLocked, ClaimPending, HasOutcome;
  }

  lemma {:induction false} RunDealt(states: seq<State>, actions: seq<Action>, n: nat)
    requires Run(states, actions) && n < |states|
    ensures Dealt(states[n])
  {
    hide Enabled, Apply, Structure;
    if n > 0 {
      RunDealt(states, actions, n - 1);
      assert Next(states[n - 1], actions[n - 1], states[n]);
      DealtStep(states[n - 1], actions[n - 1]);
    }
  }

  // ---------------------------------------------------------------- delivering again until a token comes back

  // The task has been handed out again, and the last time with this token.
  ghost predicate Redelivered(s: State, u: State, token: Token) {
    var k := token.task;
    && Structure(s) && Structure(u) && k < |s.tasks|
    && u == s.(tasks := u.tasks, invocations := u.invocations)
    && |u.tasks| == |s.tasks| && (forall j :: 0 <= j < |s.tasks| && j != k ==> u.tasks[j] == s.tasks[j])
    && SameIdentity(s.tasks[k], u.tasks[k]) && LeaseOwned(u.tasks[k], token.worker, token.attempt)
    && |s.invocations| < |u.invocations| && u.invocations[..|s.invocations|] == s.invocations
    && (forall i :: |s.invocations| <= i < |u.invocations| ==>
         u.invocations[i].phase == Dispatched && u.invocations[i].writes == NOTHING && u.invocations[i].token.task == k)
    && u.invocations[|u.invocations| - 1].token == token
  }

  lemma DequeueOnce(s: State, id: nat, worker: Text) returns (u: State)
    requires Structure(s) && id < |s.tasks| && s.tasks[id].status == Pending && !RowLocked(s, id)
    ensures Reaches(s, u) && Redelivered(s, u, Token(id, worker, s.tasks[id].attempt + 1))
    ensures !RowLocked(u, id) && u.tasks[id].attempt == s.tasks[id].attempt + 1
  {
    Takes(s, Dequeue(id, worker, 0));
    u := Apply(s, Dequeue(id, worker, 0));
    assert Structure(u);
  }

  lemma {:induction false} Redeliver(s: State, token: Token) returns (u: State)
    requires Structure(s) && token.task < |s.tasks| && s.tasks[token.task].status == Pending
    requires !RowLocked(s, token.task)
    requires s.tasks[token.task].attempt < token.attempt
    ensures Reaches(s, u) && Redelivered(s, u, token) && !RowLocked(u, token.task)
    decreases token.attempt - s.tasks[token.task].attempt
  {
    var t := DequeueOnce(s, token.task, token.worker);
    if t.tasks[token.task].attempt == token.attempt {
      u := t;
    } else {
      var v := ReclaimOnce(t, token.task);
      u := Redeliver(v, token);
      hide Reaches, RowLocked, Redelivered, Structure;
      Then(t, v, u);
      Then(s, t, u);
      RedeliveredAgain(s, t, v, u, Token(token.task, token.worker, s.tasks[token.task].attempt + 1), token);
    }
  }

  lemma RedeliveredAgain(s: State, t: State, v: State, u: State, first: Token, token: Token)
    requires first.task == token.task && Redelivered(s, t, first) && Structure(v) && Redelivered(v, u, token)
    requires v == t.(tasks := t.tasks[token.task := Reclaimed(t.tasks[token.task])])
    ensures Redelivered(s, u, token)
  {
    hide Structure;
    assert u.invocations[..|s.invocations|] == u.invocations[..|t.invocations|][..|s.invocations|];
    forall i | |s.invocations| <= i < |u.invocations|
      ensures u.invocations[i].phase == Dispatched && u.invocations[i].writes == NOTHING
      ensures u.invocations[i].token.task == token.task
    {
      if i < |t.invocations| { assert u.invocations[i] == u.invocations[..|t.invocations|][i] == t.invocations[i]; }
    }
  }

  lemma ReclaimOnce(s: State, id: nat) returns (u: State)
    requires Structure(s) && id < |s.tasks| && s.tasks[id].status == Leased && !RowLocked(s, id)
    ensures Reaches(s, u) && Structure(u) && u == s.(tasks := s.tasks[id := Reclaimed(s.tasks[id])])
    ensures !RowLocked(u, id)
  {
    Takes(s, Reclaim(id));
    u := Apply(s, Reclaim(id));
    assert Structure(u);
  }

  // A requeue makes every token of the task good again in some continuation: it takes as many dequeues by
  // its worker as the attempt it carries.
  lemma RequeueRevivesTokens(s: State, id: nat, now: int, worker: Text, attempt: nat)
    requires Structure(s) && Enabled(s, Requeue(id, now)) && attempt > 0
    ensures exists u ::
      Reaches(Apply(s, Requeue(id, now)), u) && id < |u.tasks| && LeaseOwned(u.tasks[id], worker, attempt)
  {
    var t := Apply(s, Requeue(id, now));
    assert Structure(t);
    var u := Redeliver(t, Token(id, worker, attempt));
  }

  // ---------------------------------------------------------------- one call commits the effect, one a failure

  // A call that can still run the tool.
  predicate MayRun(x: Invocation) {
    WritesMatch(x) && (BeforeClaim(x.phase) || x.phase == Claimed || x.phase.Ran? || x.phase.Saved?)
  }

  lemma RunsOut(s: State, i: nat) returns (result: Json)
    requires Stands(s, i) && Owns(s, i) && KeyFree(s, i) && KeyOf(s, s.invocations[i].token.task) !in s.ledger
    requires MayRun(s.invocations[i])
    ensures Reaches(s, With(s, i, Saved(result), Done(result)))
  {
    var x := s.invocations[i];
    result := if x.phase.Ran? || x.phase.Saved? then x.phase.result else JNull;
    if x.phase.Saved? {
      Stays(s);
      assert s == With(s, i, Saved(result), Done(result));
    } else if x.phase.Ran? {
      RanToSaved(s, i, result);
    } else if x.phase == Claimed {
      ToSaved(s, i, result);
    } else {
      ToClaim(s, i);
      var w := Writes(Some(None), false, None);
      InsideStands(s, i, Claimed, w);
      hide Reaches, Structure, KeyFree;
      ToSaved(With(s, i, Claimed, w), i, result);
      WithWith(s, i, Claimed, w, Saved(result), Done(result));
      Then(s, With(s, i, Claimed, w), With(s, i, Saved(result), Done(result)));
    }
  }

  ghost predicate CanDeny(s: State) {
    exists t :: Reaches(s, t) && Structure(t) && DeniesEffect(t)
  }

  lemma ThenDenies(s: State, t: State)
    requires Reaches(s, t) && CanDeny(t)
    ensures CanDeny(s)
  {
    hide Reaches;
    var u :| Reaches(t, u) && Structure(u) && DeniesEffect(u);
    Then(s, t, u);
  }

  // The failure is on record; the other call commits.
  lemma CommitDenies(s: State, i: nat)
    requires Stands(s, i) && RowFree(s, i) && Owns(s, i) && Fails(s.log, TaskOf(s, i))
    requires s.invocations[i].phase.Saved? && s.invocations[i].writes == Done(s.invocations[i].phase.result)
    ensures CanDeny(s)
  {
    Finishes(s, i, 0, true, []);
    FailsHas(s.log, TaskOf(s, i));
    hide Reaches, HasOutcome, Fails, RowFree;
    var k, w := s.invocations[i].token.task, s.invocations[i].writes;
    var t := Moved(s, i, CommittedTables(s, i, w), Returning, NOTHING);
    assert Structure(t);
    assert KeyOf(t, k) == KeyOf(s, k) && t.effects == s.effects + [KeyOf(s, k)];
    assert DeniesEffect(t);
  }

  // Nothing another call of the task asks about changes when one call moves.
  ghost predicate Beside(s: State, t: State, i: nat) {
    && i < |s.invocations| && |t.invocations| == |s.invocations|
    && t.tasks == s.tasks && t.specs == s.specs
    && t.invocations[i].token == s.invocations[i].token && !LocksRow(t.invocations[i].phase)
    && forall j :: 0 <= j < |s.invocations| && j != i ==> t.invocations[j] == s.invocations[j]
  }

  lemma BesideStands(s: State, t: State, i: nat, j: nat)
    requires Stands(s, j) && Beside(s, t, i) && i != j
    ensures Stands(t, j) && Owns(t, j) == Owns(s, j) && (RowFree(s, j) ==> RowFree(t, j))
  {
    hide Apart;
  }

  lemma FailureDenies(s: State, r: nat, f: nat)
    requires Stands(s, r) && Stands(s, f) && r != f && s.invocations[r].token.task == s.invocations[f].token.task
    requires Owns(s, r) && Owns(s, f) && RowFree(s, r) && RowFree(s, f) && !HasOutcome(s.log, TaskOf(s, f))
    requires s.invocations[r].phase.Saved? && s.invocations[r].writes == Done(s.invocations[r].phase.result)
    requires var x := s.invocations[f];
      && x.writes == NOTHING && x.phase.Persisting? && x.phase.outcome.ToolFailed?
      && OwnOutcome(TaskOf(s, f), x.token, x.phase.outcome)
    ensures CanDeny(s)
  {
    var x := s.invocations[f];
    var d := Persisted(TablesOf(s), x.token, x.phase.outcome, TaskOf(s, f), NoFault).0;
    var q := if x.phase.rethrow then Throwing else Returning;
    var t := Moved(s, f, d, q, NOTHING);
    PersistPlays(s, f, TaskOf(s, f), NoFault);
    assert Beside(s, t, f);
    BesideStands(s, t, f, r);
    assert Fails(t.log, TaskOf(t, r)) by {
      assert t.log[|s.log|] == Row(TaskOf(s, f).workflowId, x.phase.outcome);
    }
    hide Reaches, Structure, RowFree, Fails, HasOutcome;
    CommitDenies(t, r);
    ThenDenies(s, t);
  }

  // ---------------------------------------------------------------- a requeue that endangers its step

  // The call to bring back: it can still reach its commit, and nobody else has claimed the key.
  ghost predicate Revivable(s: State, x: nat, id: nat) {
    && Stands(s, x) && s.invocations[x].token.task == id && KeyFree(s, x) && KeyOf(s, id) !in s.ledger
    && if HasOutcome(s.log, s.tasks[id]) then Fails(s.log, s.tasks[id]) && MayRun(s.invocations[x])
       else MayRun(s.invocations[x]) || MayStart(s, x)
  }

  // A call that has yet to read the history, or has a failure to record.
  ghost predicate MayStart(s: State, i: nat)
    requires Structure(s) && i < |s.invocations|
  {
    var x := s.invocations[i];
    && x.writes == NOTHING
    && (x.phase == Dispatched ||
      (x.phase.Persisting? && x.phase.outcome.ToolFailed? && OwnOutcome(TaskOf(s, i), x.token, x.phase.outcome)))
  }

  lemma EndangeredKeyIsFree(s: State, id: nat)
    requires Orderly(s) && Endangers(s, id)
    ensures KeyOf(s, id) !in s.ledger
  {
    hide Inv, TokensHold, PastHolds, Apart, HasOutcome, Working, Unfinished;
    assert Structure(s) by { AsStructure(s); }
    CompletesHas(s.log, s.tasks[id]);
    if Fails(s.log, s.tasks[id]) { FailedKeyIsFree(s, id); }
  }

  lemma FailedKeyIsFree(s: State, id: nat)
    requires Structure(s) && EffectsAgree(s) && id < |s.tasks| && Fails(s.log, s.tasks[id])
    ensures KeyOf(s, id) !in s.ledger
  {
    var a :| 0 <= a < |s.log| && Settles(s.tasks[id], s.log[a].workflow, s.log[a].event) && s.log[a].event.ToolFailed?;
    assert RowAgrees(s.log[a], KeyOf(s, id), s.ledger);
  }

  lemma AsStructure(s: State)
    requires Inv(s)
    ensures Structure(s)
  {
  }

  // Whoever has claimed the key is a call of this task, at work on its tool.
  lemma ClaimantIsOurs(s: State, id: nat, j: nat)
    requires Inv(s) && id < |s.tasks| && s.tasks[id].taskType == ToolTask && s.tasks[id].status == Dead
    requires j < |s.invocations|
    requires s.invocations[j].writes.row.Some? && KeyOf(s, s.invocations[j].token.task) == KeyOf(s, id)
    ensures s.invocations[j].token.task == id && MayRun(s.invocations[j])
  {
    assert Holds(s, j);
    KeyUnique(s, s.invocations[j].token.task, id);
  }

  lemma EndangererMayGoOn(s: State, id: nat, i: nat)
    requires Inv(s) && id < |s.tasks| && s.tasks[id].taskType == ToolTask && s.tasks[id].status == Dead
    requires i < |s.invocations|
    requires s.invocations[i].token.task == id && KeyOf(s, id) !in s.ledger
    ensures Working(s.invocations[i].phase) ==> MayRun(s.invocations[i])
    ensures Unfinished(s.invocations[i].phase) ==> MayRun(s.invocations[i]) || MayStart(s, i)
  {
    assert Holds(s, i);
  }

  lemma Choose(s: State, id: nat) returns (x: nat)
    requires Orderly(s) && Endangers(s, id) && s.tasks[id].status == Dead
    ensures Revivable(s, x, id)
  {
    EndangeredKeyIsFree(s, id);
    hide Holds, Exclusive, LedgerHolds, LogHolds, KeysKnown, TokensHold, PastHolds, EffectsAgree, HasOutcome, Fails,
      Apart, MayRun, MayStart;
    x :| 0 <= x < |s.invocations| && s.invocations[x].token.task == id &&
      if HasOutcome(s.log, s.tasks[id]) then Fails(s.log, s.tasks[id]) && Working(s.invocations[x].phase)
      else Unfinished(s.invocations[x].phase);
    EndangererMayGoOn(s, id, x);
    if j :|
      && 0 <= j < |s.invocations| && s.invocations[j].writes.row.Some?
      && KeyOf(s, s.invocations[j].token.task) == KeyOf(s, id) {
      ClaimantIsOurs(s, id, j);
      x := j;
      OneClaim(s, x);
    }
  }

  lemma OneClaim(s: State, i: nat)
    requires Stands(s, i) && Exclusive(s) && s.invocations[i].writes.row.Some?
    ensures KeyFree(s, i)
  {
  }

  // Rows are requeued, leased and reclaimed, and calls are added that have done nothing yet.
  ghost predicate OnlyRows(s: State, u: State) {
    && Structure(s) && Structure(u)
    && u == s.(tasks := u.tasks, invocations := u.invocations)
    && |u.tasks| == |s.tasks| && (forall j :: 0 <= j < |s.tasks| ==> SameIdentity(s.tasks[j], u.tasks[j]))
    && |s.invocations| <= |u.invocations| && u.invocations[..|s.invocations|] == s.invocations
    && forall i :: |s.invocations| <= i < |u.invocations| ==> u.invocations[i].writes == NOTHING
  }

  lemma StaysRevivable(s: State, u: State, x: nat, id: nat)
    requires Revivable(s, x, id) && OnlyRows(s, u)
    ensures Revivable(u, x, id) && u.invocations[x] == s.invocations[x]
  {
    hide Apart, HasOutcome, Fails, Settles;
    assert u.invocations[x] == u.invocations[..|s.invocations|][x];
    SameOutcomes(s.log, s.tasks[id], u.tasks[id]);
    assert MayStart(s, x) ==> MayStart(u, x) by { SameOwn(s.tasks[id], u.tasks[id]); }
    assert KeyFree(u, x) by { StaysFree(s, u, x); }
  }

  lemma SameOwn(t: Task, u: Task)
    requires IsStepTask(t) && SameIdentity(t, u)
    ensures IsStepTask(u) && forall token: Token, e: Event :: OwnOutcome(u, token, e) == OwnOutcome(t, token, e)
  {
  }

  lemma StaysFree(s: State, u: State, x: nat)
    requires Stands(s, x) && KeyFree(s, x) && OnlyRows(s, u)
    ensures KeyFree(u, x)
  {
    hide Apart, IsStepTask;
    assert u.invocations[x] == u.invocations[..|s.invocations|][x];
    forall j | 0 <= j < |u.invocations| && u.invocations[j].writes.row.Some?
      ensures j < |s.invocations| && u.invocations[j] == s.invocations[j]
    {
      if j < |s.invocations| { assert u.invocations[j] == u.invocations[..|s.invocations|][j]; }
    }
    assert forall k :: 0 <= k < |s.tasks| ==> KeyOf(u, k) == KeyOf(s, k);
  }

  // The two calls that share a token after the redelivery: one that was there, one that is new.
  ghost predicate Twins(u: State, x: nat, y: nat, id: nat) {
    && Revivable(u, x, id) && Stands(u, y) && x != y
    && u.invocations[y].token == u.invocations[x].token
    && u.invocations[y].phase == Dispatched && u.invocations[y].writes == NOTHING
    && Owns(u, x) && RowFree(u, x)
  }

  lemma OneFails(u: State, x: nat, y: nat, id: nat)
    requires Twins(u, x, y, id) && HasOutcome(u.log, u.tasks[id])
    ensures CanDeny(u)
  {
    hide HasOutcome, Fails, MayRun, Structure;
    var result := RunsOut(u, x);
    InsideStands(u, x, Saved(result), Done(result));
    var t := With(u, x, Saved(result), Done(result));
    hide Reaches, RowFree, KeyFree;
    CommitDenies(t, x);
    ThenDenies(u, t);
  }

  // An old call runs the tool, the new one is turned away and records the failure.
  lemma NewOneFails(u: State, x: nat, y: nat, id: nat)
    requires Twins(u, x, y, id) && !HasOutcome(u.log, u.tasks[id]) && MayRun(u.invocations[x])
    ensures CanDeny(u)
  {
    hide HasOutcome, MayRun, Structure, MayStart;
    var result := RunsOut(u, x);
    var t := With(u, x, Saved(result), Done(result));
    InsideStands(u, x, Saved(result), Done(result));
    assert Beside(u, t, x);
    BesideStands(u, t, x, y);
    hide Reaches, KeyFree, RowFree;
    RefusalDenies(t, x, y);
    ThenDenies(u, t);
  }

  lemma RefusalDenies(s: State, r: nat, f: nat)
    requires Stands(s, r) && Stands(s, f) && r != f && s.invocations[r].token.task == s.invocations[f].token.task
    requires Owns(s, r) && Owns(s, f) && RowFree(s, r) && RowFree(s, f) && !HasOutcome(s.log, TaskOf(s, f))
    requires s.invocations[r].phase.Saved? && s.invocations[r].writes == Done(s.invocations[r].phase.result)
    requires s.invocations[f].phase == Dispatched && s.invocations[f].writes == NOTHING
    ensures CanDeny(s)
  {
    var token := s.invocations[f].token;
    var e := FailureOf(TaskOf(s, f), s.specs[token.task], token, [], [], false);
    FailureIsOwn(TaskOf(s, f), s.specs[token.task], token, [], [], false);
    Refused(s, f);
    assert e.ToolFailed?;
    hide Reaches, Structure, RowFree, HasOutcome, OwnOutcome, FailureOf;
    var u := With(HasRead(s, f), f, Persisting(e, false), NOTHING);
    assert Beside(s, u, f);
    BesideStands(s, u, f, r);
    FailureDenies(u, r, f);
    ThenDenies(s, u);
  }

  lemma Refused(s: State, f: nat)
    requires Stands(s, f) && RowFree(s, f) && !HasOutcome(s.log, TaskOf(s, f))
    requires s.invocations[f].phase == Dispatched && s.invocations[f].writes == NOTHING
    ensures var token := s.invocations[f].token;
      var e := FailureOf(TaskOf(s, f), s.specs[token.task], token, [], [], false);
      var u := With(HasRead(s, f), f, Persisting(e, false), NOTHING);
      Reaches(s, u) && Stands(u, f) && Owns(u, f) == Owns(s, f) && RowFree(u, f)
  {
    var token := s.invocations[f].token;
    var p := Persisting(FailureOf(TaskOf(s, f), s.specs[token.task], token, [], [], false), false);
    Reads(s, f);
    var v := With(HasRead(s, f), f, Checked, NOTHING);
    Takes(v, Reject(f, [], []));
    InsideStands(v, f, p, NOTHING);
    hide Reaches, HasOutcome, FailureOf;
    WithWith(HasRead(s, f), f, Checked, NOTHING, p, NOTHING);
    Then(s, v, With(v, f, p, NOTHING));
  }

  // The old call is about to record its failure; the new one runs the tool.
  lemma OldOneFails(u: State, x: nat, y: nat, id: nat)
    requires Twins(u, x, y, id) && !HasOutcome(u.log, u.tasks[id]) && u.invocations[x].phase.Persisting?
    requires MayStart(u, x)
    ensures CanDeny(u)
  {
    NewIsFree(u, x, y, id);
    hide HasOutcome, MayRun, Structure, OwnOutcome;
    Reads(u, y);
    var v := With(HasRead(u, y), y, Checked, NOTHING);
    assert Beside(u, v, y);
    BesideStands(u, v, y, x);
    assert Owns(v, y) && MayRun(v.invocations[y]);
    var result := RunsOut(v, y);
    var t := With(v, y, Saved(result), Done(result));
    InsideStands(v, y, Saved(result), Done(result));
    assert Beside(v, t, y);
    BesideStands(v, t, y, x);
    hide Reaches, KeyFree, RowFree;
    Then(u, v, t);
    FailureDenies(t, y, x);
    ThenDenies(u, t);
  }

  lemma NewIsFree(u: State, x: nat, y: nat, id: nat)
    requires Twins(u, x, y, id) && u.invocations[x].writes == NOTHING
    ensures KeyFree(u, y)
  {
    hide Apart, IsStepTask, Fails, HasOutcome, MayRun, MayStart;
    assert u.invocations[y].token.task == u.invocations[x].token.task;
  }

  // An old call that has not read the history yet reads it, and goes on as above.
  lemma OldOneReads(u: State, x: nat, y: nat, id: nat)
    requires Twins(u, x, y, id) && !HasOutcome(u.log, u.tasks[id]) && u.invocations[x].phase == Dispatched
    requires MayStart(u, x)
    ensures CanDeny(u)
  {
    hide HasOutcome, Structure, OwnOutcome;
    Reads(u, x);
    var v := With(HasRead(u, x), x, Checked, NOTHING);
    assert Beside(u, v, x);
    BesideStands(u, v, x, y);
    assert MayRun(v.invocations[x]) by { assert WritesMatch(v.invocations[x]); }
    assert Twins(v, x, y, id);
    hide Reaches, KeyFree, RowFree, Twins;
    NewOneFails(v, x, y, id);
    ThenDenies(u, v);
  }

  lemma TwinsDeny(u: State, x: nat, y: nat, id: nat)
    requires Twins(u, x, y, id)
    ensures CanDeny(u)
  {
    hide HasOutcome, MayRun, CanDeny;
    if HasOutcome(u.log, u.tasks[id]) {
      OneFails(u, x, y, id);
    } else if MayRun(u.invocations[x]) {
      NewOneFails(u, x, y, id);
    } else if u.invocations[x].phase == Dispatched {
      OldOneReads(u, x, y, id);
    } else {
      OldOneFails(u, x, y, id);
    }
  }

  lemma RedeliveredTwins(s: State, u: State, x: nat, id: nat)
    requires Revivable(s, x, id) && Redelivered(s, u, s.invocations[x].token) && !RowLocked(u, id)
    ensures Twins(u, x, |u.invocations| - 1, id)
  {
    assert OnlyRows(s, u);
    StaysRevivable(s, u, x, id);
  }

  lemma EndangeredDenies(s: State, id: nat, now: int)
    requires Orderly(s) && Dealt(s) && Enabled(s, Requeue(id, now)) && Endangers(s, id)
    ensures CanDeny(Apply(s, Requeue(id, now)))
  {
    var t := Apply(s, Requeue(id, now));
    hide Orderly, CanDeny, Endangers, Revivable;
    var x := Choose(s, id);
    assert OnlyRows(s, t);
    assert Stands(s, x) && s.invocations[x].token.task == id by { FromRevivable(s, x, id); }
    StaysRevivable(s, t, x, id);
    hide OnlyRows, Apart, IsStepTask;
    var u := Redeliver(t, t.invocations[x].token);
    RedeliveredTwins(t, u, x, id);
    TwinsDeny(u, x, |u.invocations| - 1, id);
    ThenDenies(t, u);
  }

  lemma FromRevivable(s: State, x: nat, id: nat)
    requires Revivable(s, x, id)
    ensures Stands(s, x) && s.invocations[x].token.task == id
  {
  }

  // ---------------------------------------------------------------- exactly then

  lemma {:induction false} PlaysOrderly(s: State, actions: seq<Action>, t: State)
    requires Orderly(s) && Plays(s, actions, t)
    ensures Orderly(t)
    decreases |actions|
  {
    hide Orderly, Apply, Enabled;
    if actions != [] {
      OrderlyStep(s, actions[0], Apply(s, actions[0]));
      PlaysOrderly(Apply(s, actions[0]), actions[1..], t);
    }
  }

  lemma OrderlyDeniesNothing(s: State)
    requires Orderly(s)
    ensures Structure(s) && !DeniesEffect(s)
  {
    hide Holds, Exclusive, LogHolds, KeysKnown, TokensHold, PastHolds, Fails, EffectsAgree, Apart;
    forall k | 0 <= k < |s.tasks| && Fails(s.log, s.tasks[k]) ensures KeyOf(s, k) !in s.effects {
      FailedKeyIsFree(s, k);
    }
  }

  lemma SafeDeniesNothing(s: State, id: nat, now: int)
    requires Orderly(s) && Structure(s) && Enabled(s, Requeue(id, now)) && !Endangers(s, id)
    ensures !CanDeny(Apply(s, Requeue(id, now)))
  {
    hide Orderly, Endangers, DeniesEffect;
    var u := Apply(s, Requeue(id, now));
    OrderlyStep(s, Requeue(id, now), u);
    forall t | Reaches(u, t) && Structure(t) ensures !DeniesEffect(t) {
      var actions :| Plays(u, actions, t);
      PlaysOrderly(u, actions, t);
      OrderlyDeniesNothing(t);
    }
  }

  // In a run whose requeues have been safe so far, the next one can bring the log to deny an effect, without
  // any requeue after it, exactly when it endangers its step: an operator's check is the right one.
  lemma RequeueDeniesIff(states: seq<State>, actions: seq<Action>, n: nat, id: nat, now: int)
    requires Run(states, actions) && n < |states| && SafeRequeues(states, actions, n)
    requires Structure(states[n]) && Enabled(states[n], Requeue(id, now))
    ensures CanDeny(Apply(states[n], Requeue(id, now))) <==> Endangers(states[n], id)
  {
    hide Orderly, CanDeny, Endangers, Next, SafeRequeues, Apply, Enabled;
    RunOrderly(states, actions, n);
    RunDealt(states, actions, n);
    if Endangers(states[n], id) {
      EndangeredDenies(states[n], id, now);
    } else {
      SafeDeniesNothing(states[n], id, now);
    }
  }
}
