/** What every run of the step protocol keeps, requeues of dead tasks included. */
module StepSafety {
  import opened Wrappers
  import opened Texts
  import opened Json
  import opened Requests
  import opened Events
  import opened Queue
  import opened StepProtocol

  // ---------------------------------------------------------------- the invariant

  // Which writes an open transaction has made, by how far it has come.
  predicate WritesMatch(x: Invocation) {
    match x.phase
    case Claimed => x.writes == Writes(Some(None), false, None)
    case Ran(_) => x.writes == Writes(Some(None), true, None)
    case Saved(result) => x.writes == Writes(Some(Some(OrNull(result))), true, None)
    case Fenced(result) => x.writes == Writes(Some(Some(OrNull(result))), true, None) || x.writes == NOTHING
    case Ready => (match x.writes.row case Some(v) => v.Some? && x.writes.effect case None => !x.writes.effect)
    case PersistReady(_) => x.writes.row.None? && !x.writes.effect
    case _ => x.writes == NOTHING
  }

  // The event about to be committed, or to be persisted.
  ghost predicate EventsMatch(t: Task, x: Invocation)
    requires IsStepTask(t)
  {
    && (x.writes.event.Some? ==> OwnOutcome(t, x.token, x.writes.event.value))
    && (x.phase.Ready? && x.writes.event.Some? && x.writes.row.Some? ==>
         x.writes.event.value.ToolCompleted? && x.writes.row == Some(Some(x.writes.event.value.result)))
    && (x.phase.PersistReady? && x.writes.event.Some? ==> !x.writes.event.value.ToolCompleted?)
    && (x.phase.Persisting? || x.phase.PersistFenced? ==>
      OwnOutcome(t, x.token, x.phase.outcome) && !x.phase.outcome.ToolCompleted?)
  }

  predicate MaySkipClaim(x: Invocation) {
    (x.phase.Reusing? || x.phase.Fenced? || x.phase.Ready?) && x.writes.row.None?
  }

  ghost predicate InvocationHolds(x: Invocation, t: Task, key: Key, log: seq<Row>, ledger: map<Key, Option<Json>>)
    requires IsStepTask(t)
  {
    && x.seen <= |log|
    && (LocksRow(x.phase) ==> LeaseOwned(t, x.token.worker, x.token.attempt))
    && (x.writes.row.Some? ==> key !in ledger)
    && WritesMatch(x)
    && EventsMatch(t, x)
    && (x.writes.event.Some? ==> !HasOutcome(log, t))
    && (MaySkipClaim(x) ==> key in ledger)
    && ((x.phase.Ready? || x.phase.PersistReady?) && x.writes.event.None? ==> HasOutcome(log, t))
    && (InToolTransaction(x.phase) ==> t.taskType == ToolTask)
    && (x.phase == Calling ==> t.taskType != ToolTask)
  }

  ghost predicate Holds(s: State, i: nat)
    requires Structure(s) && i < |s.invocations|
  {
    var x := s.invocations[i];
    InvocationHolds(x, s.tasks[x.token.task], KeyOf(s, x.token.task), s.log, s.ledger)
  }

  // One transaction at a time holds a task's row; one at a time has claimed a key.
  ghost predicate Exclusive(s: State)
    requires Structure(s)
  {
    forall i, j :: 0 <= i < j < |s.invocations| ==>
      && (LocksRow(s.invocations[i].phase) && LocksRow(s.invocations[j].phase) ==>
        s.invocations[i].token.task != s.invocations[j].token.task)
      && (s.invocations[i].writes.row.Some? && s.invocations[j].writes.row.Some? ==>
           KeyOf(s, s.invocations[i].token.task) != KeyOf(s, s.invocations[j].token.task))
  }

  // Each key has one effect, and exactly the keys of the ledger have; every ledger row has a result.
  ghost predicate LedgerHolds(s: State) {
    && (forall a, b :: 0 <= a < b < |s.effects| ==> s.effects[a] != s.effects[b])
    && (forall key :: key in s.effects <==> key in s.ledger)
    && (forall key :: key in s.ledger ==> s.ledger[key].Some?)
  }

  predicate SameStep(r: Row, q: Row) {
    r.workflow == q.workflow && OutcomeOf(r.event).Some? && OutcomeOf(q.event).Some? &&
    OutcomeOf(r.event).value.lane == OutcomeOf(q.event).value.lane &&
      OutcomeOf(r.event).value.seqNo == OutcomeOf(q.event).value.seqNo
  }

  ghost predicate LogHolds(s: State)
    requires Structure(s)
  {
    && (forall a :: 0 <= a < |s.log| ==> IsStepOutcome(s.log[a].event) && Known(s, s.log[a]))
    && forall a, b :: 0 <= a < b < |s.log| ==> !SameStep(s.log[a], s.log[b])
  }

  ghost predicate Known(s: State, r: Row)
    requires Structure(s)
  {
    exists k :: 0 <= k < |s.tasks| && Settles(s.tasks[k], r.workflow, r.event)
  }

  ghost predicate KeysKnown(s: State)
    requires Structure(s)
  {
    forall key :: key in s.ledger ==>
      exists k :: 0 <= k < |s.tasks| && s.tasks[k].taskType == ToolTask && KeyOf(s, k) == key
  }

  ghost predicate Inv(s: State) {
    && Structure(s)
    && (forall i :: 0 <= i < |s.invocations| ==> Holds(s, i))
    && Exclusive(s)
    && LedgerHolds(s)
    && LogHolds(s)
    && KeysKnown(s)
  }

  lemma InitialHolds()
    ensures Inv(INITIAL)
  {
  }

  // ---------------------------------------------------------------- steps inside one invocation

  lemma LocalStep(s: State, i: nat, x: Invocation, calls: seq<nat>)
    requires Inv(s) && i < |s.invocations| && x.token == s.invocations[i].token
    requires InvocationHolds(x, TaskOf(s, i), KeyOf(s, x.token.task), s.log, s.ledger)
    requires LocksRow(x.phase) && !LocksRow(s.invocations[i].phase) ==> !RowLocked(s, x.token.task)
    requires x.writes.row.Some? && s.invocations[i].writes.row.None? ==> !ClaimPending(s, i, KeyOf(s, x.token.task))
    ensures Inv(s.(invocations := s.invocations[i := x], calls := calls))
  {
    hide InvocationHolds, IsStepTask, Apart;
    var t := s.(invocations := s.invocations[i := x], calls := calls);
    assert Structure(t);
    forall j | 0 <= j < |t.invocations| ensures Holds(t, j) { if j != i { assert Holds(s, j); } }
    forall a, b | 0 <= a < b < |t.invocations|
      ensures (LocksRow(t.invocations[a].phase) && LocksRow(t.invocations[b].phase) ==>
        t.invocations[a].token.task != t.invocations[b].token.task)
      ensures (t.invocations[a].writes.row.Some? && t.invocations[b].writes.row.Some? ==>
        KeyOf(t, t.invocations[a].token.task) != KeyOf(t, t.invocations[b].token.task))
    {
      assert KeyOf(t, t.invocations[a].token.task) == KeyOf(s, s.invocations[a].token.task);
      assert KeyOf(t, t.invocations[b].token.task) == KeyOf(s, s.invocations[b].token.task);
    }
    assert forall r: Row :: Known(s, r) ==> Known(t, r);
    assert LogHolds(t);
    assert forall k :: 0 <= k < |s.tasks| ==> KeyOf(t, k) == KeyOf(s, k);
  }

  // ---------------------------------------------------------------- steps on a task row

  lemma IdentityDecides(x: Invocation, t: Task, u: Task, key: Key, log: seq<Row>, ledger: map<Key, Option<Json>>)
    requires IsStepTask(t) && SameIdentity(t, u) && InvocationHolds(x, t, key, log, ledger)
    requires LocksRow(x.phase) ==> u == t
    ensures IsStepTask(u) && InvocationHolds(x, u, key, log, ledger)
  {
    assert forall w, e :: Settles(u, w, e) == Settles(t, w, e);
    assert HasOutcome(log, u) == HasOutcome(log, t);
  }

  lemma TaskStep(s: State, k: nat, u: Task)
    requires Inv(s) && k < |s.tasks| && SameIdentity(s.tasks[k], u) && !RowLocked(s, k)
    ensures Inv(s.(tasks := s.tasks[k := u]))
  {
    hide InvocationHolds, LogHolds, LedgerHolds, KeysKnown;
    var t := s.(tasks := s.tasks[k := u]);
    assert Structure(t);
    assert forall j :: 0 <= j < |s.tasks| ==> KeyOf(t, j) == KeyOf(s, j);
    forall i | 0 <= i < |t.invocations| ensures Holds(t, i) {
      assert Holds(s, i);
      var x := s.invocations[i];
      IdentityDecides(x, s.tasks[x.token.task], t.tasks[x.token.task], KeyOf(s, x.token.task), s.log, s.ledger);
    }
    assert Exclusive(t);
    SharedStays(s, t);
  }

  // Nothing shared is changed but columns of tasks that have no say in what a step is.
  ghost predicate SameSteps(s: State, t: State)
    requires Structure(s) && Structure(t)
  {
    && t.log == s.log && t.ledger == s.ledger && t.effects == s.effects
    && |s.tasks| <= |t.tasks|
    && (forall k :: 0 <= k < |s.tasks| ==> SameIdentity(s.tasks[k], t.tasks[k]) && t.specs[k] == s.specs[k])
  }

  lemma SharedStays(s: State, t: State)
    requires Structure(s) && Structure(t) && SameSteps(s, t) && LedgerHolds(s) && LogHolds(s) && KeysKnown(s)
    ensures LedgerHolds(t) && LogHolds(t) && KeysKnown(t)
  {
    hide Apart;
    forall r: Row | Known(s, r) ensures Known(t, r) {
      var j :| 0 <= j < |s.tasks| && Settles(s.tasks[j], r.workflow, r.event);
      assert Settles(t.tasks[j], r.workflow, r.event);
    }
    assert LogHolds(t);
    hide LogHolds, Settles;
    forall key | key in t.ledger
      ensures exists j :: 0 <= j < |t.tasks| && t.tasks[j].taskType == ToolTask && KeyOf(t, j) == key
    {
      var j :| 0 <= j < |s.tasks| && s.tasks[j].taskType == ToolTask && KeyOf(s, j) == key;
      assert t.tasks[j].taskType == ToolTask && KeyOf(t, j) == key;
    }
  }

  lemma NewInvocation(s: State, token: Token)
    requires Inv(s) && token.task < |s.tasks|
    ensures Inv(s.(invocations := s.invocations + [Invocation(token, Dispatched, NOTHING, 0)]))
  {
    var x := Invocation(token, Dispatched, NOTHING, 0);
    var t := s.(invocations := s.invocations + [x]);
    assert Structure(t);
    assert InvocationHolds(x, s.tasks[token.task], KeyOf(s, token.task), s.log, s.ledger);
    hide InvocationHolds, Apart;
    assert forall k :: 0 <= k < |s.tasks| ==> KeyOf(t, k) == KeyOf(s, k);
    forall j | 0 <= j < |t.invocations| ensures Holds(t, j) { if j < |s.invocations| { assert Holds(s, j); } }
    assert Exclusive(t);
    assert forall r: Row :: Known(s, r) ==> Known(t, r);
    assert LogHolds(t);
  }

  lemma NewTask(s: State, task: Task, spec: Spec)
    requires Inv(s) && Enabled(s, Schedule(task, spec))
    ensures Inv(s.(tasks := s.tasks + [task], specs := s.specs + [spec]))
  {
    hide InvocationHolds, LogHolds, LedgerHolds, KeysKnown;
    var t := s.(tasks := s.tasks + [task], specs := s.specs + [spec]);
    assert Structure(t);
    assert forall k :: 0 <= k < |s.tasks| ==> KeyOf(t, k) == KeyOf(s, k) && t.tasks[k] == s.tasks[k];
    forall j | 0 <= j < |t.invocations| ensures Holds(t, j) { assert Holds(s, j); }
    assert Exclusive(t);
    SharedStays(s, t);
  }

  // ---------------------------------------------------------------- commits

  predicate AtCommit(p: Phase) {
    p.Ready? || p.PersistReady?
  }

  // An event settles one task only.
  lemma SettlesOne(s: State, j: nat, k: nat, workflow: nat, e: Event)
    requires Structure(s) && j < |s.tasks| && k < |s.tasks|
    requires Settles(s.tasks[j], workflow, e) && Settles(s.tasks[k], workflow, e)
    ensures j == k
  {
    assert j < k ==> Apart(s.tasks[j], s.specs[j], s.tasks[k], s.specs[k]);
    assert k < j ==> Apart(s.tasks[k], s.specs[k], s.tasks[j], s.specs[j]);
  }

  lemma OutcomeSnoc(log: seq<Row>, r: Row, t: Task)
    requires IsStepTask(t)
    ensures HasOutcome(log + [r], t) <==> HasOutcome(log, t) || Settles(t, r.workflow, r.event)
  {
    var more := log + [r];
    if HasOutcome(log, t) {
      var i :| 0 <= i < |log| && Settles(t, log[i].workflow, log[i].event);
      assert more[i] == log[i];
    }
    assert more[|log|] == r;
  }

  function CommitLog(s: State, i: nat): seq<Row>
    requires Structure(s) && i < |s.invocations|
  {
    var w := s.invocations[i].writes;
    if w.event.Some? then s.log + [Row(TaskOf(s, i).workflowId, w.event.value)] else s.log
  }

  function CommitLedger(s: State, i: nat): map<Key, Option<Json>>
    requires Structure(s) && i < |s.invocations|
  {
    var x := s.invocations[i];
    if x.writes.row.Some? then s.ledger[KeyOf(s, x.token.task) := x.writes.row.value] else s.ledger
  }

  // A commit leaves what holds of the other invocations alone.
  lemma OthersHold(s: State, i: nat, j: nat)
    requires Inv(s) && i < |s.invocations| && j < |s.invocations| && j != i && AtCommit(s.invocations[i].phase)
    ensures var x := s.invocations[j];
      InvocationHolds(x, s.tasks[x.token.task], KeyOf(s, x.token.task), CommitLog(s, i), CommitLedger(s, i))
  {
    var x, y := s.invocations[i], s.invocations[j];
    assert Holds(s, i) && Holds(s, j);
    var t, u := TaskOf(s, i), TaskOf(s, j);
    if x.writes.event.Some? {
      var r := Row(t.workflowId, x.writes.event.value);
      OutcomeSnoc(s.log, r, u);
      if LocksRow(y.phase) && Settles(u, r.workflow, r.event) {
        SettlesOne(s, x.token.task, y.token.task, r.workflow, r.event);
      }
      assert LocksRow(y.phase) ==> !Settles(u, r.workflow, r.event);
    }
    assert y.writes.event.Some? ==> LocksRow(y.phase);
    assert x.writes.row.Some? && y.writes.row.Some? ==> KeyOf(s, x.token.task) != KeyOf(s, y.token.task);
  }

  lemma FailureIsOwn(t: Task, spec: Spec, token: Token, error: Text, code: Text, retryable: bool)
    requires IsStepTask(t)
    ensures OwnOutcome(t, token, FailureOf(t, spec, token, error, code, retryable))
    ensures !FailureOf(t, spec, token, error, code, retryable).ToolCompleted?
  {
  }

  lemma CommitterHolds(s: State, i: nat, heard: bool, error: Text)
    requires Inv(s) && i < |s.invocations| && AtCommit(s.invocations[i].phase)
    ensures var t := CommitOf(s, i, heard, error); Structure(t) && Holds(t, i)
  {
    var x := s.invocations[i];
    assert Holds(s, i);
    FailureIsOwn(TaskOf(s, i), s.specs[x.token.task], x.token, error, TOOL_ERROR, false);
    var t := CommitOf(s, i, heard, error);
    assert t.tasks == s.tasks && t.specs == s.specs;
    assert Structure(t);
  }

  lemma CommitLedgerHolds(s: State, i: nat, heard: bool, error: Text)
    requires Inv(s) && i < |s.invocations| && AtCommit(s.invocations[i].phase)
    ensures LedgerHolds(CommitOf(s, i, heard, error))
  {
    assert Holds(s, i);
    var key := KeyOf(s, s.invocations[i].token.task);
    var t := CommitOf(s, i, heard, error);
    if s.invocations[i].writes.effect {
      assert t.effects == s.effects + [key];
      assert key !in s.effects;
    }
  }

  lemma CommitLogHolds(s: State, i: nat, heard: bool, error: Text)
    requires Inv(s) && i < |s.invocations| && AtCommit(s.invocations[i].phase)
    ensures var t := CommitOf(s, i, heard, error); Structure(t) && LogHolds(t)
  {
    hide Exclusive, LedgerHolds, KeysKnown, WritesMatch;
    assert Holds(s, i);
    var x := s.invocations[i];
    var t := CommitOf(s, i, heard, error);
    assert t.tasks == s.tasks && t.specs == s.specs;
    assert Structure(t);
    assert forall r: Row :: Known(s, r) ==> Known(t, r);
    if x.writes.event.Some? {
      var r := Row(TaskOf(s, i).workflowId, x.writes.event.value);
      assert t.log == s.log + [r];
      assert Settles(t.tasks[x.token.task], r.workflow, r.event);
      assert Known(t, r);
      forall a | 0 <= a < |s.log| ensures !SameStep(s.log[a], r) {}
    }
  }

  lemma CommitKeysKnown(s: State, i: nat, heard: bool, error: Text)
    requires Inv(s) && i < |s.invocations| && AtCommit(s.invocations[i].phase)
    ensures var t := CommitOf(s, i, heard, error); Structure(t) && KeysKnown(t)
  {
    hide Exclusive, LedgerHolds, LogHolds, HasOutcome, EventsMatch;
    assert Holds(s, i);
    var x := s.invocations[i];
    var t := CommitOf(s, i, heard, error);
    assert t.tasks == s.tasks && t.specs == s.specs;
    assert Structure(t);
    forall key | key in t.ledger
      ensures exists j :: 0 <= j < |t.tasks| && t.tasks[j].taskType == ToolTask && KeyOf(t, j) == key
    {
      if key in s.ledger {
        var j :| 0 <= j < |s.tasks| && s.tasks[j].taskType == ToolTask && KeyOf(s, j) == key;
        assert t.tasks[j].taskType == ToolTask && KeyOf(t, j) == key;
      } else {
        assert KeyOf(t, x.token.task) == key && t.tasks[x.token.task].taskType == ToolTask;
      }
    }
  }

  lemma CommitExclusive(s: State, i: nat, heard: bool, error: Text)
    requires Inv(s) && i < |s.invocations| && AtCommit(s.invocations[i].phase)
    ensures var t := CommitOf(s, i, heard, error); Structure(t) && Exclusive(t)
  {
    hide InvocationHolds, LogHolds, LedgerHolds, KeysKnown, IsStepTask;
    var t := CommitOf(s, i, heard, error);
    assert t.tasks == s.tasks && t.specs == s.specs;
    assert Structure(t);
  }

  lemma CommitStep(s: State, i: nat, heard: bool, error: Text)
    requires Inv(s) && i < |s.invocations| && AtCommit(s.invocations[i].phase)
    ensures Inv(CommitOf(s, i, heard, error))
  {
    CommitterHolds(s, i, heard, error);
    CommitLedgerHolds(s, i, heard, error);
    CommitLogHolds(s, i, heard, error);
    CommitKeysKnown(s, i, heard, error);
    CommitExclusive(s, i, heard, error);
    var t := CommitOf(s, i, heard, error);
    hide InvocationHolds, Exclusive, LogHolds, LedgerHolds, KeysKnown, Apart, IsStepTask;
    assert t.log == CommitLog(s, i) && t.ledger == CommitLedger(s, i);
    forall j | 0 <= j < |t.invocations| ensures Holds(t, j) {
      if j != i { OthersHold(s, i, j); }
    }
  }

  // ---------------------------------------------------------------- every step

  lemma OutsideTransaction(s: State, a: Action)
    requires Inv(s) && Enabled(s, a)
    requires a.Begin? || a.CheckLease? || a.Throw? || a.Crash?
    ensures Inv(Apply(s, a))
  {
    hide HasOutcome, OwnOutcome, RowLocked, ClaimPending, Exclusive, LedgerHolds, LogHolds, KeysKnown;
    assert Holds(s, a.i);
    var t := Apply(s, a);
    LocalStep(s, a.i, t.invocations[a.i], s.calls);
    assert t == s.(invocations := s.invocations[a.i := t.invocations[a.i]], calls := s.calls);
  }

  lemma InsideStep(s: State, a: Action)
    requires Inv(s) && Enabled(s, a)
    requires a.Claim? || a.RunHandler? || a.Record?
    ensures Inv(Apply(s, a))
  {
    hide HasOutcome, OwnOutcome, RowLocked, ClaimPending, Exclusive, LedgerHolds, LogHolds, KeysKnown;
    assert Holds(s, a.i);
    var t := Apply(s, a);
    LocalStep(s, a.i, t.invocations[a.i], s.calls);
    assert t == s.(invocations := s.invocations[a.i := t.invocations[a.i]], calls := s.calls);
  }

  lemma RejectStep(s: State, a: Action)
    requires Inv(s) && Enabled(s, a) && a.Reject?
    ensures Inv(Apply(s, a))
  {
    hide HasOutcome, OwnOutcome, RowLocked, ClaimPending, Exclusive, LedgerHolds, LogHolds, KeysKnown;
    assert Holds(s, a.i);
    var t, token := Apply(s, a), s.invocations[a.i].token;
    FailureIsOwn(TaskOf(s, a.i), s.specs[token.task], token, a.error, a.code, false);
    LocalStep(s, a.i, t.invocations[a.i], s.calls);
    assert t == s.(invocations := s.invocations[a.i := t.invocations[a.i]], calls := s.calls);
  }

  lemma ReadStep(s: State, a: Action)
    requires Inv(s) && Enabled(s, a) && a.ReadHistory?
    ensures Inv(Apply(s, a))
  {
    hide HasOutcome, KeyOf;
    assert Holds(s, a.i);
    var t := Apply(s, a);
    LocalStep(s, a.i, t.invocations[a.i], s.calls);
    assert t == s.(invocations := s.invocations[a.i := t.invocations[a.i]], calls := s.calls);
  }

  lemma FenceStep(s: State, a: Action)
    requires Inv(s) && Enabled(s, a) && a.Fence?
    ensures Inv(Apply(s, a))
  {
    hide HasOutcome, KeyOf, OwnOutcome, RowLocked;
    assert Holds(s, a.i);
    var t := Apply(s, a);
    LocalStep(s, a.i, t.invocations[a.i], s.calls);
    assert t == s.(invocations := s.invocations[a.i := t.invocations[a.i]], calls := s.calls);
  }

  lemma CompletedIsOwn(t: Task, spec: Spec, token: Token, result: Json, latencyMs: int)
    requires IsStepTask(t) && t.taskType == ToolTask
    ensures var e := CompletedEvent(t, spec, token, result, latencyMs);
      OwnOutcome(t, token, e) && e.ToolCompleted? && e.result == OrNull(result)
  {
  }

  lemma CheckStep(s: State, a: Action)
    requires Inv(s) && Enabled(s, a) && a.CheckOutcome?
    ensures Inv(Apply(s, a))
  {
    assert Holds(s, a.i);
    var x := s.invocations[a.i];
    if x.phase.Fenced? { CompletedIsOwn(TaskOf(s, a.i), s.specs[x.token.task], x.token, x.phase.result, a.latencyMs); }
    hide HasOutcome, KeyOf, OwnOutcome, RowLocked, CompletedEvent;
    var t := Apply(s, a);
    LocalStep(s, a.i, t.invocations[a.i], s.calls);
    assert t == s.(invocations := s.invocations[a.i := t.invocations[a.i]], calls := s.calls);
  }

  lemma ErrorStep(s: State, a: Action)
    requires Inv(s) && Enabled(s, a)
    requires a.Abort? || a.ProviderFails?
    ensures Inv(Apply(s, a))
  {
    hide HasOutcome, OwnOutcome, RowLocked, ClaimPending, Exclusive, LedgerHolds, LogHolds, KeysKnown, Apart, FailureOf;
    assert Holds(s, a.i);
    var t := Apply(s, a);
    FailureIsOwn(TaskOf(s, a.i), s.specs[s.invocations[a.i].token.task], s.invocations[a.i].token, a.error, a.code,
      a.retryable);
    LocalStep(s, a.i, t.invocations[a.i], s.calls);
    assert t == s.(invocations := s.invocations[a.i := t.invocations[a.i]], calls := s.calls);
  }

  lemma ProviderStep(s: State, a: Action)
    requires Inv(s) && Enabled(s, a)
    requires a.CallProvider? || a.ProviderAnswers?
    ensures Inv(Apply(s, a))
  {
    hide HasOutcome, RowLocked, ClaimPending, Exclusive, LedgerHolds, LogHolds, KeysKnown, Apart, KeyOf;
    assert Holds(s, a.i);
    var t := Apply(s, a);
    LocalStep(s, a.i, t.invocations[a.i], t.calls);
    assert t == s.(invocations := s.invocations[a.i := t.invocations[a.i]], calls := t.calls);
  }

  lemma RowAction(s: State, a: Action)
    requires Inv(s) && Enabled(s, a)
    requires a.Dequeue? || a.Reclaim? || a.Requeue?
    ensures Inv(Apply(s, a))
  {
    hide InvocationHolds, Exclusive, LedgerHolds, LogHolds, KeysKnown;
    var t := Apply(s, a);
    TaskStep(s, a.id, t.tasks[a.id]);
    if a.Dequeue? {
      NewInvocation(s.(tasks := t.tasks), Token(a.id, a.worker, t.tasks[a.id].attempt));
      var x := Invocation(Token(a.id, a.worker, t.tasks[a.id].attempt), Dispatched, NOTHING, 0);
      assert t == s.(tasks := t.tasks).(invocations := s.invocations + [x]);
    }
  }

  lemma ReportStep(s: State, a: Action)
    requires Inv(s) && Enabled(s, a) && a.Report?
    ensures Inv(Apply(s, a))
  {
    assert Holds(s, a.i);
    var t := Apply(s, a);
    var x := s.invocations[a.i].(phase := Gone, writes := NOTHING);
    LocalStep(s, a.i, x, s.calls);
    var m := s.(invocations := s.invocations[a.i := x], calls := s.calls);
    hide InvocationHolds, Exclusive, LedgerHolds, LogHolds, KeysKnown;
    var k := x.token.task;
    assert !RowLocked(m, k);
    TaskStep(m, k, t.tasks[k]);
    assert t == m.(tasks := m.tasks[k := t.tasks[k]]);
  }

  lemma InvStep(s: State, a: Action, t: State)
    requires Inv(s) && Next(s, a, t)
    ensures Inv(t)
  {
    hide Inv, Apply, Structure;
    match a
    case Schedule(task, spec) => NewTaskStep(s, a);
    case Dequeue(_, _, _) => RowAction(s, a);
    case Reclaim(_) => RowAction(s, a);
    case Requeue(_, _) => RowAction(s, a);
    case ReadHistory(_) => ReadStep(s, a);
    case Reject(_, _, _) => RejectStep(s, a);
    case Fence(_) => FenceStep(s, a);
    case CheckOutcome(_, _) => CheckStep(s, a);
    case Commit(i) => CommitAction(s, a);
    case CommitUnheard(i, _) => CommitAction(s, a);
    case Abort(_, _, _, _) => ErrorStep(s, a);
    case ProviderFails(_, _, _, _) => ErrorStep(s, a);
    case CallProvider(_) => ProviderStep(s, a);
    case ProviderAnswers(_, _, _, _, _) => ProviderStep(s, a);
    case Report(_, _, _) => ReportStep(s, a);
    case Claim(_) => InsideStep(s, a);
    case RunHandler(_, _) => InsideStep(s, a);
    case Record(_) => InsideStep(s, a);
    case _ => OutsideTransaction(s, a);
  }

  lemma NewTaskStep(s: State, a: Action)
    requires Inv(s) && Enabled(s, a) && a.Schedule?
    ensures Inv(Apply(s, a))
  {
    NewTask(s, a.task, a.spec);
  }

  lemma CommitAction(s: State, a: Action)
    requires Inv(s) && Enabled(s, a) && (a.Commit? || a.CommitUnheard?)
    ensures Inv(Apply(s, a))
  {
    CommitStep(s, a.i, a.Commit?, if a.Commit? then [] else a.error);
  }

  lemma {:induction false} RunInv(states: seq<State>, actions: seq<Action>, n: nat)
    requires Run(states, actions) && n < |states|
    ensures Inv(states[n])
  {
    hide Inv, Next;
    if n == 0 {
      InitialHolds();
    } else {
      RunInv(states, actions, n - 1);
      InvStep(states[n - 1], actions[n - 1], states[n]);
    }
  }
}
