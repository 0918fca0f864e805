/**
 Where the outcomes in a log come from: in every run of the step protocol each one says, field by field, what
 became of one invocation of its step, and a completed tool step has the result one of its handlers returned.
 */
module StepCauses {
  import opened Wrappers
  import opened Texts
  import opened Json
  import opened Events
  import opened Queue
  import opened StepProtocol
  import opened StepSafety
  import opened StepLimits

  // ---------------------------------------------------------------- what an outcome says

  // This step of the i-th invocation is what the outcome reports. A retryable error is reported only once no
  // attempt is left.
  predicate Causes(a: Action, i: nat, t: Task, spec: Spec, token: Token, e: Event) {
    match a
    case Reject(k, error, code) => k == i && FailedWith(e, t, spec, token, error, code, false)
    case Abort(k, error, code, retryable) =>
      && k == i && FailedWith(e, t, spec, token, error, code, retryable)
      && (retryable ==> token.attempt >= t.maxAttempts)
    case ProviderFails(k, error, code, retryable) =>
      && k == i && FailedWith(e, t, spec, token, error, code, retryable)
      && (retryable ==> token.attempt >= t.maxAttempts)
    case CommitUnheard(k, error) => k == i && FailedWith(e, t, spec, token, error, Lit("tool_error"), false)
    case ProviderAnswers(k, response, requestHash, latencyMs, costUsd) =>
      k == i && AnsweredWith(e, t, spec, token, response, requestHash, latencyMs, costUsd)
    case CheckOutcome(k, latencyMs) => k == i && CompletedWith(e, t, spec, token, latencyMs)
    case _ => false
  }

  ghost predicate Said(actions: seq<Action>, n: nat, i: nat, t: Task, spec: Spec, token: Token, e: Event) {
    exists m :: 0 <= m < n && m < |actions| && Causes(actions[m], i, t, spec, token, e)
  }

  // A handler of the step with this key returned this, an absent result being null.
  ghost predicate Returned(s: State, actions: seq<Action>, n: nat, key: Key, v: Json)
    requires Structure(s)
  {
    exists m :: 0 <= m < n && m < |actions| && ReturnedBy(s, actions[m], key, v)
  }

  predicate ReturnedBy(s: State, a: Action, key: Key, v: Json)
    requires Structure(s)
  {
    && a.RunHandler? && a.i < |s.invocations| && KeyOf(s, s.invocations[a.i].token.task) == key
    && v == if a.result.JUndefined? then JNull else a.result
  }

  // ---------------------------------------------------------------- the invariant

  ghost predicate Explained(s: State, actions: seq<Action>, n: nat, i: nat)
    requires Structure(s) && i < |s.invocations|
  {
    var x := s.invocations[i];
    var k := x.token.task;
    && (x.phase.Persisting? || x.phase.PersistFenced? ==>
         Said(actions, n, i, s.tasks[k], s.specs[k], x.token, x.phase.outcome))
    && (x.writes.event.Some? ==> Said(actions, n, i, s.tasks[k], s.specs[k], x.token, x.writes.event.value))
    && (x.phase.Ran? || x.phase.Saved? || x.phase.Reusing? || x.phase.Fenced? ==>
         Returned(s, actions, n, KeyOf(s, k), if x.phase.result.JUndefined? then JNull else x.phase.result))
    && (x.writes.event.Some? && x.writes.event.value.ToolCompleted? ==>
         Returned(s, actions, n, KeyOf(s, k), x.writes.event.value.result))
    && (x.writes.row.Some? && x.writes.row.value.Some? ==>
         Returned(s, actions, n, KeyOf(s, k), x.writes.row.value.value))
  }

  // This row reports what became of one invocation of its step.
  ghost predicate RowExplained(s: State, actions: seq<Action>, n: nat, r: Row)
    requires Structure(s)
  {
    exists i :: 0 <= i < |s.invocations| && ReportsOn(s, actions, n, r, i)
  }

  ghost predicate ReportsOn(s: State, actions: seq<Action>, n: nat, r: Row, i: nat)
    requires Structure(s) && i < |s.invocations|
  {
    var token := s.invocations[i].token;
    && r.workflow == s.tasks[token.task].workflowId
    && Said(actions, n, i, s.tasks[token.task], s.specs[token.task], token, r.event)
    && (r.event.ToolCompleted? ==> Returned(s, actions, n, KeyOf(s, token.task), r.event.result))
  }

  ghost predicate InvocationsExplained(s: State, actions: seq<Action>, n: nat)
    requires Structure(s)
  {
    forall i :: 0 <= i < |s.invocations| ==> Explained(s, actions, n, i)
  }

  ghost predicate AllExplained(s: State, actions: seq<Action>, n: nat)
    requires Structure(s)
  {
    && InvocationsExplained(s, actions, n)
    && (forall a :: 0 <= a < |s.log| ==> RowExplained(s, actions, n, s.log[a]))
    && forall key :: key in s.ledger && s.ledger[key].Some? ==> Returned(s, actions, n, key, s.ledger[key].value)
  }

  // ---------------------------------------------------------------- what stays

  // Steps stay the steps they are, and invocations keep their tokens.
  ghost predicate Frame(s: State, t: State)
    requires Structure(s) && Structure(t)
  {
    && |s.tasks| <= |t.tasks|
    && (forall k :: 0 <= k < |s.tasks| ==> SameIdentity(s.tasks[k], t.tasks[k]) && t.specs[k] == s.specs[k])
    && |s.invocations| <= |t.invocations|
    && (forall i :: 0 <= i < |s.invocations| ==> t.invocations[i].token == s.invocations[i].token)
  }

  lemma RowFrame(s: State, a: Action)
    requires Structure(s) && Enabled(s, a) && OnRows(a) && Structure(Apply(s, a))
    ensures Frame(s, Apply(s, a))
  {
    hide RowLocked, Apart, IsStepTask;
  }

  lemma InsideFrame(s: State, a: Action)
    requires Structure(s) && Enabled(s, a) && !OnRows(a) && Structure(Apply(s, a))
    ensures Frame(s, Apply(s, a)) && Apply(s, a).tasks == s.tasks && Apply(s, a).specs == s.specs
  {
    TokensStep(s, a);
    InsideKeepsRows(s, a);
    hide Apply, Enabled, Structure;
  }

  lemma InsideKeepsRows(s: State, a: Action)
    requires Structure(s) && Enabled(s, a) && !OnRows(a)
    ensures Apply(s, a).tasks == s.tasks && Apply(s, a).specs == s.specs
  {
    hide HasOutcome, RowLocked, ClaimPending, LeaseOwned, KeyOf, AfterError, AfterCommit, FailureOf, CompletedEvent,
      Structure, OwnOutcome;
  }

  lemma FrameStep(s: State, a: Action)
    requires Structure(s) && Enabled(s, a) && Structure(Apply(s, a))
    ensures Frame(s, Apply(s, a))
  {
    hide Apply, Enabled, Structure, Frame;
    if OnRows(a) { RowFrame(s, a); } else { InsideFrame(s, a); }
  }

  lemma CausesSame(a: Action, i: nat, t: Task, u: Task, spec: Spec, token: Token, e: Event)
    requires SameIdentity(t, u) && Causes(a, i, t, spec, token, e)
    ensures Causes(a, i, u, spec, token, e)
  {
  }

  lemma SaidStays(actions: seq<Action>, n: nat, i: nat, t: Task, u: Task, spec: Spec, token: Token, e: Event)
    requires SameIdentity(t, u) && Said(actions, n, i, t, spec, token, e)
    ensures Said(actions, n + 1, i, u, spec, token, e)
  {
    hide Causes, SameIdentity;
    var m :| 0 <= m < n && m < |actions| && Causes(actions[m], i, t, spec, token, e);
    CausesSame(actions[m], i, t, u, spec, token, e);
  }

  lemma ReturnedStays(s: State, t: State, actions: seq<Action>, n: nat, key: Key, v: Json)
    requires Structure(s) && Structure(t) && Frame(s, t) && Returned(s, actions, n, key, v)
    ensures Returned(t, actions, n + 1, key, v)
  {
    var m :| 0 <= m < n && m < |actions| && ReturnedBy(s, actions[m], key, v);
    assert ReturnedBy(t, actions[m], key, v);
  }

  lemma KeyStays(s: State, t: State, k: nat)
    requires Structure(s) && Structure(t) && Frame(s, t) && k < |s.tasks|
    ensures KeyOf(t, k) == KeyOf(s, k)
  {
  }

  lemma ExplainedStays(s: State, t: State, actions: seq<Action>, n: nat, i: nat)
    requires Structure(s) && Structure(t) && Frame(s, t) && i < |s.invocations| && Explained(s, actions, n, i)
    requires t.invocations[i] == s.invocations[i]
    ensures Explained(t, actions, n + 1, i)
  {
    hide Returned, Said, SameIdentity, KeyOf, Apart, IsStepTask;
    var x := s.invocations[i];
    var k, key := x.token.task, KeyOf(s, x.token.task);
    KeyStays(s, t, k);
    if x.phase.Persisting? || x.phase.PersistFenced? {
      SaidStays(actions, n, i, s.tasks[k], t.tasks[k], s.specs[k], x.token, x.phase.outcome);
    }
    if x.writes.event.Some? {
      SaidStays(actions, n, i, s.tasks[k], t.tasks[k], s.specs[k], x.token, x.writes.event.value);
    }
    forall v | Returned(s, actions, n, key, v) ensures Returned(t, actions, n + 1, key, v) {
      ReturnedStays(s, t, actions, n, key, v);
    }
  }

  lemma RowStays(s: State, t: State, actions: seq<Action>, n: nat, r: Row)
    requires Structure(s) && Structure(t) && Frame(s, t) && RowExplained(s, actions, n, r)
    ensures RowExplained(t, actions, n + 1, r)
  {
    hide Returned, Said, KeyOf, Apart, IsStepTask;
    var i :| 0 <= i < |s.invocations| && ReportsOn(s, actions, n, r, i);
    var token := s.invocations[i].token;
    KeyStays(s, t, token.task);
    SaidStays(actions, n, i, s.tasks[token.task], t.tasks[token.task], s.specs[token.task], token, r.event);
    if r.event.ToolCompleted? { ReturnedStays(s, t, actions, n, KeyOf(s, token.task), r.event.result); }
    assert ReportsOn(t, actions, n + 1, r, i);
  }

  // ---------------------------------------------------------------- one step

  lemma SaidNow(actions: seq<Action>, n: nat, i: nat, t: Task, spec: Spec, token: Token, e: Event)
    requires n < |actions| && Causes(actions[n], i, t, spec, token, e)
    ensures Said(actions, n + 1, i, t, spec, token, e)
  {
  }

  lemma FailureSays(t: Task, spec: Spec, token: Token, error: Text, code: Text, retryable: bool)
    requires IsStepTask(t)
    ensures FailedWith(FailureOf(t, spec, token, error, code, retryable), t, spec, token, error, code, retryable)
  {
  }

  // A step that leaves the invocation with nothing to report.
  predicate Blank(a: Action) {
    a.ReadHistory? || a.Begin? || a.CheckLease? || a.CallProvider? || a.Throw? || a.Crash? || a.Report?
  }

  lemma BlankStep(s: State, a: Action, actions: seq<Action>, n: nat)
    requires Inv(s) && Enabled(s, a) && Structure(Apply(s, a)) && Blank(a)
    ensures a.i < |s.invocations| && Explained(Apply(s, a), actions, n + 1, a.i)
  {
    assert Holds(s, a.i);
    hide HasOutcome, OwnOutcome, RowLocked, Exclusive, LedgerHolds, LogHolds, KeysKnown, Apart, KeyOf, AfterError,
      AfterCommit, FailureOf, CompletedEvent, LeaseOwned, ClaimPending, Said, Returned;
  }

  // An error: retried, or about to be recorded.
  lemma ErrorExplained(
    s: State, t: State, actions: seq<Action>, n: nat, i: nat, error: Text, code: Text, retryable: bool)
    requires Structure(s) && Structure(t) && i < |s.invocations| && n < |actions|
    requires var k := s.invocations[i].token.task;
      t == With(s, i, AfterError(s.tasks[k], s.specs[k], s.invocations[i].token, error, code, retryable), NOTHING)
    requires forall e ::
      var k := s.invocations[i].token.task;
      FailedWith(e, s.tasks[k], s.specs[k], s.invocations[i].token, error, code, retryable) &&
      (retryable ==> s.invocations[i].token.attempt >= s.tasks[k].maxAttempts) ==>
        Causes(actions[n], i, s.tasks[k], s.specs[k], s.invocations[i].token, e)
    ensures Explained(t, actions, n + 1, i)
  {
    var token := s.invocations[i].token;
    var u, spec := s.tasks[token.task], s.specs[token.task];
    var e := FailureOf(u, spec, token, error, code, retryable);
    FailureSays(u, spec, token, error, code, retryable);
    hide Causes, FailedWith, FailureOf, Apart, KeyOf;
    if t.invocations[i].phase.Persisting? { SaidNow(actions, n, i, u, spec, token, e); }
  }

  lemma ErrorStep(s: State, a: Action, actions: seq<Action>, n: nat)
    requires Structure(s) && Enabled(s, a) && Structure(Apply(s, a)) && n < |actions| && actions[n] == a
    requires a.Abort? || a.ProviderFails?
    ensures a.i < |s.invocations| && Explained(Apply(s, a), actions, n + 1, a.i)
  {
    hide Structure, FailedWith, Explained, AfterError;
    ErrorExplained(s, Apply(s, a), actions, n, a.i, a.error, a.code, a.retryable);
  }

  lemma RejectStep(s: State, a: Action, actions: seq<Action>, n: nat)
    requires Structure(s) && Enabled(s, a) && Structure(Apply(s, a)) && n < |actions| && actions[n] == a && a.Reject?
    ensures a.i < |s.invocations| && Explained(Apply(s, a), actions, n + 1, a.i)
  {
    var token := s.invocations[a.i].token;
    var u, spec := s.tasks[token.task], s.specs[token.task];
    FailureSays(u, spec, token, a.error, a.code, false);
    SaidNow(actions, n, a.i, u, spec, token, FailureOf(u, spec, token, a.error, a.code, false));
    hide Apart, KeyOf, FailureOf, FailedWith;
  }

  lemma AnswerStep(s: State, a: Action, actions: seq<Action>, n: nat)
    requires Structure(s) && Enabled(s, a) && Structure(Apply(s, a)) && n < |actions| && actions[n] == a
    requires a.ProviderAnswers?
    ensures a.i < |s.invocations| && Explained(Apply(s, a), actions, n + 1, a.i)
  {
    var token := s.invocations[a.i].token;
    SaidNow(
      actions, n, a.i, s.tasks[token.task], s.specs[token.task], token, Apply(s, a).invocations[a.i].phase.outcome);
    hide Apart, KeyOf;
  }

  lemma ClaimStep(s: State, a: Action, actions: seq<Action>, n: nat)
    requires Inv(s) && AllExplained(s, actions, n) && Enabled(s, a) && Structure(Apply(s, a)) && a.Claim?
    requires Frame(s, Apply(s, a))
    ensures a.i < |s.invocations| && Explained(Apply(s, a), actions, n + 1, a.i)
  {
    var t, k := Apply(s, a), s.invocations[a.i].token.task;
    var key := KeyOf(s, k);
    KeyStays(s, t, k);
    hide Apart, KeyOf, ClaimPending, Holds, Exclusive, LogHolds, KeysKnown, Frame, Explained, Returned, RowExplained;
    if key in s.ledger {
      var v := s.ledger[key].value;
      NeverUndefined(s, actions, n, key, v);
      ReturnedStays(s, t, actions, n, key, v);
      ReusingExplained(t, actions, n + 1, a.i, v);
    } else {
      ClaimedExplained(t, actions, n + 1, a.i);
    }
  }

  lemma NeverUndefined(s: State, actions: seq<Action>, n: nat, key: Key, v: Json)
    requires Structure(s) && Returned(s, actions, n, key, v)
    ensures !v.JUndefined?
  {
  }

  lemma ReusingExplained(t: State, actions: seq<Action>, n: nat, i: nat, v: Json)
    requires Structure(t) && i < |t.invocations|
    requires t.invocations[i].phase == Reusing(v) && t.invocations[i].writes == NOTHING
    requires !v.JUndefined? && Returned(t, actions, n, KeyOf(t, t.invocations[i].token.task), v)
    ensures Explained(t, actions, n, i)
  {
  }

  lemma ClaimedExplained(t: State, actions: seq<Action>, n: nat, i: nat)
    requires Structure(t) && i < |t.invocations| && t.invocations[i].phase == Claimed
    requires t.invocations[i].writes == Writes(Some(None), false, None)
    ensures Explained(t, actions, n, i)
  {
  }

  lemma HandlerStep(s: State, a: Action, actions: seq<Action>, n: nat)
    requires Inv(s) && Enabled(s, a) && Structure(Apply(s, a)) && n < |actions| && actions[n] == a && a.RunHandler?
    ensures a.i < |s.invocations| && Explained(Apply(s, a), actions, n + 1, a.i)
  {
    assert Holds(s, a.i);
    var t := Apply(s, a);
    assert ReturnedBy(
      t, actions[n], KeyOf(t, t.invocations[a.i].token.task), if a.result.JUndefined? then JNull else a.result);
    hide HasOutcome, OwnOutcome, Exclusive, LedgerHolds, LogHolds, KeysKnown, Apart, KeyOf;
  }

  // Recording, fencing and checking pass on what is there.
  lemma RecordStep(s: State, a: Action, actions: seq<Action>, n: nat)
    requires Inv(s) && Enabled(s, a) && Structure(Apply(s, a)) && Frame(s, Apply(s, a)) && a.Record?
    requires Explained(s, actions, n, a.i)
    ensures Explained(Apply(s, a), actions, n + 1, a.i)
  {
    var x, t := s.invocations[a.i], Apply(s, a);
    var key, v := KeyOf(s, x.token.task), if x.phase.result.JUndefined? then JNull else x.phase.result;
    KeyStays(s, t, x.token.task);
    ReturnedStays(s, t, actions, n, key, v);
    assert Holds(s, a.i);
    hide HasOutcome, OwnOutcome, Exclusive, LedgerHolds, LogHolds, KeysKnown, Apart, KeyOf, Returned, Said, Structure;
  }

  lemma FenceStep(s: State, a: Action, actions: seq<Action>, n: nat)
    requires Inv(s) && Enabled(s, a) && Structure(Apply(s, a)) && Frame(s, Apply(s, a)) && a.Fence?
    requires Explained(s, actions, n, a.i)
    ensures Explained(Apply(s, a), actions, n + 1, a.i)
  {
    var t := Apply(s, a);
    var x, y := s.invocations[a.i], t.invocations[a.i];
    FenceKeeps(s, a);
    hide Inv, Apply, Enabled;
    SameBusiness(s, t, actions, n, a.i);
  }

  // What an invocation has to report, and by what it is explained, is the same in another phase.
  ghost predicate SameReport(x: Invocation, y: Invocation) {
    && y.token == x.token && (y.writes == x.writes || y.writes == NOTHING)
    && (y.phase.Persisting? || y.phase.PersistFenced? ==> x.phase.Persisting? && x.phase.outcome == y.phase.outcome)
    && (y.phase.Ran? || y.phase.Saved? || y.phase.Reusing? || y.phase.Fenced? ==>
         (x.phase.Ran? || x.phase.Saved? || x.phase.Reusing?) && x.phase.result == y.phase.result)
  }

  lemma FenceKeeps(s: State, a: Action)
    requires Inv(s) && Enabled(s, a) && a.Fence?
    ensures SameReport(s.invocations[a.i], Apply(s, a).invocations[a.i])
  {
    hide HasOutcome, OwnOutcome, RowLocked, Exclusive, LedgerHolds, LogHolds, KeysKnown, Apart, KeyOf, LeaseOwned,
      Holds;
  }

  lemma SameBusiness(s: State, t: State, actions: seq<Action>, n: nat, i: nat)
    requires Structure(s) && Structure(t) && Frame(s, t) && i < |s.invocations| && Explained(s, actions, n, i)
    requires SameReport(s.invocations[i], t.invocations[i])
    ensures Explained(t, actions, n + 1, i)
  {
    var x, y := s.invocations[i], t.invocations[i];
    var k := x.token.task;
    KeyStays(s, t, k);
    var key := KeyOf(s, k);
    hide Structure, Returned, Said, KeyOf, SameIdentity;
    forall e | Said(actions, n, i, s.tasks[k], s.specs[k], x.token, e)
      ensures Said(actions, n + 1, i, t.tasks[k], s.specs[k], x.token, e)
    {
      SaidStays(actions, n, i, s.tasks[k], t.tasks[k], s.specs[k], x.token, e);
    }
    forall v | Returned(s, actions, n, key, v) ensures Returned(t, actions, n + 1, key, v) {
      ReturnedStays(s, t, actions, n, key, v);
    }
  }

  lemma CompletedSays(t: Task, spec: Spec, token: Token, result: Json, latencyMs: int)
    requires IsStepTask(t)
    ensures var e := CompletedEvent(t, spec, token, result, latencyMs);
      && CompletedWith(e, t, spec, token, latencyMs) && e.ToolCompleted?
      && e.result == if result.JUndefined? then JNull else result
  {
  }

  lemma CheckStep(s: State, a: Action, actions: seq<Action>, n: nat)
    requires Inv(s) && Enabled(s, a) && Structure(Apply(s, a)) && Frame(s, Apply(s, a)) && a.CheckOutcome?
    requires n < |actions| && actions[n] == a && Explained(s, actions, n, a.i)
    ensures Explained(Apply(s, a), actions, n + 1, a.i)
  {
    if s.invocations[a.i].phase.Fenced? {
      CheckFenced(s, a, actions, n);
    } else {
      CheckPersist(s, a, actions, n);
    }
  }

  lemma CheckFenced(s: State, a: Action, actions: seq<Action>, n: nat)
    requires Inv(s) && Enabled(s, a) && Structure(Apply(s, a)) && Frame(s, Apply(s, a)) && a.CheckOutcome?
    requires n < |actions| && actions[n] == a && Explained(s, actions, n, a.i) && s.invocations[a.i].phase.Fenced?
    ensures Explained(Apply(s, a), actions, n + 1, a.i)
  {
    var x, t := s.invocations[a.i], Apply(s, a);
    var u, spec, key := s.tasks[x.token.task], s.specs[x.token.task], KeyOf(s, x.token.task);
    var e := CompletedEvent(u, spec, x.token, x.phase.result, a.latencyMs);
    CompletedSays(u, spec, x.token, x.phase.result, a.latencyMs);
    SaidNow(actions, n, a.i, u, spec, x.token, e);
    KeyStays(s, t, x.token.task);
    assert Holds(s, a.i);
    hide HasOutcome, OwnOutcome, Exclusive, LedgerHolds, LogHolds, KeysKnown, Apart, KeyOf, Returned, Said,
      CompletedEvent, CompletedWith, Structure;
    ReturnedStays(s, t, actions, n, key, if x.phase.result.JUndefined? then JNull else x.phase.result);
    if x.writes.row.Some? && x.writes.row.value.Some? {
      ReturnedStays(s, t, actions, n, key, x.writes.row.value.value);
    }
  }

  lemma CheckPersist(s: State, a: Action, actions: seq<Action>, n: nat)
    requires Inv(s) && Enabled(s, a) && Structure(Apply(s, a)) && Frame(s, Apply(s, a)) && a.CheckOutcome?
    requires Explained(s, actions, n, a.i) && s.invocations[a.i].phase.PersistFenced?
    ensures Explained(Apply(s, a), actions, n + 1, a.i)
  {
    var x, t := s.invocations[a.i], Apply(s, a);
    var u, spec := s.tasks[x.token.task], s.specs[x.token.task];
    SaidStays(actions, n, a.i, u, u, spec, x.token, x.phase.outcome);
    assert Holds(s, a.i);
    hide HasOutcome, OwnOutcome, Exclusive, LedgerHolds, LogHolds, KeysKnown, Apart, KeyOf, Returned, Said, Structure;
  }

  // A commit turns what was about to be reported into a row of the log, and a new ledger row into one of the ledger.
  lemma CommitRow(s: State, a: Action, actions: seq<Action>, n: nat)
    requires Inv(s) && AllExplained(s, actions, n) && Enabled(s, a) && (a.Commit? || a.CommitUnheard?)
    requires Structure(Apply(s, a)) && Frame(s, Apply(s, a))
    ensures forall b :: 0 <= b < |Apply(s, a).log| ==> RowExplained(Apply(s, a), actions, n + 1, Apply(s, a).log[b])
  {
    var t := Apply(s, a);
    var x := s.invocations[a.i];
    var k := x.token.task;
    CommitLogIs(s, a);
    assert Explained(s, actions, n, a.i);
    hide Apply, Inv, RowExplained, Said, Returned, Enabled, KeyOf;
    forall b | 0 <= b < |t.log| ensures RowExplained(t, actions, n + 1, t.log[b]) {
      if b < |s.log| {
        assert t.log[b] == s.log[b];
        RowStays(s, t, actions, n, s.log[b]);
      } else {
        NewRow(s, t, actions, n, a.i);
      }
    }
  }

  lemma CommitLogIs(s: State, a: Action)
    requires Structure(s) && Enabled(s, a) && (a.Commit? || a.CommitUnheard?)
    ensures a.i < |s.invocations|
    ensures Apply(s, a).log == CommitLog(s, a.i) && Apply(s, a).ledger == CommitLedger(s, a.i)
  {
    hide Structure, AfterCommit;
  }

  lemma NewRow(s: State, t: State, actions: seq<Action>, n: nat, i: nat)
    requires Structure(s) && Structure(t) && Frame(s, t) && i < |s.invocations| && Explained(s, actions, n, i)
    requires s.invocations[i].writes.event.Some?
    ensures RowExplained(t, actions, n + 1, Row(TaskOf(s, i).workflowId, s.invocations[i].writes.event.value))
  {
    hide Said, Returned, KeyOf;
    var r := Row(TaskOf(s, i).workflowId, s.invocations[i].writes.event.value);
    assert ReportsOn(s, actions, n, r, i);
    assert RowExplained(s, actions, n, r);
    RowStays(s, t, actions, n, r);
  }

  lemma CommitLedgerExplained(s: State, a: Action, actions: seq<Action>, n: nat)
    requires Inv(s) && AllExplained(s, actions, n) && Enabled(s, a) && (a.Commit? || a.CommitUnheard?)
    requires Structure(Apply(s, a)) && Frame(s, Apply(s, a))
    ensures var t := Apply(s, a);
      forall key :: key in t.ledger && t.ledger[key].Some? ==> Returned(t, actions, n + 1, key, t.ledger[key].value)
  {
    var t := Apply(s, a);
    CommitLogIs(s, a);
    assert Explained(s, actions, n, a.i);
    hide Apply, Inv, RowExplained, Said, Returned, Enabled, KeyOf;
    forall key | key in t.ledger && t.ledger[key].Some? ensures Returned(t, actions, n + 1, key, t.ledger[key].value) {
      ReturnedStays(s, t, actions, n, key, t.ledger[key].value);
    }
  }

  lemma CommitterExplained(s: State, a: Action, actions: seq<Action>, n: nat)
    requires Inv(s) && Enabled(s, a) && (a.Commit? || a.CommitUnheard?) && Structure(Apply(s, a))
    requires n < |actions| && actions[n] == a
    ensures a.i < |s.invocations| && Explained(Apply(s, a), actions, n + 1, a.i)
  {
    var t, token := Apply(s, a), s.invocations[a.i].token;
    var u, spec := s.tasks[token.task], s.specs[token.task];
    if a.CommitUnheard? && s.invocations[a.i].phase.Ready? {
      FailureSays(u, spec, token, a.error, TOOL_ERROR, false);
      SaidNow(actions, n, a.i, u, spec, token, FailureOf(u, spec, token, a.error, TOOL_ERROR, false));
    }
    hide Apart, KeyOf, FailureOf, FailedWith, Said, HasOutcome, Inv, Returned;
  }

  // ---------------------------------------------------------------- every run

  lemma OneExplained(s: State, a: Action, actions: seq<Action>, n: nat)
    requires Inv(s) && AllExplained(s, actions, n) && Enabled(s, a) && n < |actions| && actions[n] == a
    requires Structure(Apply(s, a)) && Frame(s, Apply(s, a))
    requires !a.Schedule? && !a.Dequeue? && !a.Reclaim? && !a.Requeue?
    ensures a.i < |s.invocations| && Explained(Apply(s, a), actions, n + 1, a.i)
  {
    HaveStructure(s);
    hide Inv, AllExplained, Apply, Structure, Frame, Explained;
    assert a.i < |s.invocations|;
    assert Explained(s, actions, n, a.i) by { ExplainedAt(s, actions, n, a.i); }
    if Blank(a) {
      BlankStep(s, a, actions, n);
    } else if a.Reject? {
      RejectStep(s, a, actions, n);
    } else if a.Claim? {
      ClaimStep(s, a, actions, n);
    } else if a.RunHandler? {
      HandlerStep(s, a, actions, n);
    } else if a.Record? {
      RecordStep(s, a, actions, n);
    } else if a.Fence? {
      FenceStep(s, a, actions, n);
    } else if a.CheckOutcome? {
      CheckStep(s, a, actions, n);
    } else if a.ProviderAnswers? {
      AnswerStep(s, a, actions, n);
    } else if a.Commit? || a.CommitUnheard? {
      CommitterExplained(s, a, actions, n);
    } else {
      ErrorStep(s, a, actions, n);
    }
  }

  lemma ExplainedAt(s: State, actions: seq<Action>, n: nat, i: nat)
    requires Structure(s) && AllExplained(s, actions, n) && i < |s.invocations|
    ensures Explained(s, actions, n, i)
  {
  }

  lemma AllInvocations(s: State, a: Action, actions: seq<Action>, n: nat)
    requires Inv(s) && AllExplained(s, actions, n) && Enabled(s, a) && n < |actions| && actions[n] == a
    requires Structure(Apply(s, a)) && Frame(s, Apply(s, a))
    ensures InvocationsExplained(Apply(s, a), actions, n + 1)
  {
    var t, later := Apply(s, a), n + 1;
    OthersSame(s, a);
    hide Inv, Apply, Structure, Frame, Explained, RowExplained, Returned, Enabled;
    forall i | 0 <= i < |t.invocations| ensures Explained(t, actions, later, i) {
      if i >= |s.invocations| {
        NewExplained(t, actions, n + 1, i);
      } else if t.invocations[i] == s.invocations[i] {
        ExplainedStays(s, t, actions, n, i);
      } else {
        OneExplained(s, a, actions, n);
      }
    }
  }

  lemma OthersSame(s: State, a: Action)
    requires Structure(s) && Enabled(s, a) && Structure(Apply(s, a))
    ensures var t := Apply(s, a);
      && |s.invocations| <= |t.invocations|
      && (forall i :: 0 <= i < |s.invocations| && t.invocations[i] != s.invocations[i] ==>
           !a.Schedule? && !a.Dequeue? && !a.Reclaim? && !a.Requeue? && i == a.i)
      && (forall i :: |s.invocations| <= i < |t.invocations| ==>
           t.invocations[i].phase == Dispatched && t.invocations[i].writes == NOTHING)
  {
    hide HasOutcome, RowLocked, ClaimPending, LeaseOwned, KeyOf, AfterError, AfterCommit, FailureOf, CompletedEvent,
      Structure, OwnOutcome;
  }

  lemma NewExplained(t: State, actions: seq<Action>, n: nat, i: nat)
    requires Structure(t) && i < |t.invocations|
    requires t.invocations[i].phase == Dispatched && t.invocations[i].writes == NOTHING
    ensures Explained(t, actions, n, i)
  {
  }

  lemma SharedKept(s: State, a: Action)
    requires Structure(s) && Enabled(s, a) && !a.Commit? && !a.CommitUnheard?
    ensures Apply(s, a).log == s.log && Apply(s, a).ledger == s.ledger
  {
    hide HasOutcome, RowLocked, ClaimPending, LeaseOwned, KeyOf, AfterError, FailureOf, CompletedEvent, Structure,
      OwnOutcome;
  }

  lemma ExplainedStep(s: State, a: Action, t: State, actions: seq<Action>, n: nat)
    requires Inv(s) && AllExplained(s, actions, n) && Next(s, a, t) && n < |actions| && actions[n] == a
    ensures Structure(t) && AllExplained(t, actions, n + 1)
  {
    InvStep(s, a, t);
    hide Inv, Explained, RowExplained, Returned, Structure, Apply, Enabled;
    assert Structure(s) && Structure(t) by { HaveStructure(s); HaveStructure(t); }
    FrameStep(s, a);
    AllInvocations(s, a, actions, n);
    if a.Commit? || a.CommitUnheard? {
      CommitRow(s, a, actions, n);
      CommitLedgerExplained(s, a, actions, n);
    } else {
      SharedKept(s, a);
      SharedExplained(s, t, actions, n);
    }
  }

  lemma SharedExplained(s: State, t: State, actions: seq<Action>, n: nat)
    requires Structure(s) && Structure(t) && Frame(s, t) && AllExplained(s, actions, n)
    requires t.log == s.log && t.ledger == s.ledger && InvocationsExplained(t, actions, n + 1)
    ensures AllExplained(t, actions, n + 1)
  {
    hide Explained, RowExplained, Returned, Structure, Frame, InvocationsExplained;
    forall b | 0 <= b < |t.log| ensures RowExplained(t, actions, n + 1, t.log[b]) {
      RowStays(s, t, actions, n, s.log[b]);
    }
    forall key | key in t.ledger && t.ledger[key].Some? ensures Returned(t, actions, n + 1, key, t.ledger[key].value) {
      ReturnedStays(s, t, actions, n, key, s.ledger[key].value);
    }
  }

  lemma HaveStructure(s: State)
    requires Inv(s)
    ensures Structure(s)
  {
  }

  lemma {:induction false} RunExplained(states: seq<State>, actions: seq<Action>, n: nat)
    requires Run(states, actions) && n < |states|
    ensures Structure(states[n]) && AllExplained(states[n], actions, n)
  {
    hide Inv, AllExplained, Structure, Apply, Enabled;
    RunInv(states, actions, n);
    HaveStructure(states[n]);
    if n == 0 {
      NothingToExplain(actions);
    } else {
      RunExplained(states, actions, n - 1);
      RunInv(states, actions, n - 1);
      assert Next(states[n - 1], actions[n - 1], states[n]);
      ExplainedStep(states[n - 1], actions[n - 1], states[n], actions, n - 1);
    }
  }

  lemma NothingToExplain(actions: seq<Action>)
    ensures Structure(INITIAL) && AllExplained(INITIAL, actions, 0)
  {
  }

  // In every run each outcome in the log reports, field by field, a step that one invocation of its task took:
  // a refusal, an error that is final or out of attempts, the provider's answer, or a tool's completion, whose
  // result a handler of the same step returned.
  lemma OutcomesAreReports(states: seq<State>, actions: seq<Action>, n: nat, b: nat) returns (i: nat, m: nat)
    requires Run(states, actions) && n < |states| && b < |states[n].log|
    ensures Structure(states[n]) && i < |states[n].invocations| && m < n && m < |actions|
    ensures var s, token := states[n], states[n].invocations[i].token;
      && s.log[b].workflow == s.tasks[token.task].workflowId
      && Causes(actions[m], i, s.tasks[token.task], s.specs[token.task], token, s.log[b].event)
    ensures var s, token, e := states[n], states[n].invocations[i].token, states[n].log[b].event;
      e.ToolCompleted? ==>
        Returned(s, actions, n, Key(s.tasks[token.task].workflowId, s.specs[token.task].stepId), e.result)
  {
    hide Causes, Returned, Next, Explained, Apart, IsStepTask;
    RunExplained(states, actions, n);
    var s := states[n];
    assert RowExplained(s, actions, n, s.log[b]);
    i :| 0 <= i < |s.invocations| && ReportsOn(s, actions, n, s.log[b], i);
    var token := s.invocations[i].token;
    m :|
      && 0 <= m < n && m < |actions|
      && Causes(actions[m], i, s.tasks[token.task], s.specs[token.task], token, s.log[b].event);
  }

  // And the ledger holds what a handler of its step returned.
  lemma LedgerIsReturned(states: seq<State>, actions: seq<Action>, n: nat, key: Key)
    requires Run(states, actions) && n < |states| && key in states[n].ledger
    ensures Structure(states[n]) && states[n].ledger[key].Some?
    ensures Returned(states[n], actions, n, key, states[n].ledger[key].value)
  {
    RunExplained(states, actions, n);
    hide Explained, Returned, Next, RowExplained, Holds, Exclusive, LogHolds, KeysKnown;
    RunInv(states, actions, n);
  }
}
