/** Provider calls are bounded by dequeues, and stop once an outcome is recorded. */
module StepLimits {
  import opened Texts
  import opened Queue
  import opened StepProtocol
  import opened StepSafety

  // ---------------------------------------------------------------- who calls the provider

  predicate MayStillCall(p: Phase) {
    p == Dispatched || p == Checked
  }

  // The history this invocation has read holds no outcome of its step.
  predicate ReadNoOutcome(s: State, i: nat)
    requires Structure(s) && i < |s.invocations|
  {
    s.invocations[i].seen <= |s.log| && !HasOutcome(s.log[..s.invocations[i].seen], TaskOf(s, i))
  }

  ghost predicate CallsHold(s: State)
    requires Structure(s)
  {
    && (forall a :: 0 <= a < |s.calls| ==>
         s.calls[a] < |s.invocations| && !MayStillCall(s.invocations[s.calls[a]].phase) && ReadNoOutcome(s, s.calls[a]))
    && (forall a, b :: 0 <= a < b < |s.calls| ==> s.calls[a] != s.calls[b])
    && (forall i :: 0 <= i < |s.invocations| && s.invocations[i].phase == Checked ==> ReadNoOutcome(s, i))
  }

  // One invocation over one step, apart from a call.
  predicate Steady(s: State, t: State, i: nat)
    requires Structure(s) && Structure(t) && i < |s.invocations| && i < |t.invocations|
  {
    var x, y := s.invocations[i], t.invocations[i];
    && y.token == x.token
    && (x.phase != Dispatched ==> y.seen == x.seen)
    && (!MayStillCall(x.phase) ==> !MayStillCall(y.phase))
    && (y.phase == Checked ==> x.phase == Checked || (y.seen == |s.log| && !HasOutcome(s.log, TaskOf(s, i))))
  }

  ghost predicate AllSteady(s: State, t: State)
    requires Structure(s) && Structure(t)
  {
    && s.log <= t.log
    && |s.tasks| <= |t.tasks| && (forall k :: 0 <= k < |s.tasks| ==> SameIdentity(s.tasks[k], t.tasks[k]))
    && |s.invocations| <= |t.invocations|
    && (forall i :: 0 <= i < |s.invocations| ==> Steady(s, t, i))
    && (forall i :: |s.invocations| <= i < |t.invocations| ==> t.invocations[i].phase == Dispatched)
  }

  lemma SteadyInside(s: State, i: nat, x: Invocation, calls: seq<nat>)
    requires Structure(s) && i < |s.invocations|
    requires var t := s.(invocations := s.invocations[i := x], calls := calls);
      x.token == s.invocations[i].token && Structure(t) && Steady(s, t, i)
    ensures AllSteady(s, s.(invocations := s.invocations[i := x], calls := calls))
  {
    hide HasOutcome, Apart, Structure;
  }

  lemma SteadyCommit(s: State, i: nat, heard: bool, error: Text)
    requires Structure(s) && i < |s.invocations| && AtCommit(s.invocations[i].phase)
    requires Structure(CommitOf(s, i, heard, error))
    ensures AllSteady(s, CommitOf(s, i, heard, error))
  {
    hide HasOutcome, Apart, Structure;
  }

  // The actions that change a task row, or add one.
  predicate OnRows(a: Action) {
    a.Schedule? || a.Dequeue? || a.Reclaim? || a.Requeue? || a.Report?
  }

  lemma SteadyRows(s: State, a: Action)
    requires Structure(s) && Enabled(s, a) && OnRows(a)
    requires Structure(Apply(s, a))
    ensures AllSteady(s, Apply(s, a)) && Apply(s, a).calls == s.calls
  {
    hide HasOutcome, Apart, RowLocked;
  }

  lemma SteadyStep(s: State, a: Action)
    requires Structure(s) && Enabled(s, a) && Structure(Apply(s, a))
    ensures AllSteady(s, Apply(s, a))
    ensures Apply(s, a).calls == if a.CallProvider? then s.calls + [a.i] else s.calls
  {
    if a.Commit? || a.CommitUnheard? {
      SteadyCommit(s, a.i, a.Commit?, if a.Commit? then [] else a.error);
      hide Structure, AllSteady;
    } else {
      hide Enabled, Structure, Apply, AllSteady;
      if OnRows(a) { SteadyRows(s, a); } else { SteadyMove(s, a); }
    }
  }

  lemma SteadyMove(s: State, a: Action)
    requires Structure(s) && Enabled(s, a) && Structure(Apply(s, a)) && !OnRows(a) && !a.Commit? && !a.CommitUnheard?
    ensures AllSteady(s, Apply(s, a))
    ensures Apply(s, a).calls == if a.CallProvider? then s.calls + [a.i] else s.calls
  {
    hide HasOutcome, RowLocked, ClaimPending, AllSteady, Structure, LeaseOwned, OwnOutcome, KeyOf, FailureOf,
      CompletedEvent;
    var t := Apply(s, a);
    SteadyInside(s, a.i, t.invocations[a.i], t.calls);
    assert t == s.(invocations := s.invocations[a.i := t.invocations[a.i]], calls := t.calls);
  }

  lemma SameReading(s: State, t: State, i: nat)
    requires Structure(s) && Structure(t) && AllSteady(s, t) && i < |s.invocations|
    requires s.invocations[i].phase != Dispatched
    requires ReadNoOutcome(s, i)
    ensures ReadNoOutcome(t, i)
  {
    assert Steady(s, t, i);
    assert SameIdentity(s.tasks[s.invocations[i].token.task], t.tasks[s.invocations[i].token.task]);
    assert t.log[..t.invocations[i].seen] == s.log[..s.invocations[i].seen];
    var u, v := TaskOf(s, i), TaskOf(t, i);
    assert forall w, e :: Settles(u, w, e) == Settles(v, w, e);
  }

  lemma FreshReading(s: State, t: State, i: nat)
    requires Structure(s) && Structure(t) && AllSteady(s, t) && i < |s.invocations|
    requires t.invocations[i].seen == |s.log| && !HasOutcome(s.log, TaskOf(s, i))
    ensures ReadNoOutcome(t, i)
  {
    assert Steady(s, t, i);
    assert SameIdentity(s.tasks[s.invocations[i].token.task], t.tasks[s.invocations[i].token.task]);
    assert t.log[..|s.log|] == s.log;
    var u, v := TaskOf(s, i), TaskOf(t, i);
    assert forall w, e :: Settles(u, w, e) == Settles(v, w, e);
  }

  lemma CheckedStep(s: State, t: State)
    requires Structure(s) && Structure(t) && CallsHold(s) && AllSteady(s, t)
    ensures forall i :: 0 <= i < |t.invocations| && t.invocations[i].phase == Checked ==> ReadNoOutcome(t, i)
  {
    hide ReadNoOutcome, HasOutcome, Structure, Apart;
    forall i | 0 <= i < |t.invocations| && t.invocations[i].phase == Checked ensures ReadNoOutcome(t, i) {
      assert Steady(s, t, i);
      if s.invocations[i].phase == Checked { SameReading(s, t, i); } else { FreshReading(s, t, i); }
    }
  }

  lemma CalledStep(s: State, t: State, i: nat)
    requires Structure(s) && Structure(t) && AllSteady(s, t) && i < |s.invocations|
    requires s.invocations[i].phase != Dispatched && ReadNoOutcome(s, i)
    requires MayStillCall(s.invocations[i].phase) ==> i < |t.invocations| && !MayStillCall(t.invocations[i].phase)
    ensures i < |t.invocations| && !MayStillCall(t.invocations[i].phase) && ReadNoOutcome(t, i)
  {
    hide ReadNoOutcome, HasOutcome, Structure, Apart;
    assert Steady(s, t, i);
    SameReading(s, t, i);
  }

  lemma CallsStep(s: State, a: Action)
    requires Structure(s) && CallsHold(s) && Enabled(s, a) && Structure(Apply(s, a))
    ensures CallsHold(Apply(s, a))
  {
    var t := Apply(s, a);
    SteadyStep(s, a);
    assert a.CallProvider? ==>
      a.i < |s.invocations| && s.invocations[a.i].phase == Checked && t.invocations[a.i].phase == Calling;
    hide Apply, Enabled, ReadNoOutcome, HasOutcome, Structure, AllSteady;
    CheckedStep(s, t);
    forall b | 0 <= b < |t.calls|
      ensures t.calls[b] < |t.invocations| && !MayStillCall(t.invocations[t.calls[b]].phase)
      ensures ReadNoOutcome(t, t.calls[b])
    {
      CalledStep(s, t, t.calls[b]);
    }
  }

  lemma {:induction false} RunCalls(states: seq<State>, actions: seq<Action>, n: nat)
    requires Run(states, actions) && n < |states|
    ensures Structure(states[n]) && CallsHold(states[n])
  {
    hide Structure, CallsHold, Enabled, Apply;
    RunStructure(states, actions, n);
    if n == 0 {
      NoCallsYet();
    } else {
      RunCalls(states, actions, n - 1);
      assert Next(states[n - 1], actions[n - 1], states[n]);
      CallsStep(states[n - 1], actions[n - 1]);
    }
  }

  lemma NoCallsYet()
    ensures Structure(INITIAL) && CallsHold(INITIAL)
  {
  }

  lemma RunStructure(states: seq<State>, actions: seq<Action>, n: nat)
    requires Run(states, actions) && n < |states|
    ensures Structure(states[n])
  {
    hide Structure, Next;
    RunInv(states, actions, n);
  }

  // An invocation that has called the provider had read a history without an outcome of its step; one
  // that finds an outcome recorded returns without calling.
  lemma NoCallOnceRecorded(states: seq<State>, actions: seq<Action>, n: nat, i: nat)
    requires Run(states, actions) && n < |states| && i < |states[n].invocations|
    ensures Structure(states[n])
    ensures i in states[n].calls ==> ReadNoOutcome(states[n], i)
  {
    RunCalls(states, actions, n);
  }

  // ---------------------------------------------------------------- counting

  function CountIn(xs: seq<nat>, d: set<nat>): nat {
    if xs == [] then 0 else CountIn(xs[..|xs| - 1], d) + if xs[|xs| - 1] in d then 1 else 0
  }

  lemma {:induction false} CountWithout(xs: seq<nat>, d: set<nat>, x: nat)
    requires x !in xs
    ensures CountIn(xs, d - {x}) == CountIn(xs, d)
  {
    if xs != [] { CountWithout(xs[..|xs| - 1], d, x); }
  }

  lemma {:induction false} DistinctFit(xs: seq<nat>, d: set<nat>)
    requires forall a, b :: 0 <= a < b < |xs| ==> xs[a] != xs[b]
    ensures CountIn(xs, d) <= |d|
  {
    if xs != [] {
      var n := |xs| - 1;
      if xs[n] in d {
        DistinctFit(xs[..n], d - {xs[n]});
        CountWithout(xs[..n], d, xs[n]);
      } else {
        DistinctFit(xs[..n], d);
      }
    }
  }

  function InvocationsOf(s: State, k: nat): set<nat> {
    set i | 0 <= i < |s.invocations| && s.invocations[i].token.task == k
  }

  function DequeuesOf(actions: seq<Action>, n: nat, k: nat): nat
    requires n <= |actions|
  {
    if n == 0 then 0
    else DequeuesOf(actions, n - 1, k) + if actions[n - 1].Dequeue? && actions[n - 1].id == k then 1 else 0
  }

  lemma {:induction false} OneInvocationPerDequeue(states: seq<State>, actions: seq<Action>, n: nat, k: nat)
    requires Run(states, actions) && n < |states|
    ensures |InvocationsOf(states[n], k)| == DequeuesOf(actions, n, k)
  {
    if n == 0 {
      assert InvocationsOf(states[0], k) == {};
    } else {
      OneInvocationPerDequeue(states, actions, n - 1, k);
      var s, a, t := states[n - 1], actions[n - 1], states[n];
      assert Next(s, a, t);
      InvocationsStep(s, a, k);
    }
  }

  // Tokens stay, and a dequeue hands out one more.
  ghost predicate TokensStay(s: State, a: Action, t: State) {
    && |t.invocations| == |s.invocations| + (if a.Dequeue? then 1 else 0)
    && (a.Dequeue? ==> t.invocations[|s.invocations|].token.task == a.id)
    && forall i :: 0 <= i < |s.invocations| ==> t.invocations[i].token == s.invocations[i].token
  }

  lemma CommitTokens(s: State, i: nat, heard: bool, error: Text)
    requires Structure(s) && i < |s.invocations|
    ensures var t := CommitOf(s, i, heard, error);
      |t.invocations| == |s.invocations| && forall j :: 0 <= j < |s.invocations| ==>
        t.invocations[j].token == s.invocations[j].token
  {
    hide Structure, AfterCommit, KeyOf;
  }

  lemma RowTokens(s: State, a: Action)
    requires Structure(s) && Enabled(s, a) && OnRows(a)
    ensures TokensStay(s, a, Apply(s, a))
  {
    hide Structure, RowLocked, Apart, IsStepTask;
  }

  lemma InsideTokens(s: State, a: Action)
    requires Structure(s) && Enabled(s, a) && !OnRows(a) && !a.Commit? && !a.CommitUnheard?
    ensures TokensStay(s, a, Apply(s, a))
  {
    hide HasOutcome, RowLocked, ClaimPending, LeaseOwned, KeyOf, AfterError, FailureOf, CompletedEvent, Structure,
      OwnOutcome;
  }

  lemma TokensStep(s: State, a: Action)
    requires Structure(s) && Enabled(s, a)
    ensures TokensStay(s, a, Apply(s, a))
  {
    if a.Commit? || a.CommitUnheard? {
      CommitTokens(s, a.i, a.Commit?, if a.Commit? then [] else a.error);
    } else {
      hide Enabled, Structure, Apply, TokensStay;
      if OnRows(a) { RowTokens(s, a); } else { InsideTokens(s, a); }
    }
  }

  lemma OneMore(d: set<nat>, x: nat)
    requires x !in d
    ensures |d + {x}| == |d| + 1
  {
  }

  lemma InvocationsStep(s: State, a: Action, k: nat)
    requires Structure(s) && Enabled(s, a)
    ensures |InvocationsOf(Apply(s, a), k)| == |InvocationsOf(s, k)| + if a.Dequeue? && a.id == k then 1 else 0
  {
    TokensStep(s, a);
    hide Apply, Enabled, Structure;
    var t := Apply(s, a);
    if a.Dequeue? && a.id == k {
      assert InvocationsOf(t, k) == InvocationsOf(s, k) + {|s.invocations|};
      OneMore(InvocationsOf(s, k), |s.invocations|);
    } else {
      assert InvocationsOf(t, k) == InvocationsOf(s, k);
    }
  }

  // The provider is called for a step at most as often as its task was dequeued.
  lemma ProviderCallsBounded(states: seq<State>, actions: seq<Action>, n: nat, k: nat)
    requires Run(states, actions) && n < |states|
    ensures CountIn(states[n].calls, InvocationsOf(states[n], k)) <= DequeuesOf(actions, n, k)
  {
    hide Structure, Next;
    RunCalls(states, actions, n);
    DistinctFit(states[n].calls, InvocationsOf(states[n], k));
    OneInvocationPerDequeue(states, actions, n, k);
  }
}
