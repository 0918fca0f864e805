/** A run of the step protocol in which requeueing a dead task makes the log deny a committed effect. */
module RequeueExample {
  import opened Wrappers
  import opened Texts
  import opened Json
  import opened Events
  import opened Queue
  import opened StepProtocol
  import opened StepEffects

  // One tool task with one attempt; two invocations of worker w at most are looked at.
  function Fresh(): Task { Queue.NewTask(ToolTask, 1, [], Some(2), 0, 1) }

  const SPEC := Spec(ToolStepId(0), Lit("charge"))
  const KEY := Key(1, ToolStepId(0))
  const FIRST := Token(0, Lit("w"), 1)
  const SECOND := Token(0, Lit("w"), 2)
  const DONE := Writes(Some(Some(JNull)), true, None)

  function One(task: Task, invocations: seq<Invocation>): State {
    State([task], [SPEC], [], map[], [], invocations, [])
  }

  function Failure(): Event { FailureOf(Fresh(), SPEC, SECOND, [], [], true) }

  function Once(): Task { Lease(Fresh(), Lit("w"), 0) }
  function Twice(): Task { Lease(Reclaimed(Once()), Lit("w"), 0) }
  function Buried(): Task { AfterFail(Twice(), Lit("w"), [], 0) }
  function Revived(): Task { Lease(AfterRequeue(Buried(), 0), Lit("w"), 0) }

  function First(p: Phase, w: Writes): Invocation { Invocation(FIRST, p, w, 0) }
  function Second(p: Phase): Invocation { Invocation(SECOND, p, NOTHING, 0) }

  const CLAIMED := Writes(Some(None), false, None)
  const EFFECT := Writes(Some(None), true, None)

  // After the second invocation has recorded its failure.
  function AfterFailure(task: Task, invocations: seq<Invocation>): State {
    One(task, invocations).(log := [Row(1, Failure())])
  }

  // The first invocation runs the tool and loses its lease before the fence. The second fails, records it,
  // and the task dead-letters. Once it is requeued and dequeued by the same worker the first one's token is
  // good again, and it commits the effect.
  function At(n: nat): State {
    if n == 0 then INITIAL
    else if n == 1 then One(Fresh(), [])
    else if n == 2 then One(Once(), [First(Dispatched, NOTHING)])
    else if n == 3 then One(Once(), [First(Checked, NOTHING)])
    else if n == 4 then One(Once(), [First(Began, NOTHING)])
    else if n == 5 then One(Once(), [First(LeaseSeen, NOTHING)])
    else if n == 6 then One(Once(), [First(Claimed, CLAIMED)])
    else if n == 7 then One(Once(), [First(Ran(JNull), EFFECT)])
    else if n == 8 then One(Once(), [First(Saved(JNull), DONE)])
    else if n == 9 then One(Reclaimed(Once()), [First(Saved(JNull), DONE)])
    else if n == 10 then One(Twice(), [First(Saved(JNull), DONE), Second(Dispatched)])
    else if n == 11 then One(Twice(), [First(Saved(JNull), DONE), Second(Checked)])
    else if n == 12 then One(Twice(), [First(Saved(JNull), DONE), Second(Began)])
    else if n == 13 then One(Twice(), [First(Saved(JNull), DONE), Second(Persisting(Failure(), true))])
    else if n == 14 then One(Twice(), [First(Saved(JNull), DONE), Second(PersistFenced(Failure(), true))])
    else if n == 15 then
      One(Twice(),
        [First(Saved(JNull), DONE), Invocation(SECOND, PersistReady(true), Writes(None, false, Some(Failure())), 0)])
    else if n == 16 then AfterFailure(Twice(), [First(Saved(JNull), DONE), Second(Throwing)])
    else if n == 17 then AfterFailure(Buried(), [First(Saved(JNull), DONE), Second(Gone)])
    else if n == 18 then AfterFailure(AfterRequeue(Buried(), 0), [First(Saved(JNull), DONE), Second(Gone)])
    else if n == 19 then AfterFailure(Revived(), [First(Saved(JNull), DONE), Second(Gone), First(Dispatched, NOTHING)])
    else if n == 20 then AfterFailure(Revived(), [First(Fenced(JNull), DONE), Second(Gone), First(Dispatched, NOTHING)])
    else if n == 21 then AfterFailure(Revived(), [First(Ready, DONE), Second(Gone), First(Dispatched, NOTHING)])
    else
      var s := AfterFailure(Revived(), [First(Returning, NOTHING), Second(Gone), First(Dispatched, NOTHING)]);
      s.(ledger := map[KEY := Some(JNull)], effects := [KEY])
  }

  function Do(n: nat): Action {
    if n == 0 then Schedule(Fresh(), SPEC)
    else if n == 1 || n == 9 || n == 18 then Dequeue(0, Lit("w"), 0)
    else if n == 2 then ReadHistory(0)
    else if n == 3 then Begin(0)
    else if n == 4 then CheckLease(0)
    else if n == 5 then Claim(0)
    else if n == 6 then RunHandler(0, JNull)
    else if n == 7 then Record(0)
    else if n == 8 then Reclaim(0)
    else if n == 10 then ReadHistory(1)
    else if n == 11 then Begin(1)
    else if n == 12 then Abort(1, [], [], true)
    else if n == 13 then Fence(1)
    else if n == 14 then CheckOutcome(1, 0)
    else if n == 15 then Commit(1)
    else if n == 16 then Report(1, [], 0)
    else if n == 17 then Requeue(0, 0)
    else if n == 19 then Fence(0)
    else if n == 20 then CheckOutcome(0, 0)
    else Commit(0)
  }

  ghost predicate Follows(n: nat) {
    Next(At(n), Do(n), At(n + 1))
  }

  lemma Starts()
    ensures Follows(0) && Follows(1)
  {
    assert Follows(0);
  }

  lemma Begins()
    ensures Follows(2) && Follows(3)
  {
    assert Follows(2);
  }

  lemma Claims()
    ensures Follows(4) && Follows(5)
  {
    assert Follows(4);
  }

  lemma Runs()
    ensures Follows(6) && Follows(7)
  {
    assert Follows(6);
  }

  lemma LosesLease()
    ensures Follows(8) && Follows(9)
  {
    assert Follows(8);
  }

  lemma SecondStarts()
    ensures Follows(10) && Follows(11)
  {
    assert Follows(10);
  }

  lemma SecondFails()
    ensures Follows(12) && Follows(13)
  {
    assert Follows(12);
  }

  lemma SecondChecks()
    ensures Follows(14)
  {
  }

  lemma SecondRecords()
    ensures Follows(15)
  {
  }

  lemma Buries()
    ensures Follows(16)
  {
  }

  lemma Requeues()
    ensures Follows(17)
  {
  }

  lemma DequeuesAgain()
    ensures Follows(18)
  {
  }

  lemma FencePasses()
    ensures Follows(19)
  {
  }

  lemma FindsOutcome()
    ensures Follows(20)
  {
    assert Settles(Revived(), At(20).log[0].workflow, At(20).log[0].event);
  }

  lemma Commits()
    ensures Follows(21)
  {
  }

  lemma AllFollow()
    ensures forall n :: 0 <= n < 22 ==> Follows(n)
  {
    hide Follows;
    Starts();
    Begins();
    Claims();
    Runs();
    LosesLease();
    SecondStarts();
    SecondFails();
    SecondChecks();
    SecondRecords();
    Buries();
    Requeues();
    DequeuesAgain();
    FencePasses();
    FindsOutcome();
    Commits();
  }

  lemma Endpoints()
    ensures At(0) == INITIAL && Structure(At(22)) && DeniesEffect(At(22))
  {
    assert Settles(At(22).tasks[0], At(22).log[0].workflow, At(22).log[0].event);
    assert KeyOf(At(22), 0) == KEY;
  }

  // With requeues the log can deny an effect that is committed.
  lemma RequeueHidesEffect() returns (states: seq<State>, actions: seq<Action>, n: nat)
    ensures Run(states, actions) && n < |states| && Structure(states[n]) && DeniesEffect(states[n])
  {
    hide At, Do, Next, DeniesEffect, Structure;
    states, actions, n := seq(23, i requires 0 <= i => At(i)), seq(22, i requires 0 <= i => Do(i)), 22;
    AllFollow();
    Endpoints();
    forall m | 0 <= m < |actions| ensures Next(states[m], actions[m], states[m + 1]) { assert Follows(m); }
  }
}
