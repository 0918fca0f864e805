/** A run of the event store in which an event is appended and no live workflow task is left to see it. */
module WakeupExample {
  import opened Wrappers
  import opened Json
  import opened Events
  import opened Queue
  import opened EventStore
  import opened StoreRuns
  import Fold = WorkflowFold

  const START := WorkflowStarted([], JNull)
  const ASK := CancellationRequested(None)
  const ONE := [Stored(1, START)]
  const TWO := [Stored(2, ASK)]

  function WaitingTask(): Task { NewTask(WorkflowTask, 1, DEFAULT_QUEUE, None, 0, DEFAULT_MAX_ATTEMPTS) }
  function LeasedTask(): Task { Lease(WaitingTask(), [], 0) }
  function DoneTask(): Task { LeasedTask().(status := Finished) }

  function Created(): Db { Db(map[1 := Fold.RUNNING], map[], []) }
  function Started(t: Task): Db { Db(map[1 := Fold.RUNNING], map[1 := ONE], [t]) }

  // The workflow task is leased while a cancellation request is appended. The append's own workflow task is
  // swallowed, the leased one, which read the history before, completes, and then the append commits.
  function At(n: nat): World {
    if n == 0 then EMPTY
    else if n == 1 then World(Created(), map[])
    else if n == 2 then World(Created(), map[0 := Locked(1, [START])])
    else if n == 3 then World(Created(), map[0 := Wrote(1, ONE, [])])
    else if n == 4 then World(Created(), map[0 := Woke(1, ONE, [], Some(WaitingTask()))])
    else if n == 5 then World(Started(WaitingTask()), map[])
    else if n == 6 then World(Started(LeasedTask()), map[])
    else if n == 7 then World(Started(LeasedTask()), map[0 := Locked(1, [ASK])])
    else if n == 8 then World(Started(LeasedTask()), map[0 := Wrote(1, TWO, [])])
    else if n == 9 then World(Started(LeasedTask()), map[0 := Woke(1, TWO, [], None)])
    else if n == 10 then World(Started(DoneTask()), map[0 := Woke(1, TWO, [], None)])
    else World(Db(map[1 := Fold.RUNNING], map[1 := ONE + TWO], [DoneTask()]), map[])
  }

  function Do(n: nat): Move {
    if n == 0 then Create(1)
    else if n == 1 then Lock(0, 1, [START])
    else if n == 2 || n == 7 then Write(0, 0)
    else if n == 3 || n == 8 then Enqueue(0, 0)
    else if n == 5 then TaskMove(0, LeasedTask())
    else if n == 6 then Lock(0, 1, [ASK])
    else if n == 9 then TaskMove(0, DoneTask())
    else Commit(0)
  }

  ghost predicate Follows(n: nat) {
    Next(At(n), Do(n), At(n + 1))
  }

  lemma NoTasks()
    ensures TasksFor(1, ONE, 0) == [] && TasksFor(1, TWO, 0) == []
    ensures Stamp(0, [START]) == ONE && Stamp(1, [ASK]) == TWO
  {
    assert ONE[..0] == [] && TWO[..0] == [];
  }

  lemma Folds()
    ensures Fold.FoldEvents(ONE).Some? && Fold.FoldEvents(ONE).value.status == Fold.RUNNING
    ensures Fold.FoldEvents(ONE + TWO).Some? && Fold.FoldEvents(ONE + TWO).value.status == Fold.RUNNING
  {
    Fold.FoldThrowsIff(ONE);
    Fold.FoldThrowsIff(ONE + TWO);
    Fold.FoldStatus(ONE);
    Fold.FoldStatus(ONE + TWO);
    assert ONE[..0] == [] && (ONE + TWO)[..1] == ONE;
  }

  lemma FirstAppend()
    ensures Follows(0) && Follows(1) && Follows(2) && Follows(3)
  {
    NoTasks();
    hide TasksFor;
    assert Follows(0);
    assert Follows(1);
    assert Follows(2);
  }

  lemma FirstCommit()
    ensures Follows(4)
  {
    Folds();
  }

  lemma SecondAppend()
    ensures Follows(5) && Follows(6) && Follows(7)
  {
    NoTasks();
    hide TasksFor;
    assert Follows(5);
    assert Follows(6);
  }

  lemma Swallowed()
    ensures Follows(8) && Follows(9)
  {
    assert LiveWorkflowTask(Started(LeasedTask()).tasks[0], 1);
    assert HasLive(Started(LeasedTask()).tasks, 1);
  }

  lemma SecondCommit()
    ensures Follows(10)
  {
    Folds();
  }

  // A wake-up can be lost.
  lemma WakeupCanBeLost() returns (states: seq<World>, moves: seq<Move>)
    ensures Run(states, moves) && |states| == 12
    ensures LogOf(states[11].db.logs, 1) == ONE + TWO && !HasLive(states[11].db.tasks, 1)
  {
    states, moves := seq(12, i requires 0 <= i => At(i)), seq(11, i requires 0 <= i => Do(i));
    Ends();
    hide At, Do, Follows, Next, HasLive, LogOf;
    FirstAppend();
    FirstCommit();
    SecondAppend();
    Swallowed();
    SecondCommit();
    forall m | 0 <= m < |moves| ensures Next(states[m], moves[m], states[m + 1]) { Unfold(m); }
  }

  lemma Ends()
    ensures At(0) == EMPTY && LogOf(At(11).db.logs, 1) == ONE + TWO && !HasLive(At(11).db.tasks, 1)
  {
  }

  lemma Unfold(n: nat)
    requires Follows(n)
    ensures Next(At(n), Do(n), At(n + 1))
  {
  }
}
