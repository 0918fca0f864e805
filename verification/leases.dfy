/** The lease machine of packages/db/src/queue.ts over whole runs, dequeues running side by side. */
module Leases {
  import opened Wrappers
  import opened Texts
  import opened Queue

  // A dequeue statement that has picked and locked its rows but not committed yet.
  datatype Pick = Pick(ids: seq<nat>, worker: Text, until: int)

  datatype Machine = Machine(rows: seq<Task>, picks: map<nat, Pick>)

  datatype Move =
    | Enqueue(task: Task)
    | Select(pick: nat, queue: Text, taskType: Option<TaskType>, limit: nat, now: int, chosen: Pick)
    | Take(pick: nat)
    | Heartbeat(renewed: set<nat>, worker: Text, until: int)
    | Complete(id: nat, worker: Text)
    | Fail(id: nat, worker: Text, error: Text, retryAt: int)
    | Reclaim(ids: seq<nat>, limit: nat, now: int)
    | Requeue(id: nat, now: int)

  predicate Picked(m: Machine, id: nat) {
    exists p :: p in m.picks && id in m.picks[p].ids
  }

  function Locked(m: Machine): set<nat> {
    set i | 0 <= i < |m.rows| && Picked(m, i)
  }

  predicate Fresh(t: Task) {
    t.status == Pending && t.attempt == 0 && t.leasedBy == None && t.leaseExpiresAt == None
  }

  ghost predicate Next(m: Machine, move: Move, n: Machine) {
    match move
    case Enqueue(t) => Fresh(t) && n == m.(rows := m.rows + [t])
    case Select(p, queue, taskType, limit, now, chosen) =>
      && p !in m.picks
      && FirstOf(CandidateKeys(m.rows, queue, taskType, now, Locked(m)), limit, chosen.ids)
      && n == m.(picks := m.picks[p := chosen])
    case Take(p) =>
      && p in m.picks
      && n.picks == m.picks - {p}
      && Updated(m.rows, n.rows, m.picks[p].ids, t => Lease(t, m.picks[p].worker, m.picks[p].until))
    case Heartbeat(ids, worker, until) =>
      && n.picks == m.picks && |n.rows| == |m.rows|
      && forall i :: 0 <= i < |m.rows| ==>
           n.rows[i] == if i in ids then AfterHeartbeat(m.rows[i], worker, until) else m.rows[i]
    case Complete(id, worker) => id < |m.rows| && n == m.(rows := m.rows[id := AfterComplete(m.rows[id], worker)])
    case Fail(id, worker, error, retryAt) =>
      id < |m.rows| && n == m.(rows := m.rows[id := AfterFail(m.rows[id], worker, error, retryAt)])
    case Reclaim(ids, limit, now) =>
      && FirstOf(ExpiredKeys(m.rows, now, Locked(m)), limit, ids)
      && n.picks == m.picks
      && Updated(m.rows, n.rows, ids, Reclaimed)
    case Requeue(id, now) =>
      id < |m.rows| && !RequeueRefused(m.rows, id) && n == m.(rows := m.rows[id := AfterRequeue(m.rows[id], now)])
  }

  ghost predicate Run(states: seq<Machine>, moves: seq<Move>) {
    && |states| == |moves| + 1
    && states[0] == Machine([], map[])
    && forall i :: 0 <= i < |moves| ==> Next(states[i], moves[i], states[i + 1])
  }

  // ---------------------------------------------------------------- what one move does to one row

  predicate Takes(m: Machine, move: Move, id: nat) {
    move.Take? && move.pick in m.picks && id in m.picks[move.pick].ids
  }

  predicate Requeues(m: Machine, move: Move, id: nat) {
    move.Requeue? && move.id == id && id < |m.rows| && m.rows[id].status == Dead
  }

  predicate Fails(m: Machine, move: Move, id: nat) {
    move.Fail? && move.id == id && id < |m.rows| && HeldBy(m.rows[id], move.worker)
  }

  predicate Completes(m: Machine, move: Move, id: nat) {
    move.Complete? && move.id == id && id < |m.rows| && HeldBy(m.rows[id], move.worker)
  }

  predicate Reclaims(m: Machine, move: Move, id: nat) {
    move.Reclaim? && id in move.ids
  }

  predicate Renews(m: Machine, move: Move, id: nat) {
    move.Heartbeat? && id in move.renewed && id < |m.rows| && HeldBy(m.rows[id], move.worker)
  }

  // Rows change in these ways and no other.
  lemma RowStep(m: Machine, move: Move, n: Machine, id: nat)
    requires Next(m, move, n) && id < |m.rows|
    ensures id < |n.rows|
    ensures n.rows[id] ==
      if Takes(m, move, id) then Lease(m.rows[id], m.picks[move.pick].worker, m.picks[move.pick].until)
      else if Requeues(m, move, id) then AfterRequeue(m.rows[id], move.now)
      else if Fails(m, move, id) then AfterFail(m.rows[id], move.worker, move.error, move.retryAt)
      else if Completes(m, move, id) then m.rows[id].(status := Finished)
      else if Reclaims(m, move, id) then Reclaimed(m.rows[id])
      else if Renews(m, move, id) then m.rows[id].(leaseExpiresAt := Some(move.until))
      else m.rows[id]
    ensures Reclaims(m, move, id) ==> m.rows[id].status == Leased
  {
  }

  // ---------------------------------------------------------------- disjoint dequeues

  ghost predicate PicksHold(m: Machine) {
    && (forall p, k :: p in m.picks && 0 <= k < |m.picks[p].ids| ==>
         m.picks[p].ids[k] < |m.rows| && m.rows[m.picks[p].ids[k]].status == Pending)
    && forall p, q, i :: p in m.picks && q in m.picks && p != q && i in m.picks[p].ids ==> i !in m.picks[q].ids
  }

  lemma PicksStep(m: Machine, move: Move, n: Machine)
    requires PicksHold(m) && Next(m, move, n)
    ensures PicksHold(n)
  {
    forall p, k | p in n.picks && 0 <= k < |n.picks[p].ids|
      ensures n.picks[p].ids[k] < |n.rows| && n.rows[n.picks[p].ids[k]].status == Pending
    {
      var id := n.picks[p].ids[k];
      if p in m.picks && n.picks[p] == m.picks[p] {
        assert m.picks[p].ids[k] == id && id in m.picks[p].ids;
        RowStep(m, move, n, id);
      }
    }
    if move.Select? {
      forall i, q | q in m.picks && i in m.picks[q].ids ensures i !in move.chosen.ids {
        var k :| 0 <= k < |m.picks[q].ids| && m.picks[q].ids[k] == i;
        assert Picked(m, i) && i in Locked(m);
      }
    }
  }

  lemma {:induction false} RunPicksHold(states: seq<Machine>, moves: seq<Move>, i: nat)
    requires Run(states, moves) && i < |states|
    ensures PicksHold(states[i])
  {
    if i > 0 {
      RunPicksHold(states, moves, i - 1);
      PicksStep(states[i - 1], moves[i - 1], states[i]);
    }
  }

  // Dequeues in flight together hold no row in common, and every row they hold is still pending.
  lemma DequeuesAreDisjoint(states: seq<Machine>, moves: seq<Move>, i: nat, p: nat, q: nat, id: nat)
    requires Run(states, moves) && i < |states|
    requires p in states[i].picks && q in states[i].picks && id in states[i].picks[p].ids
    requires id in states[i].picks[q].ids
    ensures p == q && id < |states[i].rows| && states[i].rows[id].status == Pending
  {
    RunPicksHold(states, moves, i);
    var k :| 0 <= k < |states[i].picks[p].ids| && states[i].picks[p].ids[k] == id;
  }

  // ---------------------------------------------------------------- attempts

  // How often a task was dequeued since it was last requeued, over the first n moves.
  function Dequeues(states: seq<Machine>, moves: seq<Move>, n: nat, id: nat): nat
    requires |states| == |moves| + 1 && n <= |moves|
  {
    if n == 0 then 0
    else if Takes(states[n - 1], moves[n - 1], id) then Dequeues(states, moves, n - 1, id) + 1
    else if Requeues(states[n - 1], moves[n - 1], id) then 0
    else Dequeues(states, moves, n - 1, id)
  }

  lemma RowsGrow(m: Machine, move: Move, n: Machine)
    requires Next(m, move, n)
    ensures |m.rows| <= |n.rows|
  {
  }

  lemma TakesInRange(m: Machine, move: Move, id: nat)
    requires PicksHold(m) && Takes(m, move, id)
    ensures id < |m.rows| && m.rows[id].status == Pending
  {
    var k :| 0 <= k < |m.picks[move.pick].ids| && m.picks[move.pick].ids[k] == id;
  }

  lemma {:induction false} NotYetDequeued(states: seq<Machine>, moves: seq<Move>, n: nat, id: nat)
    requires Run(states, moves) && n < |states| && id >= |states[n].rows|
    ensures Dequeues(states, moves, n, id) == 0
  {
    if n > 0 {
      hide Next, PicksHold;
      var m, move := states[n - 1], moves[n - 1];
      RowsGrow(m, move, states[n]);
      NotYetDequeued(states, moves, n - 1, id);
      RunPicksHold(states, moves, n - 1);
      if Takes(m, move, id) { TakesInRange(m, move, id); }
    }
  }

  // attempt counts the dequeues since the last requeue, however the lease was lost in between.
  lemma {:induction false} AttemptCountsDequeues(states: seq<Machine>, moves: seq<Move>, n: nat, id: nat)
    requires Run(states, moves) && n < |states| && id < |states[n].rows|
    ensures states[n].rows[id].attempt == Dequeues(states, moves, n, id)
  {
    var m, move := states[n - 1], moves[n - 1];
    assert Next(m, move, states[n]);
    RunPicksHold(states, moves, n - 1);
    if id < |m.rows| {
      AttemptCountsDequeues(states, moves, n - 1, id);
      RowStep(m, move, states[n], id);
    } else {
      NotYetDequeued(states, moves, n - 1, id);
    }
  }

  // ---------------------------------------------------------------- fencing tokens

  // This token will not pass the fence again.
  predicate Spent(t: Task, worker: Text, attempt: nat) {
    t.attempt > attempt || (t.attempt == attempt && !HeldBy(t, worker))
  }

  lemma SpentStays(m: Machine, move: Move, n: Machine, id: nat, worker: Text, attempt: nat)
    requires Next(m, move, n) && id < |m.rows| && Spent(m.rows[id], worker, attempt) && !Requeues(m, move, id)
    ensures id < |n.rows| && Spent(n.rows[id], worker, attempt)
  {
    RowStep(m, move, n, id);
  }

  ghost predicate NeverRequeued(states: seq<Machine>, moves: seq<Move>, i: nat, k: nat, id: nat) {
    forall j :: i <= j < k && j < |moves| && j < |states| ==> !Requeues(states[j], moves[j], id)
  }

  lemma {:induction false} AttemptGrows(states: seq<Machine>, moves: seq<Move>, i: nat, j: nat, id: nat)
    requires Run(states, moves) && i <= j < |states| && id < |states[i].rows| && NeverRequeued(states, moves, i, j, id)
    ensures id < |states[j].rows| && states[j].rows[id].attempt >= states[i].rows[id].attempt
    decreases j
  {
    if i < j {
      AttemptGrows(states, moves, i, j - 1, id);
      RowStep(states[j - 1], moves[j - 1], states[j], id);
    }
  }

  // A token that was good and is not any more is spent.
  lemma LostIsSpent(states: seq<Machine>, moves: seq<Move>, i: nat, j: nat, id: nat, worker: Text, attempt: nat)
    requires Run(states, moves) && i <= j < |states| && id < |states[i].rows| && NeverRequeued(states, moves, i, j, id)
    requires LeaseOwned(states[i].rows[id], worker, attempt)
    requires id < |states[j].rows| && !LeaseOwned(states[j].rows[id], worker, attempt)
    ensures Spent(states[j].rows[id], worker, attempt)
  {
    hide Next, NeverRequeued;
    AttemptGrows(states, moves, i, j, id);
  }

  lemma {:induction false} SpentForGood(
    states: seq<Machine>, moves: seq<Move>, j: nat, k: nat, id: nat, worker: Text, attempt: nat)
    requires Run(states, moves) && j <= k < |states| && id < |states[j].rows| && NeverRequeued(states, moves, j, k, id)
    requires Spent(states[j].rows[id], worker, attempt)
    ensures id < |states[k].rows| && Spent(states[k].rows[id], worker, attempt)
    decreases k
  {
    hide Next, Spent;
    if j < k {
      SpentForGood(states, moves, j, k - 1, id, worker, attempt);
      assert Next(states[k - 1], moves[k - 1], states[k]);
      SpentStays(states[k - 1], moves[k - 1], states[k], id, worker, attempt);
    }
  }

  // Once a token that was good fails the fence it fails until its task is requeued.
  lemma FailedTokenStaysFailed(
    states: seq<Machine>, moves: seq<Move>, i: nat, j: nat, k: nat, id: nat, worker: Text, attempt: nat)
    requires Run(states, moves) && i <= j <= k < |states| && id < |states[i].rows|
    requires NeverRequeued(states, moves, i, k, id)
    requires LeaseOwned(states[i].rows[id], worker, attempt)
    requires id < |states[j].rows| && !LeaseOwned(states[j].rows[id], worker, attempt)
    ensures id < |states[k].rows| && !LeaseOwned(states[k].rows[id], worker, attempt)
  {
    hide Next;
    LostIsSpent(states, moves, i, j, id, worker, attempt);
    SpentForGood(states, moves, j, k, id, worker, attempt);
  }

  // ---------------------------------------------------------------- run_after

  // A pending task stays as it is until it is taken, and no dequeue picks it before its run_after.
  lemma {:induction false} WaitsForRunAfter(states: seq<Machine>, moves: seq<Move>, i: nat, j: nat, id: nat)
    requires Run(states, moves) && i <= j < |states| && id < |states[i].rows| && states[i].rows[id].status == Pending
    requires forall k :: i <= k < j ==> !Takes(states[k], moves[k], id)
    ensures id < |states[j].rows| && states[j].rows[id] == states[i].rows[id]
    ensures j < |moves| && moves[j].Select? && moves[j].now < states[i].rows[id].runAfter ==> id !in moves[j].chosen.ids
    decreases j
  {
    if i < j {
      WaitsForRunAfter(states, moves, i, j - 1, id);
      RowStep(states[j - 1], moves[j - 1], states[j], id);
    }
    if j < |moves| && moves[j].Select? && id in moves[j].chosen.ids {
      assert Next(states[j], moves[j], states[j + 1]);
      PickedAreCandidates(states[j], moves[j], id);
    }
  }

  lemma PickedAreCandidates(m: Machine, move: Move, id: nat)
    requires move.Select? && id in move.chosen.ids
    requires FirstOf(CandidateKeys(m.rows, move.queue, move.taskType, move.now, Locked(m)), move.limit, move.chosen.ids)
    ensures id < |m.rows| && Candidate(m.rows[id], move.queue, move.taskType, move.now)
  {
    var k :| 0 <= k < |move.chosen.ids| && move.chosen.ids[k] == id;
  }

  // A failed attempt is not retried before the time its failure set, such as a provider's Retry-After.
  lemma RetryWaits(states: seq<Machine>, moves: seq<Move>, i: nat, j: nat, id: nat)
    requires Run(states, moves) && i < j < |moves| && Fails(states[i], moves[i], id)
    requires states[i].rows[id].attempt < states[i].rows[id].maxAttempts
    requires forall k :: i < k < j ==> !Takes(states[k], moves[k], id)
    requires moves[j].Select? && moves[j].now < moves[i].retryAt
    ensures id !in moves[j].chosen.ids
  {
    RunPicksHold(states, moves, i);
    RowStep(states[i], moves[i], states[i + 1], id);
    WaitsForRunAfter(states, moves, i + 1, j, id);
  }

  // ---------------------------------------------------------------- completed, dead

  // Completed is absorbing.
  lemma {:induction false} FinishedStays(states: seq<Machine>, moves: seq<Move>, i: nat, j: nat, id: nat)
    requires Run(states, moves) && i <= j < |states| && id < |states[i].rows| && states[i].rows[id].status == Finished
    ensures id < |states[j].rows| && states[j].rows[id].status == Finished
    decreases j
  {
    if i < j {
      FinishedStays(states, moves, i, j - 1, id);
      RunPicksHold(states, moves, j - 1);
      RowStep(states[j - 1], moves[j - 1], states[j], id);
    }
  }

  // Only a failure reported by the holder of the last attempt dead-letters a task.
  lemma DeadIffFailedOut(states: seq<Machine>, moves: seq<Move>, i: nat, id: nat)
    requires Run(states, moves) && i < |moves| && id < |states[i].rows| && states[i].rows[id].status != Dead
    ensures id < |states[i + 1].rows|
    ensures states[i + 1].rows[id].status == Dead <==>
      Fails(states[i], moves[i], id) && Dequeues(states, moves, i, id) >= states[i].rows[id].maxAttempts
  {
    RunPicksHold(states, moves, i);
    AttemptCountsDequeues(states, moves, i, id);
    RowStep(states[i], moves[i], states[i + 1], id);
  }

  // Every lease of the task so far ended, if it did, with a reported failure.
  ghost predicate FailuresOnly(states: seq<Machine>, moves: seq<Move>, n: nat, id: nat) {
    forall j :: 0 <= j < n && j < |moves| && j < |states| ==>
      !Requeues(states[j], moves[j], id) && !Completes(states[j], moves[j], id) && !Reclaims(states[j], moves[j], id)
  }

  function AtLeastOne(n: int): nat { if n < 1 then 1 else n }

  // Then it dead-letters after exactly max_attempts dequeues.
  lemma {:induction false} DeadAfterExactlyMaxAttempts(states: seq<Machine>, moves: seq<Move>, n: nat, id: nat)
    requires Run(states, moves) && n < |states| && id < |states[n].rows| && FailuresOnly(states, moves, n, id)
    ensures var t, max := states[n].rows[id], AtLeastOne(states[n].rows[id].maxAttempts);
      && Dequeues(states, moves, n, id) <= max
      && (t.status == Dead ==> Dequeues(states, moves, n, id) == max)
      && (t.status == Pending ==> Dequeues(states, moves, n, id) < max)
      && (t.status == Leased ==> Dequeues(states, moves, n, id) > 0)
      && t.status != Finished
  {
    AttemptCountsDequeues(states, moves, n, id);
    var m, move := states[n - 1], moves[n - 1];
    assert Next(m, move, states[n]);
    if id < |m.rows| {
      RunPicksHold(states, moves, n - 1);
      DeadAfterExactlyMaxAttempts(states, moves, n - 1, id);
      AttemptCountsDequeues(states, moves, n - 1, id);
      RowStep(m, move, states[n], id);
    }
  }

  // A task whose workers crash and never report anything is dequeued for ever: after n rounds of
  // dequeue and reclaim it is pending with attempt n, whatever its max_attempts.
  lemma {:induction false} CrashLoopNeverDies(queue: Text, worker: Text, maxAttempts: int, n: nat)
    returns (states: seq<Machine>, moves: seq<Move>)
    ensures Run(states, moves)
    ensures var m := states[|states| - 1];
      && m.picks == map[] && |m.rows| == 1
      && m.rows[0] == NewTask(ActivityTask, 1, queue, None, 0, maxAttempts).(attempt := n)
  {
    if n == 0 {
      var t := NewTask(ActivityTask, 1, queue, None, 0, maxAttempts);
      states, moves := [Machine([], map[]), Machine([t], map[])], [Enqueue(t)];
    } else {
      states, moves := CrashLoopNeverDies(queue, worker, maxAttempts, n - 1);
      var m := states[|states| - 1];
      var pick := Pick([0], worker, 10);
      var picked := m.(picks := map[0 := pick]);
      var taken := Machine([Lease(m.rows[0], worker, 10)], map[]);
      var reclaimed := Machine([Reclaimed(taken.rows[0])], map[]);
      var select, reclaim := Select(0, queue, None, 1, 1, pick), Reclaim([0], 1, 11);
      assert CandidateKeys(m.rows, queue, None, 1, Locked(m)) == [Some(0)];
      assert ExpiredKeys(taken.rows, 11, Locked(taken)) == [Some(10)];
      assert Next(m, select, picked) && Next(picked, Take(0), taken) && Next(taken, reclaim, reclaimed);
      states, moves := Extend(states, moves, select, picked);
      states, moves := Extend(states, moves, Take(0), taken);
      states, moves := Extend(states, moves, reclaim, reclaimed);
    }
  }

  lemma Extend(
    states: seq<Machine>, moves: seq<Move>, move: Move, n: Machine) returns (states': seq<Machine>, moves': seq<Move>)
    requires Run(states, moves) && Next(states[|states| - 1], move, n)
    ensures Run(states', moves') && states'[|states'| - 1] == n
  {
    states', moves' := states + [n], moves + [move];
    forall i | 0 <= i < |moves'| ensures Next(states'[i], moves'[i], states'[i + 1]) {
      if i < |moves| { assert Next(states[i], moves[i], states[i + 1]); }
    }
  }
}
