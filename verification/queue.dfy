/** packages/db/src/queue.ts and dlq.ts: the tasks table. A task's id is its index, as ids count up. */
module Queue {
  import opened Wrappers
  import opened Texts

  datatype TaskType = WorkflowTask | ActivityTask | TimerTask | LlmTask | ToolTask

  datatype Status = Pending | Leased | Finished | Dead

  datatype Task = Task(
    taskType: TaskType, workflowId: nat, queue: Text, scheduledEventSeq: Option<nat>, status: Status, runAfter: int,
    attempt: nat, maxAttempts: int, lastError: Option<Text>, leasedBy: Option<Text>, leaseExpiresAt: Option<int>)

  // The columns no statement ever changes.
  predicate SameIdentity(t: Task, u: Task) {
    t.taskType == u.taskType && t.workflowId == u.workflowId && t.scheduledEventSeq == u.scheduledEventSeq &&
      t.maxAttempts == u.maxAttempts
  }

  // ---------------------------------------------------------------- what each statement does to a row

  function NewTask(
    taskType: TaskType, workflowId: nat, queue: Text, scheduledEventSeq: Option<nat>, runAfter: int,
    maxAttempts: int): Task {
    Task(taskType, workflowId, queue, scheduledEventSeq, Pending, runAfter, 0, maxAttempts, None, None, None)
  }

  // The partial unique index one_workflow_task_per_wf covers these rows.
  predicate LiveWorkflowTask(t: Task, workflowId: nat) {
    t.taskType == WorkflowTask && t.workflowId == workflowId && (t.status == Pending || t.status == Leased)
  }

  // Making this dead task pending again would put two live workflow tasks under the index.
  predicate RequeueRefused(rows: seq<Task>, id: nat)
    requires id < |rows|
  {
    rows[id].status == Dead && rows[id].taskType == WorkflowTask &&
    exists j :: 0 <= j < |rows| && LiveWorkflowTask(rows[j], rows[id].workflowId)
  }

  predicate Candidate(t: Task, queue: Text, taskType: Option<TaskType>, now: int) {
    t.status == Pending && t.queue == queue && t.runAfter <= now && (taskType.None? || t.taskType == taskType.value)
  }

  function Lease(t: Task, worker: Text, until: int): Task {
    t.(status := Leased, leasedBy := Some(worker), leaseExpiresAt := Some(until), attempt := t.attempt + 1)
  }

  predicate HeldBy(t: Task, worker: Text) {
    t.status == Leased && t.leasedBy == Some(worker)
  }

  // The fencing token of a dequeue: who holds the lease, and the attempt it was handed out with.
  predicate LeaseOwned(t: Task, worker: Text, attempt: nat) {
    HeldBy(t, worker) && t.attempt == attempt
  }

  function AfterHeartbeat(t: Task, worker: Text, until: int): Task {
    if HeldBy(t, worker) then t.(leaseExpiresAt := Some(until)) else t
  }

  function AfterComplete(t: Task, worker: Text): Task {
    if HeldBy(t, worker) then t.(status := Finished) else t
  }

  function AfterFail(t: Task, worker: Text, error: Text, retryAt: int): Task {
    if !HeldBy(t, worker) then t
    else
      var exhausted := t.attempt >= t.maxAttempts;
      t.(status := if exhausted then Dead else Pending,
        runAfter := if exhausted then t.runAfter else retryAt,
        lastError := Some(error), leasedBy := None, leaseExpiresAt := None)
  }

  predicate Expired(t: Task, now: int) {
    t.status == Leased && t.leaseExpiresAt.Some? && t.leaseExpiresAt.value < now
  }

  function Reclaimed(t: Task): Task {
    t.(status := Pending, leasedBy := None, leaseExpiresAt := None)
  }

  function AfterRequeue(t: Task, now: int): Task {
    if t.status == Dead then t.(status := Pending, attempt := 0, runAfter := now, lastError := None) else t
  }

  // ---------------------------------------------------------------- ORDER BY ... LIMIT ... FOR UPDATE SKIP LOCKED

  // One sort key per row that qualifies; ties go by id.
  type Keys = seq<Option<int>>

  predicate Before(keys: Keys, i: nat, j: nat)
    requires i < |keys| && j < |keys| && keys[i].Some? && keys[j].Some?
  {
    keys[i].value < keys[j].value || (keys[i].value == keys[j].value && i < j)
  }

  // The first rows in order, at most `limit` of them, leaving out only later ones.
  ghost predicate FirstOf(keys: Keys, limit: nat, ids: seq<nat>) {
    && |ids| <= limit
    && (forall k :: 0 <= k < |ids| ==> ids[k] < |keys| && keys[ids[k]].Some?)
    && (forall k, l :: 0 <= k < l < |ids| ==> Before(keys, ids[k], ids[l]))
    && (forall i :: 0 <= i < |keys| && keys[i].Some? && i !in ids ==>
         forall k :: 0 <= k < |ids| ==> Before(keys, ids[k], i))
    && (forall i :: 0 <= i < |keys| && keys[i].Some? && i !in ids ==> |ids| == limit)
  }

  // There is only one such selection.
  lemma {:induction false} FirstOfUnique(keys: Keys, limit: nat, xs: seq<nat>, ys: seq<nat>, n: nat)
    requires FirstOf(keys, limit, xs) && FirstOf(keys, limit, ys) && n <= |xs|
    ensures n <= |ys| && xs[..n] == ys[..n]
  {
    if n > 0 {
      FirstOfUnique(keys, limit, xs, ys, n - 1);
      assert forall k :: 0 <= k < n - 1 ==> xs[k] == xs[..n - 1][k] == ys[..n - 1][k] == ys[k];
      assert xs[n - 1] in ys ==> n <= |ys|;
      assert n <= |ys|;
      var x, y := xs[n - 1], ys[n - 1];
      assert x == y;
      assert xs[..n] == xs[..n - 1] + [x] && ys[..n] == ys[..n - 1] + [y];
    }
  }

  method PickFirst(keys: Keys, limit: nat) returns (ids: seq<nat>)
    ensures FirstOf(keys, limit, ids)
  {
    ids := [];
    while |ids| < limit
      invariant |ids| <= limit
      invariant forall k :: 0 <= k < |ids| ==> ids[k] < |keys| && keys[ids[k]].Some?
      invariant forall k, l :: 0 <= k < l < |ids| ==> Before(keys, ids[k], ids[l])
      invariant forall i :: 0 <= i < |keys| && keys[i].Some? && i !in ids ==>
        forall k :: 0 <= k < |ids| ==> Before(keys, ids[k], i)
    {
      var best: Option<nat> := None;
      for i := 0 to |keys|
        invariant best.Some? ==> best.value < i && keys[best.value].Some? && best.value !in ids
        invariant forall j :: 0 <= j < i && keys[j].Some? && j !in ids ==>
          best.Some? && (j == best.value || Before(keys, best.value, j))
      {
        if keys[i].Some? && i !in ids && (best.None? || keys[i].value < keys[best.value].value) {
          best := Some(i);
        }
      }
      if best.None? { break; }
      ids := ids + [best.value];
    }
  }

  // The rows at `ids` changed by f, and no others.
  ghost predicate Updated(before: seq<Task>, after: seq<Task>, ids: seq<nat>, f: Task -> Task) {
    && |after| == |before|
    && forall i :: 0 <= i < |before| ==> after[i] == if i in ids then f(before[i]) else before[i]
  }

  // ---------------------------------------------------------------- the table

  class TaskQueue {
    var rows: seq<Task>

    constructor ()
      ensures rows == []
    {
      rows := [];
    }

    // enqueue: the unique index swallows a second live workflow task.
    method Enqueue(
      taskType: TaskType, workflowId: nat, queue: Text, scheduledEventSeq: Option<nat>, runAfter: int,
      maxAttempts: int)
      returns (id: Option<nat>)
      modifies this
      ensures id.None? <==>
        taskType == WorkflowTask && exists i :: 0 <= i < |old(rows)| && LiveWorkflowTask(old(rows)[i], workflowId)
      ensures id.None? ==> rows == old(rows)
      ensures id.Some? ==>
        && id.value == |old(rows)|
        && rows == old(rows) + [NewTask(taskType, workflowId, queue, scheduledEventSeq, runAfter, maxAttempts)]
      ensures id.None? <==>
        && taskType == WorkflowTask
        && exists i ::
             && 0 <= i < |old(rows)| && old(rows)[i].taskType == WorkflowTask && old(rows)[i].workflowId == workflowId
             && (old(rows)[i].status == Pending || old(rows)[i].status == Leased)
      ensures id.Some? ==>
        && |rows| == |old(rows)| + 1
        && var t := rows[|old(rows)|];
        && t.taskType == taskType && t.workflowId == workflowId && t.queue == queue
        && t.scheduledEventSeq == scheduledEventSeq
        && t.status == Pending && t.runAfter == runAfter && t.attempt == 0 && t.maxAttempts == maxAttempts
        && t.lastError == None && t.leasedBy == None && t.leaseExpiresAt == None
    {
      if taskType == WorkflowTask {
        for i := 0 to |rows|
          invariant forall j :: 0 <= j < i ==> !LiveWorkflowTask(rows[j], workflowId)
        {
          if LiveWorkflowTask(rows[i], workflowId) { return None; }
        }
      }
      id := Some(|rows|);
      rows := rows + [NewTask(taskType, workflowId, queue, scheduledEventSeq, runAfter, maxAttempts)];
    }

    method Update(ids: seq<nat>, f: Task -> Task)
      requires forall k :: 0 <= k < |ids| ==> ids[k] < |rows|
      requires forall k, l :: 0 <= k < l < |ids| ==> ids[k] != ids[l]
      modifies this
      ensures Updated(old(rows), rows, ids, f)
    {
      for n := 0 to |ids|
        invariant |rows| == |old(rows)|
        invariant forall i :: 0 <= i < |rows| ==> rows[i] == if i in ids[..n] then f(old(rows)[i]) else old(rows)[i]
      {
        assert ids[..n + 1] == ids[..n] + [ids[n]];
        rows := rows[ids[n] := f(rows[ids[n]])];
      }
      assert ids[..|ids|] == ids;
    }

    // dequeue; `locked` are the rows other transactions hold.
    method Dequeue(
      worker: Text, queue: Text, taskType: Option<TaskType>, limit: nat, leaseSeconds: int, now: int, locked: set<nat>)
      returns (ids: seq<nat>)
      modifies this
      ensures FirstOf(CandidateKeys(old(rows), queue, taskType, now, locked), limit, ids)
      ensures Updated(old(rows), rows, ids, t => Lease(t, worker, now + leaseSeconds))
      // Every row taken was pending, in the queue asked, due, and of the type asked if one is; nobody held it.
      ensures |ids| <= limit
      ensures forall k :: 0 <= k < |ids| ==>
        && ids[k] < |old(rows)| && ids[k] !in locked
        && old(rows)[ids[k]].status == Pending && old(rows)[ids[k]].queue == queue
        && old(rows)[ids[k]].runAfter <= now
        && (taskType.Some? ==> old(rows)[ids[k]].taskType == taskType.value)
      // They come by due time and then by id,
      ensures forall k, l :: 0 <= k < l < |ids| ==>
        || old(rows)[ids[k]].runAfter < old(rows)[ids[l]].runAfter
        || (old(rows)[ids[k]].runAfter == old(rows)[ids[l]].runAfter && ids[k] < ids[l])
      // and such a row is left only when the limit is reached by rows before it.
      ensures forall i ::
        && 0 <= i < |old(rows)| && i !in ids && i !in locked
        && old(rows)[i].status == Pending && old(rows)[i].queue == queue && old(rows)[i].runAfter <= now
        && (taskType.Some? ==> old(rows)[i].taskType == taskType.value) ==>
        && |ids| == limit
        && forall k :: 0 <= k < |ids| ==>
             || old(rows)[ids[k]].runAfter < old(rows)[i].runAfter
             || (old(rows)[ids[k]].runAfter == old(rows)[i].runAfter && ids[k] < i)
      // The rows taken are this worker's for the lease time, one attempt further on; nothing else changes.
      ensures |rows| == |old(rows)|
      ensures forall i :: 0 <= i < |rows| ==>
        rows[i] ==
          if i in ids then
            old(rows)[i].(
              status := Leased, leasedBy := Some(worker), leaseExpiresAt := Some(now + leaseSeconds),
              attempt := old(rows)[i].attempt + 1)
          else old(rows)[i]
    {
      ghost var keys := CandidateKeys(rows, queue, taskType, now, locked);
      ids := PickFirst(CandidateKeys(rows, queue, taskType, now, locked), limit);
      assert forall i :: 0 <= i < |rows| ==>
        (keys[i].Some? <==>
          && i !in locked && rows[i].status == Pending && rows[i].queue == queue && rows[i].runAfter <= now
          && (taskType.Some? ==> rows[i].taskType == taskType.value));
      assert forall i :: 0 <= i < |rows| && keys[i].Some? ==> keys[i].value == rows[i].runAfter;
      Update(ids, t => Lease(t, worker, now + leaseSeconds));
    }

    // heartbeat
    method Heartbeat(taskIds: set<nat>, worker: Text, leaseSeconds: int, now: int) returns (renewed: nat)
      modifies this
      ensures |rows| == |old(rows)|
      ensures forall i :: 0 <= i < |rows| ==>
        rows[i] == if i in taskIds then AfterHeartbeat(old(rows)[i], worker, now + leaseSeconds) else old(rows)[i]
      ensures renewed == |set i | 0 <= i < |old(rows)| && i in taskIds && HeldBy(old(rows)[i], worker)|
      ensures forall i :: 0 <= i < |rows| ==>
        rows[i] ==
          if i in taskIds && old(rows)[i].status == Leased && old(rows)[i].leasedBy == Some(worker) then
            old(rows)[i].(leaseExpiresAt := Some(now + leaseSeconds))
          else old(rows)[i]
    {
      renewed := 0;
      ghost var held := {};
      for n := 0 to |rows|
        invariant |rows| == |old(rows)|
        invariant forall i :: 0 <= i < |rows| ==>
          rows[i] ==
            if i < n && i in taskIds then AfterHeartbeat(old(rows)[i], worker, now + leaseSeconds) else old(rows)[i]
        invariant held == set i | 0 <= i < n && i in taskIds && HeldBy(old(rows)[i], worker)
        invariant renewed == |held|
      {
        if n in taskIds && HeldBy(rows[n], worker) {
          rows := rows[n := AfterHeartbeat(rows[n], worker, now + leaseSeconds)];
          renewed := renewed + 1;
          held := held + {n};
        }
      }
    }

    // complete
    method Complete(id: nat, worker: Text) returns (applied: bool)
      modifies this
      ensures applied <==> id < |old(rows)| && HeldBy(old(rows)[id], worker)
      ensures rows == if id < |old(rows)| then old(rows)[id := AfterComplete(old(rows)[id], worker)] else old(rows)
      ensures applied <==>
        id < |old(rows)| && old(rows)[id].status == Leased && old(rows)[id].leasedBy == Some(worker)
      ensures rows == if applied then old(rows)[id := old(rows)[id].(status := Finished)] else old(rows)
    {
      applied := id < |rows| && HeldBy(rows[id], worker);
      if applied { rows := rows[id := rows[id].(status := Finished)]; }
    }

    // fail
    method Fail(id: nat, worker: Text, error: Text, delaySeconds: int, now: int) returns (applied: bool)
      modifies this
      ensures applied <==> id < |old(rows)| && HeldBy(old(rows)[id], worker)
      ensures rows ==
        if id < |old(rows)| then old(rows)[id := AfterFail(old(rows)[id], worker, error, now + delaySeconds)]
        else old(rows)
      ensures applied <==>
        id < |old(rows)| && old(rows)[id].status == Leased && old(rows)[id].leasedBy == Some(worker)
      ensures !applied ==> rows == old(rows)
      // Back in the queue while attempts remain, dead after the last one; the lease is gone and the error kept.
      ensures applied ==>
        && |rows| == |old(rows)| && (forall i :: 0 <= i < |rows| && i != id ==> rows[i] == old(rows)[i])
        && var t := old(rows)[id].(lastError := Some(error), leasedBy := None, leaseExpiresAt := None);
        && rows[id] ==
             if old(rows)[id].attempt >= old(rows)[id].maxAttempts then t.(status := Dead)
             else t.(status := Pending, runAfter := now + delaySeconds)
    {
      applied := id < |rows| && HeldBy(rows[id], worker);
      if applied {
        var t := rows[id];
        if t.attempt >= t.maxAttempts {
          rows := rows[id := t.(status := Dead, lastError := Some(error), leasedBy := None, leaseExpiresAt := None)];
        } else {
          var retried := t.(status := Pending, runAfter := now + delaySeconds, lastError := Some(error));
          rows := rows[id := retried.(leasedBy := None, leaseExpiresAt := None)];
        }
      }
    }

    // reclaimExpired
    method ReclaimExpired(limit: nat, now: int, locked: set<nat>) returns (ids: seq<nat>)
      modifies this
      ensures FirstOf(ExpiredKeys(old(rows), now, locked), limit, ids)
      ensures Updated(old(rows), rows, ids, Reclaimed)
      // Every row taken was leased until before now, and nobody held it; such a row is left only when the limit
      // is reached.
      ensures |ids| <= limit
      ensures forall k :: 0 <= k < |ids| ==>
        && ids[k] < |old(rows)| && ids[k] !in locked && old(rows)[ids[k]].status == Leased
        && old(rows)[ids[k]].leaseExpiresAt.Some? && old(rows)[ids[k]].leaseExpiresAt.value < now
      ensures forall i ::
        && 0 <= i < |old(rows)| && i !in ids && i !in locked && old(rows)[i].status == Leased
        && old(rows)[i].leaseExpiresAt.Some? && old(rows)[i].leaseExpiresAt.value < now ==>
        && |ids| == limit
        && forall k :: 0 <= k < |ids| ==> old(rows)[ids[k]].leaseExpiresAt.value <= old(rows)[i].leaseExpiresAt.value
      ensures |rows| == |old(rows)|
      ensures forall i :: 0 <= i < |rows| ==>
        rows[i] ==
          if i in ids then old(rows)[i].(status := Pending, leasedBy := None, leaseExpiresAt := None)
          else old(rows)[i]
    {
      ghost var keys := ExpiredKeys(rows, now, locked);
      ids := PickFirst(ExpiredKeys(rows, now, locked), limit);
      assert forall i :: 0 <= i < |rows| ==>
        (keys[i].Some? <==>
          && i !in locked && rows[i].status == Leased
          && rows[i].leaseExpiresAt.Some? && rows[i].leaseExpiresAt.value < now);
      assert forall i :: 0 <= i < |rows| && keys[i].Some? ==> keys[i] == rows[i].leaseExpiresAt;
      Update(ids, Reclaimed);
    }

    // isLeaseOwned
    method IsLeaseOwned(id: nat, worker: Text, attempt: nat) returns (owned: bool)
      ensures owned <==> id < |rows| && LeaseOwned(rows[id], worker, attempt)
      ensures owned <==>
        && id < |rows| && rows[id].status == Leased && rows[id].leasedBy == Some(worker) && rows[id].attempt == attempt
    {
      owned := id < |rows| && rows[id].status == Leased && rows[id].leasedBy == Some(worker) &&
        rows[id].attempt == attempt;
    }

    // requeueDeadTask; None is the unique violation it throws.
    method RequeueDead(id: nat, now: int) returns (applied: Option<bool>)
      modifies this
      ensures applied.None? <==> id < |old(rows)| && RequeueRefused(old(rows), id)
      ensures applied.Some? ==> (applied.value <==> id < |old(rows)| && old(rows)[id].status == Dead)
      ensures rows ==
        if applied.Some? && id < |old(rows)| then old(rows)[id := AfterRequeue(old(rows)[id], now)] else old(rows)
      ensures rows ==
        if applied == Some(true) then
          old(rows)[id := old(rows)[id].(status := Pending, attempt := 0, runAfter := now, lastError := None)]
        else old(rows)
    {
      if id >= |rows| || rows[id].status != Dead { return Some(false); }
      if rows[id].taskType == WorkflowTask {
        for j := 0 to |rows|
          invariant forall k :: 0 <= k < j ==> !LiveWorkflowTask(rows[k], rows[id].workflowId)
        {
          if LiveWorkflowTask(rows[j], rows[id].workflowId) { return None; }
        }
      }
      rows := rows[id := AfterRequeue(rows[id], now)];
      return Some(true);
    }
  }

  function CandidateKeys(rows: seq<Task>, queue: Text, taskType: Option<TaskType>, now: int, locked: set<nat>): Keys {
    seq(|rows|, i requires 0 <= i < |rows| =>
      if Candidate(rows[i], queue, taskType, now) && i !in locked then Some(rows[i].runAfter) else None)
  }

  function ExpiredKeys(rows: seq<Task>, now: int, locked: set<nat>): Keys {
    seq(|rows|, i requires 0 <= i < |rows| =>
      if Expired(rows[i], now) && i !in locked then rows[i].leaseExpiresAt else None)
  }
}
