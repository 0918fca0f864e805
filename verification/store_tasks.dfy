/** Schedule events and their tasks: in every run each event has exactly one, with its seq and type. */
module StoreTasks {
  import opened Wrappers
  import opened Texts
  import opened Events
  import opened Queue
  import opened EventStore
  import opened StoreRuns
  import Fold = WorkflowFold

  function TypeFor(e: Event): Option<TaskType> {
    match e
    case ActivityScheduled(_, _) => Some(ActivityTask)
    case LlmRequested(_, _, _, _, _) => Some(LlmTask)
    case ToolRequested(_, _, _, _, _) => Some(ToolTask)
    case TimerScheduled(_) => Some(TimerTask)
    case _ => None
  }

  // A task of that type for the event with that number.
  predicate IsFor(t: Task, w: nat, seqNo: nat, taskType: TaskType) {
    t.workflowId == w && t.scheduledEventSeq == Some(seqNo) && t.taskType == taskType
  }

  ghost predicate HasTask(tasks: seq<Task>, w: nat, seqNo: nat, taskType: TaskType) {
    exists i :: 0 <= i < |tasks| && IsFor(tasks[i], w, seqNo, taskType)
  }

  // The tasks enqueued for some newly stored events, numbered from n + 1.
  ghost predicate Covers(steps: seq<Task>, w: nat, stored: seq<Stored>, n: nat)
  {
    && (forall i :: 0 <= i < |stored| ==> stored[i].seqNo == n + 1 + i)
    && (forall k :: 0 <= k < |steps| ==> Refers(steps[k], w, stored, n))
    && (forall k, l :: 0 <= k < l < |steps| ==> steps[k].scheduledEventSeq != steps[l].scheduledEventSeq)
    && (forall i :: 0 <= i < |stored| && TypeFor(stored[i].event).Some? ==>
      HasTask(steps, w, stored[i].seqNo, TypeFor(stored[i].event).value))
  }

  // The task refers to one of these events, and fits it.
  ghost predicate Refers(t: Task, w: nat, stored: seq<Stored>, n: nat) {
    && t.workflowId == w && t.taskType != WorkflowTask && t.scheduledEventSeq.Some?
    && n < t.scheduledEventSeq.value <= n + |stored|
    && TypeFor(stored[t.scheduledEventSeq.value - n - 1].event) == Some(t.taskType)
  }

  lemma RefersStays(t: Task, w: nat, init: seq<Stored>, n: nat, x: Stored)
    requires Refers(t, w, init, n)
    ensures Refers(t, w, init + [x], n) && t.scheduledEventSeq != Some(n + 1 + |init|)
  {
  }

  lemma CoversSnoc(steps: seq<Task>, w: nat, init: seq<Stored>, n: nat, x: Stored, more: seq<Task>)
    requires Covers(steps, w, init, n) && x.seqNo == n + 1 + |init| && |more| <= 1
    requires more == [] ==> TypeFor(x.event).None?
    requires more != [] ==> Refers(more[0], w, init + [x], n) && more[0].scheduledEventSeq == Some(x.seqNo)
    requires TypeFor(x.event).Some? ==> HasTask(more, w, x.seqNo, TypeFor(x.event).value)
    ensures Covers(steps + more, w, init + [x], n)
  {
    hide Refers, TypeFor, HasTask;
    var after, stored := steps + more, init + [x];
    forall k | 0 <= k < |after| ensures Refers(after[k], w, stored, n) {
      if k < |steps| { RefersStays(steps[k], w, init, n, x); }
    }
    forall k, l | 0 <= k < l < |after| ensures after[k].scheduledEventSeq != after[l].scheduledEventSeq {
      RefersStays(steps[k], w, init, n, x);
    }
    forall i | 0 <= i < |stored| && TypeFor(stored[i].event).Some?
      ensures HasTask(after, w, stored[i].seqNo, TypeFor(stored[i].event).value)
    {
      if i < |init| { assert stored[i] == init[i]; }
      HasTaskStays(steps, more, w, stored[i].seqNo, TypeFor(stored[i].event).value);
    }
  }

  lemma OneTaskCovers(w: nat, init: seq<Stored>, n: nat, x: Stored, now: int)
    requires x.seqNo == n + 1 + |init|
    ensures TaskFor(w, x, now).None? <==> TypeFor(x.event).None?
    ensures TaskFor(w, x, now).Some? ==>
      var t := TaskFor(w, x, now).value;
      Refers(t, w, init + [x], n) && t.scheduledEventSeq == Some(x.seqNo) &&
        HasTask([t], w, x.seqNo, TypeFor(x.event).value)
  {
    if TaskFor(w, x, now).Some? {
      var t := TaskFor(w, x, now).value;
      assert IsFor([t][0], w, x.seqNo, TypeFor(x.event).value);
    }
  }

  lemma {:induction false} TasksCover(w: nat, stored: seq<Stored>, n: nat, now: int)
    requires forall i :: 0 <= i < |stored| ==> stored[i].seqNo == n + 1 + i
    ensures Covers(TasksFor(w, stored, now), w, stored, n)
  {
    if stored != [] {
      hide Covers, TaskFor, TypeFor, Refers, HasTask;
      var m := |stored| - 1;
      TasksCover(w, stored[..m], n, now);
      OneTaskCovers(w, stored[..m], n, stored[m], now);
      var more := match TaskFor(w, stored[m], now) case Some(t) => [t] case None => [];
      CoversSnoc(TasksFor(w, stored[..m], now), w, stored[..m], n, stored[m], more);
      assert stored == stored[..m] + [stored[m]];
    }
  }

  // ---------------------------------------------------------------- the invariant

  ghost predicate Fits(t: Task, logs: map<nat, seq<Stored>>) {
    t.taskType != WorkflowTask ==> Refers(t, t.workflowId, LogOf(logs, t.workflowId), 0)
  }

  predicate Distinct(t: Task, u: Task) {
    t.taskType != WorkflowTask && u.taskType != WorkflowTask && t.workflowId == u.workflowId ==>
      t.scheduledEventSeq != u.scheduledEventSeq
  }

  ghost predicate Matched(db: Db) {
    && (forall i :: 0 <= i < |db.tasks| ==> Fits(db.tasks[i], db.logs))
    && (forall i, j :: 0 <= i < j < |db.tasks| ==> Distinct(db.tasks[i], db.tasks[j]))
    && (forall w, i :: 0 <= i < |LogOf(db.logs, w)| && TypeFor(LogOf(db.logs, w)[i].event).Some? ==>
         HasTask(db.tasks, w, i + 1, TypeFor(LogOf(db.logs, w)[i].event).value))
  }

  lemma FitsStays(t: Task, logs: map<nat, seq<Stored>>, w: nat, stored: seq<Stored>)
    requires Fits(t, logs)
    ensures Fits(t, logs[w := LogOf(logs, w) + stored])
  {
  }

  lemma HasTaskStays(a: seq<Task>, b: seq<Task>, w: nat, seqNo: nat, taskType: TaskType)
    requires HasTask(a, w, seqNo, taskType) || HasTask(b, w, seqNo, taskType)
    ensures HasTask(a + b, w, seqNo, taskType)
  {
    if i :| 0 <= i < |a| && IsFor(a[i], w, seqNo, taskType) {
      assert IsFor((a + b)[i], w, seqNo, taskType);
    } else {
      var j :| 0 <= j < |b| && IsFor(b[j], w, seqNo, taskType);
      assert IsFor((a + b)[|a| + j], w, seqNo, taskType);
    }
  }

  lemma RefersShift(t: Task, w: nat, before: seq<Stored>, stored: seq<Stored>)
    requires Refers(t, w, stored, |before|)
    ensures Refers(t, w, before + stored, 0)
  {
  }

  lemma AppendFits(db: Db, w: nat, stored: seq<Stored>, steps: seq<Task>, own: seq<Task>, i: nat)
    requires Matched(db) && Covers(steps, w, stored, |LogOf(db.logs, w)|)
    requires forall k :: 0 <= k < |own| ==> own[k].taskType == WorkflowTask
    requires i < |db.tasks + steps + own|
    ensures Fits((db.tasks + steps + own)[i], db.logs[w := LogOf(db.logs, w) + stored])
  {
    hide Refers, HasTask, Distinct, TypeFor;
    if i < |db.tasks| {
      hide Covers, Fits;
      FitsStays(db.tasks[i], db.logs, w, stored);
    } else if i < |db.tasks| + |steps| {
      var t := steps[i - |db.tasks|];
      assert t.workflowId == w by { RefersTo(t, w, stored, |LogOf(db.logs, w)|); }
      RefersShift(t, w, LogOf(db.logs, w), stored);
    }
  }

  lemma RefersTo(t: Task, w: nat, stored: seq<Stored>, n: nat)
    requires Refers(t, w, stored, n)
    ensures t.workflowId == w
  {
  }

  lemma AppendDistinct(db: Db, w: nat, stored: seq<Stored>, steps: seq<Task>, own: seq<Task>, i: nat, j: nat)
    requires Matched(db) && Covers(steps, w, stored, |LogOf(db.logs, w)|)
    requires forall k :: 0 <= k < |own| ==> own[k].taskType == WorkflowTask
    requires i < j < |db.tasks + steps + own|
    ensures Distinct((db.tasks + steps + own)[i], (db.tasks + steps + own)[j])
  {
    var n := |db.tasks|;
    if j < n {
    } else if j < n + |steps| {
      assert Refers(steps[j - n], w, stored, |LogOf(db.logs, w)|);
      if i < n { assert Fits(db.tasks[i], db.logs); }
    }
  }

  lemma AppendHasTask(db: Db, w: nat, stored: seq<Stored>, steps: seq<Task>, own: seq<Task>, v: nat, i: nat)
    requires Matched(db) && Covers(steps, w, stored, |LogOf(db.logs, w)|)
    requires var log := LogOf(db.logs[w := LogOf(db.logs, w) + stored], v); i < |log| && TypeFor(log[i].event).Some?
    ensures HasTask(db.tasks + steps + own, v, i + 1,
      TypeFor(LogOf(db.logs[w := LogOf(db.logs, w) + stored], v)[i].event).value)
  {
    hide Fits, Distinct, TypeFor, HasTask, Refers;
    var before := LogOf(db.logs, v);
    var log := LogOf(db.logs[w := LogOf(db.logs, w) + stored], v);
    var taskType := TypeFor(log[i].event).value;
    if i < |before| {
      assert log[i] == before[i];
    } else {
      assert log[i] == stored[i - |before|] && stored[i - |before|].seqNo == i + 1;
    }
    HasTaskStays(db.tasks, steps, v, i + 1, taskType);
    HasTaskStays(db.tasks + steps, own, v, i + 1, taskType);
  }

  lemma AppendMatched(db: Db, w: nat, stored: seq<Stored>, steps: seq<Task>, own: seq<Task>)
    requires Matched(db) && Covers(steps, w, stored, |LogOf(db.logs, w)|)
    requires forall k :: 0 <= k < |own| ==> own[k].taskType == WorkflowTask
    ensures Matched(db.(logs := db.logs[w := LogOf(db.logs, w) + stored], tasks := db.tasks + steps + own))
  {
    var all := db.tasks + steps + own;
    var logs := db.logs[w := LogOf(db.logs, w) + stored];
    forall i | 0 <= i < |all| ensures Fits(all[i], logs) { AppendFits(db, w, stored, steps, own, i); }
    forall i, j | 0 <= i < j < |all| ensures Distinct(all[i], all[j]) {
      AppendDistinct(db, w, stored, steps, own, i, j);
    }
    hide Fits, Distinct, TypeFor, HasTask, Covers;
    forall v, i | 0 <= i < |LogOf(logs, v)| && TypeFor(LogOf(logs, v)[i].event).Some?
      ensures HasTask(all, v, i + 1, TypeFor(LogOf(logs, v)[i].event).value)
    {
      AppendHasTask(db, w, stored, steps, own, v, i);
    }
  }

  lemma MoveMatched(db: Db, id: nat, u: Task)
    requires Matched(db) && id < |db.tasks| && RowMove(db.tasks[id], u)
    ensures Matched(db.(tasks := db.tasks[id := u]))
  {
    var t := db.(tasks := db.tasks[id := u]);
    assert Fits(db.tasks[id], db.logs);
    assert forall i, j :: 0 <= i < j < |t.tasks| ==> Distinct(db.tasks[i], db.tasks[j]) ==>
      Distinct(t.tasks[i], t.tasks[j]);
    forall w, seqNo, taskType | HasTask(db.tasks, w, seqNo, taskType) ensures HasTask(t.tasks, w, seqNo, taskType) {
      var i :| 0 <= i < |db.tasks| && IsFor(db.tasks[i], w, seqNo, taskType);
      assert IsFor(t.tasks[i], w, seqNo, taskType);
    }
  }

  lemma MatchedStep(s: World, m: Move, t: World)
    requires LogsHold(s) && Matched(s.db) && Next(s, m, t)
    ensures Matched(t.db)
  {
    hide Matched, Covers;
    if m.Commit? {
      var tx := s.txs[m.tx];
      assert TxHolds(s, m.tx);
      var now :| tx.steps == TasksFor(tx.workflow, tx.stored, now);
      TasksCover(tx.workflow, tx.stored, |LogOf(s.db.logs, tx.workflow)|, now);
      AppendMatched(s.db, tx.workflow, tx.stored, tx.steps, OwnTask(tx));
      SameTables(s.db.(logs := t.db.logs, tasks := t.db.tasks), t.db);
    } else if m.TaskMove? {
      MoveMatched(s.db, m.id, m.row);
    } else {
      SameTables(s.db, t.db);
    }
  }

  lemma SameTables(a: Db, b: Db)
    requires Matched(a) && a.logs == b.logs && a.tasks == b.tasks
    ensures Matched(b)
  {
  }

  lemma {:induction false} RunMatched(states: seq<World>, moves: seq<Move>, i: nat)
    requires Run(states, moves) && i < |states|
    ensures Matched(states[i].db)
  {
    if i > 0 {
      RunMatched(states, moves, i - 1);
      RunLogs(states, moves, i - 1);
      MatchedStep(states[i - 1], moves[i - 1], states[i]);
    }
  }

  lemma PairDistinct(db: Db, i: nat, j: nat)
    requires Matched(db) && i < |db.tasks| && j < |db.tasks|
    ensures i != j ==> Distinct(db.tasks[i], db.tasks[j])
  {
    if i < j { assert Distinct(db.tasks[i], db.tasks[j]); }
    if j < i { assert Distinct(db.tasks[j], db.tasks[i]); }
  }

  // A step's task that refers to this number, whatever its type.
  predicate PointsAt(t: Task, w: nat, seqNo: nat) {
    t.taskType != WorkflowTask && t.workflowId == w && t.scheduledEventSeq == Some(seqNo)
  }

  // In every run an activity, timer, LLM or tool event has exactly one task with its seq and type, and
  // every such task has its event.
  lemma ExactlyOneTask(states: seq<World>, moves: seq<Move>, n: nat, w: nat, j: nat) returns (id: nat)
    requires Run(states, moves) && n < |states|
    requires j < |LogOf(states[n].db.logs, w)| && TypeFor(LogOf(states[n].db.logs, w)[j].event).Some?
    ensures var tasks := states[n].db.tasks;
      && id < |tasks| && IsFor(tasks[id], w, j + 1, TypeFor(LogOf(states[n].db.logs, w)[j].event).value)
      && forall k :: 0 <= k < |tasks| && PointsAt(tasks[k], w, j + 1) ==> k == id
  {
    RunMatched(states, moves, n);
    var tasks := states[n].db.tasks;
    id :| 0 <= id < |tasks| && IsFor(tasks[id], w, j + 1, TypeFor(LogOf(states[n].db.logs, w)[j].event).value);
    forall k | 0 <= k < |tasks| && PointsAt(tasks[k], w, j + 1)
      ensures k == id
    {
      PairDistinct(states[n].db, k, id);
    }
  }

  lemma EveryTaskHasItsEvent(states: seq<World>, moves: seq<Move>, n: nat, id: nat)
    requires Run(states, moves) && n < |states| && id < |states[n].db.tasks|
    requires states[n].db.tasks[id].taskType != WorkflowTask
    ensures var t := states[n].db.tasks[id];
      var log := LogOf(states[n].db.logs, t.workflowId);
      t.scheduledEventSeq.Some? && 1 <= t.scheduledEventSeq.value <= |log| &&
        TypeFor(log[t.scheduledEventSeq.value - 1].event) == Some(t.taskType)
  {
    RunMatched(states, moves, n);
    assert Fits(states[n].db.tasks[id], states[n].db.logs);
  }

  // ---------------------------------------------------------------- what an append adds

  // The events something has to be done for.
  predicate NeedsTask(e: Event) {
    e.ActivityScheduled? || e.LlmRequested? || e.ToolRequested? || e.TimerScheduled?
  }

  function TasksNeeded(events: seq<Event>): nat {
    if events == [] then 0 else TasksNeeded(events[..|events| - 1]) + if NeedsTask(events[|events| - 1]) then 1 else 0
  }

  // A task nobody has tried or holds yet, in the queue that workers ask for by default.
  predicate Untouched(t: Task, w: nat) {
    && t.workflowId == w && t.queue == Lit("default") && t.status == Pending && t.attempt == 0
    && t.lastError == None && t.leasedBy == None && t.leaseExpiresAt == None
  }

  // The task is due at once with the attempts of its kind, a timer's when it is to fire.
  predicate DoesWhatIsAsked(t: Task, w: nat, seqNo: nat, e: Event, now: int) {
    && Untouched(t, w) && t.scheduledEventSeq == Some(seqNo)
    && match e
       case ActivityScheduled(_, _) => t.taskType == ActivityTask && t.maxAttempts == 3 && t.runAfter == now
       case LlmRequested(_, _, _, _, maxAttempts) =>
         t.taskType == LlmTask && t.maxAttempts == maxAttempts && t.runAfter == now
       case ToolRequested(_, _, _, _, maxAttempts) =>
         t.taskType == ToolTask && t.maxAttempts == maxAttempts && t.runAfter == now
       case TimerScheduled(fireAt) => t.taskType == TimerTask && t.maxAttempts == 3 && t.runAfter == fireAt
       case _ => false
  }

  lemma OneTaskIsAsAsked(w: nat, x: Stored, now: int)
    ensures TaskFor(w, x, now).Some? <==> NeedsTask(x.event)
    ensures TaskFor(w, x, now).Some? ==> DoesWhatIsAsked(TaskFor(w, x, now).value, w, x.seqNo, x.event, now)
  {
  }

  // The task of the i-th event stands behind those of the events before it.
  predicate StepAt(steps: seq<Task>, w: nat, n: nat, events: seq<Event>, i: nat, now: int)
    requires i < |events|
  {
    && TasksNeeded(events[..i]) < |steps|
    && DoesWhatIsAsked(steps[TasksNeeded(events[..i])], w, n + 1 + i, events[i], now)
  }

  // The tasks of an append stand in the order of the events they are for.
  lemma {:induction false} TasksInOrder(w: nat, n: nat, events: seq<Event>, now: int)
    ensures var steps := TasksFor(w, Stamp(n, events), now);
      && |steps| == TasksNeeded(events)
      && forall i :: 0 <= i < |events| && NeedsTask(events[i]) ==> StepAt(steps, w, n, events, i, now)
  {
    if events != [] {
      var m := |events| - 1;
      var init, x := events[..m], Stored(n + 1 + m, events[m]);
      TasksInOrder(w, n, init, now);
      OneTaskIsAsAsked(w, x, now);
      hide NeedsTask, TaskFor, DoesWhatIsAsked;
      assert Stamp(n, events)[..m] == Stamp(n, init) && Stamp(n, events)[m] == x;
      var before, steps := TasksFor(w, Stamp(n, init), now), TasksFor(w, Stamp(n, events), now);
      assert steps == before + match TaskFor(w, x, now) case Some(t) => [t] case None => [];
      forall i | 0 <= i < |events| && NeedsTask(events[i])
        ensures StepAt(steps, w, n, events, i, now)
      {
        if i < m {
          assert StepAt(before, w, n, init, i, now);
          assert init[..i] == events[..i] && init[i] == events[i];
          assert steps[TasksNeeded(events[..i])] == before[TasksNeeded(init[..i])];
        }
      }
    }
  }

  // The workflow task that tells of new history.
  predicate WakesUp(t: Task, w: nat, now: int) {
    && Untouched(t, w)
    && t.taskType == WorkflowTask && t.scheduledEventSeq == None && t.maxAttempts == 3 && t.runAfter == now
  }

  // A workflow task of w is pending or leased.
  predicate WorkIsWaiting(tasks: seq<Task>, w: nat) {
    exists i ::
      && 0 <= i < |tasks| && tasks[i].taskType == WorkflowTask && tasks[i].workflowId == w
      && (tasks[i].status == Pending || tasks[i].status == Leased)
  }

  lemma WaitingIsLive(tasks: seq<Task>, w: nat)
    ensures WorkIsWaiting(tasks, w) <==> HasLive(tasks, w)
  {
    if i :| 0 <= i < |tasks| && LiveWorkflowTask(tasks[i], w) { assert tasks[i].taskType == WorkflowTask; }
    if WorkIsWaiting(tasks, w) {
      var i :|
        && 0 <= i < |tasks| && tasks[i].taskType == WorkflowTask && tasks[i].workflowId == w
        && (tasks[i].status == Pending || tasks[i].status == Leased);
      assert LiveWorkflowTask(tasks[i], w);
    }
  }

  lemma AppendedParts(db: Db, w: nat, events: seq<Event>, now: int)
    requires Appended(db, w, events, now).Ok?
    ensures var after, stored := Appended(db, w, events, now).value, Stamp(|LogOf(db.logs, w)|, events);
      var wake := NewTask(WorkflowTask, w, DEFAULT_QUEUE, None, now, DEFAULT_MAX_ATTEMPTS);
      && after.logs == db.logs[w := LogOf(db.logs, w) + stored]
      && after.tasks == db.tasks + TasksFor(w, stored, now) + (if WorkIsWaiting(db.tasks, w) then [] else [wake])
      && w in db.status && w in after.status && after.status == db.status[w := after.status[w]]
  {
    var stored := Stamp(|LogOf(db.logs, w)|, events);
    SameWake(db.tasks, w, stored, now);
    WaitingIsLive(db.tasks, w);
    hide TasksFor, Wake, HasLive, WorkIsWaiting, NewTask;
  }

  /**
   An append at clock `now` adds to the tasks, and changes nothing else of them: one task for each activity,
   LLM, tool and timer event, in their order, and a workflow task unless one of that workflow is waiting.
   */
  lemma AppendAddsTasks(db: Db, w: nat, events: seq<Event>, now: int)
    requires Appended(db, w, events, now).Ok?
    ensures var tasks, n, m := Appended(db, w, events, now).value.tasks, |LogOf(db.logs, w)|, |db.tasks|;
      && |tasks| == m + TasksNeeded(events) + (if WorkIsWaiting(db.tasks, w) then 0 else 1)
      && tasks[..m] == db.tasks
      && (forall i :: 0 <= i < |events| && NeedsTask(events[i]) ==>
           && TasksNeeded(events[..i]) < TasksNeeded(events)
           && DoesWhatIsAsked(tasks[m + TasksNeeded(events[..i])], w, n + 1 + i, events[i], now))
      && (!WorkIsWaiting(db.tasks, w) ==> WakesUp(tasks[m + TasksNeeded(events)], w, now))
  {
    hide Appended, DoesWhatIsAsked, TasksFor, WorkIsWaiting, NeedsTask, TasksNeeded, Stamp, LogOf, NewTask, WakesUp,
      StepAt, Fold.FoldEvents;
    var n := |LogOf(db.logs, w)|;
    AppendedParts(db, w, events, now);
    NewIsWakeUp(w, now);
    var steps := TasksFor(w, Stamp(n, events), now);
    var wake := NewTask(WorkflowTask, w, DEFAULT_QUEUE, None, now, DEFAULT_MAX_ATTEMPTS);
    TasksInOrder(w, n, events, now);
    StepsBehind(db.tasks, steps, if WorkIsWaiting(db.tasks, w) then [] else [wake], w, n, events, now);
  }

  lemma StepsBehind(before: seq<Task>, steps: seq<Task>, own: seq<Task>, w: nat, n: nat, events: seq<Event>, now: int)
    requires |steps| == TasksNeeded(events)
    requires forall i :: 0 <= i < |events| && NeedsTask(events[i]) ==> StepAt(steps, w, n, events, i, now)
    ensures var tasks := before + steps + own;
      && tasks[..|before|] == before && |tasks| == |before| + |steps| + |own|
      && (forall i :: 0 <= i < |events| && NeedsTask(events[i]) ==>
           && TasksNeeded(events[..i]) < TasksNeeded(events)
           && DoesWhatIsAsked(tasks[|before| + TasksNeeded(events[..i])], w, n + 1 + i, events[i], now))
      && (own != [] ==> tasks[|before| + |steps|] == own[0])
  {
    hide DoesWhatIsAsked, NeedsTask, TasksNeeded;
    var tasks := before + steps + own;
    forall i | 0 <= i < |events| && NeedsTask(events[i])
      ensures TasksNeeded(events[..i]) < TasksNeeded(events)
      ensures DoesWhatIsAsked(tasks[|before| + TasksNeeded(events[..i])], w, n + 1 + i, events[i], now)
    {
      assert StepAt(steps, w, n, events, i, now);
      assert tasks[|before| + TasksNeeded(events[..i])] == steps[TasksNeeded(events[..i])];
    }
  }

  lemma NewIsWakeUp(w: nat, now: int)
    ensures WakesUp(NewTask(WorkflowTask, w, DEFAULT_QUEUE, None, now, DEFAULT_MAX_ATTEMPTS), w, now)
  {
  }

  // Its events are numbered on from the log's end, and no other log or status changes.
  lemma AppendAddsEvents(db: Db, w: nat, events: seq<Event>, now: int)
    requires Appended(db, w, events, now).Ok?
    ensures var after, n := Appended(db, w, events, now).value, |LogOf(db.logs, w)|;
      && |LogOf(after.logs, w)| == n + |events| && LogOf(after.logs, w)[..n] == LogOf(db.logs, w)
      && (forall i :: 0 <= i < |events| ==> LogOf(after.logs, w)[n + i] == Stored(n + 1 + i, events[i]))
      && forall v :: v != w ==>
           && LogOf(after.logs, v) == LogOf(db.logs, v) && (v in after.status <==> v in db.status)
           && (v in db.status ==> after.status[v] == db.status[v])
  {
    AppendedParts(db, w, events, now);
    LogBehind(db.logs, w, events);
    hide Appended, TasksFor, WorkIsWaiting, LogOf, Stamp, Fold.FoldEvents;
  }

  predicate BearsInherited(e: Event) {
    e.SignalReceived? && e.signalName in Fold.INHERITED
  }

  // It fails, and changes nothing, without events, without an execution, or on a signal the fold throws on.
  lemma AppendFailsBecause(db: Db, w: nat, events: seq<Event>, now: int)
    ensures var r, log := Appended(db, w, events, now), LogOf(db.logs, w);
      var throws := (exists i :: 0 <= i < |log| && BearsInherited(log[i].event)) ||
        exists i :: 0 <= i < |events| && BearsInherited(events[i]);
      && (r == Err(NoEvents) <==> events == [])
      && (r == Err(NoExecution) <==> events != [] && w !in db.status)
      && (r == Err(FoldThrows) <==> events != [] && w in db.status && throws)
  {
    Fold.FoldThrowsIff(LogOf(db.logs, w) + Stamp(|LogOf(db.logs, w)|, events));
    FoldableIff(LogOf(db.logs, w), |LogOf(db.logs, w)|, events);
    hide Fold.FoldEvents, Fold.SignalsFoldable, TasksFor, Wake, LogOf, Stamp, BearsInherited;
  }

  lemma FoldableIff(log: seq<Stored>, n: nat, events: seq<Event>)
    ensures !Fold.SignalsFoldable(log + Stamp(n, events)) <==>
      || (exists i :: 0 <= i < |log| && BearsInherited(log[i].event))
      || exists i :: 0 <= i < |events| && BearsInherited(events[i])
  {
    var all := log + Stamp(n, events);
    assert forall i :: 0 <= i < |log| ==> all[i] == log[i];
    assert forall i :: 0 <= i < |events| ==> all[|log| + i].event == events[i];
    assert forall i :: |log| <= i < |all| ==> all[i].event == events[i - |log|];
  }

  lemma LogBehind(logs: map<nat, seq<Stored>>, w: nat, events: seq<Event>)
    ensures var n := |LogOf(logs, w)|;
      var after := logs[w := LogOf(logs, w) + Stamp(n, events)];
      && |LogOf(after, w)| == n + |events| && LogOf(after, w)[..n] == LogOf(logs, w)
      && (forall i :: 0 <= i < |events| ==> LogOf(after, w)[n + i] == Stored(n + 1 + i, events[i]))
      && forall v :: v != w ==> LogOf(after, v) == LogOf(logs, v)
  {
  }

  // So a worker that asks for tasks of its type, or of any, finds it due at that very time.
  lemma DueAtOnce(t: Task, w: nat, seqNo: nat, e: Event, now: int, taskType: Option<TaskType>)
    requires DoesWhatIsAsked(t, w, seqNo, e, now) && (taskType.Some? ==> taskType.value == t.taskType)
    ensures Candidate(t, Lit("default"), taskType, now) <==> !e.TimerScheduled? || e.fireAt <= now
  {
  }
}
