/**
 The event store under concurrent appenders: transactions run a statement at a time between queue
 operations on the committed tasks. An append locks its workflow's row until it ends.
 */
module StoreRuns {
  import opened Wrappers
  import opened Events
  import opened Queue
  import opened EventStore
  import Fold = WorkflowFold

  // An append transaction: what it has written so far is its own. `own` says whether its workflow task
  // was inserted or swallowed.
  datatype Tx =
    | Locked(workflow: nat, events: seq<Event>)
    | Wrote(workflow: nat, stored: seq<Stored>, steps: seq<Task>)
    | Woke(workflow: nat, stored: seq<Stored>, steps: seq<Task>, own: Option<Task>)

  datatype World = World(db: Db, txs: map<nat, Tx>)

  datatype Move =
    | Create(workflow: nat)
    | Lock(tx: nat, workflow: nat, events: seq<Event>)
    | Write(tx: nat, now: int)
    | Enqueue(tx: nat, now: int)
    | Commit(tx: nat)
    | Rollback(tx: nat)
    | TaskMove(id: nat, row: Task)

  // What the queue's statements can make of one committed row.
  predicate RowMove(t: Task, u: Task) {
    && u.taskType == t.taskType && u.workflowId == t.workflowId && u.scheduledEventSeq == t.scheduledEventSeq
    && match t.status
       case Pending => u.status == Leased
       case Leased => true
       case Finished => u.status == Finished
       case Dead => u.status == Dead || u.status == Pending
  }

  predicate Live(t: Task) {
    t.taskType == WorkflowTask && (t.status == Pending || t.status == Leased)
  }

  // A row that becomes live must find no other live one, committed or about to be.
  predicate IndexAllows(w: World, id: nat, u: Task)
    requires id < |w.db.tasks|
  {
    Live(u) && !Live(w.db.tasks[id]) ==>
      !HasLive(w.db.tasks, u.workflowId) &&
      forall t :: t in w.txs ==> !(w.txs[t].Woke? && w.txs[t].workflow == u.workflowId && w.txs[t].own.Some?)
  }

  predicate LockedBy(w: World, workflow: nat) {
    exists t :: t in w.txs && w.txs[t].workflow == workflow
  }

  ghost predicate Next(s: World, m: Move, t: World) {
    match m
    case Create(w) => w !in s.db.status && t == s.(db := s.db.(status := s.db.status[w := Fold.RUNNING]))
    case Lock(x, w, events) =>
      x !in s.txs && w in s.db.status && events != [] && !LockedBy(s, w) &&
        t == s.(txs := s.txs[x := Locked(w, events)])
    case Write(x, now) =>
      && x in s.txs && s.txs[x].Locked?
      && var w, stored := s.txs[x].workflow, Stamp(|LogOf(s.db.logs, s.txs[x].workflow)|, s.txs[x].events);
      t == s.(txs := s.txs[x := Wrote(w, stored, TasksFor(w, stored, now))])
    case Enqueue(x, now) =>
      && x in s.txs && s.txs[x].Wrote?
      && var tx := s.txs[x];
      t == s.(txs := s.txs[x := Woke(tx.workflow, tx.stored, tx.steps,
        if HasLive(s.db.tasks, tx.workflow) then None
        else Some(NewTask(WorkflowTask, tx.workflow, DEFAULT_QUEUE, None, now, DEFAULT_MAX_ATTEMPTS)))])
    case Commit(x) =>
      && x in s.txs && s.txs[x].Woke?
      && var tx := s.txs[x];
      && var log := LogOf(s.db.logs, tx.workflow) + tx.stored;
      && Fold.FoldEvents(log).Some?
      && t == World(
           Db(s.db.status[tx.workflow := Fold.FoldEvents(log).value.status], s.db.logs[tx.workflow := log],
              s.db.tasks + tx.steps + OwnTask(tx)),
           s.txs - {x})
    case Rollback(x) => x in s.txs && t == s.(txs := s.txs - {x})
    case TaskMove(id, row) =>
      && id < |s.db.tasks| && RowMove(s.db.tasks[id], row) && IndexAllows(s, id, row)
      && t == s.(db := s.db.(tasks := s.db.tasks[id := row]))
  }

  function OwnTask(tx: Tx): seq<Task>
    requires tx.Woke?
  {
    match tx.own case Some(t) => [t] case None => []
  }

  const EMPTY := World(Db(map[], map[], []), map[])

  ghost predicate Run(states: seq<World>, moves: seq<Move>) {
    && |states| == |moves| + 1
    && states[0] == EMPTY
    && forall i :: 0 <= i < |moves| ==> Next(states[i], moves[i], states[i + 1])
  }

  // ---------------------------------------------------------------- logs and statuses

  ghost predicate LogHolds(db: Db, w: nat) {
    && (w in db.logs ==> w in db.status)
    && (forall i :: 0 <= i < |LogOf(db.logs, w)| ==> LogOf(db.logs, w)[i].seqNo == i + 1)
    && (w in db.status ==> db.status[w] == Fold.StatusOf(LogOf(db.logs, w)) && Fold.FoldEvents(LogOf(db.logs, w)).Some?)
  }

  // An open append writes right after the end of its log.
  ghost predicate TxHolds(s: World, x: nat) {
    x in s.txs ==>
      var tx := s.txs[x];
      && tx.workflow in s.db.status
      && (forall y :: y in s.txs && y != x ==> s.txs[y].workflow != tx.workflow)
      && (!tx.Locked? ==>
           && (forall i :: 0 <= i < |tx.stored| ==> tx.stored[i].seqNo == |LogOf(s.db.logs, tx.workflow)| + 1 + i)
           && exists now :: tx.steps == TasksFor(tx.workflow, tx.stored, now))
      && (tx.Woke? && tx.own.Some? ==>
           !HasLive(s.db.tasks, tx.workflow) && LiveWorkflowTask(tx.own.value, tx.workflow) &&
             tx.own.value.scheduledEventSeq == None)
  }

  ghost predicate LogsHold(s: World) {
    (forall w :: LogHolds(s.db, w)) && (forall x :: TxHolds(s, x))
  }

  lemma {:induction false} StepsNotLive(w: nat, stored: seq<Stored>, now: int)
    ensures forall k :: 0 <= k < |TasksFor(w, stored, now)| ==> TasksFor(w, stored, now)[k].taskType != WorkflowTask
  {
    if stored != [] { StepsNotLive(w, stored[..|stored| - 1], now); }
  }

  // What a committing append holds.
  lemma Committing(s: World, x: nat, t: World)
    requires LogsHold(s) && Next(s, Commit(x), t)
    ensures var tx := s.txs[x];
      && t.db.tasks == s.db.tasks + tx.steps + OwnTask(tx)
      && (forall k :: 0 <= k < |tx.steps| ==> tx.steps[k].taskType != WorkflowTask)
      && (tx.own.Some? ==> LiveWorkflowTask(tx.own.value, tx.workflow) && !HasLive(s.db.tasks, tx.workflow))
  {
    assert TxHolds(s, x);
    var now :| s.txs[x].steps == TasksFor(s.txs[x].workflow, s.txs[x].stored, now);
    StepsNotLive(s.txs[x].workflow, s.txs[x].stored, now);
  }

  lemma OtherCommit(s: World, x: nat, t: World, w: nat)
    requires LogsHold(s) && Next(s, Commit(x), t) && s.txs[x].workflow != w
    ensures HasLive(t.db.tasks, w) == HasLive(s.db.tasks, w)
  {
    Committing(s, x, t);
    var a, b, tx := s.db.tasks, t.db.tasks, s.txs[x];
    assert forall i :: 0 <= i < |a| ==> b[i] == a[i];
    forall i | |a| <= i < |b| ensures !LiveWorkflowTask(b[i], w) {
      if i < |a| + |tx.steps| {
        assert b[i] == tx.steps[i - |a|];
      } else {
        assert b[i] == OwnTask(tx)[i - |a| - |tx.steps|];
      }
    }
  }

  lemma CommitLogs(s: World, x: nat, t: World)
    requires LogsHold(s) && Next(s, Commit(x), t)
    ensures LogsHold(t)
  {
    var tx := s.txs[x];
    assert TxHolds(s, x);
    var log := LogOf(s.db.logs, tx.workflow) + tx.stored;
    Fold.FoldStatus(log);
    forall w ensures LogHolds(t.db, w) {
      assert LogHolds(s.db, w);
      if w == tx.workflow { assert LogOf(t.db.logs, w) == log; }
    }
    hide LogHolds;
    forall y ensures TxHolds(t, y) { CommitOthers(s, x, t, y); }
  }

  // The appends to other logs go on as they were.
  lemma CommitOthers(s: World, x: nat, t: World, y: nat)
    requires LogsHold(s) && Next(s, Commit(x), t)
    ensures TxHolds(t, y)
  {
    hide LogHolds;
    assert TxHolds(s, x) && TxHolds(s, y);
    if y in t.txs {
      assert LogOf(t.db.logs, s.txs[y].workflow) == LogOf(s.db.logs, s.txs[y].workflow);
      OtherCommit(s, x, t, s.txs[y].workflow);
    }
  }

  lemma TaskMoveLogs(s: World, m: Move, t: World)
    requires LogsHold(s) && m.TaskMove? && Next(s, m, t)
    ensures LogsHold(t)
  {
    forall w ensures LogHolds(t.db, w) { assert LogHolds(s.db, w); }
    forall y ensures TxHolds(t, y) {
      assert TxHolds(s, y);
      if y in t.txs && t.txs[y].Woke? && t.txs[y].own.Some? {
        forall i | 0 <= i < |t.db.tasks| ensures !LiveWorkflowTask(t.db.tasks[i], t.txs[y].workflow) {
          if i != m.id { assert t.db.tasks[i] == s.db.tasks[i]; }
        }
      }
    }
  }

  lemma OtherLogs(s: World, m: Move, t: World)
    requires LogsHold(s) && Next(s, m, t) && !m.Commit? && !m.TaskMove?
    ensures LogsHold(t)
  {
    forall w ensures LogHolds(t.db, w) { assert LogHolds(s.db, w); }
    forall y ensures TxHolds(t, y) {
      assert TxHolds(s, y);
    }
  }

  lemma {:induction false} RunLogs(states: seq<World>, moves: seq<Move>, i: nat)
    requires Run(states, moves) && i < |states|
    ensures LogsHold(states[i])
  {
    if i > 0 {
      RunLogs(states, moves, i - 1);
      var s, m, t := states[i - 1], moves[i - 1], states[i];
      if m.Commit? {
        CommitLogs(s, m.tx, t);
      } else if m.TaskMove? {
        TaskMoveLogs(s, m, t);
      } else {
        OtherLogs(s, m, t);
      }
    }
  }

  // In every run seqs are exactly 1..n and the status column is the fold of the log.
  lemma LogsAreNumberedAndFolded(states: seq<World>, moves: seq<Move>, i: nat, w: nat)
    requires Run(states, moves) && i < |states| && w in states[i].db.status
    ensures var log := LogOf(states[i].db.logs, w);
      && (forall j :: 0 <= j < |log| ==> log[j].seqNo == j + 1)
      && Fold.FoldEvents(log).Some?
      && states[i].db.status[w] == Fold.FoldEvents(log).value.status
  {
    RunLogs(states, moves, i);
    assert LogHolds(states[i].db, w);
    Fold.FoldStatus(LogOf(states[i].db.logs, w));
  }

  // ---------------------------------------------------------------- the live workflow task

  // At most one workflow task of a workflow is pending or leased.
  ghost predicate OneLive(tasks: seq<Task>) {
    forall i, j :: 0 <= i < j < |tasks| && Live(tasks[i]) && Live(tasks[j]) ==>
      tasks[i].workflowId != tasks[j].workflowId
  }

  // Steps and a workflow task appended to a table.
  lemma AppendTasks(a: seq<Task>, steps: seq<Task>, own: seq<Task>, w: nat)
    requires forall k :: 0 <= k < |steps| ==> steps[k].taskType != WorkflowTask
    requires |own| <= 1 && (own != [] ==> LiveWorkflowTask(own[0], w) && !HasLive(a, w))
    ensures HasLive(a + steps + own, w) <==> own != [] || HasLive(a, w)
    ensures OneLive(a) ==> OneLive(a + steps + own)
  {
    var all := a + steps + own;
    assert forall i :: 0 <= i < |a| ==> all[i] == a[i];
    assert forall i :: |a| <= i < |a| + |steps| ==> all[i] == steps[i - |a|];
    assert forall i :: |a| <= i < |a| + |steps| ==> !Live(all[i]);
    if own != [] { assert all[|a| + |steps|] == own[0]; }
    if HasLive(a, w) {
      var j :| 0 <= j < |a| && LiveWorkflowTask(a[j], w);
      assert LiveWorkflowTask(all[j], w);
    }
    assert own != [] ==> forall i :: 0 <= i < |a| ==> !LiveWorkflowTask(a[i], w);
  }

  lemma MoveKeepsOneLive(s: World, id: nat, u: Task)
    requires OneLive(s.db.tasks) && id < |s.db.tasks| && RowMove(s.db.tasks[id], u) && IndexAllows(s, id, u)
    ensures OneLive(s.db.tasks[id := u])
  {
    var a := s.db.tasks;
    assert Live(u) && !Live(a[id]) ==> forall i :: 0 <= i < |a| ==> !LiveWorkflowTask(a[i], u.workflowId);
  }

  lemma OneLiveStep(s: World, m: Move, t: World)
    requires LogsHold(s) && OneLive(s.db.tasks) && Next(s, m, t)
    ensures OneLive(t.db.tasks)
  {
    hide OneLive, LogsHold, HasLive;
    if m.Commit? {
      Committing(s, m.tx, t);
      AppendTasks(s.db.tasks, s.txs[m.tx].steps, OwnTask(s.txs[m.tx]), s.txs[m.tx].workflow);
    } else if m.TaskMove? {
      MoveKeepsOneLive(s, m.id, m.row);
    }
  }

  lemma {:induction false} AtMostOneLive(states: seq<World>, moves: seq<Move>, i: nat)
    requires Run(states, moves) && i < |states|
    ensures OneLive(states[i].db.tasks)
  {
    if i > 0 {
      AtMostOneLive(states, moves, i - 1);
      RunLogs(states, moves, i - 1);
      OneLiveStep(states[i - 1], moves[i - 1], states[i]);
    }
  }

  // Across a commit.
  lemma LiveAfterCommit(states: seq<World>, moves: seq<Move>, i: nat)
    requires Run(states, moves) && i < |moves| && moves[i].Commit?
    ensures moves[i].tx in states[i].txs && states[i].txs[moves[i].tx].Woke?
    ensures var tx := states[i].txs[moves[i].tx];
      HasLive(states[i + 1].db.tasks, tx.workflow) <==> tx.own.Some? || HasLive(states[i].db.tasks, tx.workflow)
  {
    hide LogsHold, HasLive;
    RunLogs(states, moves, i);
    var s, t, x := states[i], states[i + 1], moves[i].tx;
    assert Next(s, moves[i], t);
    Committing(s, x, t);
    AppendTasks(s.db.tasks, s.txs[x].steps, OwnTask(s.txs[x]), s.txs[x].workflow);
  }

  // The append x enqueues at e and commits at c.
  ghost predicate Appends(moves: seq<Move>, x: nat, e: nat, c: nat) {
    && e < c < |moves| && moves[e].Enqueue? && moves[e].tx == x && moves[c] == Commit(x)
    && forall n :: e < n < c ==> moves[n] != Commit(x) && moves[n] != Rollback(x)
  }

  // A queue statement ends the live workflow task of w, or brings a dead one back.
  predicate EndsLive(s: World, m: Move, w: nat) {
    m.TaskMove? && m.id < |s.db.tasks| && LiveWorkflowTask(s.db.tasks[m.id], w) && !LiveWorkflowTask(m.row, w)
  }

  predicate Revives(s: World, m: Move, w: nat) {
    m.TaskMove? && m.id < |s.db.tasks| && !LiveWorkflowTask(s.db.tasks[m.id], w) && LiveWorkflowTask(m.row, w)
  }

  // Between e and k the live workflow task of w ended, and none was brought back after that.
  ghost predicate EndedForGood(states: seq<World>, moves: seq<Move>, e: nat, k: nat, w: nat)
    requires |states| == |moves| + 1 && k <= |moves|
  {
    exists n ::
      e < n < k && EndsLive(states[n], moves[n], w) && forall m :: n < m < k ==> !Revives(states[m], moves[m], w)
  }

  // The append stays open, with what it has written.
  lemma {:induction false} StaysOpen(states: seq<World>, moves: seq<Move>, x: nat, e: nat, c: nat, k: nat)
    requires Run(states, moves) && Appends(moves, x, e, c) && e < k <= c
    ensures x in states[e].txs && x in states[k].txs && states[k].txs[x] == states[e + 1].txs[x]
    ensures states[k].txs[x].Woke?
    ensures states[k].txs[x].workflow == states[e].txs[x].workflow
  {
    assert Next(states[k - 1], moves[k - 1], states[k]);
    if k > e + 1 { StaysOpen(states, moves, x, e, c, k - 1); }
  }

  lemma LiveMove(s: World, m: Move, t: World, w: nat)
    requires OneLive(s.db.tasks) && m.TaskMove? && Next(s, m, t)
    ensures HasLive(t.db.tasks, w) <==> if EndsLive(s, m, w) then false else Revives(s, m, w) || HasLive(s.db.tasks, w)
  {
    var a, b := s.db.tasks, t.db.tasks;
    assert b == a[m.id := m.row];
    if Revives(s, m, w) {
      assert LiveWorkflowTask(b[m.id], w);
    } else if !EndsLive(s, m, w) {
      assert forall i :: 0 <= i < |a| ==> LiveWorkflowTask(b[i], w) == LiveWorkflowTask(a[i], w);
    }
  }

  // A step next to an open append of w.
  lemma LiveStep(s: World, m: Move, t: World, x: nat, w: nat)
    requires LogsHold(s) && OneLive(s.db.tasks) && Next(s, m, t) && x in s.txs && s.txs[x].workflow == w
    requires m != Commit(x)
    ensures HasLive(t.db.tasks, w) <==> if EndsLive(s, m, w) then false else Revives(s, m, w) || HasLive(s.db.tasks, w)
  {
    hide OneLive, HasLive;
    if m.TaskMove? {
      LiveMove(s, m, t, w);
    } else if m.Commit? {
      assert TxHolds(s, x);
      OtherCommit(s, m.tx, t, w);
    }
  }

  lemma {:induction false} LiveUntil(states: seq<World>, moves: seq<Move>, x: nat, e: nat, c: nat, k: nat, w: nat)
    requires Run(states, moves) && Appends(moves, x, e, c) && e < k <= c
    requires x in states[e].txs && states[e].txs[x].workflow == w && HasLive(states[e].db.tasks, w)
    ensures HasLive(states[k].db.tasks, w) <==> !EndedForGood(states, moves, e, k, w)
  {
    hide HasLive, LogsHold, OneLive, EndsLive, Revives;
    assert Next(states[k - 1], moves[k - 1], states[k]);
    if k > e + 1 {
      StaysOpen(states, moves, x, e, c, k - 1);
      LiveUntil(states, moves, x, e, c, k - 1, w);
      RunLogs(states, moves, k - 1);
      AtMostOneLive(states, moves, k - 1);
      hide Next;
      LiveStep(states[k - 1], moves[k - 1], states[k], x, w);
      EndedStep(states, moves, e, k - 1, w);
    }
  }

  lemma EndedStep(states: seq<World>, moves: seq<Move>, e: nat, k: nat, w: nat)
    requires |states| == |moves| + 1 && e < k < |moves|
    ensures EndedForGood(states, moves, e, k + 1, w) <==>
      EndsLive(states[k], moves[k], w) || (!Revives(states[k], moves[k], w) && EndedForGood(states, moves, e, k, w))
  {
    assert !(EndsLive(states[k], moves[k], w) && Revives(states[k], moves[k], w));
    hide EndsLive, Revives;
    if EndsLive(states[k], moves[k], w) {
      assert EndedForGood(states, moves, e, k + 1, w);
    } else if EndedForGood(states, moves, e, k + 1, w) {
      var n :|
        && e < n < k + 1 && EndsLive(states[n], moves[n], w)
        && forall m :: n < m < k + 1 ==> !Revives(states[m], moves[m], w);
      assert n < k;
    }
  }

  // From the enqueue of an append to its commit, whatever runs in between: no live workflow task is left to
  // see the events exactly when one was live at the enqueue, it ended before the commit, and no dead one was
  // brought back after that.
  lemma WakeupLostIff(states: seq<World>, moves: seq<Move>, x: nat, e: nat, c: nat)
    requires Run(states, moves) && Appends(moves, x, e, c)
    ensures x in states[e].txs
    ensures var w := states[e].txs[x].workflow;
      !HasLive(states[c + 1].db.tasks, w) <==> HasLive(states[e].db.tasks, w) && EndedForGood(states, moves, e, c, w)
  {
    hide HasLive, EndedForGood;
    StaysOpen(states, moves, x, e, c, c);
    LiveAfterCommit(states, moves, c);
    assert Next(states[e], moves[e], states[e + 1]);
    if HasLive(states[e].db.tasks, states[e].txs[x].workflow) {
      LiveUntil(states, moves, x, e, c, c, states[e].txs[x].workflow);
    }
  }

  // Only the task that was live at the enqueue can end while none is brought back.
  lemma {:induction false} OnlyBlocker(
    states: seq<World>, moves: seq<Move>, x: nat, e: nat, c: nat, k: nat, w: nat, id: nat)
    requires Run(states, moves) && Appends(moves, x, e, c) && e <= k <= c
    requires x in states[e].txs && states[e].txs[x].workflow == w
    requires id < |states[e].db.tasks| && LiveWorkflowTask(states[e].db.tasks[id], w)
    requires forall n :: e < n < c ==> !Revives(states[n], moves[n], w)
    ensures forall j :: 0 <= j < |states[k].db.tasks| && LiveWorkflowTask(states[k].db.tasks[j], w) ==> j == id
  {
    if k == e {
      AtMostOneLive(states, moves, e);
      assert forall j :: 0 <= j < |states[e].db.tasks| && LiveWorkflowTask(states[e].db.tasks[j], w) ==>
        Live(states[e].db.tasks[j]);
    } else {
      OnlyBlocker(states, moves, x, e, c, k - 1, w, id);
      RunLogs(states, moves, k - 1);
      if k - 1 > e { StaysOpen(states, moves, x, e, c, k - 1); }
      BlockerStep(states[k - 1], moves[k - 1], states[k], x, w, id);
    }
  }

  lemma BlockerStep(s: World, m: Move, t: World, x: nat, w: nat, id: nat)
    requires LogsHold(s) && Next(s, m, t) && x in s.txs && s.txs[x].workflow == w && m != Commit(x) && !Revives(s, m, w)
    requires forall j :: 0 <= j < |s.db.tasks| && LiveWorkflowTask(s.db.tasks[j], w) ==> j == id
    ensures forall j :: 0 <= j < |t.db.tasks| && LiveWorkflowTask(t.db.tasks[j], w) ==> j == id
  {
    if m.Commit? {
      assert TxHolds(s, x);
      Committing(s, m.tx, t);
      var a, b, tx := s.db.tasks, t.db.tasks, s.txs[m.tx];
      assert forall i :: 0 <= i < |a| ==> b[i] == a[i];
      forall i | |a| <= i < |b| ensures !LiveWorkflowTask(b[i], w) {
        if i < |a| + |tx.steps| {
          assert b[i] == tx.steps[i - |a|];
        } else {
          assert b[i] == OwnTask(tx)[i - |a| - |tx.steps|];
        }
      }
    }
  }

  // So, without requeues of dead workflow tasks in between, the wake-up is lost exactly when the very task
  // that swallowed it ends before the commit.
  lemma BlockerDecides(states: seq<World>, moves: seq<Move>, x: nat, e: nat, c: nat, id: nat)
    requires Run(states, moves) && Appends(moves, x, e, c)
    requires x in states[e].txs && id < |states[e].db.tasks|
    requires LiveWorkflowTask(states[e].db.tasks[id], states[e].txs[x].workflow)
    requires forall n :: e < n < c ==> !Revives(states[n], moves[n], states[e].txs[x].workflow)
    ensures var w := states[e].txs[x].workflow;
      !HasLive(states[c + 1].db.tasks, w) <==>
        exists n :: e < n < c && EndsLive(states[n], moves[n], w) && moves[n].id == id
  {
    var w := states[e].txs[x].workflow;
    hide Run, Appends, LiveWorkflowTask, Revives;
    WakeupLostIff(states, moves, x, e, c);
    AsLength(states, moves, x, e, c);
    assert HasLive(states[e].db.tasks, w);
    forall n | e < n < c && EndsLive(states[n], moves[n], w) ensures moves[n].id == id {
      OnlyBlocker(states, moves, x, e, c, n, w, id);
    }
  }

  lemma AsLength(states: seq<World>, moves: seq<Move>, x: nat, e: nat, c: nat)
    requires Run(states, moves) && Appends(moves, x, e, c)
    ensures |states| == |moves| + 1 && e < c < |moves|
  {
  }

  // An append that commits with nothing in between leaves exactly one.
  lemma AppendLeavesOneLive(states: seq<World>, moves: seq<Move>, i: nat)
    requires Run(states, moves) && i + 1 < |moves| && moves[i].Enqueue? && moves[i + 1] == Commit(moves[i].tx)
    ensures moves[i].tx in states[i].txs
    ensures HasLive(states[i + 2].db.tasks, states[i].txs[moves[i].tx].workflow) && OneLive(states[i + 2].db.tasks)
  {
    assert Next(states[i], moves[i], states[i + 1]);
    LiveAfterCommit(states, moves, i + 1);
    AtMostOneLive(states, moves, i + 2);
  }

  // So does an append that nothing interrupts at all.
  lemma AppendedIsLive(db: Db, w: nat, events: seq<Event>, now: int)
    requires Appended(db, w, events, now).Ok? && OneLive(db.tasks)
    ensures HasLive(Appended(db, w, events, now).value.tasks, w) && OneLive(Appended(db, w, events, now).value.tasks)
  {
    hide OneLive;
    var stored := Stamp(|LogOf(db.logs, w)|, events);
    var steps := TasksFor(w, stored, now);
    StepsNotLive(w, stored, now);
    AppendTasks(db.tasks, steps, [], w);
    assert db.tasks + steps + [] == db.tasks + steps;
    var own := Wake(db.tasks + steps, w, now);
    AppendTasks(db.tasks, steps, own, w);
  }

  // ---------------------------------------------------------------- an append is four of these moves

  function AfterLock(db: Db, txs: map<nat, Tx>, x: nat, w: nat, events: seq<Event>): World {
    World(db, txs[x := Locked(w, events)])
  }

  function AfterWrite(db: Db, txs: map<nat, Tx>, x: nat, w: nat, events: seq<Event>, now: int): World {
    var stored := Stamp(|LogOf(db.logs, w)|, events);
    World(db, txs[x := Wrote(w, stored, TasksFor(w, stored, now))])
  }

  function AfterEnqueue(db: Db, txs: map<nat, Tx>, x: nat, w: nat, events: seq<Event>, now: int): World {
    var stored := Stamp(|LogOf(db.logs, w)|, events);
    var own := if HasLive(db.tasks, w) then None
      else Some(NewTask(WorkflowTask, w, DEFAULT_QUEUE, None, now, DEFAULT_MAX_ATTEMPTS));
    World(db, txs[x := Woke(w, stored, TasksFor(w, stored, now), own)])
  }

  // The statements of the method before its commit.
  ghost predicate Statements(db: Db, txs: map<nat, Tx>, x: nat, w: nat, events: seq<Event>, now: int) {
    && Next(World(db, txs), Lock(x, w, events), AfterLock(db, txs, x, w, events))
    && Next(AfterLock(db, txs, x, w, events), Write(x, now), AfterWrite(db, txs, x, w, events, now))
    && Next(AfterWrite(db, txs, x, w, events, now), Enqueue(x, now), AfterEnqueue(db, txs, x, w, events, now))
  }

  // Where the row of its workflow is free, appendEvents as a whole is Lock, Write, Enqueue and Commit one
  // after another; it fails at the fold exactly where the commit cannot be taken, leaving what the rollback
  // leaves, and at its first checks where not even the lock can.
  lemma AppendIsItsMoves(db: Db, txs: map<nat, Tx>, x: nat, w: nat, events: seq<Event>, now: int)
    requires x !in txs && !LockedBy(World(db, txs), w)
    ensures match Appended(db, w, events, now)
      case Ok(after) =>
        Statements(db, txs, x, w, events, now) &&
          Next(AfterEnqueue(db, txs, x, w, events, now), Commit(x), World(after, txs))
      case Err(FoldThrows) =>
        Statements(db, txs, x, w, events, now) &&
          Next(AfterEnqueue(db, txs, x, w, events, now), Rollback(x), World(db, txs)) &&
        forall t :: !Next(AfterEnqueue(db, txs, x, w, events, now), Commit(x), t)
      case Err(_) => forall t :: !Next(World(db, txs), Lock(x, w, events), t)
  {
    var stored := Stamp(|LogOf(db.logs, w)|, events);
    if events != [] && w in db.status {
      StatementsFollow(db, txs, x, w, events, now);
      SameWake(db.tasks, w, stored, now);
      assert txs[x := AfterEnqueue(db, txs, x, w, events, now).txs[x]] - {x} == txs;
    }
  }

  lemma StatementsFollow(db: Db, txs: map<nat, Tx>, x: nat, w: nat, events: seq<Event>, now: int)
    requires x !in txs && !LockedBy(World(db, txs), w) && events != [] && w in db.status
    ensures Statements(db, txs, x, w, events, now)
  {
    hide HasLive;
    var lock, write := AfterLock(db, txs, x, w, events), AfterWrite(db, txs, x, w, events, now);
    assert lock.txs[x := write.txs[x]] == write.txs;
    assert write.txs[x := AfterEnqueue(db, txs, x, w, events, now).txs[x]] ==
      AfterEnqueue(db, txs, x, w, events, now).txs;
  }

  // The step tasks of an append have no say in whether its workflow task is swallowed.
  lemma SameWake(tasks: seq<Task>, w: nat, stored: seq<Stored>, now: int)
    ensures Wake(tasks + TasksFor(w, stored, now), w, now) ==
      if HasLive(tasks, w) then [] else [NewTask(WorkflowTask, w, DEFAULT_QUEUE, None, now, DEFAULT_MAX_ATTEMPTS)]
  {
    var steps := TasksFor(w, stored, now);
    StepsNotLive(w, stored, now);
    AppendTasks(tasks, steps, [], w);
    assert tasks + steps + [] == tasks + steps;
  }
}
