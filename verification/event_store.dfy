/** packages/db/src/eventStore.ts: appending to a log, enqueueing what the events imply, caching the status. */
module EventStore {
  import opened Wrappers
  import opened Texts
  import opened Events
  import opened Queue
  import Fold = WorkflowFold

  // The three tables; a workflow without a row in status does not exist.
  datatype Db = Db(status: map<nat, Fold.Status>, logs: map<nat, seq<Stored>>, tasks: seq<Task>)

  datatype AppendError = NoEvents | NoExecution | FoldThrows

  const DEFAULT_QUEUE := Lit("default")
  const DEFAULT_MAX_ATTEMPTS := 3

  function LogOf(logs: map<nat, seq<Stored>>, w: nat): seq<Stored> {
    if w in logs then logs[w] else []
  }

  // The task a schedule event implies.
  function TaskFor(w: nat, x: Stored, now: int): Option<Task> {
    match x.event
    case ActivityScheduled(_, _) =>
      Some(NewTask(ActivityTask, w, DEFAULT_QUEUE, Some(x.seqNo), now, DEFAULT_MAX_ATTEMPTS))
    case LlmRequested(_, _, _, _, maxAttempts) =>
      Some(NewTask(LlmTask, w, DEFAULT_QUEUE, Some(x.seqNo), now, maxAttempts))
    case ToolRequested(_, _, _, _, maxAttempts) =>
      Some(NewTask(ToolTask, w, DEFAULT_QUEUE, Some(x.seqNo), now, maxAttempts))
    case TimerScheduled(fireAt) =>
      Some(NewTask(TimerTask, w, DEFAULT_QUEUE, Some(x.seqNo), fireAt, DEFAULT_MAX_ATTEMPTS))
    case _ => None
  }

  function TasksFor(w: nat, stored: seq<Stored>, now: int): seq<Task> {
    if stored == [] then []
    else
      TasksFor(w, stored[..|stored| - 1], now) +
      match TaskFor(w, stored[|stored| - 1], now) case Some(t) => [t] case None => []
  }

  predicate HasLive(tasks: seq<Task>, w: nat) {
    exists i :: 0 <= i < |tasks| && LiveWorkflowTask(tasks[i], w)
  }

  // The workflow task that tells the replay worker of new history; swallowed while one is live.
  function Wake(tasks: seq<Task>, w: nat, now: int): seq<Task> {
    if HasLive(tasks, w) then [] else [NewTask(WorkflowTask, w, DEFAULT_QUEUE, None, now, DEFAULT_MAX_ATTEMPTS)]
  }

  // What an append makes of the database.
  function Appended(db: Db, w: nat, events: seq<Event>, now: int): Result<Db, AppendError> {
    if events == [] then Err(NoEvents)
    else if w !in db.status then Err(NoExecution)
    else
      var stored := Stamp(|LogOf(db.logs, w)|, events);
      var log := LogOf(db.logs, w) + stored;
      match Fold.FoldEvents(log)
      case None => Err(FoldThrows)
      case Some(st) =>
        var steps := TasksFor(w, stored, now);
        Ok(Db(db.status[w := st.status], db.logs[w := log], db.tasks + steps + Wake(db.tasks + steps, w, now)))
  }

  // ---------------------------------------------------------------- as it is written

  class Store {
    var status: map<nat, Fold.Status>
    var logs: map<nat, seq<Stored>>
    const queue: TaskQueue

    constructor (queue: TaskQueue)
      ensures this.queue == queue && status == map[] && logs == map[]
    {
      this.queue, status, logs := queue, map[], map[];
    }

    function Contents(): Db
      reads this, queue
    {
      Db(status, logs, queue.rows)
    }

    // getEvents
    method GetEvents(w: nat) returns (history: seq<Stored>)
      ensures history == LogOf(logs, w)
    {
      history := if w in logs then logs[w] else [];
    }

    // The loop over the stored events that enqueues their tasks.
    method EnqueueSteps(w: nat, stored: seq<Stored>, now: int)
      modifies queue
      ensures queue.rows == old(queue.rows) + TasksFor(w, stored, now)
    {
      for i := 0 to |stored|
        invariant queue.rows == old(queue.rows) + TasksFor(w, stored[..i], now)
      {
        assert stored[..i + 1][..i] == stored[..i];
        var id: Option<nat>;
        match stored[i].event {
          case ActivityScheduled(_, _) =>
            id := queue.Enqueue(ActivityTask, w, DEFAULT_QUEUE, Some(stored[i].seqNo), now, DEFAULT_MAX_ATTEMPTS);
          case LlmRequested(_, _, _, _, maxAttempts) =>
            id := queue.Enqueue(LlmTask, w, DEFAULT_QUEUE, Some(stored[i].seqNo), now, maxAttempts);
          case ToolRequested(_, _, _, _, maxAttempts) =>
            id := queue.Enqueue(ToolTask, w, DEFAULT_QUEUE, Some(stored[i].seqNo), now, maxAttempts);
          case TimerScheduled(fireAt) =>
            id := queue.Enqueue(TimerTask, w, DEFAULT_QUEUE, Some(stored[i].seqNo), fireAt, DEFAULT_MAX_ATTEMPTS);
          case _ =>
        }
      }
      assert stored[..|stored|] == stored;
    }

    // appendEvents in its transaction: an error rolls everything back.
    method AppendEvents(w: nat, events: seq<Event>, now: int) returns (r: Result<seq<Stored>, AppendError>)
      modifies this`status, this`logs, queue
      ensures match Appended(old(Contents()), w, events, now)
        case Ok(db) => Contents() == db && r == Ok(Stamp(|LogOf(old(logs), w)|, events))
        case Err(e) => Contents() == old(Contents()) && r == Err(e)
    {
      if events == [] { return Err(NoEvents); }
      if w !in status { return Err(NoExecution); }
      var rows := queue.rows;
      var log := GetEvents(w);
      var startSeq := |log|;
      var stored: seq<Stored> := [];
      for i := 0 to |events|
        invariant stored == Stamp(startSeq, events[..i])
      {
        stored := stored + [Stored(startSeq + 1 + i, events[i])];
      }
      assert events[..|events|] == events;
      EnqueueSteps(w, stored, now);
      var woken := queue.Enqueue(WorkflowTask, w, DEFAULT_QUEUE, None, now, DEFAULT_MAX_ATTEMPTS);
      match Fold.FoldEvents(log + stored) {
        case None =>
          queue.rows := rows;
          return Err(FoldThrows);
        case Some(st) =>
          logs := logs[w := log + stored];
          status := status[w := st.status];
          return Ok(stored);
      }
    }
  }
}
