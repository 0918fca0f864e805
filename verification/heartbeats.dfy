/**
 packages/worker-sdk/src/config.ts and worker.ts on a clock of milliseconds: which calls of its handler a
 worker's heartbeats keep the lease of. Statements and their answers take time; between the two other
 workers, the reaper and the worker itself go on.
 */
module Heartbeats {
  import opened Wrappers
  import opened Texts
  import opened Queue

  datatype ConfigInput = ConfigInput(
    maxConcurrency: int, leaseSeconds: Option<int>, heartbeatIntervalMs: Option<int>,
    pollIntervalMs: Option<int>, maxPollIntervalMs: Option<int>, drainTimeoutMs: Option<int>)

  datatype Config = Config(
    maxConcurrency: int, leaseSeconds: int, heartbeatIntervalMs: int,
    pollIntervalMs: int, maxPollIntervalMs: int, drainTimeoutMs: int)

  datatype ConfigError = BadConcurrency | BadLease | BadHeartbeat | HeartbeatTooSlow | BadPolling

  function OrElse(o: Option<int>, default_: int): int {
    match o case Some(v) => v case None => default_
  }

  function ResolveWorkerConfig(input: ConfigInput): Result<Config, ConfigError> {
    var leaseSeconds := OrElse(input.leaseSeconds, 30);
    var heartbeatIntervalMs := OrElse(input.heartbeatIntervalMs, 10_000);
    var pollIntervalMs := OrElse(input.pollIntervalMs, 100);
    var maxPollIntervalMs := OrElse(input.maxPollIntervalMs, 2_000);
    if input.maxConcurrency <= 0 then Err(BadConcurrency)
    else if leaseSeconds <= 0 then Err(BadLease)
    else if heartbeatIntervalMs <= 0 then Err(BadHeartbeat)
    else if heartbeatIntervalMs >= leaseSeconds * 1000 then Err(HeartbeatTooSlow)
    else if maxPollIntervalMs < pollIntervalMs then Err(BadPolling)
    else
      Ok(Config(
        input.maxConcurrency, leaseSeconds, heartbeatIntervalMs,
        pollIntervalMs, maxPollIntervalMs, OrElse(input.drainTimeoutMs, 30_000)))
  }

  // Exactly these configurations are accepted, as they are; 30 s, 10 s, 100 ms, 2 s and 30 s where one says nothing.
  lemma ConfigIs(input: ConfigInput, c: Config)
    ensures ResolveWorkerConfig(input) == Ok(c) <==>
      && c.maxConcurrency == input.maxConcurrency && c.maxConcurrency > 0
      && (input.leaseSeconds == Some(c.leaseSeconds) || (input.leaseSeconds.None? && c.leaseSeconds == 30))
      && (|| input.heartbeatIntervalMs == Some(c.heartbeatIntervalMs)
          || (input.heartbeatIntervalMs.None? && c.heartbeatIntervalMs == 10_000))
      && 0 < c.heartbeatIntervalMs < LeaseMs(c) && LeaseMs(c) == 1000 * c.leaseSeconds
      && (input.pollIntervalMs == Some(c.pollIntervalMs) || (input.pollIntervalMs.None? && c.pollIntervalMs == 100))
      && (|| input.maxPollIntervalMs == Some(c.maxPollIntervalMs)
          || (input.maxPollIntervalMs.None? && c.maxPollIntervalMs == 2_000))
      && c.pollIntervalMs <= c.maxPollIntervalMs
      && (input.drainTimeoutMs == Some(c.drainTimeoutMs) || (input.drainTimeoutMs.None? && c.drainTimeoutMs == 30_000))
  {
  }

  ghost predicate Resolved(c: Config) {
    exists input :: ResolveWorkerConfig(input) == Ok(c)
  }

  function LeaseMs(c: Config): int { c.leaseSeconds * 1000 }

  // A negative timer delay is none.
  function DrainMs(c: Config): nat { if c.drainTimeoutMs < 0 then 0 else c.drainTimeoutMs }

  // ---------------------------------------------------------------- the timed machine

  // A call of the handler: its row is leased, the answer has come and the handler runs, complete or fail
  // has committed, the entry is deleted. A failure is retried from `retryAt` on.
  datatype Stage = Taken | Working | Reporting(retryAt: Option<int>) | Ended

  // disturbed: while it was under way another call of the same task at its worker reported, or deleted the
  // entry the two share. Neither statement nor map tells attempts apart.
  datatype Call = Call(id: nat, attempt: nat, since: int, disturbed: bool, stage: Stage)

  // A heartbeat statement under way, with the ids it names.
  datatype Beat = Beat(at: int, ids: set<nat>)

  // running: the keys of the worker's map of calls. polls: dequeue statements under way, with their limits;
  // a notification can start one beside another.
  datatype Worker = Worker(
    config: Config, lastBeat: int, stopped: Option<int>,
    running: set<nat>, polls: map<nat, nat>, beats: map<nat, Beat>, calls: seq<Call>)

  datatype World = World(now: int, rows: seq<Task>, workers: map<Text, Worker>)

  datatype Move =
    | Advance(to: int)
    | Enqueue(task: Task)
    | Start(worker: Text, config: Config)
    | Poll(worker: Text, poll: nat)
    | Dequeue(worker: Text, poll: nat, id: nat)                    // one row of a dequeue statement
    | Dispatch(worker: Text, call: nat)
    | Succeed(worker: Text, call: nat)
    | Break(worker: Text, call: nat, error: Text, retryAt: int)
    | GiveUp(worker: Text, call: nat)                              // neither complete nor fail got through
    | Forget(worker: Text, call: nat)
    | Fire(worker: Text, beat: nat)
    | Land(worker: Text, beat: nat)
    | Lose(worker: Text, beat: nat)
    | Stop(worker: Text)
    | Exit(worker: Text)
    | Reclaim(id: nat)

  predicate UnderWay(c: Call) {
    c.stage != Ended
  }

  function Staged(w: Worker, k: nat, stage: Stage): Worker
    requires k < |w.calls|
  {
    w.(calls := w.calls[k := w.calls[k].(stage := stage)])
  }

  // A report disturbs the calls of the task that hold its row, a deletion those that have their entry.
  predicate Disturbs(c: Call, id: nat, stage: Stage) {
    c.id == id && (c.stage == Working || (c.stage == Taken && stage.Reporting?))
  }

  // The k-th call goes on to report, or ends.
  function Leaving(w: Worker, k: nat, stage: Stage): Worker
    requires k < |w.calls|
  {
    var calls := Staged(w, k, stage).calls;
    w.(calls := seq(|calls|, l requires 0 <= l < |calls| =>
      if Disturbs(calls[l], w.calls[k].id, stage) then calls[l].(disturbed := true) else calls[l]))
  }

  predicate At(s: World, name: Text, k: nat, stage: Stage) {
    name in s.workers && k < |s.workers[name].calls| && s.workers[name].calls[k].stage == stage
  }

  // The statement a call reports with, and what it makes of the row.
  ghost predicate Reports(s: World, name: Text, k: nat, u: Task -> Task, retryAt: Option<int>, t: World) {
    && At(s, name, k, Working)
    && var w := s.workers[name];
    && w.calls[k].id < |s.rows|
    && t == s.(rows := s.rows[w.calls[k].id := u(s.rows[w.calls[k].id])],
               workers := s.workers[name := Leaving(w, k, Reporting(retryAt))])
  }

  function Renewed(rows: seq<Task>, ids: set<nat>, name: Text, until: int): seq<Task> {
    seq(|rows|, i requires 0 <= i < |rows| => if i in ids then AfterHeartbeat(rows[i], name, until) else rows[i])
  }

  ghost predicate Next(s: World, move: Move, t: World) {
    match move
    case Advance(to) => s.now <= to && t == s.(now := to)
    case Enqueue(task) => task.status == Pending && t == s.(rows := s.rows + [task])
    case Start(name, config) =>
      && name !in s.workers && Resolved(config)
      && t == s.(workers := s.workers[name := Worker(config, s.now, None, {}, map[], map[], [])])
    case Poll(name, p) =>
      && name in s.workers
      && var w := s.workers[name];
      && w.stopped.None? && p !in w.polls && |w.running| < w.config.maxConcurrency
      && t == s.(workers := s.workers[name := w.(polls := w.polls[p := w.config.maxConcurrency - |w.running|])])
    case Dequeue(name, p, id) =>
      && name in s.workers
      && var w := s.workers[name];
      && p in w.polls && w.polls[p] > 0
      && id < |s.rows| && s.rows[id].status == Pending && s.rows[id].runAfter <= s.now
      && var call := Call(id, s.rows[id].attempt + 1, s.now, false, Taken);
      && t == s.(rows := s.rows[id := Lease(s.rows[id], name, s.now + LeaseMs(w.config))],
                 workers := s.workers[name := w.(polls := w.polls[p := w.polls[p] - 1], calls := w.calls + [call])])
    case Dispatch(name, k) =>
      && At(s, name, k, Taken)
      && var w := s.workers[name];
      && t == s.(workers := s.workers[name := Staged(w, k, Working).(running := w.running + {w.calls[k].id})])
    case Succeed(name, k) => Reports(s, name, k, row => AfterComplete(row, name), None, t)
    case Break(name, k, error, retryAt) =>
      s.now <= retryAt && Reports(s, name, k, row => AfterFail(row, name, error, retryAt), Some(retryAt), t)
    case GiveUp(name, k) =>
      && At(s, name, k, Working)
      && var w := s.workers[name];
      && t == s.(workers := s.workers[name := Leaving(w, k, Ended).(running := w.running - {w.calls[k].id})])
    case Forget(name, k) =>
      && name in s.workers && k < |s.workers[name].calls| && s.workers[name].calls[k].stage.Reporting?
      && var w := s.workers[name];
      && t == s.(workers := s.workers[name := Leaving(w, k, Ended).(running := w.running - {w.calls[k].id})])
    case Fire(name, b) =>
      && name in s.workers
      && var w := s.workers[name];
      && w.stopped.None? && w.lastBeat + w.config.heartbeatIntervalMs <= s.now && b !in w.beats
      && var beats := if w.running == {} then w.beats else w.beats[b := Beat(s.now, w.running)];
      && t == s.(workers := s.workers[name := w.(lastBeat := s.now, beats := beats)])
    case Land(name, b) =>
      && name in s.workers && b in s.workers[name].beats
      && var w := s.workers[name];
      && t == s.(rows := Renewed(s.rows, w.beats[b].ids, name, s.now + LeaseMs(w.config)),
                 workers := s.workers[name := w.(beats := w.beats - {b})])
    case Lose(name, b) =>
      && name in s.workers && b in s.workers[name].beats
      && var w := s.workers[name];
      && t == s.(workers := s.workers[name := w.(beats := w.beats - {b})])
    case Stop(name) =>
      && name in s.workers && s.workers[name].stopped.None?
      && t == s.(workers := s.workers[name := s.workers[name].(stopped := Some(s.now))])
    case Exit(name) => name in s.workers && t == s.(workers := s.workers - {name})
    case Reclaim(id) =>
      && id < |s.rows| && Expired(s.rows[id], s.now)
      && t == s.(rows := s.rows[id := Reclaimed(s.rows[id])])
  }

  const EMPTY := World(0, [], map[])

  ghost predicate Run(states: seq<World>, moves: seq<Move>) {
    && |states| == |moves| + 1
    && states[0] == EMPTY
    && forall i :: 0 <= i < |moves| ==> Next(states[i], moves[i], states[i + 1])
  }

  // ---------------------------------------------------------------- what a run may take its time for

  // The worker's timer is punctual, no heartbeat of it fails, and within `delay` each of them has committed
  // and each row it leased has been handed to the handler. Other workers may do as they like.
  predicate OnTime(s: World, move: Move, name: Text, delay: nat) {
    && (move.Advance? && name in s.workers ==> Awaits(s.workers[name], delay, move.to))
    && (move.Lose? ==> move.worker != name)
  }

  predicate Awaits(w: Worker, delay: nat, to: int) {
    && (w.stopped.None? ==> to <= w.lastBeat + w.config.heartbeatIntervalMs)
    && (forall b :: b in w.beats ==> to <= w.beats[b].at + delay)
    && (forall k :: 0 <= k < |w.calls| && w.calls[k].stage == Taken ==> to <= w.calls[k].since + delay)
  }

  ghost predicate Timely(states: seq<World>, moves: seq<Move>, name: Text, delay: nat) {
    forall j :: 0 <= j < |moves| && j < |states| ==> OnTime(states[j], moves[j], name, delay)
  }

  // The process is gone when stop() gives up waiting: installGracefulShutdown sees to that, a caller that goes
  // on after stop() does not.
  predicate ExitsAtDeadline(s: World, move: Move, name: Text) {
    move.Advance? && name in s.workers && s.workers[name].stopped.Some? ==>
      move.to <= s.workers[name].stopped.value + DrainMs(s.workers[name].config)
  }

  ghost predicate ExitsInTime(states: seq<World>, moves: seq<Move>, name: Text) {
    forall j :: 0 <= j < |moves| && j < |states| ==> ExitsAtDeadline(states[j], moves[j], name)
  }

  // No failed call outlives the time its task may be retried from.
  predicate WaitsForDeletion(s: World, move: Move, name: Text) {
    && (move.Break? && move.worker == name ==> s.now < move.retryAt)
    && (move.Advance? && name in s.workers ==>
         forall k :: 0 <= k < |s.workers[name].calls| ==> RetriesAfter(s.workers[name].calls[k], move.to))
  }

  predicate RetriesAfter(c: Call, now: int) {
    c.stage.Reporting? && c.stage.retryAt.Some? ==> now < c.stage.retryAt.value
  }

  ghost predicate Patient(states: seq<World>, moves: seq<Move>, name: Text) {
    forall j :: 0 <= j < |moves| && j < |states| ==> WaitsForDeletion(states[j], moves[j], name)
  }

  // ---------------------------------------------------------------- what heartbeats keep

  // The interval and two delays, of a row's way to the handler and of a heartbeat's, fit into the lease.
  predicate Tolerates(c: Config, delay: nat) {
    c.heartbeatIntervalMs + 2 * delay <= LeaseMs(c)
  }

  // Drains that end before the last renewal runs out.
  predicate ShortDrain(c: Config, delay: nat) {
    DrainMs(c) + c.heartbeatIntervalMs + delay <= LeaseMs(c)
  }

  function Max(a: int, b: int): int { if a < b then b else a }

  // How long a stopped worker's call keeps its lease at least.
  function SafeUntil(w: Worker, c: Call, delay: nat): int {
    Max(c.since, w.lastBeat - delay) + LeaseMs(w.config)
  }

  predicate Protected(w: Worker, c: Call, delay: nat, now: int) {
    && Tolerates(w.config, delay)
    && !c.disturbed && (c.stage == Taken || c.stage == Working)
    && (w.stopped.None? || now <= SafeUntil(w, c, delay))
  }

  // The lease reaches far enough past the last beat, or past one still under way.
  predicate Covered(w: Worker, id: nat, expires: int, delay: nat) {
    || expires >= w.lastBeat - delay + LeaseMs(w.config)
    || exists b :: b in w.beats && id in w.beats[b].ids &&
         expires >= w.beats[b].at - w.config.heartbeatIntervalMs - delay + LeaseMs(w.config)
  }

  ghost predicate Safe(s: World, name: Text, k: nat, delay: nat)
    requires name in s.workers && k < |s.workers[name].calls|
  {
    var w, c := s.workers[name], s.workers[name].calls[k];
    && c.id < |s.rows|
    && LeaseOwned(s.rows[c.id], name, c.attempt)
    && s.rows[c.id].leaseExpiresAt.Some?
    && s.rows[c.id].leaseExpiresAt.value >= c.since + LeaseMs(w.config)
    && (c.stage == Working ==> c.id in w.running && Covered(w, c.id, s.rows[c.id].leaseExpiresAt.value, delay))
  }

  ghost predicate Sound(c: Config) {
    0 < c.heartbeatIntervalMs < LeaseMs(c)
  }

  ghost predicate Clocked(w: Worker, now: int, delay: nat) {
    && Sound(w.config)
    && w.lastBeat <= now
    && (match w.stopped
        case None => now <= w.lastBeat + w.config.heartbeatIntervalMs
        case Some(at) => w.lastBeat <= at <= now && at <= w.lastBeat + w.config.heartbeatIntervalMs)
    && (forall b :: b in w.beats ==> w.beats[b].at <= w.lastBeat && now <= w.beats[b].at + delay)
    && (forall k :: 0 <= k < |w.calls| ==> w.calls[k].since <= now)
    && (forall k :: 0 <= k < |w.calls| && w.calls[k].stage == Taken ==> now <= w.calls[k].since + delay)
  }

  // A token that is good has a lease that was renewed when it was leased or by a heartbeat.
  ghost predicate Bounded(s: World, name: Text, k: nat, delay: nat)
    requires name in s.workers && k < |s.workers[name].calls|
  {
    var w, c := s.workers[name], s.workers[name].calls[k];
    && c.id < |s.rows| && c.attempt <= s.rows[c.id].attempt
    && (LeaseOwned(s.rows[c.id], name, c.attempt) ==>
         && s.rows[c.id].leaseExpiresAt.Some?
         && s.rows[c.id].leaseExpiresAt.value <= Max(c.since, w.lastBeat + delay) + LeaseMs(w.config))
  }

  ghost predicate WorkerHolds(s: World, name: Text, delay: nat) {
    name in s.workers ==>
      var w := s.workers[name];
      && Clocked(w, s.now, delay)
      && (forall k :: 0 <= k < |w.calls| ==> Bounded(s, name, k, delay))
      && (forall k :: 0 <= k < |w.calls| && Protected(w, w.calls[k], delay, s.now) ==> Safe(s, name, k, delay))
  }

  // A safe lease has not run out.
  lemma SafeNotExpired(s: World, name: Text, k: nat, delay: nat)
    requires name in s.workers && k < |s.workers[name].calls|
    requires WorkerHolds(s, name, delay) && Protected(s.workers[name], s.workers[name].calls[k], delay, s.now)
    ensures Safe(s, name, k, delay) && !Expired(s.rows[s.workers[name].calls[k].id], s.now)
  {
  }

  // ---------------------------------------------------------------- one step

  predicate By(move: Move, name: Text) {
    !move.Advance? && !move.Enqueue? && !move.Reclaim? && move.worker == name
  }

  lemma ClockedStep(s: World, move: Move, t: World, name: Text, delay: nat)
    requires Next(s, move, t) && OnTime(s, move, name, delay)
    requires name in s.workers ==> Clocked(s.workers[name], s.now, delay)
    requires name in t.workers
    ensures Clocked(t.workers[name], t.now, delay)
  {
    if !By(move, name) {
      OthersLeave(s, move, t, name);
      LaterClocked(s, move, t, name, delay);
    } else if name !in s.workers {
      FreshWorker(s, move, t, name);
      var input :| ResolveWorkerConfig(input) == Ok(move.config);
    } else {
      OwnClocked(s, move, t, name, delay);
    }
  }

  lemma LaterClocked(s: World, move: Move, t: World, name: Text, delay: nat)
    requires Next(s, move, t) && OnTime(s, move, name, delay) && !By(move, name)
    requires name in s.workers && name in t.workers && t.workers[name] == s.workers[name]
    requires Clocked(s.workers[name], s.now, delay)
    ensures Clocked(t.workers[name], t.now, delay)
  {
    hide Renewed, Disturbs, Sound;
    assert move.Advance? || t.now == s.now;
  }

  lemma OwnClocked(s: World, move: Move, t: World, name: Text, delay: nat)
    requires Next(s, move, t) && By(move, name) && name in s.workers && name in t.workers
    requires Clocked(s.workers[name], s.now, delay)
    ensures Clocked(t.workers[name], t.now, delay)
  {
    hide Renewed, Disturbs, Sound;
  }

  // Nobody else touches a worker, and attempts only grow.
  lemma OthersLeave(s: World, move: Move, t: World, name: Text)
    requires Next(s, move, t) && !By(move, name)
    ensures name in t.workers <==> name in s.workers
    ensures name in t.workers ==> t.workers[name] == s.workers[name]
  {
    hide Renewed;
  }

  // What a step makes of a row: it comes closer to its end or is leased again, under a new attempt.
  lemma RowStep(s: World, move: Move, t: World, id: nat)
    requires Next(s, move, t) && id < |s.rows|
    ensures id < |t.rows| && s.rows[id].attempt <= t.rows[id].attempt
    ensures t.rows[id].status == Status.Leased ==>
      || (move.Dequeue? && move.id == id && s.rows[id].status == Pending
          && t.rows[id].attempt == s.rows[id].attempt + 1)
      || (move.Land? &&
           t.rows[id] == AfterHeartbeat(s.rows[id], move.worker, s.now + LeaseMs(s.workers[move.worker].config)))
      || t.rows[id] == s.rows[id]
  {
  }

  // Calls keep what they were leased with, an ended one stays ended, and the only new one is that of a dequeue.
  ghost predicate CallsStay(v: Worker, w: Worker) {
    && w.config == v.config && v.lastBeat <= w.lastBeat
    && |v.calls| <= |w.calls|
    && forall k :: 0 <= k < |v.calls| ==>
         var c, d := v.calls[k], w.calls[k];
         && d.id == c.id && d.attempt == c.attempt && d.since == c.since && (c.disturbed ==> d.disturbed)
         && (UnderWay(d) ==> UnderWay(c))
         && (d.stage == Taken ==> c.stage == Taken)
         && (d.stage == Working ==> c.stage == Taken || c.stage == Working)
  }

  lemma CallsStep(s: World, move: Move, t: World, name: Text)
    requires Next(s, move, t) && name in s.workers && name in t.workers
    requires s.workers[name].lastBeat <= s.now
    ensures CallsStay(s.workers[name], t.workers[name])
    ensures |t.workers[name].calls| > |s.workers[name].calls| ==>
      && move.Dequeue? && move.worker == name
      && |t.workers[name].calls| == |s.workers[name].calls| + 1
  {
    hide Renewed;
  }

  lemma OldBounded(s: World, move: Move, t: World, name: Text, k: nat, delay: nat)
    requires Next(s, move, t) && name in s.workers && name in t.workers && k < |s.workers[name].calls|
    requires Clocked(s.workers[name], s.now, delay) && Bounded(s, name, k, delay)
    ensures k < |t.workers[name].calls| && Bounded(t, name, k, delay)
  {
    CallsStep(s, move, t, name);
    var c := s.workers[name].calls[k];
    RowStep(s, move, t, c.id);
    if LeaseOwned(t.rows[c.id], name, c.attempt) && move.Land? && move.worker == name {
      assert s.now <= s.workers[name].beats[move.beat].at + delay;
      assert t.workers[name].lastBeat == s.workers[name].lastBeat;
    }
    hide Next;
  }

  lemma NewBounded(s: World, move: Move, t: World, name: Text, delay: nat)
    requires Next(s, move, t) && move.Dequeue? && move.worker == name
    ensures Bounded(t, name, |t.workers[name].calls| - 1, delay)
  {
  }

  lemma BoundedStep(s: World, move: Move, t: World, name: Text, delay: nat)
    requires Next(s, move, t) && WorkerHolds(s, name, delay) && name in t.workers
    ensures forall k :: 0 <= k < |t.workers[name].calls| ==> Bounded(t, name, k, delay)
  {
    if name in s.workers {
      CallsStep(s, move, t, name);
      hide Next, Bounded, Safe, Protected, CallsStay;
      forall k | 0 <= k < |t.workers[name].calls| ensures Bounded(t, name, k, delay) {
        if k < |s.workers[name].calls| {
          OldBounded(s, move, t, name, k, delay);
        } else {
          NewBounded(s, move, t, name, delay);
        }
      }
    } else {
      FreshWorker(s, move, t, name);
    }
  }

  lemma FreshWorker(s: World, move: Move, t: World, name: Text)
    requires Next(s, move, t) && name !in s.workers && name in t.workers
    ensures move.Start? && t.workers[name].calls == []
  {
    hide Renewed;
  }

  // ---------------------------------------------------------------- protected calls

  // While the worker runs, or not too long after, protection is looking back.
  lemma ProtectedBefore(v: Worker, w: Worker, k: nat, delay: nat, before: int, now: int)
    requires CallsStay(v, w) && k < |v.calls| && before <= now && Protected(w, w.calls[k], delay, now)
    requires v.stopped.Some? ==> w.stopped.Some? && w.lastBeat == v.lastBeat
    ensures Protected(v, v.calls[k], delay, before)
  {
  }

  lemma StillSafe(s: World, t: World, name: Text, k: nat, delay: nat)
    requires name in s.workers && name in t.workers && k < |s.workers[name].calls| && k < |t.workers[name].calls|
    requires Safe(s, name, k, delay) && t.workers[name] == s.workers[name]
    requires s.workers[name].calls[k].id < |t.rows|
    requires t.rows[s.workers[name].calls[k].id] == s.rows[s.workers[name].calls[k].id]
    ensures Safe(t, name, k, delay)
  {
  }

  // Others leave a safe row alone.
  lemma OthersKeepSafe(s: World, move: Move, t: World, name: Text, k: nat, delay: nat)
    requires Next(s, move, t) && !By(move, name) && name in s.workers && k < |s.workers[name].calls|
    requires Safe(s, name, k, delay) && !Expired(s.rows[s.workers[name].calls[k].id], s.now)
    ensures name in t.workers && t.workers[name] == s.workers[name] && Safe(t, name, k, delay)
  {
    OthersLeave(s, move, t, name);
    var id := s.workers[name].calls[k].id;
    SafeRowKept(s, move, t, name, k, delay);
    hide Next, Safe, Expired;
    StillSafe(s, t, name, k, delay) by { SafeHasRow(s, name, k, delay); }
  }

  lemma SafeHasRow(s: World, name: Text, k: nat, delay: nat)
    requires name in s.workers && k < |s.workers[name].calls| && Safe(s, name, k, delay)
    ensures s.workers[name].calls[k].id < |s.rows|
  {
  }

  lemma SafeRowKept(s: World, move: Move, t: World, name: Text, k: nat, delay: nat)
    requires Next(s, move, t) && !By(move, name) && name in s.workers && k < |s.workers[name].calls|
    requires Safe(s, name, k, delay) && !Expired(s.rows[s.workers[name].calls[k].id], s.now)
    ensures var id := s.workers[name].calls[k].id; id < |t.rows| && t.rows[id] == s.rows[id]
  {
    hide Covered;
  }

  // The worker's own steps, by what they change: its timers and polls,
  lemma OwnTimes(s: World, move: Move, t: World, name: Text, k: nat, delay: nat)
    requires Next(s, move, t) && By(move, name) && (move.Poll? || move.Stop? || move.Fire?)
    requires WorkerHolds(s, name, delay) && k < |s.workers[name].calls| && Safe(s, name, k, delay)
    ensures Safe(t, name, k, delay)
  {
    hide Bounded, Protected;
    var v, w, c := s.workers[name], t.workers[name], s.workers[name].calls[k];
    if move.Fire? && c.stage == Working {
      assert s.now == v.lastBeat + v.config.heartbeatIntervalMs;
      var expires := s.rows[c.id].leaseExpiresAt.value;
      if expires >= v.lastBeat - delay + LeaseMs(v.config) {
        assert move.beat in w.beats && c.id in w.beats[move.beat].ids;
      } else {
        var b :| b in v.beats && c.id in v.beats[b].ids &&
          expires >= v.beats[b].at - v.config.heartbeatIntervalMs - delay + LeaseMs(v.config);
        assert b in w.beats && w.beats[b] == v.beats[b];
      }
    }
  }

  // a heartbeat that commits,
  lemma OwnLand(s: World, move: Move, t: World, name: Text, k: nat, delay: nat)
    requires Next(s, move, t) && By(move, name) && move.Land?
    requires WorkerHolds(s, name, delay) && k < |s.workers[name].calls| && Safe(s, name, k, delay)
    ensures Safe(t, name, k, delay)
  {
    hide Bounded, Protected;
    var v, w, c := s.workers[name], t.workers[name], s.workers[name].calls[k];
    var expires := s.rows[c.id].leaseExpiresAt.value;
    if c.id !in v.beats[move.beat].ids && c.stage == Working && expires < v.lastBeat - delay + LeaseMs(v.config) {
      var b :| b in v.beats && c.id in v.beats[b].ids &&
        expires >= v.beats[b].at - v.config.heartbeatIntervalMs - delay + LeaseMs(v.config);
      assert b in w.beats && w.beats[b] == v.beats[b];
    }
  }

  // the calls themselves.
  lemma OwnCalls(s: World, move: Move, t: World, name: Text, k: nat, delay: nat)
    requires Next(s, move, t) && By(move, name)
    requires move.Dequeue? || move.Dispatch? || move.Succeed? || move.Break? || move.GiveUp? || move.Forget?
    requires WorkerHolds(s, name, delay) && k < |s.workers[name].calls| && Safe(s, name, k, delay)
    requires k < |t.workers[name].calls| && !t.workers[name].calls[k].disturbed
    requires t.workers[name].calls[k].stage == Taken || t.workers[name].calls[k].stage == Working
    ensures Safe(t, name, k, delay)
  {
    hide Bounded, Protected;
    var v, w := s.workers[name], t.workers[name];
    var c := v.calls[k];
    assert w.beats == v.beats && w.lastBeat == v.lastBeat && w.config == v.config;
  }

  lemma NewSafe(s: World, move: Move, t: World, name: Text, delay: nat)
    requires Next(s, move, t) && move.Dequeue? && move.worker == name
    ensures Safe(t, name, |t.workers[name].calls| - 1, delay)
  {
  }

  lemma OwnStep(s: World, move: Move, t: World, name: Text, k: nat, delay: nat)
    requires Next(s, move, t) && By(move, name) && OnTime(s, move, name, delay) && name in s.workers
    requires name in t.workers
    requires WorkerHolds(s, name, delay) && k < |s.workers[name].calls| && Safe(s, name, k, delay)
    requires k < |t.workers[name].calls| && Protected(t.workers[name], t.workers[name].calls[k], delay, t.now)
    ensures Safe(t, name, k, delay)
  {
    if move.Poll? || move.Stop? || move.Fire? {
      OwnTimes(s, move, t, name, k, delay);
    } else if move.Land? {
      OwnLand(s, move, t, name, k, delay);
    } else {
      assert !move.Exit? && !move.Start?;
      OwnCalls(s, move, t, name, k, delay);
    }
  }

  lemma SameStop(s: World, move: Move, t: World, name: Text)
    requires Next(s, move, t) && name in s.workers && name in t.workers
    ensures s.workers[name].stopped.Some? ==>
      t.workers[name].stopped.Some? && t.workers[name].lastBeat == s.workers[name].lastBeat
    ensures s.now <= t.now
  {
    hide Renewed;
  }

  lemma OldSafe(s: World, move: Move, t: World, name: Text, k: nat, delay: nat)
    requires Next(s, move, t) && OnTime(s, move, name, delay) && name in s.workers && name in t.workers
    requires WorkerHolds(s, name, delay) && k < |s.workers[name].calls| && k < |t.workers[name].calls|
    requires Protected(t.workers[name], t.workers[name].calls[k], delay, t.now)
    ensures Safe(t, name, k, delay)
  {
    CallsStep(s, move, t, name);
    SameStop(s, move, t, name);
    ProtectedBefore(s.workers[name], t.workers[name], k, delay, s.now, t.now);
    SafeNotExpired(s, name, k, delay);
    hide Next, WorkerHolds, Safe, OnTime, Protected;
    if By(move, name) { OwnStep(s, move, t, name, k, delay); } else { OthersKeepSafe(s, move, t, name, k, delay); }
  }

  lemma SafeStep(s: World, move: Move, t: World, name: Text, k: nat, delay: nat)
    requires Next(s, move, t) && OnTime(s, move, name, delay) && name in t.workers
    requires WorkerHolds(s, name, delay) && k < |t.workers[name].calls|
    requires Protected(t.workers[name], t.workers[name].calls[k], delay, t.now)
    ensures Safe(t, name, k, delay)
  {
    if name !in s.workers {
      FreshWorker(s, move, t, name);
    } else if k < |s.workers[name].calls| {
      OldSafe(s, move, t, name, k, delay);
    } else {
      CallsStep(s, move, t, name);
      NewSafe(s, move, t, name, delay);
    }
  }

  lemma StepHolds(s: World, move: Move, t: World, name: Text, delay: nat)
    requires Next(s, move, t) && OnTime(s, move, name, delay) && WorkerHolds(s, name, delay)
    ensures WorkerHolds(t, name, delay)
  {
    if name in t.workers {
      ClockedStep(s, move, t, name, delay);
      BoundedStep(s, move, t, name, delay);
      hide Next, OnTime, Clocked, Bounded, Safe, Protected;
      forall k | 0 <= k < |t.workers[name].calls| && Protected(t.workers[name], t.workers[name].calls[k], delay, t.now)
        ensures Safe(t, name, k, delay)
      {
        SafeStep(s, move, t, name, k, delay);
      }
    }
  }

  lemma {:induction false} RunHolds(states: seq<World>, moves: seq<Move>, i: nat, name: Text, delay: nat)
    requires Run(states, moves) && Timely(states, moves, name, delay) && i < |states|
    ensures WorkerHolds(states[i], name, delay)
  {
    hide WorkerHolds, Next;
    if i > 0 {
      RunHolds(states, moves, i - 1, name, delay);
      StepHolds(states[i - 1], moves[i - 1], states[i], name, delay);
    } else {
      NobodyYet(name, delay);
    }
  }

  lemma NobodyYet(name: Text, delay: nat)
    ensures WorkerHolds(EMPTY, name, delay)
  {
  }

  // ---------------------------------------------------------------- the theorems

  /**
   Under delays of which two fit between heartbeat interval and lease, a call no other call of its task
   disturbs keeps its lease while its worker runs; once the worker has stopped, until a lease after its row was
   leased or after the last heartbeat. Others, the reaper included, cannot take the task.
   */
  lemma HeartbeatsProtect(states: seq<World>, moves: seq<Move>, i: nat, name: Text, k: nat, delay: nat)
    requires Run(states, moves) && Timely(states, moves, name, delay) && i < |states|
    requires name in states[i].workers && k < |states[i].workers[name].calls|
    requires Protected(states[i].workers[name], states[i].workers[name].calls[k], delay, states[i].now)
    ensures var c := states[i].workers[name].calls[k];
      && c.id < |states[i].rows|
      && LeaseOwned(states[i].rows[c.id], name, c.attempt)
      && !Expired(states[i].rows[c.id], states[i].now)
      && (c.stage == Working ==> c.id in states[i].workers[name].running)
  {
    RunHolds(states, moves, i, name, delay);
    SafeNotExpired(states[i], name, k, delay);
  }

  // So a call the reaper takes the task from is one that was disturbed, or one of a worker that stopped too
  // long ago.
  lemma OnlyAbandonedReclaimed(states: seq<World>, moves: seq<Move>, i: nat, name: Text, k: nat, delay: nat)
    requires Run(states, moves) && Timely(states, moves, name, delay) && i < |moves|
    requires name in states[i].workers && k < |states[i].workers[name].calls|
    requires Tolerates(states[i].workers[name].config, delay)
    requires var c := states[i].workers[name].calls[k];
      (c.stage == Taken || c.stage == Working) && moves[i] == Reclaim(c.id)
    ensures var w, c := states[i].workers[name], states[i].workers[name].calls[k];
      c.disturbed || (w.stopped.Some? && states[i].now > SafeUntil(w, c, delay))
  {
    var c := states[i].workers[name].calls[k];
    assert Next(states[i], moves[i], states[i + 1]);
    if Protected(states[i].workers[name], c, delay, states[i].now) {
      HeartbeatsProtect(states, moves, i, name, k, delay);
    }
  }

  // With answers that take no time this is exact, whatever the drain timeout: a stopped worker's call holds
  // an unexpired lease exactly until a lease after the later of its dequeue and the last heartbeat.
  lemma StoppedKeepsIff(states: seq<World>, moves: seq<Move>, i: nat, name: Text, k: nat)
    requires Run(states, moves) && Timely(states, moves, name, 0) && i < |states|
    requires name in states[i].workers && k < |states[i].workers[name].calls|
    requires var w, c := states[i].workers[name], states[i].workers[name].calls[k];
      w.stopped.Some? && !c.disturbed && c.stage == Working
    ensures var w, c := states[i].workers[name], states[i].workers[name].calls[k];
      && c.id < |states[i].rows|
      && (LeaseOwned(states[i].rows[c.id], name, c.attempt) && !Expired(states[i].rows[c.id], states[i].now) <==>
           states[i].now <= Max(c.since, w.lastBeat) + LeaseMs(w.config))
  {
    RunHolds(states, moves, i, name, 0);
    var w, c := states[i].workers[name], states[i].workers[name].calls[k];
    assert Bounded(states[i], name, k, 0);
    if Protected(w, c, 0, states[i].now) { SafeNotExpired(states[i], name, k, 0); }
  }

  // If the process is gone at its deadline, short drains lose nothing.
  lemma ShortDrainProtects(states: seq<World>, moves: seq<Move>, i: nat, name: Text, k: nat, delay: nat)
    requires Run(states, moves) && Timely(states, moves, name, delay) && ExitsInTime(states, moves, name)
    requires i < |states|
    requires name in states[i].workers && k < |states[i].workers[name].calls|
    requires var w, c := states[i].workers[name], states[i].workers[name].calls[k];
      && Tolerates(w.config, delay) && ShortDrain(w.config, delay)
      && !c.disturbed && (c.stage == Taken || c.stage == Working)
    ensures var c := states[i].workers[name].calls[k];
      && c.id < |states[i].rows|
      && LeaseOwned(states[i].rows[c.id], name, c.attempt)
      && !Expired(states[i].rows[c.id], states[i].now)
  {
    RunHolds(states, moves, i, name, delay);
    RunExits(states, moves, i, name);
    HeartbeatsProtect(states, moves, i, name, k, delay);
  }

  ghost predicate BeforeDeadline(s: World, name: Text) {
    name in s.workers && s.workers[name].stopped.Some? ==>
      s.now <= s.workers[name].stopped.value + DrainMs(s.workers[name].config)
  }

  lemma DeadlineStep(s: World, move: Move, t: World, name: Text)
    requires Next(s, move, t) && BeforeDeadline(s, name) && ExitsAtDeadline(s, move, name)
    ensures BeforeDeadline(t, name)
  {
    hide Renewed, Disturbs;
  }

  lemma {:induction false} RunExits(states: seq<World>, moves: seq<Move>, i: nat, name: Text)
    requires Run(states, moves) && ExitsInTime(states, moves, name) && i < |states|
    ensures BeforeDeadline(states[i], name)
  {
    hide Next, ExitsAtDeadline;
    if i > 0 {
      RunExits(states, moves, i - 1, name);
      hide BeforeDeadline;
      DeadlineStep(states[i - 1], moves[i - 1], states[i], name);
    }
  }
}
