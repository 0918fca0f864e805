/** Runs in which a call loses its lease: that the conditions of Heartbeats are needed. */
module HeartbeatRuns {
  import opened Wrappers
  import opened Texts
  import opened Queue
  import opened Heartbeats

  // Some timely run ends here, if need be one whose process is gone at its deadline.
  ghost predicate Possible(s: World, name: Text, delay: nat, exits: bool) {
    exists states, moves ::
      && Run(states, moves) && Timely(states, moves, name, delay) && (exits ==> ExitsInTime(states, moves, name))
      && states[|states| - 1] == s
  }

  lemma Starts(name: Text, delay: nat, exits: bool)
    ensures Possible(EMPTY, name, delay, exits)
  {
    var states, moves: seq<Move> := [EMPTY], [];
    assert Run(states, moves) && Timely(states, moves, name, delay) && ExitsInTime(states, moves, name);
  }

  lemma Goes(s: World, move: Move, t: World, name: Text, delay: nat, exits: bool)
    requires Possible(s, name, delay, exits)
    requires Next(s, move, t) && OnTime(s, move, name, delay) && (exits ==> ExitsAtDeadline(s, move, name))
    ensures Possible(t, name, delay, exits)
  {
    hide Next, OnTime, ExitsAtDeadline;
    var states, moves :|
      && Run(states, moves) && Timely(states, moves, name, delay) && (exits ==> ExitsInTime(states, moves, name))
      && states[|states| - 1] == s;
    var states', moves' := states + [t], moves + [move];
    forall i | 0 <= i < |moves'|
      ensures Next(states'[i], moves'[i], states'[i + 1]) && OnTime(states'[i], moves'[i], name, delay)
      ensures exits ==> ExitsAtDeadline(states'[i], moves'[i], name)
    {
      if i < |moves| { assert Next(states[i], moves[i], states[i + 1]) && OnTime(states[i], moves[i], name, delay); }
    }
    assert Run(states', moves') && Timely(states', moves', name, delay) &&
      (exits ==> ExitsInTime(states', moves', name));
  }

  // One worker, one row.
  function One(now: int, row: Task, name: Text, w: Worker): World {
    World(now, [row], map[name := w])
  }

  // A worker with one poll out, of whose rows it has taken one.
  function Busy(config: Config, lastBeat: int, running: set<nat>, call: Call): Worker
    requires config.maxConcurrency > 0
  {
    Worker(config, lastBeat, None, running, map[0 := config.maxConcurrency - 1], map[], [call])
  }

  lemma ResolvedSound(config: Config)
    requires Resolved(config)
    ensures Sound(config) && config.maxConcurrency > 0
  {
    var input :| ResolveWorkerConfig(input) == Ok(config);
  }

  // ---------------------------------------------------------------- a row leased late, handed over later

  // When the row is leased: `delay` before a multiple of the interval.
  function Rounds(config: Config, delay: nat): nat
    requires config.heartbeatIntervalMs > 0
  {
    (delay + config.heartbeatIntervalMs - 1) / config.heartbeatIntervalMs
  }

  function Tick(config: Config, n: nat): int {
    n * config.heartbeatIntervalMs
  }

  lemma RoundsFit(config: Config, delay: nat)
    requires config.heartbeatIntervalMs > 0
    ensures 0 <= Tick(config, Rounds(config, delay)) - delay < config.heartbeatIntervalMs
    ensures delay == 0 ==> Rounds(config, delay) == 0
    ensures delay > 0 ==> Rounds(config, delay) > 0
  {
    var i := config.heartbeatIntervalMs;
    var n := delay + i - 1;
    assert n == i * (n / i) + n % i;
    assert i * (n / i) == (n / i) * i;
    if delay == 0 { assert n / i == 0; }
  }

  lemma NextTick(config: Config, n: nat)
    ensures Tick(config, n + 1) == Tick(config, n) + config.heartbeatIntervalMs
  {
  }

  function TakenAt(config: Config, delay: nat): int
    requires config.heartbeatIntervalMs > 0
  {
    Tick(config, Rounds(config, delay)) - delay
  }

  function TheCall(task: Task, since: int, stage: Stage): Call {
    Call(0, task.attempt + 1, since, false, stage)
  }

  lemma Polls(config: Config, name: Text, task: Task, delay: nat, exits: bool)
    requires Resolved(config) && task.status == Pending
    ensures config.heartbeatIntervalMs > 0 && config.maxConcurrency > 0
    ensures var x := TakenAt(config, delay);
      var w := Worker(config, 0, None, {}, map[0 := config.maxConcurrency], map[], []);
      Possible(One(x, task, name, w), name, delay, exits)
  {
    ResolvedSound(config);
    RoundsFit(config, delay);
    hide Tick, Rounds, Possible;
    var x := TakenAt(config, delay);
    var w := Worker(config, 0, None, {}, map[], map[], []);
    var polling := w.(polls := map[0 := config.maxConcurrency]);
    Starts(name, delay, exits);
    Goes(EMPTY, Start(name, config), World(0, [], map[name := w]), name, delay, exits);
    hide Resolved;
    Goes(World(0, [], map[name := w]), Advance(x), World(x, [], map[name := w]), name, delay, exits);
    Goes(World(x, [], map[name := w]), Enqueue(task), One(x, task, name, w), name, delay, exits);
    assert map[name := w][name := polling] == map[name := polling];
    Goes(One(x, task, name, w), Poll(name, 0), One(x, task, name, polling), name, delay, exits);
  }

  lemma Leases(config: Config, name: Text, task: Task, delay: nat, exits: bool)
    requires Resolved(config) && task.status == Pending && task.runAfter <= 0
    ensures config.heartbeatIntervalMs > 0 && config.maxConcurrency > 0
    ensures var x := TakenAt(config, delay);
      var w := Busy(config, 0, {}, TheCall(task, x, Taken));
      Possible(One(x, Lease(task, name, x + LeaseMs(config)), name, w), name, delay, exits)
  {
    Polls(config, name, task, delay, exits);
    RoundsFit(config, delay);
    hide Resolved, Tick, Rounds, Possible;
    var x := TakenAt(config, delay);
    var polling := Worker(config, 0, None, {}, map[0 := config.maxConcurrency], map[], []);
    var busy := Busy(config, 0, {}, TheCall(task, x, Taken));
    assert polling.polls[0 := polling.polls[0] - 1] == busy.polls;
    assert polling.calls + [TheCall(task, x, Taken)] == busy.calls;
    assert map[name := polling][name := busy] == map[name := busy];
    assert [task][0 := Lease(task, name, x + LeaseMs(config))] == [Lease(task, name, x + LeaseMs(config))];
    var taken := One(x, Lease(task, name, x + LeaseMs(config)), name, busy);
    Goes(One(x, task, name, polling), Dequeue(name, 0, 0), taken, name, delay, exits);
  }

  // Heartbeats of a worker with nothing running are none.
  lemma {:induction false} IdleRounds(now: int, row: Task, name: Text, w: Worker, n: nat, delay: nat, exits: bool)
    requires Possible(One(now, row, name, w), name, delay, exits)
    requires w.stopped.None? && w.running == {} && w.beats == map[] && w.config.heartbeatIntervalMs > 0
    requires w.lastBeat <= now <= w.lastBeat + w.config.heartbeatIntervalMs && n > 0
    requires forall k :: 0 <= k < |w.calls| && w.calls[k].stage == Taken ==>
      w.lastBeat + Tick(w.config, n) <= w.calls[k].since + delay
    ensures var at := w.lastBeat + Tick(w.config, n);
      Possible(One(at, row, name, w.(lastBeat := at)), name, delay, exits)
    decreases n
  {
    var next := w.lastBeat + w.config.heartbeatIntervalMs;
    NextTick(w.config, n - 1);
    TickGrows(w.config, n - 1);
    hide Possible, Tick;
    Goes(One(now, row, name, w), Advance(next), One(next, row, name, w), name, delay, exits);
    var v := w.(lastBeat := next);
    assert map[name := w][name := v] == map[name := v];
    Goes(One(next, row, name, w), Fire(name, 0), One(next, row, name, v), name, delay, exits);
    if n > 1 { IdleRounds(next, row, name, v, n - 1, delay, exits); } else { NoTick(w.config); }
  }

  lemma TickGrows(config: Config, n: nat)
    requires config.heartbeatIntervalMs > 0
    ensures Tick(config, n) >= n
  {
    assert n * config.heartbeatIntervalMs >= n * 1;
  }

  lemma NoTick(config: Config)
    ensures Tick(config, 0) == 0
  {
  }

  // Handed to the handler `delay` after it was leased, right after a heartbeat was due.
  lemma Hands(config: Config, name: Text, task: Task, delay: nat, exits: bool)
    requires Resolved(config) && task.status == Pending && task.runAfter <= 0
    ensures Sound(config) && config.maxConcurrency > 0
    ensures var x, at := TakenAt(config, delay), Tick(config, Rounds(config, delay));
      var w := Busy(config, at, {0}, TheCall(task, x, Working));
      Possible(One(at, Lease(task, name, x + LeaseMs(config)), name, w), name, delay, exits)
  {
    Leases(config, name, task, delay, exits);
    ResolvedSound(config);
    RoundsFit(config, delay);
    NoTick(config);
    var x, n := TakenAt(config, delay), Rounds(config, delay);
    var at, row := Tick(config, n), Lease(task, name, x + LeaseMs(config));
    hide Possible, Tick, Rounds;
    var w := Busy(config, 0, {}, TheCall(task, x, Taken));
    if n > 0 { IdleRounds(x, row, name, w, n, delay, exits); }
    var v, u := Busy(config, at, {}, TheCall(task, x, Taken)), Busy(config, at, {0}, TheCall(task, x, Working));
    assert Staged(v, 0, Working).(running := v.running + {0}) == u;
    assert map[name := v][name := u] == map[name := u];
    Goes(One(at, row, name, v), Dispatch(name, 0), One(at, row, name, u), name, delay, exits);
  }

  // ---------------------------------------------------------------- stopping

  // The process is gone at its deadline, and still the drain is too long.
  lemma LongDrainLosesLease(config: Config, name: Text, task: Task, delay: nat)
    requires Resolved(config) && !ShortDrain(config, delay) && task.status == Pending && task.runAfter <= 0
    ensures exists s ::
      && Possible(s, name, delay, true) && name in s.workers && s.workers[name].config == config
      && s.workers[name].stopped.Some? && |s.workers[name].calls| == 1 && |s.rows| == 1
      && !s.workers[name].calls[0].disturbed && s.workers[name].calls[0].stage == Working
      && LeaseOwned(s.rows[0], name, s.workers[name].calls[0].attempt) && Expired(s.rows[0], s.now)
  {
    Hands(config, name, task, delay, true);
    var x, at := TakenAt(config, delay), Tick(config, Rounds(config, delay));
    var row, w := Lease(task, name, x + LeaseMs(config)), Busy(config, at, {0}, TheCall(task, x, Working));
    var end := at + config.heartbeatIntervalMs;
    var v := w.(stopped := Some(end));
    hide Possible, Tick, Rounds, Resolved;
    Goes(One(at, row, name, w), Advance(end), One(end, row, name, w), name, delay, true);
    assert map[name := w][name := v] == map[name := v];
    Goes(One(end, row, name, w), Stop(name), One(end, row, name, v), name, delay, true);
    var last := end + DrainMs(config);
    Goes(One(end, row, name, v), Advance(last), One(last, row, name, v), name, delay, true);
  }

  lemma DefaultsDrainTooLong()
    ensures exists c :: ResolveWorkerConfig(ConfigInput(1, None, None, None, None, None)) == Ok(c) && !ShortDrain(c, 0)
  {
    assert ResolveWorkerConfig(ConfigInput(1, None, None, None, None, None)) ==
      Ok(Config(1, 30, 10_000, 100, 2_000, 30_000));
  }

  // Where stop() returns at its deadline and the process stays, the handler runs on: then, for every
  // configuration and answers that take no time, the reaper gets the task of a call at work once the lease is over.
  lemma StoppedLosesLease(config: Config, name: Text, task: Task, to: int)
    requires Resolved(config) && task.status == Pending && task.runAfter <= 0 && to > LeaseMs(config)
    ensures exists s, t ::
      && Possible(s, name, 0, false) && Next(s, Reclaim(0), t) && Possible(t, name, 0, false)
      && s.now == to && name in t.workers && t.workers[name].config == config && t.workers[name].stopped == Some(0)
      && |t.workers[name].calls| == 1 && t.workers[name].calls[0].stage == Working
      && !t.workers[name].calls[0].disturbed
      && t.workers[name].calls[0].id == 0
  {
    Hands(config, name, task, 0, false);
    RoundsFit(config, 0);
    NoTick(config);
    var row, w := Lease(task, name, LeaseMs(config)), Busy(config, 0, {0}, TheCall(task, 0, Working));
    var v := w.(stopped := Some(0));
    hide Possible, Tick, Rounds, Resolved;
    assert map[name := w][name := v] == map[name := v];
    Goes(One(0, row, name, w), Stop(name), One(0, row, name, v), name, 0, false);
    Goes(One(0, row, name, v), Advance(to), One(to, row, name, v), name, 0, false);
    Reaps(One(to, row, name, v), One(to, Reclaimed(row), name, v), name) by {
      assert [row][0 := Reclaimed(row)] == [Reclaimed(row)];
    }
  }

  lemma Reaps(s: World, t: World, name: Text)
    requires Possible(s, name, 0, false)
    requires |s.rows| == 1 && Expired(s.rows[0], s.now) && t == s.(rows := s.rows[0 := Reclaimed(s.rows[0])])
    ensures Next(s, Reclaim(0), t) && Possible(t, name, 0, false)
  {
    hide Possible;
    assert Next(s, Reclaim(0), t);
    Goes(s, Reclaim(0), t, name, 0, false);
  }

  // ---------------------------------------------------------------- answers that take too long

  function BeatsFrom(config: Config, first: nat, n: nat): map<nat, Beat> {
    if n == 0 then map[] else BeatsFrom(config, first, n - 1)[n - 1 := Beat(Tick(config, first + n - 1), {0})]
  }

  // Heartbeats that do not land.
  lemma {:induction false} BusyRounds(row: Task, name: Text, w: Worker, first: nat, n: nat, delay: nat, exits: bool)
    requires w.stopped.None? && w.running == {0} && w.config.heartbeatIntervalMs > 0 && first > 0
    requires w.lastBeat == Tick(w.config, first - 1) && w.beats == map[]
    requires forall k :: 0 <= k < |w.calls| ==> w.calls[k].stage != Taken
    requires Possible(One(w.lastBeat, row, name, w), name, delay, exits)
    requires n > 0 ==> Tick(w.config, first + n - 1) <= Tick(w.config, first) + delay
    ensures var at := Tick(w.config, first + n - 1);
      Possible(One(at, row, name, w.(lastBeat := at, beats := BeatsFrom(w.config, first, n))), name, delay, exits)
  {
    if n > 0 {
      NextTick(w.config, first + n - 2);
      hide Possible, Tick;
      BusyRounds(row, name, w, first, n - 1, delay, exits);
      var at, next := Tick(w.config, first + n - 2), Tick(w.config, first + n - 1);
      var v := w.(lastBeat := at, beats := BeatsFrom(w.config, first, n - 1));
      var u := w.(lastBeat := next, beats := BeatsFrom(w.config, first, n));
      FirstIsEarliest(w.config, first, n - 1);
      Goes(One(at, row, name, v), Advance(next), One(next, row, name, v), name, delay, exits);
      assert map[name := v][name := u] == map[name := u];
      Goes(One(next, row, name, v), Fire(name, n - 1), One(next, row, name, u), name, delay, exits);
    }
  }

  lemma {:induction false} FirstIsEarliest(config: Config, first: nat, n: nat)
    requires config.heartbeatIntervalMs > 0
    ensures forall b :: b in BeatsFrom(config, first, n) ==>
      b < n && BeatsFrom(config, first, n)[b].at >= Tick(config, first)
  {
    if n > 0 {
      FirstIsEarliest(config, first, n - 1);
      TickSum(config, first, n - 1);
    }
  }

  lemma TickSum(config: Config, a: nat, b: nat)
    requires config.heartbeatIntervalMs > 0
    ensures Tick(config, a + b) == Tick(config, a) + Tick(config, b) >= Tick(config, a)
  {
    assert (a + b) * config.heartbeatIntervalMs == a * config.heartbeatIntervalMs + b * config.heartbeatIntervalMs;
    TickGrows(config, b);
  }

  // Twice the delay and the interval do not fit into the lease: a running worker can lose a call that nothing
  // disturbs and whose entry is there, though every heartbeat and every answer arrives within the delay.
  lemma SlowAnswersLoseLease(config: Config, name: Text, task: Task, delay: nat)
    requires Resolved(config) && !Tolerates(config, delay) && task.status == Pending && task.runAfter <= 0
    ensures exists s ::
      && Possible(s, name, delay, false) && name in s.workers && s.workers[name].config == config
      && s.workers[name].stopped.None? && 0 in s.workers[name].running && |s.workers[name].calls| == 1 && |s.rows| == 1
      && !s.workers[name].calls[0].disturbed && s.workers[name].calls[0].stage == Working
      && LeaseOwned(s.rows[0], name, s.workers[name].calls[0].attempt) && Expired(s.rows[0], s.now)
  {
    Hands(config, name, task, delay, false);
    RoundsFit(config, delay);
    var x, m := TakenAt(config, delay), Rounds(config, delay);
    var at, row := Tick(config, m), Lease(task, name, x + LeaseMs(config));
    var w := Busy(config, at, {0}, TheCall(task, x, Working));
    TickSum(config, m, m);
    NextTick(config, m);
    hide Possible, Rounds, Resolved, Tick;
    BusyRounds(row, name, w, m + 1, m, delay, false);
    var last, end := Tick(config, m + m), Tick(config, m + 1) + delay;
    var u := w.(lastBeat := last, beats := BeatsFrom(config, m + 1, m));
    FirstIsEarliest(config, m + 1, m);
    Goes(One(last, row, name, u), Advance(end), One(end, row, name, u), name, delay, false);
  }

  // ---------------------------------------------------------------- a retry that overtakes

  function Overtaken(
    config: Config, task: Task, lastBeat: int, running: set<nat>, first: Stage, second: seq<Call>): Worker
    requires config.maxConcurrency > 1 && |second| <= 1
  {
    Worker(config, lastBeat, None, running,
      map[0 := config.maxConcurrency - 1, 1 := config.maxConcurrency - 1 - |second|], map[],
        [TheCall(task, 0, first)] + second)
  }

  function Retry(task: Task, disturbed: bool, stage: Stage): seq<Call> {
    [Call(0, task.attempt + 2, 0, disturbed, stage)]
  }

  // The first call fails and its retry is due at once.
  lemma Fails(config: Config, name: Text, task: Task)
    requires Resolved(config) && config.maxConcurrency > 1
    requires task.status == Pending && task.runAfter <= 0 && task.attempt + 1 < task.maxAttempts
    ensures var failed := AfterFail(Lease(task, name, LeaseMs(config)), name, [], 0);
      && failed.status == Pending && failed.runAfter == 0 && failed.attempt == task.attempt + 1
      && Possible(One(0, failed, name, Overtaken(config, task, 0, {0}, Reporting(Some(0)), [])), name, 0, false)
  {
    Hands(config, name, task, 0, false);
    RoundsFit(config, 0);
    NoTick(config);
    hide Possible, Tick, Rounds, Resolved;
    var row, w := Lease(task, name, LeaseMs(config)), Busy(config, 0, {0}, TheCall(task, 0, Working));
    var failed, v := AfterFail(row, name, [], 0), Busy(config, 0, {0}, TheCall(task, 0, Reporting(Some(0))));
    assert Leaving(w, 0, Reporting(Some(0))) == v;
    assert map[name := w][name := v] == map[name := v] && [row][0 := failed] == [failed];
    Goes(One(0, row, name, w), Break(name, 0, [], 0), One(0, failed, name, v), name, 0, false);
    var u := Overtaken(config, task, 0, {0}, Reporting(Some(0)), []);
    assert |v.running| == 1;
    assert v.polls[1 := config.maxConcurrency - 1] == u.polls;
    assert v.calls == u.calls;
    assert map[name := v][name := u] == map[name := u];
    Goes(One(0, failed, name, v), Poll(name, 1), One(0, failed, name, u), name, 0, false);
  }

  // The same worker leases the task again,
  lemma TakesAgain(config: Config, name: Text, task: Task)
    requires Resolved(config) && config.maxConcurrency > 1
    requires task.status == Pending && task.runAfter <= 0 && task.attempt + 1 < task.maxAttempts
    ensures var failed := AfterFail(Lease(task, name, LeaseMs(config)), name, [], 0);
      Possible(One(0, Lease(failed, name, LeaseMs(config)), name,
        Overtaken(config, task, 0, {0}, Reporting(Some(0)), Retry(task, false, Taken))), name, 0, false)
  {
    Fails(config, name, task);
    hide Possible, Resolved;
    var failed := AfterFail(Lease(task, name, LeaseMs(config)), name, [], 0);
    var row := Lease(failed, name, LeaseMs(config));
    var u := Overtaken(config, task, 0, {0}, Reporting(Some(0)), []);
    var v := Overtaken(config, task, 0, {0}, Reporting(Some(0)), Retry(task, false, Taken));
    assert u.polls[1 := u.polls[1] - 1] == v.polls && u.calls + Retry(task, false, Taken) == v.calls;
    assert map[name := u][name := v] == map[name := v] && [failed][0 := row] == [row];
    Goes(One(0, failed, name, u), Dequeue(name, 1, 0), One(0, row, name, v), name, 0, false);
  }

  // and hands it over before the first call deletes its entry.
  lemma Overtakes(config: Config, name: Text, task: Task)
    requires Resolved(config) && config.maxConcurrency > 1
    requires task.status == Pending && task.runAfter <= 0 && task.attempt + 1 < task.maxAttempts
    ensures var failed := AfterFail(Lease(task, name, LeaseMs(config)), name, [], 0);
      Possible(One(0, Lease(failed, name, LeaseMs(config)), name,
        Overtaken(config, task, 0, {}, Ended, Retry(task, true, Working))), name, 0, false)
  {
    TakesAgain(config, name, task);
    hide Possible, Resolved, AfterFail;
    var failed := AfterFail(Lease(task, name, LeaseMs(config)), name, [], 0);
    var row := Lease(failed, name, LeaseMs(config));
    var v := Overtaken(config, task, 0, {0}, Reporting(Some(0)), Retry(task, false, Taken));
    var x := Overtaken(config, task, 0, {0}, Reporting(Some(0)), Retry(task, false, Working));
    assert Staged(v, 1, Working).calls == x.calls && v.running + {0} == {0};
    assert map[name := v][name := x] == map[name := x];
    Goes(One(0, row, name, v), Dispatch(name, 1), One(0, row, name, x), name, 0, false);
    var y := Overtaken(config, task, 0, {}, Ended, Retry(task, true, Working));
    assert Leaving(x, 0, Ended).calls == y.calls && x.running - {0} == {};
    assert map[name := x][name := y] == map[name := y];
    Goes(One(0, row, name, x), Forget(name, 0), One(0, row, name, y), name, 0, false);
  }

  // So a running worker whose heartbeats and answers take no time loses a call at work.
  lemma OvertakenLosesLease(config: Config, name: Text, task: Task)
    requires Resolved(config) && config.maxConcurrency > 1
    requires task.status == Pending && task.runAfter <= 0 && task.attempt + 1 < task.maxAttempts
    ensures exists s ::
      && Possible(s, name, 0, false) && name in s.workers && s.workers[name].config == config
      && s.workers[name].stopped.None? && 0 !in s.workers[name].running && |s.workers[name].calls| == 2 && |s.rows| == 1
      && s.workers[name].calls[1].disturbed && s.workers[name].calls[1].stage == Working
      && s.workers[name].calls[1].id == 0
      && LeaseOwned(s.rows[0], name, s.workers[name].calls[1].attempt) && Expired(s.rows[0], s.now)
  {
    Overtakes(config, name, task);
    ResolvedSound(config);
    hide Possible, Resolved;
    var row := Lease(AfterFail(Lease(task, name, LeaseMs(config)), name, [], 0), name, LeaseMs(config));
    var w := Overtaken(config, task, 0, {}, Ended, Retry(task, true, Working));
    var n := LeaseMs(config) + 1;
    TickGrows(config, n);
    hide Tick;
    IdleRounds(0, row, name, w, n, 0, false);
  }
}
