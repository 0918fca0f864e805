/** Calls of one task that meet at a worker: when none does, and what becomes of one that is disturbed. */
module HeartbeatCalls {
  import opened Texts
  import opened Queue
  import opened Heartbeats

  // ---------------------------------------------------------------- when nothing is disturbed

  // The task of a call that has reported is not to be had again yet.
  predicate NotDue(t: Task, stage: Stage, now: int) {
    match stage
    case Reporting(Some(r)) => now < r && (t.status == Dead || (t.status == Pending && t.runAfter == r))
    case Reporting(None) => t.status == Finished
    case _ => true
  }

  ghost predicate Calm(s: World, name: Text, k: nat)
    requires name in s.workers && k < |s.workers[name].calls|
  {
    var w, c := s.workers[name], s.workers[name].calls[k];
    && !c.disturbed && c.id < |s.rows| && NotDue(s.rows[c.id], c.stage, s.now)
    && forall l :: 0 <= l < |w.calls| && l != k && w.calls[l].id == c.id ==> !UnderWay(c) || !UnderWay(w.calls[l])
  }

  predicate Steadfast(s: World, name: Text, delay: nat) {
    name in s.workers && s.workers[name].stopped.None? && Tolerates(s.workers[name].config, delay)
  }

  ghost predicate AllCalm(s: World, name: Text, delay: nat) {
    Steadfast(s, name, delay) ==> forall k :: 0 <= k < |s.workers[name].calls| ==> Calm(s, name, k)
  }

  // A row that is not due stays as it is.
  lemma NotDueStays(s: World, move: Move, t: World, id: nat, stage: Stage)
    requires Next(s, move, t) && id < |s.rows| && stage.Reporting? && NotDue(s.rows[id], stage, s.now)
    requires t.now == s.now || (stage.retryAt.Some? ==> t.now < stage.retryAt.value)
    ensures id < |t.rows| && NotDue(t.rows[id], stage, t.now)
  {
    hide Disturbs;
  }

  lemma LaterOnly(s: World, move: Move, t: World, name: Text, k: nat)
    requires Next(s, move, t) && WaitsForDeletion(s, move, name) && name in s.workers && k < |s.workers[name].calls|
    ensures t.now == s.now || RetriesAfter(s.workers[name].calls[k], t.now)
  {
    hide Renewed, Disturbs;
  }

  lemma OnlyReports(s: World, move: Move, t: World, name: Text, k: nat)
    requires Next(s, move, t) && name in s.workers && name in t.workers
    requires k < |s.workers[name].calls| && k < |t.workers[name].calls|
    requires t.workers[name].calls[k].stage.Reporting?
    requires t.workers[name].calls[k].stage != s.workers[name].calls[k].stage
    ensures (move.Succeed? || move.Break?) && move.worker == name && move.call == k
    ensures s.workers[name].calls[k].stage == Working
  {
    hide Renewed, Disturbs;
  }

  lemma ReportSettles(s: World, move: Move, t: World, name: Text, k: nat, delay: nat)
    requires Next(s, move, t) && WorkerHolds(s, name, delay) && WaitsForDeletion(s, move, name)
    requires Steadfast(s, name, delay) && name in t.workers
    requires k < |s.workers[name].calls| && k < |t.workers[name].calls| && !s.workers[name].calls[k].disturbed
    requires t.workers[name].calls[k].stage.Reporting?
    requires t.workers[name].calls[k].stage != s.workers[name].calls[k].stage
    ensures var c := t.workers[name].calls[k]; c.id < |t.rows| && NotDue(t.rows[c.id], c.stage, t.now)
  {
    OnlyReports(s, move, t, name, k);
    SafeNotExpired(s, name, k, delay);
    hide WorkerHolds, Disturbs;
  }

  lemma OldNotDue(s: World, move: Move, t: World, name: Text, k: nat, delay: nat)
    requires Next(s, move, t) && WorkerHolds(s, name, delay) && WaitsForDeletion(s, move, name)
    requires Steadfast(s, name, delay) && name in t.workers
    requires k < |s.workers[name].calls| && k < |t.workers[name].calls| && Calm(s, name, k)
    ensures var c := t.workers[name].calls[k]; c.id < |t.rows| && NotDue(t.rows[c.id], c.stage, t.now)
  {
    CallsStep(s, move, t, name);
    var c, d := s.workers[name].calls[k], t.workers[name].calls[k];
    RowStep(s, move, t, c.id);
    if d.stage.Reporting? {
      if d.stage == c.stage {
        LaterOnly(s, move, t, name, k);
        NotDueStays(s, move, t, c.id, c.stage);
      } else {
        ReportSettles(s, move, t, name, k, delay);
      }
    }
  }

  // Only another call of the same task disturbs.
  lemma DisturbedBy(s: World, move: Move, t: World, name: Text, k: nat)
    requires Next(s, move, t) && name in s.workers && name in t.workers
    requires k < |s.workers[name].calls| && k < |t.workers[name].calls|
    requires !s.workers[name].calls[k].disturbed && t.workers[name].calls[k].disturbed
    ensures (move.Succeed? || move.Break? || move.GiveUp? || move.Forget?) && move.worker == name && move.call != k
    ensures var calls := s.workers[name].calls;
      && move.call < |calls| && calls[move.call].id == calls[k].id
      && UnderWay(calls[move.call]) && (calls[k].stage == Taken || calls[k].stage == Working)
      && (move.GiveUp? || move.Forget? ==> calls[k].stage == Working)
  {
    hide Renewed;
  }

  lemma OldCalm(s: World, move: Move, t: World, name: Text, k: nat, delay: nat)
    requires Next(s, move, t) && WorkerHolds(s, name, delay) && WaitsForDeletion(s, move, name)
    requires Steadfast(s, name, delay) && name in t.workers && AllCalm(s, name, delay)
    requires k < |s.workers[name].calls| && k < |t.workers[name].calls|
    requires |t.workers[name].calls| == |s.workers[name].calls|
    ensures Calm(t, name, k)
  {
    assert Calm(s, name, k);
    OldNotDue(s, move, t, name, k, delay);
    CallsStep(s, move, t, name);
    if t.workers[name].calls[k].disturbed { DisturbedBy(s, move, t, name, k); }
    hide Next, WorkerHolds, WaitsForDeletion, NotDue;
    assert !t.workers[name].calls[k].disturbed;
  }

  // A row to be had has no call under way here.
  lemma NoneUnderWay(s: World, move: Move, t: World, name: Text, k: nat, delay: nat)
    requires Next(s, move, t) && move.Dequeue? && move.worker == name
    requires WorkerHolds(s, name, delay) && Steadfast(s, name, delay) && k < |s.workers[name].calls| && Calm(s, name, k)
    requires s.workers[name].calls[k].id == move.id
    ensures !UnderWay(s.workers[name].calls[k])
  {
    var c := s.workers[name].calls[k];
    if c.stage == Taken || c.stage == Working { SafeNotExpired(s, name, k, delay); }
  }

  lemma DequeueCalm(s: World, move: Move, t: World, name: Text, k: nat, delay: nat)
    requires Next(s, move, t) && move.Dequeue? && move.worker == name && k < |t.workers[name].calls|
    requires WorkerHolds(s, name, delay) && WaitsForDeletion(s, move, name) && AllCalm(s, name, delay)
    requires Steadfast(s, name, delay)
    ensures Calm(t, name, k)
  {
    var v, w := s.workers[name], t.workers[name];
    forall l | 0 <= l < |v.calls| && v.calls[l].id == move.id ensures !UnderWay(v.calls[l]) {
      NoneUnderWay(s, move, t, name, l, delay);
    }
    assert w.calls[..|v.calls|] == v.calls;
    assert forall l :: 0 <= l < |v.calls| ==> w.calls[l] == v.calls[l];
    if k < |v.calls| {
      assert Calm(s, name, k);
      OldNotDue(s, move, t, name, k, delay);
    }
  }

  lemma CalmStep(s: World, move: Move, t: World, name: Text, delay: nat)
    requires Next(s, move, t) && WorkerHolds(s, name, delay) && WaitsForDeletion(s, move, name)
    requires AllCalm(s, name, delay)
    ensures AllCalm(t, name, delay)
  {
    if Steadfast(t, name, delay) {
      if name !in s.workers {
        FreshWorker(s, move, t, name);
      } else {
        CallsStep(s, move, t, name);
        SameStop(s, move, t, name);
        var dequeues := move.Dequeue? && move.worker == name;
        CallsCount(s, move, t, name);
        hide Next, WorkerHolds, WaitsForDeletion, Calm, CallsStay;
        forall k | 0 <= k < |t.workers[name].calls| ensures Calm(t, name, k) {
          if dequeues { DequeueCalm(s, move, t, name, k, delay); } else { OldCalm(s, move, t, name, k, delay); }
        }
      }
    }
  }

  lemma CallsCount(s: World, move: Move, t: World, name: Text)
    requires Next(s, move, t) && name in s.workers && name in t.workers
    ensures s.workers[name].stopped.None? || t.workers[name].stopped.Some?
    ensures t.workers[name].config == s.workers[name].config
    ensures |t.workers[name].calls| == |s.workers[name].calls| + if move.Dequeue? && move.worker == name then 1 else 0
  {
    hide Renewed, Disturbs;
  }

  // If no retry is due before its predecessor's entry is deleted, no call of a running worker is disturbed.
  lemma {:induction false} NothingDisturbed(states: seq<World>, moves: seq<Move>, i: nat, name: Text, delay: nat)
    requires Run(states, moves) && Timely(states, moves, name, delay) && Patient(states, moves, name) && i < |states|
    ensures AllCalm(states[i], name, delay)
  {
    hide Next, WaitsForDeletion, Timely;
    if i > 0 {
      NothingDisturbed(states, moves, i - 1, name, delay);
      RunHolds(states, moves, i - 1, name, delay);
      hide AllCalm, WorkerHolds;
      CalmStep(states[i - 1], moves[i - 1], states[i], name, delay);
    }
  }

  // ---------------------------------------------------------------- what is not renewed

  // No heartbeat under way or to come names this task.
  predicate Unnamed(w: Worker, id: nat) {
    (w.stopped.Some? || id !in w.running) && forall b :: b in w.beats ==> id !in w.beats[b].ids
  }

  // The disturbing step takes the row from the call, or its entry.
  lemma DisturbingStep(s: World, move: Move, t: World, name: Text, k: nat)
    requires Next(s, move, t) && name in s.workers && name in t.workers
    requires k < |s.workers[name].calls| && k < |t.workers[name].calls|
    requires !s.workers[name].calls[k].disturbed && t.workers[name].calls[k].disturbed
    ensures var c := s.workers[name].calls[k];
      || (c.id < |t.rows| && !LeaseOwned(t.rows[c.id], name, c.attempt))
      || c.id !in t.workers[name].running
  {
    DisturbedBy(s, move, t, name, k);
    hide Renewed, Disturbs;
  }

  lemma LostStep(s: World, move: Move, t: World, id: nat, name: Text, attempt: nat)
    requires Next(s, move, t) && id < |s.rows|
    requires attempt <= s.rows[id].attempt && !LeaseOwned(s.rows[id], name, attempt)
    ensures id < |t.rows| && attempt <= t.rows[id].attempt && !LeaseOwned(t.rows[id], name, attempt)
  {
    RowStep(s, move, t, id);
    hide Next;
  }

  // A token that is no good is never good again.
  lemma {:induction false} LostForGood(
    states: seq<World>, moves: seq<Move>, i: nat, j: nat, id: nat, name: Text, attempt: nat)
    requires Run(states, moves) && i <= j < |states| && id < |states[i].rows|
    requires attempt <= states[i].rows[id].attempt && !LeaseOwned(states[i].rows[id], name, attempt)
    ensures id < |states[j].rows| && attempt <= states[j].rows[id].attempt
    ensures !LeaseOwned(states[j].rows[id], name, attempt)
    decreases j
  {
    hide Next, LeaseOwned;
    if i < j {
      LostForGood(states, moves, i, j - 1, id, name, attempt);
      LostStep(states[j - 1], moves[j - 1], states[j], id, name, attempt);
    }
  }

  // In every run a call that is disturbed has lost its entry, or its lease for good.
  lemma DisturbedLoses(states: seq<World>, moves: seq<Move>, i: nat, j: nat, name: Text, k: nat)
    requires Run(states, moves) && i < j < |states|
    requires name in states[i].workers && name in states[i + 1].workers
    requires k < |states[i].workers[name].calls| && k < |states[i + 1].workers[name].calls|
    requires !states[i].workers[name].calls[k].disturbed && states[i + 1].workers[name].calls[k].disturbed
    ensures var c := states[i].workers[name].calls[k];
      || c.id !in states[i + 1].workers[name].running
      || (c.id < |states[j].rows| && !LeaseOwned(states[j].rows[c.id], name, c.attempt))
  {
    var c := states[i].workers[name].calls[k];
    assert Next(states[i], moves[i], states[i + 1]);
    DisturbingStep(states[i], moves[i], states[i + 1], name, k);
    RunLeased(states, moves, i, name);
    RowStep(states[i], moves[i], states[i + 1], c.id);
    hide Next;
    if c.id in states[i + 1].workers[name].running {
      LostForGood(states, moves, i + 1, j, c.id, name, c.attempt);
    }
  }

  // The k-th call is still there, no heartbeat names its task, and as long as its token is good the lease
  // expires when it did.
  ghost predicate NotRenewed(s: World, t: World, name: Text, k: nat) {
    && name in s.workers && name in t.workers
    && k < |s.workers[name].calls| && k < |t.workers[name].calls|
    && var c, d := s.workers[name].calls[k], t.workers[name].calls[k];
    && d.id == c.id && d.attempt == c.attempt
    && Unnamed(t.workers[name], c.id)
    && c.id < |s.rows| && c.id < |t.rows|
    && (LeaseOwned(t.rows[c.id], name, c.attempt) ==>
         && LeaseOwned(s.rows[c.id], name, c.attempt)
         && t.rows[c.id].leaseExpiresAt == s.rows[c.id].leaseExpiresAt)
  }

  lemma UnnamedStep(s: World, move: Move, t: World, name: Text, k: nat)
    requires Next(s, move, t) && name in s.workers && name in t.workers && k < |s.workers[name].calls|
    requires AllLeased(s, name) && Unnamed(s.workers[name], s.workers[name].calls[k].id)
    requires s.workers[name].stopped.None? ==> !Dispatches(s, move, name, s.workers[name].calls[k].id)
    ensures NotRenewed(s, t, name, k)
  {
    RowStep(s, move, t, s.workers[name].calls[k].id);
    hide Disturbs;
  }

  lemma NotRenewedThen(s: World, t: World, u: World, name: Text, k: nat)
    requires NotRenewed(s, t, name, k) && NotRenewed(t, u, name, k)
    ensures NotRenewed(s, u, name, k)
  {
  }

  // The rows of calls are there, and their attempts not in the past of the calls'.
  ghost predicate AllLeased(s: World, name: Text) {
    name in s.workers ==>
      forall k :: 0 <= k < |s.workers[name].calls| ==>
        var c := s.workers[name].calls[k]; c.id < |s.rows| && c.attempt <= s.rows[c.id].attempt
  }

  lemma LeasedStep(s: World, move: Move, t: World, name: Text)
    requires Next(s, move, t) && AllLeased(s, name)
    ensures AllLeased(t, name)
  {
    if name in t.workers {
      if name !in s.workers {
        FreshWorker(s, move, t, name);
      } else {
        forall k | 0 <= k < |t.workers[name].calls|
          ensures var c := t.workers[name].calls[k]; c.id < |t.rows| && c.attempt <= t.rows[c.id].attempt
        {
          CallFrom(s, move, t, name, k);
          if k < |s.workers[name].calls| { RowStep(s, move, t, s.workers[name].calls[k].id); }
        }
      }
    }
  }

  // A call is one there was, or the one just leased.
  lemma CallFrom(s: World, move: Move, t: World, name: Text, k: nat)
    requires Next(s, move, t) && name in s.workers && name in t.workers && k < |t.workers[name].calls|
    ensures var c := t.workers[name].calls[k];
      if k < |s.workers[name].calls| then
        c.id == s.workers[name].calls[k].id && c.attempt == s.workers[name].calls[k].attempt
      else move.Dequeue? && c.id < |t.rows| && c.attempt == t.rows[c.id].attempt
  {
    hide Renewed, Disturbs;
  }

  lemma {:induction false} RunLeased(states: seq<World>, moves: seq<Move>, i: nat, name: Text)
    requires Run(states, moves) && i < |states|
    ensures AllLeased(states[i], name)
  {
    hide Next;
    if i > 0 {
      RunLeased(states, moves, i - 1, name);
      hide AllLeased;
      LeasedStep(states[i - 1], moves[i - 1], states[i], name);
    }
  }

  // A row of this task is handed to the handler.
  predicate Dispatches(s: World, move: Move, name: Text, id: nat) {
    && move.Dispatch? && move.worker == name && name in s.workers
    && move.call < |s.workers[name].calls| && s.workers[name].calls[move.call].id == id
  }

  predicate Runs(s: World, name: Text) {
    name in s.workers && s.workers[name].stopped.None?
  }

  // While the worker is there, no row of this task is handed to the handler unless it has stopped.
  ghost predicate NoNewCall(states: seq<World>, moves: seq<Move>, i: nat, j: nat, name: Text, id: nat) {
    && (forall m :: i <= m <= j && m < |states| ==> name in states[m].workers)
    && forall m :: i <= m < j && m < |states| && m < |moves| && Runs(states[m], name) ==>
         !Dispatches(states[m], moves[m], name, id)
  }

  // From then on nothing renews the lease: as long as the token is good it expires when it did, whatever the
  // timers, the drain timeout and everybody else do.
  lemma {:induction false} NeverRenewed(states: seq<World>, moves: seq<Move>, i: nat, j: nat, name: Text, k: nat)
    requires Run(states, moves) && i <= j < |states|
    requires name in states[i].workers && k < |states[i].workers[name].calls|
    requires Unnamed(states[i].workers[name], states[i].workers[name].calls[k].id)
    requires NoNewCall(states, moves, i, j, name, states[i].workers[name].calls[k].id)
    ensures NotRenewed(states[i], states[j], name, k)
    decreases j
  {
    hide Next, NotRenewed, Unnamed, AllLeased, Dispatches;
    RunLeased(states, moves, i, name);
    if i == j {
      NotYetRenewed(states[i], name, k);
    } else {
      NeverRenewed(states, moves, i, j - 1, name, k);
      RunLeased(states, moves, j - 1, name);
      StillUnnamed(states[i], states[j - 1], name, k);
      UnnamedStep(states[j - 1], moves[j - 1], states[j], name, k);
      NotRenewedThen(states[i], states[j - 1], states[j], name, k);
    }
  }

  lemma NotYetRenewed(s: World, name: Text, k: nat)
    requires name in s.workers && k < |s.workers[name].calls| && AllLeased(s, name)
    requires Unnamed(s.workers[name], s.workers[name].calls[k].id)
    ensures NotRenewed(s, s, name, k)
  {
  }

  lemma StillUnnamed(s: World, t: World, name: Text, k: nat)
    requires NotRenewed(s, t, name, k)
    ensures name in t.workers && k < |t.workers[name].calls|
    ensures t.workers[name].calls[k].id == s.workers[name].calls[k].id
    ensures Unnamed(t.workers[name], t.workers[name].calls[k].id)
  {
  }
}
