/**
 packages/worker-sdk/src/activityHandler.ts: handler calls of one workflow side by side. None is fenced, and a lease
 that ran out lets another call of the same activity start; between what a call reads and what it appends anything
 may happen. Exactly which calls leave an activity with two outcomes, and what a second outcome does.
 */
module ActivityRuns {
  import opened Wrappers
  import opened Texts
  import opened Json
  import opened Requests
  import opened Events
  import opened ReplaySpec
  import opened ActivityHandler

  // length: how much of the log the call has read; at: where its outcome went.
  datatype Stage =
    | Started
    | Working(length: nat)
    | Finished(length: nat, outcome: Event)
    | Recorded(length: nat, at: nat)
    | Over

  datatype Call = Call(seqNo: nat, stage: Stage)

  datatype State = State(log: seq<Stored>, calls: seq<Call>)

  datatype Step =
    | Start(seqNo: nat)
    | Read(i: nat)
    | Work(i: nat, ran: Result<Json, Text>)
    | Append(i: nat)
    | Stop(i: nat)                       // it throws, or its worker is gone
    | Others(event: Event)

  function Staged(s: State, i: nat, stage: Stage): State
    requires i < |s.calls|
  {
    s.(calls := s.calls[i := s.calls[i].(stage := stage)])
  }

  predicate At(s: State, i: nat) {
    i < |s.calls|
  }

  ghost predicate Next(s: State, step: Step, t: State) {
    match step
    case Start(seqNo) => t == s.(calls := s.calls + [Call(seqNo, Started)])
    case Read(i) =>
      && At(s, i) && s.calls[i].stage == Started
      && t == Staged(s, i, if HasOutcome(s.log, s.calls[i].seqNo) then Over else Working(|s.log|))
    case Work(i, ran) =>
      && At(s, i) && s.calls[i].stage.Working?
      && t == Staged(s, i, Finished(s.calls[i].stage.length, OutcomeEvent(s.calls[i].seqNo, ran)))
    case Append(i) =>
      && At(s, i) && s.calls[i].stage.Finished?
      && t == Staged(s, i, Recorded(s.calls[i].stage.length, |s.log|)).(
           log := s.log + [Stored(|s.log| + 1, s.calls[i].stage.outcome)])
    case Stop(i) => At(s, i) && !s.calls[i].stage.Recorded? && t == Staged(s, i, Over)
    case Others(event) =>
      !event.ActivityCompleted? && !event.ActivityFailed? && t == s.(log := s.log + [Stored(|s.log| + 1, event)])
  }

  const INITIAL := State([], [])

  ghost predicate Run(states: seq<State>, steps: seq<Step>) {
    && |states| == |steps| + 1
    && states[0] == INITIAL
    && forall n :: 0 <= n < |steps| ==> Next(states[n], steps[n], states[n + 1])
  }

  // ---------------------------------------------------------------- what every run keeps

  // What the call has read holds no outcome of its step.
  predicate ReadNone(log: seq<Stored>, c: Call, length: nat) {
    length <= |log| && !HasOutcome(log[..length], c.seqNo)
  }

  predicate CallHolds(log: seq<Stored>, c: Call) {
    match c.stage
    case Working(length) => ReadNone(log, c, length)
    case Finished(length, outcome) => ReadNone(log, c, length) && Settles(outcome, c.seqNo)
    case Recorded(length, at) => ReadNone(log, c, length) && length <= at < |log| && Settles(log[at].event, c.seqNo)
    case _ => true
  }

  predicate RecordedAt(c: Call, at: nat) {
    c.stage.Recorded? && c.stage.at == at
  }

  ghost predicate IsRecorded(s: State, p: nat) {
    exists i :: 0 <= i < |s.calls| && RecordedAt(s.calls[i], p)
  }

  predicate IsOutcome(e: Event) {
    e.ActivityCompleted? || e.ActivityFailed?
  }

  ghost predicate Inv(s: State) {
    && (forall i :: 0 <= i < |s.calls| ==> CallHolds(s.log, s.calls[i]))
    && (forall p :: 0 <= p < |s.log| && IsOutcome(s.log[p].event) ==> IsRecorded(s, p))
    && (forall i, j :: 0 <= i < j < |s.calls| && s.calls[i].stage.Recorded? && s.calls[j].stage.Recorded? ==>
         s.calls[i].stage.at != s.calls[j].stage.at)
  }

  lemma CallStays(log: seq<Stored>, x: Stored, c: Call)
    requires CallHolds(log, c)
    ensures CallHolds(log + [x], c)
  {
    if c.stage.Working? || c.stage.Finished? || c.stage.Recorded? {
      assert (log + [x])[..c.stage.length] == log[..c.stage.length];
    }
  }

  lemma CallsStep(s: State, step: Step, t: State)
    requires Inv(s) && Next(s, step, t)
    ensures forall i :: 0 <= i < |t.calls| ==> CallHolds(t.log, t.calls[i])
  {
    if step.Append? || step.Others? { forall c | CallHolds(s.log, c) { CallStays(s.log, t.log[|s.log|], c); } }
  }

  lemma RecordedStep(s: State, step: Step, t: State)
    requires Inv(s) && Next(s, step, t)
    ensures forall p :: 0 <= p < |t.log| && IsOutcome(t.log[p].event) ==> IsRecorded(t, p)
  {
    hide CallHolds;
    forall p | 0 <= p < |t.log| && IsOutcome(t.log[p].event) ensures IsRecorded(t, p) {
      if p == |s.log| {
        assert RecordedAt(t.calls[step.i], p);
      } else {
        assert t.log[p] == s.log[p];
        var i :| 0 <= i < |s.calls| && RecordedAt(s.calls[i], p);
        assert RecordedAt(t.calls[i], p);
      }
    }
  }

  lemma InvStep(s: State, step: Step, t: State)
    requires Inv(s) && Next(s, step, t)
    ensures Inv(t)
  {
    CallsStep(s, step, t);
    RecordedStep(s, step, t);
    assert forall i :: 0 <= i < |s.calls| && s.calls[i].stage.Recorded? ==>
      CallHolds(s.log, s.calls[i]) && s.calls[i].stage.at < |s.log|;
    hide CallHolds, IsRecorded, HasOutcome, IsOutcome;
  }

  lemma {:induction false} RunInv(states: seq<State>, steps: seq<Step>, n: nat)
    requires Run(states, steps) && n < |states|
    ensures Inv(states[n])
  {
    if n > 0 {
      RunInv(states, steps, n - 1);
      InvStep(states[n - 1], steps[n - 1], states[n]);
    }
  }

  // ---------------------------------------------------------------- two outcomes

  ghost predicate TwoOutcomes(log: seq<Stored>, seqNo: nat) {
    exists p, q :: 0 <= p < q < |log| && Settles(log[p].event, seqNo) && Settles(log[q].event, seqNo)
  }

  // The second call had read the log before the first one's outcome went in, and put its own behind it.
  predicate Overlap(c: Call, d: Call) {
    && c.seqNo == d.seqNo && c.stage.Recorded? && d.stage.Recorded?
    && d.stage.length <= c.stage.at < d.stage.at
  }

  ghost predicate CallsOverlap(s: State, seqNo: nat) {
    exists i, j ::
      0 <= i < |s.calls| && 0 <= j < |s.calls| && s.calls[i].seqNo == seqNo && Overlap(s.calls[i], s.calls[j])
  }

  // The call whose outcome stands there.
  lemma RecorderOf(s: State, seqNo: nat, p: nat) returns (i: nat)
    requires Inv(s) && p < |s.log| && Settles(s.log[p].event, seqNo)
    ensures i < |s.calls| && s.calls[i].seqNo == seqNo && RecordedAt(s.calls[i], p) && CallHolds(s.log, s.calls[i])
  {
    hide HasOutcome;
    assert IsRecorded(s, p);
    i :| 0 <= i < |s.calls| && RecordedAt(s.calls[i], p);
    assert CallHolds(s.log, s.calls[i]);
  }

  lemma BeyondRead(log: seq<Stored>, length: nat, seqNo: nat, p: nat)
    requires length <= |log| && !HasOutcome(log[..length], seqNo) && p < |log| && Settles(log[p].event, seqNo)
    ensures length <= p
  {
    assert forall q :: 0 <= q < length ==> log[..length][q] == log[q];
  }

  lemma TwoOverlap(s: State, seqNo: nat, p: nat, q: nat)
    requires Inv(s) && p < q < |s.log| && Settles(s.log[p].event, seqNo) && Settles(s.log[q].event, seqNo)
    ensures CallsOverlap(s, seqNo)
  {
    var i := RecorderOf(s, seqNo, p);
    var j := RecorderOf(s, seqNo, q);
    hide Inv, IsRecorded;
    BeyondRead(s.log, s.calls[j].stage.length, seqNo, p);
    assert Overlap(s.calls[i], s.calls[j]);
  }

  lemma OverlapLeavesTwo(s: State, i: nat, j: nat)
    requires Inv(s) && i < |s.calls| && j < |s.calls| && Overlap(s.calls[i], s.calls[j])
    ensures TwoOutcomes(s.log, s.calls[i].seqNo)
  {
    hide HasOutcome, IsRecorded;
    assert CallHolds(s.log, s.calls[i]) && CallHolds(s.log, s.calls[j]);
  }

  // In every run an activity has two outcomes exactly if two of its calls overlapped: the later one read the log
  // before the outcome of the earlier one was in it.
  lemma TwoOutcomesIff(states: seq<State>, steps: seq<Step>, n: nat, seqNo: nat)
    requires Run(states, steps) && n < |states|
    ensures TwoOutcomes(states[n].log, seqNo) <==> CallsOverlap(states[n], seqNo)
  {
    RunInv(states, steps, n);
    hide Inv, Next, Overlap, Settles;
    var s := states[n];
    if TwoOutcomes(s.log, seqNo) {
      var p: nat, q: nat :| p < q < |s.log| && Settles(s.log[p].event, seqNo) && Settles(s.log[q].event, seqNo);
      TwoOverlap(s, seqNo, p, q);
    }
    if CallsOverlap(s, seqNo) {
      var i: nat, j: nat :|
        i < |s.calls| && j < |s.calls| && s.calls[i].seqNo == seqNo && Overlap(s.calls[i], s.calls[j]);
      OverlapLeavesTwo(s, i, j);
    }
  }

  // A second outcome takes back the answer replay has given: the last one counts.
  lemma SecondOutcomeCounts(hash: Hash, log: seq<Stored>, c: Events.Call, k: nat, x: Stored)
    requires c.Activity? && Respond(hash, log, c, k).Settled?
    requires IsOutcome(x.event) && Settles(x.event, Events.Recorded(log, ActivityLane)[k].seqNo)
    ensures Respond(hash, log + [x], c, k) ==
      Settled(if x.event.ActivityCompleted? then Value(x.event.result) else Rejected(x.event.error))
  {
    assert (log + [x])[..|log|] == log;
  }
}
