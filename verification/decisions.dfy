/** packages/worker-sdk/src/workflowReplayHandler.ts: from a log to the events a workflow task appends. */
module Decisions {
  import opened Wrappers
  import opened Events
  import opened StoredRequests
  import opened Drain
  import opened ReplaySpec
  import opened ReplayLaws

  // now is the one clock reading of the flow.
  function CommandToEvent(c: Command, config: LlmStepConfig, now: int): Event {
    match c
    case ScheduleActivity(activityType, input) => ActivityScheduled(activityType, input)
    case CompleteWorkflow(result) => WorkflowCompleted(result)
    case FailWorkflow(error) => WorkflowFailed(error)
    case RequestLlmCall(stepId, request, requestHash) =>
      var stored := BuildStoredRequest(request, config);
      LlmRequested(stepId, requestHash, stored.storage, stored.request, config.maxAttempts)
    case RequestToolCall(stepId, tool, args, argsHash) =>
      ToolRequested(stepId, tool, args, argsHash, config.toolMaxAttempts)
    case ScheduleTimer(durationMs) => TimerScheduled(now + durationMs)
  }

  function EventsOf(cs: seq<Command>, toEvent: Command -> Event): seq<Event> {
    seq(|cs|, i requires 0 <= i < |cs| => toEvent(cs[i]))
  }

  // The event of a new call is one that call could have caused.
  ghost predicate Faithful(hash: Hash, toEvent: Command -> Event) {
    forall c: Call, i: nat :: !c.WaitSignal? ==>
      EventLane(toEvent(CommandFor(hash, c, i))) == Some(LaneOf(c)) &&
        Matches(hash, toEvent(CommandFor(hash, c, i)), c, i)
  }

  lemma CommandToEventFaithful(hash: Hash, config: LlmStepConfig, now: int)
    ensures Faithful(hash, c => CommandToEvent(c, config, now))
  {
    hide BuildStoredRequest;
  }

  // ---------------------------------------------------------------- calls and lanes

  lemma {:induction false} InLaneConcat(a: seq<Call>, b: seq<Call>, lane: Lane)
    ensures InLane(a + b, lane) == InLane(a, lane) + InLane(b, lane)
  {
    if b == [] {
      assert a + b == a;
    } else {
      InLaneConcat(a, b[..|b| - 1], lane);
      assert (a + b)[..|a + b| - 1] == a + b[..|b| - 1];
    }
  }

  // A call stands in its lane at its position.
  lemma CallAtPosition(calls: seq<Call>, j: nat)
    requires j < |calls|
    ensures var lane := LaneOf(calls[j]);
      && Position(calls[..j], calls[j]) < |InLane(calls, lane)|
      && InLane(calls, lane)[Position(calls[..j], calls[j])] == calls[j]
  {
    var lane := LaneOf(calls[j]);
    assert calls == calls[..j] + ([calls[j]] + calls[j + 1..]);
    InLaneConcat(calls[..j], [calls[j]] + calls[j + 1..], lane);
    InLaneConcat([calls[j]], calls[j + 1..], lane);
    assert [calls[j]][..0] == [];
    assert InLane([calls[j]], lane) == [calls[j]];
  }

  lemma RepliesPrefix(hash: Hash, log: seq<Stored>, prior: seq<Call>, calls: seq<Call>)
    requires calls != []
    ensures var n := |calls| - 1;
      var rs := Replies(hash, log, prior, calls);
      rs[..n] == Replies(hash, log, prior, calls[..n]) &&
        rs[n] == Respond(hash, log, calls[n], Position(prior + calls[..n], calls[n]))
  {
    var n := |calls| - 1;
    var rs, init := Replies(hash, log, prior, calls), Replies(hash, log, prior, calls[..n]);
    forall i | 0 <= i < n ensures rs[i] == init[i] {
      assert calls[..n][..i] == calls[..i];
    }
  }

  lemma {:induction false} NoMismatchIff(rs: seq<Reply>)
    ensures LastMismatch(rs).None? <==> forall i :: 0 <= i < |rs| ==> !rs[i].Mismatch?
  {
    if rs != [] {
      NoMismatchIff(rs[..|rs| - 1]);
      if LastMismatch(rs).None? {
        forall i | 0 <= i < |rs| ensures !rs[i].Mismatch? {
          if i < |rs| - 1 { assert rs[..|rs| - 1][i] == rs[i]; }
        }
      }
    }
  }

  lemma {:induction false} NoCommandsIff(rs: seq<Reply>)
    ensures NewCommands(rs) == [] <==> forall i :: 0 <= i < |rs| ==> !rs[i].New?
  {
    if rs != [] {
      NoCommandsIff(rs[..|rs| - 1]);
      if NewCommands(rs) == [] {
        forall i | 0 <= i < |rs| ensures !rs[i].New? {
          if i < |rs| - 1 { assert rs[..|rs| - 1][i] == rs[i]; }
        }
      }
    }
  }

  predicate IsSignal(lane: Lane) { lane.SignalLane? }

  lemma RecordedSnoc(log: seq<Stored>, x: Stored, lane: Lane)
    ensures Recorded(log + [x], lane) == Recorded(log, lane) + if EventLane(x.event) == Some(lane) then [x] else []
  {
    assert (log + [x])[..|log + [x]| - 1] == log;
  }

  // What the last reply of a batch adds to a lane.
  lemma BatchStep(rs: seq<Reply>, toEvent: Command -> Event, n: nat, lane: Lane)
    requires rs != []
    ensures var k := |rs| - 1;
      var before := Stamp(n, EventsOf(NewCommands(rs[..k]), toEvent));
      Recorded(Stamp(n, EventsOf(NewCommands(rs), toEvent)), lane) ==
        Recorded(before, lane) +
        if rs[k].New? && EventLane(toEvent(rs[k].command)) == Some(lane) then
          [Stored(n + 1 + |before|, toEvent(rs[k].command))]
        else []
  {
    var k := |rs| - 1;
    var cs := NewCommands(rs[..k]);
    var before := Stamp(n, EventsOf(cs, toEvent));
    if rs[k].New? {
      var x := Stored(n + 1 + |cs|, toEvent(rs[k].command));
      assert NewCommands(rs) == cs + [rs[k].command];
      assert Stamp(n, EventsOf(cs + [rs[k].command], toEvent)) == before + [x];
      RecordedSnoc(before, x, lane);
    } else {
      assert NewCommands(rs) == cs;
    }
  }

  // The first calls of a lane, from position `from` on, have caused the events in their places.
  ghost predicate Caused(hash: Hash, r: seq<Stored>, m: seq<Call>, from: nat, lane: Lane)
    requires forall i :: 0 <= i < |r| ==> EventLane(r[i].event) == Some(lane)
    requires forall i :: 0 <= i < |m| ==> LaneOf(m[i]) == lane
  {
    |m| <= |r| && forall i :: from <= i < |m| ==> Matches(hash, r[i].event, m[i], i)
  }

  // Lane bookkeeping for one more call: it finds the event of its position, or adds it.
  lemma OneMoreCall(
    hash: Hash, base: seq<Stored>, x: seq<Stored>, extra: seq<Stored>, m: seq<Call>, c: seq<Call>, from: nat,
    lane: Lane)
    requires forall i :: 0 <= i < |base| ==> EventLane(base[i].event) == Some(lane)
    requires forall i :: 0 <= i < |x| ==> EventLane(x[i].event) == Some(lane)
    requires forall i :: 0 <= i < |extra| ==> EventLane(extra[i].event) == Some(lane)
    requires forall i :: 0 <= i < |m| ==> LaneOf(m[i]) == lane
    requires forall i :: 0 <= i < |c| ==> LaneOf(c[i]) == lane
    requires Caused(hash, base + x, m, from, lane) && (x != [] ==> |base| + |x| == |m|)
    requires |c| <= 1 && |extra| <= |c|
    requires c != [] && extra == [] ==> |m| < |base| && Matches(hash, base[|m|].event, c[0], |m|)
    requires extra != [] ==> |m| >= |base| && Matches(hash, extra[0].event, c[0], |m|)
    ensures Caused(hash, base + (x + extra), m + c, from, lane)
    ensures x + extra != [] ==> |base| + |x + extra| == |m + c|
  {
    var r, q := base + (x + extra), m + c;
    assert x != [] && c != [] ==> extra != [];
    forall i | from <= i < |q| ensures i < |r| && Matches(hash, r[i].event, q[i], i) {
      if i < |m| { assert r[i] == (base + x)[i]; }
    }
  }

  ghost predicate NoMismatch(rs: seq<Reply>) {
    forall i :: 0 <= i < |rs| ==> !rs[i].Mismatch?
  }

  // The lane of a log after the new calls among these replies have been scheduled.
  function LaneThen(log: seq<Stored>, rs: seq<Reply>, toEvent: Command -> Event, n: nat, lane: Lane): (r: seq<Stored>)
    ensures forall i :: 0 <= i < |r| ==> EventLane(r[i].event) == Some(lane)
  {
    Recorded(log, lane) + Recorded(Stamp(n, EventsOf(NewCommands(rs), toEvent)), lane)
  }

  // Once the batch is scheduled every call of it finds a matching event at its position.
  ghost predicate Scheduled(
    hash: Hash, toEvent: Command -> Event, log: seq<Stored>, prior: seq<Call>, calls: seq<Call>, rs: seq<Reply>,
    n: nat, lane: Lane) {
    var r, m := LaneThen(log, rs, toEvent, n, lane), InLane(prior + calls, lane);
    && Caused(hash, r, m, |InLane(prior, lane)|, lane)
    && (|r| > |Recorded(log, lane)| ==> |r| == |m|)
  }

  lemma ScheduledStep(
    hash: Hash, toEvent: Command -> Event, log: seq<Stored>, prior: seq<Call>, calls: seq<Call>, rs: seq<Reply>,
    n: nat, lane: Lane)
    requires Faithful(hash, toEvent) && !IsSignal(lane)
    requires calls != [] && |rs| == |calls|
    requires var k := |calls| - 1;
      && rs[k] == Respond(hash, log, calls[k], Position(prior + calls[..k], calls[k]))
      && !rs[k].Mismatch?
      && Scheduled(hash, toEvent, log, prior, calls[..k], rs[..k], n, lane)
    ensures Scheduled(hash, toEvent, log, prior, calls, rs, n, lane)
  {
    hide Respond, Matches, Faithful, NewCommands, EventsOf, InLane, Recorded;
    var k := |calls| - 1;
    var c := calls[k];
    BatchStep(rs, toEvent, n, lane);
    LaneOfLast(prior, calls, lane);
    var before := Stamp(n, EventsOf(NewCommands(rs[..k]), toEvent));
    var extra := if rs[k].New? && EventLane(toEvent(rs[k].command)) == Some(lane)
      then [Stored(n + 1 + |before|, toEvent(rs[k].command))] else [];
    RespondCases(hash, toEvent, log, c, Position(prior + calls[..k], c));
    OneMoreCall(hash, Recorded(log, lane), Recorded(before, lane), extra, InLane(prior + calls[..k], lane),
      if LaneOf(c) == lane then [c] else [], |InLane(prior, lane)|, lane);
  }

  lemma {:induction false} BatchScheduled(
    hash: Hash, toEvent: Command -> Event, log: seq<Stored>, prior: seq<Call>, calls: seq<Call>, n: nat, lane: Lane)
    requires Faithful(hash, toEvent) && !IsSignal(lane)
    requires |InLane(prior, lane)| <= |Recorded(log, lane)|
    requires NoMismatch(Replies(hash, log, prior, calls))
    ensures Scheduled(hash, toEvent, log, prior, calls, Replies(hash, log, prior, calls), n, lane)
    decreases |calls|
  {
    if calls == [] {
      assert prior + calls == prior;
    } else {
      RepliesPrefix(hash, log, prior, calls);
      BatchScheduled(hash, toEvent, log, prior, calls[..|calls| - 1], n, lane);
      ScheduledStep(hash, toEvent, log, prior, calls, Replies(hash, log, prior, calls), n, lane);
    }
  }

  lemma LaneOfLast(prior: seq<Call>, calls: seq<Call>, lane: Lane)
    requires calls != []
    ensures var k := |calls| - 1;
      InLane(prior + calls, lane) ==
        InLane(prior + calls[..k], lane) + if LaneOf(calls[k]) == lane then [calls[k]] else []
  {
    var k := |calls| - 1;
    assert (prior + calls)[..|prior + calls| - 1] == prior + calls[..k];
  }

  // A call without mismatch is new exactly when its lane ends before its position.
  lemma RespondCases(hash: Hash, toEvent: Command -> Event, log: seq<Stored>, c: Call, index: nat)
    requires Faithful(hash, toEvent) && !Respond(hash, log, c, index).Mismatch?
    ensures var r := Respond(hash, log, c, index);
      var events := Recorded(log, LaneOf(c));
      && (c.WaitSignal? ==> !r.New?)
      && (!c.WaitSignal? ==> (r.New? <==> index >= |events|))
      && (!c.WaitSignal? && !r.New? ==> Matches(hash, events[index].event, c, index))
      && (r.New? ==> EventLane(toEvent(r.command)) == Some(LaneOf(c)) && Matches(hash, toEvent(r.command), c, index))
  {
  }

  // ---------------------------------------------------------------- answered calls are recorded

  lemma SettledMatches(hash: Hash, log: seq<Stored>, c: Call, index: nat)
    requires Respond(hash, log, c, index).Settled? && !c.WaitSignal?
    ensures index < |Recorded(log, LaneOf(c))| && Matches(hash, Recorded(log, LaneOf(c))[index].event, c, index)
  {
  }

  lemma {:induction false} SettledScheduled(
    hash: Hash, log: seq<Stored>, prior: seq<Call>, calls: seq<Call>, lane: Lane)
    requires !IsSignal(lane) && AllSettled(Replies(hash, log, prior, calls))
    requires Caused(hash, Recorded(log, lane), InLane(prior, lane), 0, lane)
    ensures Caused(hash, Recorded(log, lane), InLane(prior + calls, lane), 0, lane)
    decreases |calls|
  {
    hide Respond, Matches;
    if calls == [] {
      assert prior + calls == prior;
    } else {
      var k := |calls| - 1;
      RepliesPrefix(hash, log, prior, calls);
      var rs := Replies(hash, log, prior, calls);
      assert rs[k].Settled?;
      assert AllSettled(rs[..k]) by { assert forall i :: 0 <= i < k ==> rs[..k][i] == rs[i]; }
      SettledScheduled(hash, log, prior, calls[..k], lane);
      SettledOne(hash, log, prior, calls[..k], calls[k], lane);
      LaneOfLast(prior, calls, lane);
    }
  }

  lemma CausedSnoc(hash: Hash, r: seq<Stored>, m: seq<Call>, c: Call, lane: Lane)
    requires forall i :: 0 <= i < |r| ==> EventLane(r[i].event) == Some(lane)
    requires forall i :: 0 <= i < |m| ==> LaneOf(m[i]) == lane
    requires LaneOf(c) == lane && Caused(hash, r, m, 0, lane)
    requires |m| < |r| && Matches(hash, r[|m|].event, c, |m|)
    ensures Caused(hash, r, m + [c], 0, lane)
  {
  }

  lemma SettledOne(hash: Hash, log: seq<Stored>, prior: seq<Call>, init: seq<Call>, c: Call, lane: Lane)
    requires !IsSignal(lane)
    requires Respond(hash, log, c, Position(prior + init, c)).Settled?
    requires Caused(hash, Recorded(log, lane), InLane(prior + init, lane), 0, lane)
    ensures Caused(
      hash, Recorded(log, lane), InLane(prior + init, lane) + if LaneOf(c) == lane then [c] else [], 0, lane)
  {
    if LaneOf(c) == lane {
      SettledMatches(hash, log, c, Position(prior + init, c));
      CausedSnoc(hash, Recorded(log, lane), InLane(prior + init, lane), c, lane);
    } else {
      assert InLane(prior + init, lane) + [] == InLane(prior + init, lane);
    }
  }

  // Every call a trace has an answer for has caused the event at its position.
  lemma {:induction false} PriorCaused(hash: Hash, wf: Workflow, log: seq<Stored>, a: Answers, lane: Lane)
    requires Trace(PassOf(hash, wf, log), a) && !IsSignal(lane)
    ensures Caused(hash, Recorded(log, lane), InLane(Prior(wf, a), lane), 0, lane)
    decreases |a|
  {
    hide Trace, PassOf, RepliesAt, Caused;
    if a == [] {
      NothingCaused(hash, Recorded(log, lane), lane);
    } else {
      var b := a[..|a| - 1];
      LastRound(hash, wf, log, a);
      PriorCaused(hash, wf, log, b, lane);
      BatchCaused(hash, wf, log, b, lane);
    }
  }

  lemma NothingCaused(hash: Hash, r: seq<Stored>, lane: Lane)
    requires forall i :: 0 <= i < |r| ==> EventLane(r[i].event) == Some(lane)
    ensures Caused(hash, r, InLane([], lane), 0, lane)
  {
  }

  lemma BatchCaused(hash: Hash, wf: Workflow, log: seq<Stored>, b: Answers, lane: Lane)
    requires !IsSignal(lane) && AllSettled(RepliesAt(hash, wf, log, b))
    requires Caused(hash, Recorded(log, lane), InLane(Prior(wf, b), lane), 0, lane)
    ensures Caused(hash, Recorded(log, lane), InLane(Prior(wf, b) + CallsAt(wf, b), lane), 0, lane)
  {
    hide Caused, Replies, AllSettled;
    SettledScheduled(hash, log, Prior(wf, b), CallsAt(wf, b), lane);
  }

  // ---------------------------------------------------------------- what may come between

  ghost predicate NoSchedules(more: seq<Stored>) {
    forall i :: 0 <= i < |more| ==> !IsSchedule(more[i].event)
  }

  lemma {:induction false} NothingRecorded(more: seq<Stored>, lane: Lane)
    requires NoSchedules(more) && !IsSignal(lane)
    ensures Recorded(more, lane) == []
  {
    if more != [] {
      NothingRecorded(more[..|more| - 1], lane);
    }
  }

  lemma {:induction false} NoOutcome(more: seq<Stored>, lane: Lane, s: nat)
    requires forall i :: 0 <= i < |more| ==> OutcomeOf(more[i].event).None?
    ensures OutcomeIn(more, lane, s).None?
  {
    if more != [] {
      NoOutcome(more[..|more| - 1], lane, s);
    }
  }

  // Outcomes settle events that are already in the log.
  ghost predicate OutcomesOfPast(log: seq<Stored>) {
    forall lane, s: nat :: OutcomeIn(log, lane, s).Some? ==> s <= |log|
  }

  lemma NewIsSchedule(hash: Hash, toEvent: Command -> Event, log: seq<Stored>, c: Call, index: nat)
    requires Faithful(hash, toEvent) && Respond(hash, log, c, index).New?
    ensures IsSchedule(toEvent(Respond(hash, log, c, index).command))
  {
    hide Recorded, OutcomeIn;
  }

  lemma NewCommandsLast(rs: seq<Reply>, i: nat)
    requires rs != [] && i < |NewCommands(rs)|
    ensures var before := NewCommands(rs[..|rs| - 1]);
      if i < |before| then NewCommands(rs)[i] == before[i]
      else rs[|rs| - 1].New? && NewCommands(rs)[i] == rs[|rs| - 1].command
  {
  }

  lemma {:induction false} NewCommandsScheduled(
    hash: Hash, toEvent: Command -> Event, log: seq<Stored>, prior: seq<Call>, calls: seq<Call>, i: nat)
    requires Faithful(hash, toEvent) && NoMismatch(Replies(hash, log, prior, calls))
    requires i < |NewCommands(Replies(hash, log, prior, calls))|
    ensures IsSchedule(toEvent(NewCommands(Replies(hash, log, prior, calls))[i]))
    decreases |calls|
  {
    hide Respond, Faithful, IsSchedule, Position;
    var k := |calls| - 1;
    var rs := Replies(hash, log, prior, calls);
    RepliesPrefix(hash, log, prior, calls);
    NewCommandsLast(rs, i);
    hide NewCommands;
    if i < |NewCommands(rs[..k])| {
      assert NoMismatch(rs[..k]) by { assert forall j :: 0 <= j < k ==> rs[..k][j] == rs[j]; }
      NewCommandsScheduled(hash, toEvent, log, prior, calls[..k], i);
    } else {
      NewIsSchedule(hash, toEvent, log, calls[k], Position(prior + calls[..k], calls[k]));
    }
  }
}
