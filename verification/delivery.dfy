/** No misdelivered answer: when deployed code has changed, replay notices at the first difference. */
module Delivery {
  import opened Wrappers
  import opened Texts
  import opened Json
  import opened Requests
  import opened Events
  import opened Drain
  import opened ReplaySpec
  import opened ReplayLaws
  import opened Decisions
  import opened Engine
  import opened Runs

  ghost predicate CollisionFree(hash: Hash) {
    forall x, y :: hash(x) == hash(y) ==> x == y
  }

  // JSON values as JavaScript has them: no object holds a key twice.
  ghost predicate ProperCall(c: Call) {
    (c.Llm? ==> ProperRequest(c.request)) && (c.Tool? ==> Proper(c.args))
  }

  ghost predicate ProperCode(wf: Workflow) {
    forall a, i :: 0 <= i < |CallsAt(wf, a)| ==> ProperCall(CallsAt(wf, a)[i])
  }

  // What replay compares calls by: activities by type only, LLM and tool calls by all they send.
  predicate SameCall(c: Call, e: Call)
    requires LaneOf(c) == LaneOf(e)
  {
    match c
    case Activity(activityType, _) => e.activityType == activityType
    case Llm(request) => SameRequest(e.request, request)
    case Tool(tool, args) => SameToolCall(e.tool, e.args, tool, args)
    case _ => true
  }

  // An event caused by one call matches another exactly when the two are the same.
  lemma MatchDecides(hash: Hash, e: Event, c: Call, c': Call, i: nat)
    requires CollisionFree(hash) && ProperCall(c) && ProperCall(c')
    requires LaneOf(c) == LaneOf(c') && EventLane(e) == Some(LaneOf(c)) && Matches(hash, e, c, i)
    ensures Matches(hash, e, c', i) <==> SameCall(c', c)
  {
    hide CanonicalLlmRequest, CanonicalToolCall, SameRequest, SameToolCall;
    match c
    case Llm(request) => CanonicalRequestDecides(request, c'.request);
    case Tool(tool, args) => CanonicalToolCallDecides(tool, args, c'.tool, c'.args);
    case _ =>
  }

  // The k-th call differs from the one recorded at its place in its lane.
  ghost predicate Conflicts(recorded: seq<Call>, calls: seq<Call>, k: nat)
    requires k < |calls|
  {
    var c := calls[k];
    var m := InLane(recorded, LaneOf(c));
    var p := Position(calls[..k], c);
    !c.WaitSignal? && p < |m| && !SameCall(c, m[p])
  }

  // The k-th call is the one recorded at its place.
  ghost predicate WasRecorded(recorded: seq<Call>, calls: seq<Call>, k: nat)
    requires k < |calls|
  {
    var c := calls[k];
    var m := InLane(recorded, LaneOf(c));
    var p := Position(calls[..k], c);
    !c.WaitSignal? ==> p < |m| && SameCall(c, m[p])
  }

  // ---------------------------------------------------------------- one call

  ghost predicate AllProper(calls: seq<Call>) {
    forall i :: 0 <= i < |calls| ==> ProperCall(calls[i])
  }

  lemma {:induction false} InLaneProper(calls: seq<Call>, lane: Lane)
    requires AllProper(calls)
    ensures AllProper(InLane(calls, lane))
  {
    if calls != [] { InLaneProper(calls[..|calls| - 1], lane); }
  }

  lemma {:induction false} PriorProper(wf: Workflow, a: Answers)
    requires ProperCode(wf)
    ensures AllProper(Prior(wf, a)) && AllProper(Asked(wf, a))
    decreases |a|
  {
    if a != [] { PriorProper(wf, a[..|a| - 1]); }
  }

  // What the reply to a call says about the call recorded at its place.
  lemma ReplyDecides(hash: Hash, log: seq<Stored>, recorded: seq<Call>, calls: seq<Call>, k: nat)
    requires CollisionFree(hash) && Follows(hash, log, recorded) && AllProper(recorded) && AllProper(calls)
    requires k < |calls|
    ensures var r := Respond(hash, log, calls[k], Position(calls[..k], calls[k]));
      && (r.Mismatch? <==> Conflicts(recorded, calls, k))
      && (r.Settled? ==> WasRecorded(recorded, calls, k))
  {
    hide SameCall, Matches;
    var c := calls[k];
    var lane, p := LaneOf(c), Position(calls[..k], c);
    if !c.WaitSignal? {
      InLaneProper(recorded, lane);
      var r, m := Recorded(log, lane), InLane(recorded, lane);
      assert |r| == |m| && Caused(hash, r, m, 0, lane);
      if p < |m| { MatchDecides(hash, r[p].event, m[p], c, p); }
    }
  }

  // ---------------------------------------------------------------- a whole pass

  lemma BatchReply(hash: Hash, wf: Workflow, log: seq<Stored>, b: Answers, i: nat)
    requires i < |CallsAt(wf, b)|
    ensures var all, k := Asked(wf, b), |Prior(wf, b)| + i;
      && all[k] == CallsAt(wf, b)[i]
      && RepliesAt(hash, wf, log, b)[i] == Respond(hash, log, all[k], Position(all[..k], all[k]))
  {
    hide Respond, Position, Prior, CallsAt;
    var all, k := Asked(wf, b), |Prior(wf, b)| + i;
    assert all[..k] == Prior(wf, b) + CallsAt(wf, b)[..i];
  }

  lemma {:induction false} MismatchIff(rs: seq<Reply>)
    ensures LastMismatch(rs).Some? <==> exists i :: 0 <= i < |rs| && rs[i].Mismatch?
  {
    NoMismatchIff(rs);
  }

  // Every answer of a trace went to the very call the event at its place was recorded for.
  lemma {:induction false} AnsweredWereRecorded(
    hash: Hash, wf: Workflow, log: seq<Stored>, recorded: seq<Call>, b: Answers, k: nat)
    requires CollisionFree(hash) && ProperCode(wf) && AllProper(recorded) && Follows(hash, log, recorded)
    requires Trace(PassOf(hash, wf, log), b) && k < |Prior(wf, b)|
    ensures WasRecorded(recorded, Prior(wf, b), k)
    decreases |b|
  {
    hide Trace, PassOf, RepliesAt, Follows, WasRecorded;
    var a := b[..|b| - 1];
    LastRound(hash, wf, log, b);
    if k < |Prior(wf, a)| {
      AnsweredWereRecorded(hash, wf, log, recorded, a, k);
      RecordedInPrefix(recorded, Prior(wf, a), CallsAt(wf, a), k);
    } else {
      BatchWasRecorded(hash, wf, log, recorded, a, k);
    }
  }

  lemma RecordedInPrefix(recorded: seq<Call>, prior: seq<Call>, calls: seq<Call>, k: nat)
    requires k < |prior| && WasRecorded(recorded, prior, k)
    ensures WasRecorded(recorded, prior + calls, k)
  {
    assert (prior + calls)[..k] == prior[..k];
  }

  lemma BatchWasRecorded(hash: Hash, wf: Workflow, log: seq<Stored>, recorded: seq<Call>, a: Answers, k: nat)
    requires CollisionFree(hash) && ProperCode(wf) && AllProper(recorded) && Follows(hash, log, recorded)
    requires AllSettled(RepliesAt(hash, wf, log, a)) && |Prior(wf, a)| <= k < |Asked(wf, a)|
    ensures WasRecorded(recorded, Asked(wf, a), k)
  {
    hide Respond, WasRecorded, Conflicts, Follows, Position, CollisionFree;
    PriorProper(wf, a);
    var i := k - |Prior(wf, a)|;
    assert i < |CallsAt(wf, a)| && RepliesAt(hash, wf, log, a)[i].Settled?;
    hide AllProper, ProperCode, Prior, CallsAt, RepliesAt, AllSettled;
    BatchReply(hash, wf, log, a, i);
    ReplyDecides(hash, log, recorded, Asked(wf, a), k);
  }

  ghost predicate ConflictFrom(recorded: seq<Call>, calls: seq<Call>, n: nat) {
    exists k :: n <= k < |calls| && Conflicts(recorded, calls, k)
  }

  lemma BatchMismatch(hash: Hash, wf: Workflow, log: seq<Stored>, recorded: seq<Call>, b: Answers)
    requires CollisionFree(hash) && ProperCode(wf) && AllProper(recorded) && Follows(hash, log, recorded)
    ensures LastMismatch(RepliesAt(hash, wf, log, b)).Some? <==> ConflictFrom(recorded, Asked(wf, b), |Prior(wf, b)|)
  {
    hide Respond, Conflicts, Follows, Position, LastMismatch;
    PriorProper(wf, b);
    var rs, n, all := RepliesAt(hash, wf, log, b), |Prior(wf, b)|, Asked(wf, b);
    assert |rs| == |CallsAt(wf, b)| && |all| == n + |rs|;
    forall i | 0 <= i < |rs| ensures rs[i].Mismatch? <==> Conflicts(recorded, all, n + i) {
      BatchReply(hash, wf, log, b, i);
      ReplyDecides(hash, log, recorded, all, n + i);
    }
    hide RepliesAt;
    MismatchIff(rs);
    if k :| n <= k < |all| && Conflicts(recorded, all, k) { assert rs[k - n].Mismatch?; }
  }

  lemma VerdictRaises(hash: Hash, wf: Workflow, log: seq<Stored>, b: Answers)
    ensures Verdict(hash, wf, log, b).Raised? <==> LastMismatch(RepliesAt(hash, wf, log, b)).Some?
  {
    hide Respond, NewCommands, PendingLlm;
    if !wf.next(b).Await? { assert RepliesAt(hash, wf, log, b) == []; }
  }

  /**
   Replay raises exactly when some reached call differs from the call recorded at its place: up to
   canonical form for LLM and tool steps, by type for activities. Then no answer was misdelivered either.
   */
  lemma RaisesIffACallChanged(hash: Hash, wf: Workflow, log: seq<Stored>, recorded: seq<Call>, b: Answers, budget: nat)
    requires CollisionFree(hash) && ProperCode(wf) && AllProper(recorded) && Follows(hash, log, recorded)
    requires FullTrace(PassOf(hash, wf, log), b) && TicksTo(PassOf(hash, wf, log), b) <= budget
    ensures ReplayOf(hash, wf, log, budget).Raised? <==>
      exists k :: 0 <= k < |Asked(wf, b)| && Conflicts(recorded, Asked(wf, b), k)
    ensures forall k :: 0 <= k < |Prior(wf, b)| ==> WasRecorded(recorded, Asked(wf, b), k)
  {
    hide RepliesAt, SameCall, Follows, Position, Verdict, LastMismatch;
    var all, n := Asked(wf, b), |Prior(wf, b)|;
    BoundedDrain(PassOf(hash, wf, log), b, budget, EXHAUSTED);
    VerdictRaises(hash, wf, log, b);
    BatchMismatch(hash, wf, log, recorded, b);
    assert ReplayOf(hash, wf, log, budget).Raised? <==> ConflictFrom(recorded, all, n);
    forall k | 0 <= k < n ensures WasRecorded(recorded, all, k) && !Conflicts(recorded, all, k) {
      AnsweredWereRecorded(hash, wf, log, recorded, b, k);
      assert all[..k] == Prior(wf, b)[..k];
    }
  }

  // In any run: new code deployed over the log of old code gets only answers to calls it still makes.
  lemma ChangedCodeIsNoticed(
    d: Deployment, states: seq<State>, steps: seq<Step>, workflowType: Text, input: Json, j: nat, wf: Workflow,
    b: Answers)
    returns (recorded: seq<Call>)
    requires Run(d, states, steps, workflowType, input) && workflowType in d.registry && j < |states|
    requires CollisionFree(d.hash) && ProperCode(d.registry[workflowType](input)) && ProperCode(wf)
    requires var p := PassOf(d.hash, wf, states[j].log); FullTrace(p, b) && TicksTo(p, b) <= d.budget
    ensures var was := d.registry[workflowType](input);
      recorded == [] || exists a :: Trace(PassOf(d.hash, was, states[j].log), a) && recorded == Asked(was, a)
    ensures Follows(d.hash, states[j].log, recorded)
    ensures ReplayOf(d.hash, wf, states[j].log, d.budget).Raised? <==>
      exists k :: 0 <= k < |Asked(wf, b)| && Conflicts(recorded, Asked(wf, b), k)
    ensures forall k :: 0 <= k < |Prior(wf, b)| ==> WasRecorded(recorded, Asked(wf, b), k)
  {
    hide Follows, Conflicts, WasRecorded;
    var was, log := d.registry[workflowType](input), states[j].log;
    RunHolds(d, states, steps, workflowType, input, j);
    assert Scheduling(d, was, log);
    if Follows(d.hash, log, []) {
      recorded := [];
    } else {
      var a :| DecidedAt(d, was, log, a);
      recorded := Asked(was, a);
      PriorProper(was, a);
    }
    RaisesIffACallChanged(d.hash, wf, log, recorded, b, d.budget);
  }

  // The call is not the one the event at its place was recorded for, and this is the error that says so: where it
  // stands, what was recorded there, and what the code asks for now.
  ghost predicate DiffersAt(hash: Hash, log: seq<Stored>, calls: seq<Call>, k: nat, cause: ReplayError)
    requires k < |calls|
  {
    var c := calls[k];
    var r, p := Recorded(log, LaneOf(c)), Position(calls[..k], c);
    p < |r| &&
    match c
    case Activity(activityType, _) =>
      && r[p].event.activityType != activityType
      && cause.NonDeterminism? && cause.callIndex == p
      && cause.expectedType == r[p].event.activityType && cause.actualType == activityType
    case Llm(request) =>
      && cause.StepMismatch? && !cause.isTool && cause.stepId == LlmStepId(p) && cause.callIndex == p
      && cause.expectedHash == r[p].event.requestHash && cause.actualHash == hash(CanonicalLlmRequest(request))
      && (r[p].event.stepId != cause.stepId || cause.expectedHash != cause.actualHash)
    case Tool(tool, args) =>
      && cause.StepMismatch? && cause.isTool && cause.stepId == ToolStepId(p) && cause.callIndex == p
      && cause.expectedHash == r[p].event.argsHash && cause.actualHash == hash(CanonicalToolCall(tool, args))
      && (r[p].event.stepId != cause.stepId || cause.expectedHash != cause.actualHash)
    case _ => false
  }

  lemma MismatchSays(hash: Hash, log: seq<Stored>, calls: seq<Call>, k: nat, cause: ReplayError)
    requires k < |calls|
    ensures Respond(hash, log, calls[k], Position(calls[..k], calls[k])) == Mismatch(cause) <==>
      DiffersAt(hash, log, calls, k, cause)
  {
    hide CanonicalLlmRequest, CanonicalToolCall, LlmStepId, ToolStepId, Position, OutcomeIn;
  }

  lemma SamePlace(hash: Hash, log: seq<Stored>, calls: seq<Call>, c: Call, k: nat, cause: ReplayError)
    requires k < |calls|
    ensures DiffersAt(hash, log, calls + [c], k, cause) <==> DiffersAt(hash, log, calls, k, cause)
  {
    assert (calls + [c])[..k] == calls[..k];
  }

  // The error raised is the one of the last call of the batch that differs.
  lemma {:induction false} LastDifferenceIsRaised(
    hash: Hash, log: seq<Stored>, prior: seq<Call>, calls: seq<Call>) returns (i: nat)
    requires LastMismatch(Replies(hash, log, prior, calls)).Some?
    ensures i < |calls|
    ensures DiffersAt(hash, log, prior + calls, |prior| + i, LastMismatch(Replies(hash, log, prior, calls)).value)
    ensures forall j :: i < j < |calls| ==> !Replies(hash, log, prior, calls)[j].Mismatch?
    decreases |calls|
  {
    hide Respond, DiffersAt, Position;
    var n := |calls| - 1;
    var rs := Replies(hash, log, prior, calls);
    RepliesPrefix(hash, log, prior, calls);
    if rs[n].Mismatch? {
      i := n;
      assert (prior + calls)[..|prior| + n] == prior + calls[..n];
      MismatchSays(hash, log, prior + calls, |prior| + n, rs[n].error);
    } else {
      i := LastDifferenceIsRaised(hash, log, prior, calls[..n]);
      SamePlace(hash, log, prior + calls[..n], calls[n], |prior| + i, LastMismatch(rs).value);
      assert (prior + calls[..n]) + [calls[n]] == prior + calls;
      forall j | i < j < |calls| ensures !rs[j].Mismatch? {
        if j < n { assert rs[j] == rs[..n][j]; }
      }
    }
  }
}
