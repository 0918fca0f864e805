/** packages/worker-sdk/src/llmHandler.ts, resolveRequest: finding the exact request a step must send. */
module Recovery {
  import opened Wrappers
  import opened Texts
  import opened Json
  import opened Requests
  import opened Events
  import opened StoredRequests
  import opened Drain
  import opened ReplaySpec
  import opened ReplayLaws
  import opened Decisions
  import opened Engine
  import opened Runs
  import opened Delivery
  import opened TaskOutcomes

  datatype Reason =
    | StoredHashDiffers
    | NotStarted
    | NotRegistered
    | CouldNotDerive(cause: ReplayError)
    | StepNotFound
    | DerivedHashDiffers

  // resolveRequest: a full stored copy, or the request replay rebuilds.
  function ResolveRequest(d: Deployment, history: seq<Stored>, requested: Event): Result<LlmRequest, Reason>
    requires requested.LlmRequested?
  {
    if requested.storage == FullCopy && requested.request.Some? then
      if RequestHash(d.hash, requested.request.value) != requested.requestHash then Err(StoredHashDiffers)
      else Ok(requested.request.value)
    else
      match Started(history)
      case Some(WorkflowStarted(workflowType, input)) => (
        if workflowType !in d.registry then Err(NotRegistered)
        else
          match ReplayOf(d.hash, d.registry[workflowType](input), history, d.budget)
          case Raised(cause) => Err(CouldNotDerive(cause))
          case Running(_, pending) =>
            if requested.stepId !in pending then Err(StepNotFound)
            else if RequestHash(d.hash, pending[requested.stepId]) != requested.requestHash then Err(DerivedHashDiffers)
            else Ok(pending[requested.stepId])
          case _ => Err(StepNotFound))
      case _ => Err(NotStarted)
  }

  // Whatever copy was stored and whatever the code does now, a request sent has the recorded hash:
  // it is the request the hash was recorded for.
  lemma ResolvedIsTheRequest(d: Deployment, history: seq<Stored>, requested: Event, original: LlmRequest)
    requires requested.LlmRequested? && ResolveRequest(d, history, requested).Ok?
    ensures RequestHash(d.hash, ResolveRequest(d, history, requested).value) == requested.requestHash
    ensures CollisionFree(d.hash) && requested.requestHash == RequestHash(d.hash, original)
      && ProperRequest(original) && ProperRequest(ResolveRequest(d, history, requested).value)
      ==> SameRequest(ResolveRequest(d, history, requested).value, original)
  {
    hide ReplayOf, CanonicalLlmRequest, SameRequest;
    var q := ResolveRequest(d, history, requested).value;
    if ProperRequest(original) && ProperRequest(q) {
      CanonicalRequestDecides(q, original);
    }
  }

  // ---------------------------------------------------------------- full copies

  ghost predicate FullCopiesFaithful(hash: Hash, log: seq<Stored>) {
    forall j :: 0 <= j < |log| ==> FaithfulCopy(hash, log[j].event)
  }

  ghost predicate FaithfulCopy(hash: Hash, e: Event) {
    e.LlmRequested? && e.storage == FullCopy ==> e.request.Some? && RequestHash(hash, e.request.value) == e.requestHash
  }

  lemma ConvertedIsFaithful(d: Deployment, c: Command, now: int)
    requires c.RequestLlmCall? ==> ProperRequest(c.request) && c.requestHash == RequestHash(d.hash, c.request)
    ensures FaithfulCopy(d.hash, CommandToEvent(c, d.config, now))
  {
    hide BuildStoredRequest, CanonicalLlmRequest, SameRequest, ProperRequest;
    if c.RequestLlmCall? { FullCopyIsFaithful(c.request, d.config); }
  }

  // The commands of a batch of proper calls.
  ghost predicate HonestCommand(hash: Hash, c: Command) {
    c.RequestLlmCall? ==> ProperRequest(c.request) && c.requestHash == RequestHash(hash, c.request)
  }

  lemma {:induction false} BatchHonest(hash: Hash, log: seq<Stored>, prior: seq<Call>, calls: seq<Call>, i: nat)
    requires AllProper(calls) && i < |NewCommands(Replies(hash, log, prior, calls))|
    ensures HonestCommand(hash, NewCommands(Replies(hash, log, prior, calls))[i])
    decreases |calls|
  {
    hide Matches, MismatchError, Position, RequestHash, ArgsHash, ProperRequest;
    var k := |calls| - 1;
    RepliesPrefix(hash, log, prior, calls);
    if i < |NewCommands(Replies(hash, log, prior, calls[..k]))| {
      BatchHonest(hash, log, prior, calls[..k], i);
    } else {
      assert ProperCall(calls[k]);
    }
  }

  lemma DecisionHonest(d: Deployment, wf: Workflow, log: seq<Stored>, now: int, j: nat)
    requires ProperCode(wf)
    requires var events := EventsIn(Decided(ReplayOf(d.hash, wf, log, d.budget), d, now)); j < |events|
    ensures FaithfulCopy(d.hash, EventsIn(Decided(ReplayOf(d.hash, wf, log, d.budget), d, now))[j])
  {
    hide CommandToEvent, RepliesAt, FaithfulCopy, HonestCommand;
    var r := ReplayOf(d.hash, wf, log, d.budget);
    match r
    case Running(commands, _) =>
      var b := DriveEnds(PassOf(d.hash, wf, log), d.budget, EXHAUSTED);
      PriorProper(wf, b);
      BatchHonestAt(d, wf, log, b, j);
      ConvertedHonest(d, commands[j], now);
    case Completed(v) => EndIsFaithful(d, CompleteWorkflow(v), now);
    case Failed(e) => EndIsFaithful(d, FailWorkflow(e), now);
    case Raised(cause) => NotACopy(d.hash, WorkflowFailed(d.describe(cause)));
  }

  lemma NotACopy(hash: Hash, e: Event)
    requires !e.LlmRequested?
    ensures FaithfulCopy(hash, e)
  {
  }

  lemma EndIsFaithful(d: Deployment, c: Command, now: int)
    requires c.CompleteWorkflow? || c.FailWorkflow?
    ensures FaithfulCopy(d.hash, CommandToEvent(c, d.config, now))
  {
  }

  lemma ConvertedHonest(d: Deployment, c: Command, now: int)
    requires HonestCommand(d.hash, c)
    ensures FaithfulCopy(d.hash, CommandToEvent(c, d.config, now))
  {
    ConvertedIsFaithful(d, c, now);
  }

  lemma BatchHonestAt(d: Deployment, wf: Workflow, log: seq<Stored>, b: Answers, i: nat)
    requires ProperCode(wf) && i < |NewCommands(RepliesAt(d.hash, wf, log, b))|
    ensures HonestCommand(d.hash, NewCommands(RepliesAt(d.hash, wf, log, b))[i])
  {
    hide HonestCommand;
    assert AllProper(CallsAt(wf, b));
    BatchHonest(d.hash, log, Prior(wf, b), CallsAt(wf, b), i);
  }

  lemma HandleHonest(d: Deployment, workflowType: Text, input: Json, log: seq<Stored>, now: int, j: nat)
    requires workflowType in d.registry && ProperCode(d.registry[workflowType](input))
    requires Begun(log, workflowType, input)
    requires j < |EventsIn(Handle(d, log, now))|
    ensures FaithfulCopy(d.hash, EventsIn(Handle(d, log, now))[j])
  {
    hide ReplayOf, Decided;
    if !(CancelRequest(log).Some? && !AlreadyTerminal(log)) {
      DecisionHonest(d, d.registry[workflowType](input), log, now, j);
    }
  }

  lemma {:induction false} RunFullCopies(
    d: Deployment, states: seq<State>, steps: seq<Step>, workflowType: Text, input: Json, i: nat)
    requires Run(d, states, steps, workflowType, input) && workflowType in d.registry && i < |states|
    requires ProperCode(d.registry[workflowType](input))
    ensures FullCopiesFaithful(d.hash, states[i].log)
  {
    hide Handle, LogInvariant, ProperCode;
    if i > 0 {
      RunFullCopies(d, states, steps, workflowType, input, i - 1);
      RunHolds(d, states, steps, workflowType, input, i - 1);
      var s, t := states[i - 1], states[i];
      assert Next(d, s, t, steps[i - 1]);
      match steps[i - 1]
      case AppendDecision =>
        var seen, now := s.log[..s.reading.value.length], s.reading.value.now;
        forall j | 0 <= j < |EventsIn(Handle(d, seen, now))|
          ensures FaithfulCopy(d.hash, EventsIn(Handle(d, seen, now))[j])
        {
          HandleHonest(d, workflowType, input, seen, now, j);
        }
      case _ =>
    }
  }

  // ---------------------------------------------------------------- recovery by replay

  // The first calls of a lane have their outcomes recorded.
  ghost predicate HasOutcomes(log: seq<Stored>, lane: Lane, m: seq<Call>) {
    && |m| <= |Recorded(log, lane)|
    && forall i :: 0 <= i < |m| ==> OutcomeIn(log, lane, Recorded(log, lane)[i].seqNo).Some?
  }

  lemma OneHasOutcome(hash: Hash, log: seq<Stored>, before: seq<Call>, c: Call, lane: Lane)
    requires !IsSignal(lane) && HasOutcomes(log, lane, InLane(before, lane))
    requires Respond(hash, log, c, Position(before, c)).Settled?
    ensures HasOutcomes(log, lane, InLane(before, lane) + if LaneOf(c) == lane then [c] else [])
  {
    hide Matches, OutcomeIn, Recorded, InLane, MismatchError, CommandFor;
    assert InLane(before, lane) + [] == InLane(before, lane);
  }

  lemma {:induction false} BatchHasOutcomes(
    hash: Hash, log: seq<Stored>, prior: seq<Call>, calls: seq<Call>, lane: Lane)
    requires !IsSignal(lane) && AllSettled(Replies(hash, log, prior, calls))
    requires HasOutcomes(log, lane, InLane(prior, lane))
    ensures HasOutcomes(log, lane, InLane(prior + calls, lane))
    decreases |calls|
  {
    hide Respond, HasOutcomes, Position;
    if calls == [] {
      assert prior + calls == prior;
    } else {
      var k := |calls| - 1;
      RepliesPrefix(hash, log, prior, calls);
      var rs := Replies(hash, log, prior, calls);
      assert rs[k].Settled?;
      assert AllSettled(rs[..k]) by { assert forall i :: 0 <= i < k ==> rs[..k][i] == rs[i]; }
      BatchHasOutcomes(hash, log, prior, calls[..k], lane);
      LaneOfLast(prior, calls, lane);
      OneHasOutcome(hash, log, prior + calls[..k], calls[k], lane);
    }
  }

  lemma {:induction false} PriorHasOutcomes(hash: Hash, wf: Workflow, log: seq<Stored>, a: Answers, lane: Lane)
    requires Trace(PassOf(hash, wf, log), a) && !IsSignal(lane)
    ensures HasOutcomes(log, lane, InLane(Prior(wf, a), lane))
    decreases |a|
  {
    hide Trace, PassOf, Replies, HasOutcomes, AllSettled;
    if a == [] {
      NoneNeeded(log, lane);
    } else {
      var b := a[..|a| - 1];
      LastRound(hash, wf, log, a);
      PriorHasOutcomes(hash, wf, log, b, lane);
      BatchHasOutcomes(hash, log, Prior(wf, b), CallsAt(wf, b), lane);
    }
  }

  lemma NoneNeeded(log: seq<Stored>, lane: Lane)
    ensures HasOutcomes(log, lane, InLane([], lane))
  {
  }

  // A place of the lane that the prior calls do not reach is taken by a call of the batch.
  lemma {:induction false} FindInBatch(prior: seq<Call>, calls: seq<Call>, lane: Lane, p: nat) returns (i: nat)
    requires |InLane(prior, lane)| <= p < |InLane(prior + calls, lane)|
    ensures i < |calls| && LaneOf(calls[i]) == lane && Position(prior + calls[..i], calls[i]) == p
    decreases |calls|
  {
    assert prior + [] == prior;
    var k := |calls| - 1;
    LaneOfLast(prior, calls, lane);
    if p < |InLane(prior + calls[..k], lane)| {
      i := FindInBatch(prior, calls[..k], lane, p);
      assert calls[..k][..i] == calls[..i];
    } else {
      i := k;
    }
  }

  lemma PositionGrows(calls: seq<Call>, i: nat, j: nat)
    requires i < j < |calls| && LaneOf(calls[i]) == LaneOf(calls[j])
    ensures Position(calls[..i], calls[i]) < Position(calls[..j], calls[j])
  {
    CallAtPosition(calls[..j], i);
    assert calls[..j][..i] == calls[..i];
  }

  // pendingLlmRequests holds every LLM call of the batch that is in flight.
  lemma {:induction false} PendingHolds(rs: seq<Reply>, prior: seq<Call>, calls: seq<Call>, i: nat)
    requires |rs| == |calls| && i < |rs| && rs[i].Hanging? && calls[i].Llm?
    ensures var id := LlmStepId(Position(prior + calls[..i], calls[i]));
      id in PendingLlm(rs, prior, calls) && PendingLlm(rs, prior, calls)[id] == calls[i].request
    decreases |rs|
  {
    hide LlmStepId, ToolStepId, Position;
    var n := |rs| - 1;
    if i < n {
      PendingHolds(rs[..n], prior, calls[..n], i);
      assert calls[..n][..i] == calls[..i];
      if calls[n].Llm? {
        var all := prior + calls;
        assert all[..|prior| + i] == prior + calls[..i] && all[..|prior| + n] == prior + calls[..n];
        PositionGrows(all, |prior| + i, |prior| + n);
        StepIdsInjective(Position(prior + calls[..i], calls[i]), Position(prior + calls[..n], calls[n]));
      }
    }
  }

  // The requests replay reports in flight are those of the LLM calls it is still waiting for, under their step ids.
  ghost predicate InFlightAs(rs: seq<Reply>, prior: seq<Call>, calls: seq<Call>, i: nat, id: Text, q: LlmRequest)
    requires |rs| == |calls|
  {
    && i < |rs| && rs[i].Hanging? && calls[i] == Llm(q)
    && id == LlmStepId(Position(prior + calls[..i], calls[i]))
  }

  lemma {:induction false} PendingIff(rs: seq<Reply>, prior: seq<Call>, calls: seq<Call>, id: Text, q: LlmRequest)
    requires |rs| == |calls|
    ensures Get(PendingLlm(rs, prior, calls), id) == Some(q) <==>
      exists i: nat :: InFlightAs(rs, prior, calls, i, id, q)
    decreases |rs|
  {
    hide Position, LlmStepId;
    if i: nat :| InFlightAs(rs, prior, calls, i, id, q) { PendingHolds(rs, prior, calls, i); }
    if rs != [] && Get(PendingLlm(rs, prior, calls), id) == Some(q) {
      var n := |rs| - 1;
      if rs[n].Hanging? && calls[n].Llm? && id == LlmStepId(Position(prior + calls[..n], calls[n])) {
        assert InFlightAs(rs, prior, calls, n, id, q);
      } else {
        PendingIff(rs[..n], prior, calls[..n], id, q);
        var i: nat :| InFlightAs(rs[..n], prior, calls[..n], i, id, q);
        assert calls[..n][..i] == calls[..i];
        assert InFlightAs(rs, prior, calls, i, id, q);
      }
    }
  }

  lemma PendingAtEnd(hash: Hash, wf: Workflow, log: seq<Stored>, b: Answers, budget: nat)
    requires FullTrace(PassOf(hash, wf, log), b) && TicksTo(PassOf(hash, wf, log), b) <= budget
    requires ReplayOf(hash, wf, log, budget).Running?
    ensures ReplayOf(hash, wf, log, budget).pending ==
      PendingLlm(RepliesAt(hash, wf, log, b), Prior(wf, b), CallsAt(wf, b))
  {
    BoundedDrain(PassOf(hash, wf, log), b, budget, EXHAUSTED);
    hide RepliesAt, NewCommands, PendingLlm;
  }

  lemma ReplayPending(hash: Hash, wf: Workflow, log: seq<Stored>, b: Answers, budget: nat, id: Text, q: LlmRequest)
    requires FullTrace(PassOf(hash, wf, log), b) && TicksTo(PassOf(hash, wf, log), b) <= budget
    requires ReplayOf(hash, wf, log, budget).Running?
    ensures Get(ReplayOf(hash, wf, log, budget).pending, id) == Some(q) <==>
      exists i: nat :: InFlightAs(RepliesAt(hash, wf, log, b), Prior(wf, b), CallsAt(wf, b), i, id, q)
  {
    hide ReplayOf, Respond, NewCommands, PendingLlm, InFlightAs;
    PendingAtEnd(hash, wf, log, b, budget);
    PendingIff(RepliesAt(hash, wf, log, b), Prior(wf, b), CallsAt(wf, b), id, q);
  }

  lemma {:induction false} FindRecorded(log: seq<Stored>, lane: Lane, j: nat) returns (p: nat)
    requires j < |log| && EventLane(log[j].event) == Some(lane)
    ensures p < |Recorded(log, lane)| && Recorded(log, lane)[p] == log[j]
  {
    var n := |log| - 1;
    if j < n {
      p := FindRecorded(log[..n], lane, j);
    } else {
      p := |Recorded(log[..n], lane)|;
    }
  }

  // A step without an outcome is in flight at the last decision, so replay has its request.
  lemma InFlight(d: Deployment, wf: Workflow, log: seq<Stored>, a: Answers, p: nat) returns (i: nat)
    requires DecidedAt(d, wf, log, a) && p < |Recorded(log, LlmLane)|
    requires OutcomeIn(log, LlmLane, Recorded(log, LlmLane)[p].seqNo).None?
    ensures i < |CallsAt(wf, a)| && CallsAt(wf, a)[i].Llm? && PositionAt(wf, a, i) == p
    ensures RepliesAt(d.hash, wf, log, a)[i].Hanging?
    ensures CallsAt(wf, a)[i] == InLane(Asked(wf, a), LlmLane)[p]
    ensures Matches(d.hash, Recorded(log, LlmLane)[p].event, CallsAt(wf, a)[i], p)
  {
    hide Respond, Matches, TicksTo;
    PriorHasOutcomes(d.hash, wf, log, a, LlmLane);
    i := FindInBatch(Prior(wf, a), CallsAt(wf, a), LlmLane, p);
    StandsAt(wf, a, i);
    assert Caused(d.hash, Recorded(log, LlmLane), InLane(Asked(wf, a), LlmLane), 0, LlmLane);
    ScheduledReply(d.hash, log, CallsAt(wf, a)[i], p);
  }

  lemma RecoveredByReplay(d: Deployment, wf: Workflow, log: seq<Stored>, a: Answers, p: nat)
    requires DecidedAt(d, wf, log, a) && p < |Recorded(log, LlmLane)|
    requires OutcomeIn(log, LlmLane, Recorded(log, LlmLane)[p].seqNo).None?
    ensures p < |InLane(Asked(wf, a), LlmLane)|
    ensures
      var r, e := ReplayOf(d.hash, wf, log, d.budget), Recorded(log, LlmLane)[p].event;
      var c := InLane(Asked(wf, a), LlmLane)[p];
      && c.Llm?
      && r.Running? && e.stepId in r.pending && r.pending[e.stepId] == c.request
      && RequestHash(d.hash, c.request) == e.requestHash
  {
    hide Respond, TicksTo, RequestHash, Follows;
    var i := InFlight(d, wf, log, a, p);
    StandsAt(wf, a, i);
    BlockedAgain(d, wf, log, a, i);
    BoundedDrain(PassOf(d.hash, wf, log), a, d.budget, EXHAUSTED);
    PendingHolds(RepliesAt(d.hash, wf, log, a), Prior(wf, a), CallsAt(wf, a), i);
  }

  // What an open step resolves to: the request the code asked for at its place.
  ghost predicate ResolvesTo(d: Deployment, log: seq<Stored>, e: Event, wf: Workflow, a: Answers, p: nat)
    requires e.LlmRequested?
  {
    var asked, q := InLane(Asked(wf, a), LlmLane), ResolveRequest(d, log, e);
    && p < |asked| && asked[p].Llm?
    && e.stepId == LlmStepId(p)
    && q.Ok?
    && RequestHash(d.hash, q.value) == e.requestHash == RequestHash(d.hash, asked[p].request)
    && (e.storage != FullCopy ==> q.value == asked[p].request)
  }

  lemma OpenStepResolves(d: Deployment, workflowType: Text, input: Json, log: seq<Stored>, a: Answers, p: nat)
    requires workflowType in d.registry && Begun(log, workflowType, input)
    requires DecidedAt(d, d.registry[workflowType](input), log, a) && p < |Recorded(log, LlmLane)|
    requires OutcomeIn(log, LlmLane, Recorded(log, LlmLane)[p].seqNo).None?
    requires FaithfulCopy(d.hash, Recorded(log, LlmLane)[p].event)
    ensures ResolvesTo(d, log, Recorded(log, LlmLane)[p].event, d.registry[workflowType](input), a, p)
  {
    hide ReplayOf, RequestHash, Respond, RepliesAt, Follows, OutcomeIn, TurnAt, TicksTo;
    var wf := d.registry[workflowType](input);
    RecoveredByReplay(d, wf, log, a, p);
    var i := InFlight(d, wf, log, a, p);
  }

  // In every run a step without an outcome resolves, whatever copy of its request was stored.
  lemma EveryOpenStepResolves(
    d: Deployment, states: seq<State>, steps: seq<Step>, workflowType: Text, input: Json, i: nat, j: nat)
    returns (a: Answers, p: nat)
    requires Run(d, states, steps, workflowType, input) && workflowType in d.registry && i < |states|
    requires ProperCode(d.registry[workflowType](input))
    requires j < |states[i].log| && states[i].log[j].event.LlmRequested?
    requires OutcomeIn(states[i].log, LlmLane, states[i].log[j].seqNo).None?
    ensures DecidedAt(d, d.registry[workflowType](input), states[i].log, a)
    ensures ResolvesTo(d, states[i].log, states[i].log[j].event, d.registry[workflowType](input), a, p)
  {
    hide ResolvesTo, DecidedAt, OutcomeIn, ProperCode, FaithfulCopy, OutcomesOfPast, Terminals;
    RunHolds(d, states, steps, workflowType, input, i);
    RunFullCopies(d, states, steps, workflowType, input, i);
    var wf, log := d.registry[workflowType](input), states[i].log;
    p := FindRecorded(log, LlmLane, j);
    assert |InLane([], LlmLane)| == 0;
    a :| DecidedAt(d, wf, log, a);
    assert FaithfulCopy(d.hash, log[j].event);
    OpenStepResolves(d, workflowType, input, log, a, p);
  }

  // A full copy that any run has put in its log is sent as it is, whatever code is deployed and whatever the log
  // says by then.
  lemma FullCopyNeedsNoCode(
    d: Deployment, states: seq<State>, steps: seq<Step>, workflowType: Text, input: Json, i: nat, j: nat,
    later: Deployment, history: seq<Stored>)
    requires Run(d, states, steps, workflowType, input) && workflowType in d.registry && i < |states|
    requires ProperCode(d.registry[workflowType](input)) && later.hash == d.hash
    requires j < |states[i].log| && states[i].log[j].event.LlmRequested? && states[i].log[j].event.storage == FullCopy
    ensures states[i].log[j].event.request.Some?
    ensures ResolveRequest(later, history, states[i].log[j].event) == Ok(states[i].log[j].event.request.value)
  {
    hide ReplayOf, RequestHash, Next;
    RunFullCopies(d, states, steps, workflowType, input, i);
    assert FaithfulCopy(d.hash, states[i].log[j].event);
  }

  // Why a step without a full copy cannot be sent: the log has no start, its code is not registered, it raises, it
  // does not wait for the step, or it asks for something else.
  lemma UnresolvedBecause(d: Deployment, history: seq<Stored>, requested: Event, s: nat)
    requires requested.LlmRequested? && (requested.storage != FullCopy || requested.request.None?)
    requires FirstStart(history, s)
    ensures var e, r := history[s].event, ResolveRequest(d, history, requested);
      && (r == Err(NotRegistered) <==> e.workflowType !in d.registry)
      && r != Err(NotStarted) && r != Err(StoredHashDiffers)
      && (e.workflowType in d.registry ==>
           var replayed := ReplayOf(d.hash, CodeOf(d, e), history, d.budget);
           var waits := replayed.Running? && requested.stepId in replayed.pending;
           && (forall cause :: r == Err(CouldNotDerive(cause)) <==> replayed == Raised(cause))
           && (r == Err(StepNotFound) <==> !replayed.Raised? && !waits)
           && (r == Err(DerivedHashDiffers) <==>
                waits && RequestHash(d.hash, replayed.pending[requested.stepId]) != requested.requestHash)
           && (r.Ok? ==> waits && r.value == replayed.pending[requested.stepId]))
  {
    hide ReplayOf, RequestHash;
    StartIsFirst(history, history[s].event);
  }

  lemma UnresolvedUnstarted(d: Deployment, history: seq<Stored>, requested: Event)
    requires requested.LlmRequested?
    requires forall i :: 0 <= i < |history| ==> !history[i].event.WorkflowStarted?
    ensures requested.storage == FullCopy && requested.request.Some? ==>
      ResolveRequest(d, history, requested) ==
        if RequestHash(d.hash, requested.request.value) == requested.requestHash then Ok(requested.request.value)
        else Err(StoredHashDiffers)
    ensures requested.storage != FullCopy || requested.request.None? ==>
      ResolveRequest(d, history, requested) == Err(NotStarted)
  {
    if Started(history).Some? { StartIsFirst(history, Started(history).value); }
  }
}
