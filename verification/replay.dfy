/** packages/core/src/replay.ts as it is written: counters, maps and a bounded drain loop. */
module Replay {
  import opened Wrappers
  import opened Texts
  import opened Json
  import opened Requests
  import opened Events
  import opened Drain
  import opened ReplaySpec
  import opened Readings
  import opened ReplayLaws
  import opened Decisions

  // ---------------------------------------------------------------- reading the history

  // history.filter for the schedule events of one lane
  method FilterLane(history: seq<Stored>, lane: Lane) returns (r: seq<Stored>)
    ensures r == Recorded(history, lane)
  {
    r := [];
    for i := 0 to |history|
      invariant r == Recorded(history[..i], lane)
    {
      assert history[..i + 1] == history[..i] + [history[i]];
      RecordedSnoc(history[..i], history[i], lane);
      if EventLane(history[i].event) == Some(lane) { r := r + [history[i]]; }
    }
    assert history[..|history|] == history;
  }

  function SignalsOf(m: map<Text, seq<Stored>>, name: Text): seq<Stored> {
    if name in m then m[name] else []
  }

  // signalEventsByName
  method SignalsByName(history: seq<Stored>) returns (m: map<Text, seq<Stored>>)
    ensures forall name :: SignalsOf(m, name) == Recorded(history, SignalLane(name))
  {
    m := map[];
    for i := 0 to |history|
      invariant forall name :: SignalsOf(m, name) == Recorded(history[..i], SignalLane(name))
    {
      assert history[..i + 1] == history[..i] + [history[i]];
      forall name { RecordedSnoc(history[..i], history[i], SignalLane(name)); }
      if history[i].event.SignalReceived? {
        var name := history[i].event.signalName;
        m := m[name := SignalsOf(m, name) + [history[i]]];
      }
    }
    assert history[..|history|] == history;
  }

  ghost predicate Indexes(m: map<nat, Answer>, history: seq<Stored>, lane: Lane) {
    forall s: nat :: Get(m, s) == OutcomeIn(history, lane, s)
  }

  ghost predicate FiredIn(fired: set<nat>, history: seq<Stored>) {
    forall s: nat :: (if s in fired then Some(Fired) else None) == OutcomeIn(history, TimerLane, s)
  }

  lemma OutcomeSnoc(log: seq<Stored>, x: Stored, lane: Lane, s: nat)
    ensures var o := OutcomeOf(x.event);
      OutcomeIn(log + [x], lane, s) ==
      if o.Some? && o.value.lane == lane && o.value.seqNo == s then Some(o.value.answer) else OutcomeIn(log, lane, s)
  {
    assert (log + [x])[..|log + [x]| - 1] == log;
  }

  // The loop that fills outcomeBySeq, llmOutcomeBySeq, toolOutcomeBySeq and firedTimerSeqs: later outcomes
  // replace earlier ones.
  method IndexOutcomes(history: seq<Stored>)
    returns (activities: map<nat, Answer>, llmCalls: map<nat, Answer>, toolCalls: map<nat, Answer>, fired: set<nat>)
    ensures Indexes(activities, history, ActivityLane)
    ensures Indexes(llmCalls, history, LlmLane)
    ensures Indexes(toolCalls, history, ToolLane)
    ensures FiredIn(fired, history)
    ensures IndexTells(activities, history, ActivityLane)
    ensures IndexTells(llmCalls, history, LlmLane)
    ensures IndexTells(toolCalls, history, ToolLane)
    ensures forall s: nat :: s in fired <==> Told(history, TimerLane, s, Fired)
  {
    activities, llmCalls, toolCalls, fired := map[], map[], map[], {};
    for i := 0 to |history|
      invariant Indexes(activities, history[..i], ActivityLane)
      invariant Indexes(llmCalls, history[..i], LlmLane)
      invariant Indexes(toolCalls, history[..i], ToolLane)
      invariant FiredIn(fired, history[..i])
    {
      assert history[..i + 1] == history[..i] + [history[i]];
      forall lane, s: nat { OutcomeSnoc(history[..i], history[i], lane, s); }
      match history[i].event {
        case ToolCompleted(_, s, _, result, _, _) => toolCalls := toolCalls[s := Value(result)];
        case ToolFailed(_, s, _, error, _, _, _) => toolCalls := toolCalls[s := Rejected(error)];
        case LlmCompleted(_, s, _, response, _, _, _) => llmCalls := llmCalls[s := Response(response)];
        case LlmFailed(_, s, error, _, _, _) => llmCalls := llmCalls[s := Rejected(error)];
        case ActivityCompleted(s, result) => activities := activities[s := Value(result)];
        case ActivityFailed(s, error) => activities := activities[s := Rejected(error)];
        case TimerFired(s) => fired := fired + {s};
        case _ =>
      }
    }
    assert history[..|history|] == history;
    hide Indexes, FiredIn, OutcomeIn, IndexTells;
    IndexesTell(activities, history, ActivityLane);
    IndexesTell(llmCalls, history, LlmLane);
    IndexesTell(toolCalls, history, ToolLane);
    FiredTells(fired, history);
  }

  // The map holds what the last event to name each step tells.
  ghost predicate IndexTells(m: map<nat, Answer>, history: seq<Stored>, lane: Lane) {
    forall s: nat, a: Answer :: Get(m, s) == Some(a) <==> Told(history, lane, s, a)
  }

  lemma IndexesTell(m: map<nat, Answer>, history: seq<Stored>, lane: Lane)
    requires Indexes(m, history, lane)
    ensures IndexTells(m, history, lane)
  {
    hide Told, OutcomeIn;
    forall s: nat, a: Answer { OutcomeTells(history, lane, s, a); }
  }

  lemma FiredTells(fired: set<nat>, history: seq<Stored>)
    requires FiredIn(fired, history)
    ensures forall s: nat :: s in fired <==> Told(history, TimerLane, s, Fired)
  {
    hide Told, OutcomeIn;
    forall s: nat ensures s in fired <==> Told(history, TimerLane, s, Fired) {
      OutcomeTells(history, TimerLane, s, Fired);
    }
  }

  // ---------------------------------------------------------------- what a pass has replied so far

  function AllReplies(hash: Hash, history: seq<Stored>, calls: seq<Call>): seq<Reply> {
    Replies(hash, history, [], calls)
  }

  function Next(hash: Hash, history: seq<Stored>, calls: seq<Call>, c: Call): Reply {
    Respond(hash, history, c, Position(calls, c))
  }

  // A context promise: settled, or never going to be in this pass.
  function Promise(r: Reply): Option<Answer> {
    if r.Settled? then Some(r.answer) else None
  }

  // What the context has accumulated over some calls.
  datatype Tally = Tally(commands: seq<Command>, mismatch: Option<ReplayError>, pending: map<Text, LlmRequest>)

  function TallyOf(rs: seq<Reply>, calls: seq<Call>): Tally
    requires |rs| == |calls|
  {
    Tally(NewCommands(rs), LastMismatch(rs), PendingLlm(rs, [], calls))
  }

  function Tallied(hash: Hash, history: seq<Stored>, calls: seq<Call>): Tally {
    TallyOf(AllReplies(hash, history, calls), calls)
  }

  function Add(t: Tally, r: Reply, c: Call, index: nat): Tally {
    match r
    case New(command) => t.(commands := t.commands + [command])
    case Mismatch(error) => t.(mismatch := Some(error))
    case Hanging => if c.Llm? then t.(pending := t.pending[LlmStepId(index) := c.request]) else t
    case Settled(_) => t
  }

  lemma TallySnoc(rs: seq<Reply>, calls: seq<Call>, r: Reply, c: Call)
    requires |rs| == |calls|
    ensures TallyOf(rs + [r], calls + [c]) == Add(TallyOf(rs, calls), r, c, Position(calls, c))
  {
    var rr, cc := rs + [r], calls + [c];
    assert rr[..|rr| - 1] == rs && cc[..|cc| - 1] == calls;
    assert [] + calls == calls;
    assert NewCommands(rs) + [] == NewCommands(rs);
  }

  lemma OneMoreReply(hash: Hash, history: seq<Stored>, calls: seq<Call>, c: Call)
    ensures Tallied(hash, history, calls + [c]) ==
      Add(Tallied(hash, history, calls), Next(hash, history, calls, c), c, Position(calls, c))
  {
    hide Respond, TallyOf, Add, Position;
    var all := calls + [c];
    assert all[..|all| - 1] == calls;
    RepliesPrefix(hash, history, [], all);
    assert [] + calls == calls;
    var before, after := AllReplies(hash, history, calls), AllReplies(hash, history, all);
    assert after == before + [Next(hash, history, calls, c)];
    TallySnoc(before, calls, Next(hash, history, calls, c), c);
  }

  // The promise settles with what the history tells for the call.
  lemma PromiseGets(hash: Hash, history: seq<Stored>, calls: seq<Call>, c: Call)
    ensures forall a ::
      Promise(Next(hash, history, calls, c)) == Some(a) <==> Gets(hash, history, c, Position(calls, c), a)
  {
    hide Gets, Respond, Position;
    forall a { SettledIff(hash, history, c, Position(calls, c), a); }
  }

  lemma OneMoreInLane(calls: seq<Call>, c: Call)
    ensures forall lane :: |InLane(calls + [c], lane)| == |InLane(calls, lane)| + if LaneOf(c) == lane then 1 else 0
  {
    assert (calls + [c])[..|calls|] == calls;
  }

  // ---------------------------------------------------------------- the context

  class ReplayContext {
    const hash: Hash
    ghost const history: seq<Stored>

    const scheduledEvents: seq<Stored>
    const llmRequestedEvents: seq<Stored>
    const toolRequestedEvents: seq<Stored>
    const timerEvents: seq<Stored>
    const signalEventsByName: map<Text, seq<Stored>>
    const outcomeBySeq: map<nat, Answer>
    const llmOutcomeBySeq: map<nat, Answer>
    const toolOutcomeBySeq: map<nat, Answer>
    const firedTimerSeqs: set<nat>

    var callIndex: nat
    var timerCallIndex: nat
    var llmCallIndex: nat
    var toolCallIndex: nat
    var signalCallIndexByName: map<Text, nat>

    var commands: seq<Command>
    var nonDeterminismError: Option<ReplayError>
    var pendingLlmRequests: map<Text, LlmRequest>

    // The calls made so far.
    ghost var calls: seq<Call>

    ghost predicate Indexed() {
      && scheduledEvents == Recorded(history, ActivityLane)
      && llmRequestedEvents == Recorded(history, LlmLane)
      && toolRequestedEvents == Recorded(history, ToolLane)
      && timerEvents == Recorded(history, TimerLane)
      && (forall name :: SignalsOf(signalEventsByName, name) == Recorded(history, SignalLane(name)))
      && Indexes(outcomeBySeq, history, ActivityLane)
      && Indexes(llmOutcomeBySeq, history, LlmLane)
      && Indexes(toolOutcomeBySeq, history, ToolLane)
      && FiredIn(firedTimerSeqs, history)
    }

    // What each kind of call looks up.
    lemma LaneIndexes()
      requires Indexed()
      ensures scheduledEvents == Recorded(history, ActivityLane) && Indexes(outcomeBySeq, history, ActivityLane)
      ensures llmRequestedEvents == Recorded(history, LlmLane) && Indexes(llmOutcomeBySeq, history, LlmLane)
      ensures toolRequestedEvents == Recorded(history, ToolLane) && Indexes(toolOutcomeBySeq, history, ToolLane)
      ensures timerEvents == Recorded(history, TimerLane) && FiredIn(firedTimerSeqs, history)
    {
    }

    lemma SignalIndex(name: Text)
      requires Indexed()
      ensures SignalsOf(signalEventsByName, name) == Recorded(history, SignalLane(name))
    {
    }

    ghost predicate Counted()
      reads this
    {
      && callIndex == |InLane(calls, ActivityLane)|
      && timerCallIndex == |InLane(calls, TimerLane)|
      && llmCallIndex == |InLane(calls, LlmLane)|
      && toolCallIndex == |InLane(calls, ToolLane)|
      && forall name ::
        (if name in signalCallIndexByName then signalCallIndexByName[name] else 0) == |InLane(calls, SignalLane(name))|
    }

    ghost predicate Valid()
      reads this
    {
      && Indexed()
      && Counted()
      && Tally(commands, nonDeterminismError, pendingLlmRequests) == Tallied(hash, history, calls)
    }

    constructor (hash: Hash, history: seq<Stored>)
      ensures Valid() && this.hash == hash && this.history == history && calls == []
    {
      var scheduled := FilterLane(history, ActivityLane);
      var llmRequested := FilterLane(history, LlmLane);
      var toolRequested := FilterLane(history, ToolLane);
      var timers := FilterLane(history, TimerLane);
      var signals := SignalsByName(history);
      var activities, llmCalls, toolCalls, fired := IndexOutcomes(history);
      this.hash, this.history := hash, history;
      scheduledEvents, llmRequestedEvents, toolRequestedEvents, timerEvents :=
        scheduled, llmRequested, toolRequested, timers;
      signalEventsByName := signals;
      outcomeBySeq, llmOutcomeBySeq, toolOutcomeBySeq, firedTimerSeqs := activities, llmCalls, toolCalls, fired;
      callIndex, timerCallIndex, llmCallIndex, toolCallIndex := 0, 0, 0, 0;
      signalCallIndexByName := map[];
      commands, nonDeterminismError, pendingLlmRequests := [], None, map[];
      calls := [];
    }

    method ScheduleActivity(activityType: Text, input: Json) returns (p: Option<Answer>)
      requires Valid()
      modifies this
      ensures Valid() && calls == old(calls) + [Activity(activityType, input)]
      ensures p == Promise(Next(hash, history, old(calls), Activity(activityType, input)))
      ensures var c := Activity(activityType, input);
        forall a :: p == Some(a) <==> Gets(hash, history, c, Position(old(calls), c), a)
    {
      hide Gets, Indexed, FiredIn, Tallied, InLane, Recorded, OutcomeIn, CanonicalLlmRequest, CanonicalToolCall,
        LlmStepId, ToolStepId;
      LaneIndexes();
      OneMoreReply(hash, history, calls, Activity(activityType, input));
      PromiseGets(hash, history, calls, Activity(activityType, input));
      OneMoreInLane(calls, Activity(activityType, input));
      calls := calls + [Activity(activityType, input)];
      var index := callIndex;
      callIndex := index + 1;
      if index < |scheduledEvents| {
        var scheduled := scheduledEvents[index];
        if scheduled.event.activityType != activityType {
          nonDeterminismError := Some(NonDeterminism(index, scheduled.event.activityType, activityType));
          return None;
        }
        return Get(outcomeBySeq, scheduled.seqNo);
      }
      commands := commands + [Command.ScheduleActivity(activityType, input)];
      return None;
    }

    method Sleep(durationMs: int) returns (p: Option<Answer>)
      requires Valid()
      modifies this
      ensures Valid() && calls == old(calls) + [Call.Sleep(durationMs)]
      ensures p == Promise(Next(hash, history, old(calls), Call.Sleep(durationMs)))
      ensures var c := Call.Sleep(durationMs);
        forall a :: p == Some(a) <==> Gets(hash, history, c, Position(old(calls), c), a)
    {
      hide Gets, Indexed, Indexes, Tallied, InLane, Recorded, OutcomeIn, CanonicalLlmRequest, CanonicalToolCall,
        LlmStepId, ToolStepId;
      LaneIndexes();
      OneMoreReply(hash, history, calls, Call.Sleep(durationMs));
      PromiseGets(hash, history, calls, Call.Sleep(durationMs));
      OneMoreInLane(calls, Call.Sleep(durationMs));
      calls := calls + [Call.Sleep(durationMs)];
      var index := timerCallIndex;
      timerCallIndex := index + 1;
      if index < |timerEvents| {
        return if timerEvents[index].seqNo in firedTimerSeqs then Some(Fired) else None;
      }
      commands := commands + [ScheduleTimer(durationMs)];
      return None;
    }

    method LlmCall(request: LlmRequest) returns (p: Option<Answer>)
      requires Valid()
      modifies this
      ensures Valid() && calls == old(calls) + [Llm(request)]
      ensures p == Promise(Next(hash, history, old(calls), Llm(request)))
      ensures var c := Llm(request);
        forall a :: p == Some(a) <==> Gets(hash, history, c, Position(old(calls), c), a)
    {
      hide Gets, Indexed, FiredIn, Tallied, InLane, Recorded, OutcomeIn, CanonicalLlmRequest, CanonicalToolCall,
        LlmStepId, ToolStepId;
      LaneIndexes();
      OneMoreReply(hash, history, calls, Llm(request));
      PromiseGets(hash, history, calls, Llm(request));
      OneMoreInLane(calls, Llm(request));
      calls := calls + [Llm(request)];
      var index := llmCallIndex;
      llmCallIndex := index + 1;
      var stepId := LlmStepId(index);
      var requestHash := hash(CanonicalLlmRequest(request));
      if index < |llmRequestedEvents| {
        var scheduled := llmRequestedEvents[index];
        if scheduled.event.stepId != stepId || scheduled.event.requestHash != requestHash {
          nonDeterminismError := Some(StepMismatch(stepId, index, scheduled.event.requestHash, requestHash, false));
          return None;
        }
        p := Get(llmOutcomeBySeq, scheduled.seqNo);
        if p.None? { pendingLlmRequests := pendingLlmRequests[stepId := request]; }
        return;
      }
      commands := commands + [RequestLlmCall(stepId, request, requestHash)];
      return None;
    }

    method ToolCall(tool: Text, args: Json) returns (p: Option<Answer>)
      requires Valid()
      modifies this
      ensures Valid() && calls == old(calls) + [Tool(tool, args)]
      ensures p == Promise(Next(hash, history, old(calls), Tool(tool, args)))
      ensures var c := Tool(tool, args);
        forall a :: p == Some(a) <==> Gets(hash, history, c, Position(old(calls), c), a)
    {
      hide Gets, Indexed, FiredIn, Tallied, InLane, Recorded, OutcomeIn, CanonicalLlmRequest, CanonicalToolCall,
        LlmStepId, ToolStepId;
      LaneIndexes();
      OneMoreReply(hash, history, calls, Tool(tool, args));
      PromiseGets(hash, history, calls, Tool(tool, args));
      OneMoreInLane(calls, Tool(tool, args));
      calls := calls + [Tool(tool, args)];
      var index := toolCallIndex;
      toolCallIndex := index + 1;
      var stepId := ToolStepId(index);
      var argsHash := hash(CanonicalToolCall(tool, args));
      if index < |toolRequestedEvents| {
        var scheduled := toolRequestedEvents[index];
        if scheduled.event.stepId != stepId || scheduled.event.argsHash != argsHash {
          nonDeterminismError := Some(StepMismatch(stepId, index, scheduled.event.argsHash, argsHash, true));
          return None;
        }
        return Get(toolOutcomeBySeq, scheduled.seqNo);
      }
      commands := commands + [RequestToolCall(stepId, tool, args, argsHash)];
      return None;
    }

    method WaitForSignal(name: Text) returns (p: Option<Answer>)
      requires Valid()
      modifies this
      ensures Valid() && calls == old(calls) + [WaitSignal(name)]
      ensures p == Promise(Next(hash, history, old(calls), WaitSignal(name)))
      ensures var c := WaitSignal(name);
        forall a :: p == Some(a) <==> Gets(hash, history, c, Position(old(calls), c), a)
    {
      hide Gets, Indexed, SignalsOf, Tallied, InLane, Recorded, OutcomeIn, CanonicalLlmRequest, CanonicalToolCall,
        LlmStepId, ToolStepId;
      SignalIndex(name);
      OneMoreReply(hash, history, calls, WaitSignal(name));
      PromiseGets(hash, history, calls, WaitSignal(name));
      OneMoreInLane(calls, WaitSignal(name));
      calls := calls + [WaitSignal(name)];
      var index := if name in signalCallIndexByName then signalCallIndexByName[name] else 0;
      signalCallIndexByName := signalCallIndexByName[name := index + 1];
      var events := SignalsOf(signalEventsByName, name);
      return if index < |events| then Some(Value(events[index].event.payload)) else None;
    }

    method Invoke(c: Call) returns (p: Option<Answer>)
      requires Valid()
      modifies this
      ensures Valid() && calls == old(calls) + [c]
      ensures p == Promise(Next(hash, history, old(calls), c))
      ensures forall a :: p == Some(a) <==> Gets(hash, history, c, Position(old(calls), c), a)
    {
      match c
      case Activity(activityType, input) => p := ScheduleActivity(activityType, input);
      case Sleep(durationMs) => p := Sleep(durationMs);
      case Llm(request) => p := LlmCall(request);
      case Tool(tool, args) => p := ToolCall(tool, args);
      case WaitSignal(name) => p := WaitForSignal(name);
    }
  }

  // ---------------------------------------------------------------- the drain loop

  // Calls that are all answered leave nothing behind.
  lemma {:induction false} SettledTally(rs: seq<Reply>, calls: seq<Call>)
    requires |rs| == |calls| && AllSettled(rs)
    ensures TallyOf(rs, calls) == Tally([], None, map[])
  {
    if rs != [] {
      var n := |rs| - 1;
      assert forall i :: 0 <= i < n ==> rs[..n][i] == rs[i];
      SettledTally(rs[..n], calls[..n]);
      TallySnoc(rs[..n], calls[..n], rs[n], calls[n]);
      assert rs[..n] + [rs[n]] == rs && calls[..n] + [calls[n]] == calls;
    }
  }

  lemma ReplyAt(hash: Hash, history: seq<Stored>, prior: seq<Call>, calls: seq<Call>, i: nat)
    requires i < |prior + calls|
    ensures AllReplies(hash, history, prior + calls)[i] ==
      if i < |prior| then AllReplies(hash, history, prior)[i] else Replies(hash, history, prior, calls)[i - |prior|]
  {
    hide Respond, Position;
    var all := prior + calls;
    assert [] + all[..i] == all[..i];
    if i < |prior| {
      assert all[..i] == prior[..i] == [] + prior[..i];
    } else {
      assert all[..i] == prior + calls[..i - |prior|];
    }
  }

  lemma RepliesConcat(hash: Hash, history: seq<Stored>, prior: seq<Call>, calls: seq<Call>)
    ensures AllReplies(hash, history, prior + calls) ==
      AllReplies(hash, history, prior) + Replies(hash, history, prior, calls)
  {
    var rs := AllReplies(hash, history, prior + calls);
    var xs := AllReplies(hash, history, prior) + Replies(hash, history, prior, calls);
    assert |rs| == |xs| == |prior + calls|;
    hide AllReplies, Replies;
    forall i | 0 <= i < |rs| ensures rs[i] == xs[i] { ReplyAt(hash, history, prior, calls, i); }
  }

  lemma SettledConcat(xs: seq<Reply>, ys: seq<Reply>)
    requires AllSettled(xs) && AllSettled(ys)
    ensures AllSettled(xs + ys)
  {
  }

  lemma {:induction false} TraceSettled(hash: Hash, wf: Workflow, history: seq<Stored>, a: Answers)
    requires Trace(PassOf(hash, wf, history), a)
    ensures AllSettled(AllReplies(hash, history, Prior(wf, a)))
    decreases |a|
  {
    hide Trace, PassOf, Replies, AllSettled;
    if a == [] {
      NothingToSettle(hash, history);
    } else {
      var b := a[..|a| - 1];
      LastRound(hash, wf, history, a);
      TraceSettled(hash, wf, history, b);
      RepliesConcat(hash, history, Prior(wf, b), CallsAt(wf, b));
      SettledConcat(AllReplies(hash, history, Prior(wf, b)), RepliesAt(hash, wf, history, b));
    }
  }

  lemma NothingToSettle(hash: Hash, history: seq<Stored>)
    ensures AllSettled(AllReplies(hash, history, []))
  {
    hide Respond;
  }

  lemma {:induction false} SettledFirst(xs: seq<Reply>, prior: seq<Call>, rs: seq<Reply>, calls: seq<Call>)
    requires |xs| == |prior| && |rs| == |calls| && AllSettled(xs)
    ensures TallyOf(xs + rs, prior + calls) == Tally(NewCommands(rs), LastMismatch(rs), PendingLlm(rs, prior, calls))
    decreases |rs|
  {
    if rs == [] {
      assert xs + rs == xs && prior + calls == prior;
      SettledTally(xs, prior);
    } else {
      var n := |rs| - 1;
      SettledFirst(xs, prior, rs[..n], calls[..n]);
      TallySnoc(xs + rs[..n], prior + calls[..n], rs[n], calls[n]);
      assert (xs + rs[..n]) + [rs[n]] == xs + rs;
      assert (prior + calls[..n]) + [calls[n]] == prior + calls;
    }
  }

  // What a pass has accumulated once the calls at `a` are made is what it reports there.
  lemma TallyAt(hash: Hash, wf: Workflow, history: seq<Stored>, a: Answers)
    requires Trace(PassOf(hash, wf, history), a)
    ensures Tallied(hash, history, Prior(wf, a)) == Tally([], None, map[])
    ensures var rs := RepliesAt(hash, wf, history, a);
      Tallied(hash, history, Prior(wf, a) + CallsAt(wf, a)) ==
        Tally(NewCommands(rs), LastMismatch(rs), PendingLlm(rs, Prior(wf, a), CallsAt(wf, a)))
  {
    hide Respond, TallyOf, TurnAt;
    TraceSettled(hash, wf, history, a);
    SettledTally(AllReplies(hash, history, Prior(wf, a)), Prior(wf, a));
    RepliesConcat(hash, history, Prior(wf, a), CallsAt(wf, a));
    SettledFirst(AllReplies(hash, history, Prior(wf, a)), Prior(wf, a), RepliesAt(hash, wf, history, a),
      CallsAt(wf, a));
  }

  // What awaiting a batch gives: all its answers, or nothing in this pass.
  function Gather(rs: seq<Reply>): Option<seq<Answer>> {
    if AllSettled(rs) then Some(AnswersIn(rs)) else None
  }

  lemma GatherSnoc(rs: seq<Reply>, i: nat)
    requires i < |rs|
    ensures Gather(rs[..i + 1]) ==
      match (Gather(rs[..i]), Promise(rs[i])) {
        case (Some(xs), Some(x)) => Some(xs + [x])
        case _ => None
      }
  {
    var now, before := rs[..i + 1], rs[..i];
    assert now == before + [rs[i]];
    assert now[i] == rs[i];
    if AllSettled(now) {
      assert forall k :: 0 <= k < i ==> before[k] == now[k];
      assert AnswersIn(now) == AnswersIn(before) + [rs[i].answer];
    }
  }

  lemma GatherNone(rs: seq<Reply>)
    ensures Gather(rs[..0]) == Some([])
  {
    assert rs[..0] == [] && AnswersIn([]) == [];
  }

  // Making one batch of calls.
  method MakeCalls(ctx: ReplayContext, wf: Workflow, a: Answers) returns (answers: Option<seq<Answer>>)
    requires ctx.Valid() && ctx.calls == Prior(wf, a)
    modifies ctx
    ensures ctx.Valid() && ctx.calls == Prior(wf, a) + CallsAt(wf, a)
    ensures answers == Gather(RepliesAt(ctx.hash, wf, ctx.history, a))
  {
    hide ReplayContext.Valid, Respond, Gather, Position;
    var calls := CallsAt(wf, a);
    ghost var prior, rs := Prior(wf, a), RepliesAt(ctx.hash, wf, ctx.history, a);
    assert |rs| == |calls|;
    GatherNone(rs);
    answers := Some([]);
    for i := 0 to |calls|
      invariant ctx.Valid() && ctx.calls == prior + calls[..i]
      invariant answers == Gather(rs[..i])
    {
      GatherSnoc(rs, i);
      var p := ctx.Invoke(calls[i]);
      assert p == Promise(rs[i]);
      assert calls[..i + 1] == calls[..i] + [calls[i]];
      answers := if answers.Some? && p.Some? then Some(answers.value + [p.value]) else None;
    }
    assert rs[..|calls|] == rs && calls[..|calls|] == calls;
  }

  // Where a pass stands between ticks of the loop.
  datatype Progress = Waiting(ticks: nat) | Blocked | Ended(end: Action)

  // The rest of a drain, with so many ticks to wait before the turn at `a`.
  function DriveAfter<A, R>(p: Pass<A, R>, a: seq<A>, wait: nat, left: nat, exhausted: R): R {
    if left < wait then exhausted
    else
      match p.turn(a)
      case Advance(x) => Drive(p, a + [x], left - wait, exhausted)
      case Stop(r) => r
  }

  // The loop has this left to do, and the context has made the calls that go with it.
  ghost predicate OnCourse(ctx: ReplayContext, wf: Workflow, a: Answers, p: Progress, left: nat, budget: nat)
    reads ctx
  {
    var pass := PassOf(ctx.hash, wf, ctx.history);
    var goal := ReplayOf(ctx.hash, wf, ctx.history, budget);
    && ctx.Valid()
    && Trace(pass, a)
    && match p
       case Waiting(n) => ctx.calls == Prior(wf, a) && goal == DriveAfter(pass, a, n, left, EXHAUSTED)
       case Blocked =>
         && wf.next(a).Await? && ctx.calls == Prior(wf, a) + CallsAt(wf, a)
         && goal == Verdict(ctx.hash, wf, ctx.history, a)
       case Ended(end) =>
         && wf.next(a) == end && !end.Await? && ctx.calls == Prior(wf, a)
         && goal == Verdict(ctx.hash, wf, ctx.history, a)
  }

  lemma OneMoreRound(hash: Hash, wf: Workflow, history: seq<Stored>, a: Answers, x: seq<Answer>)
    requires Trace(PassOf(hash, wf, history), a) && PassOf(hash, wf, history).turn(a) == Advance(x)
    ensures Trace(PassOf(hash, wf, history), a + [x])
    ensures Prior(wf, a + [x]) == Prior(wf, a) + CallsAt(wf, a)
  {
    hide TurnAt;
    var pass, b := PassOf(hash, wf, history), a + [x];
    assert b[..|b| - 1] == a && a[..|a|] == a;
    forall i | 0 <= i < |b| ensures pass.turn(b[..i]) == Advance(b[i]) { assert b[..i] == a[..i]; }
  }

  // All calls of the batch have settled,
  lemma CourseAdvances(ctx: ReplayContext, wf: Workflow, a: Answers, x: seq<Answer>, left: nat, budget: nat)
    requires ctx.Valid() && ctx.calls == Prior(wf, a) + CallsAt(wf, a)
    requires Trace(PassOf(ctx.hash, wf, ctx.history), a) && PassOf(ctx.hash, wf, ctx.history).turn(a) == Advance(x)
    requires ReplayOf(ctx.hash, wf, ctx.history, budget) ==
      DriveAfter(PassOf(ctx.hash, wf, ctx.history), a, 0, left, EXHAUSTED)
    ensures OnCourse(ctx, wf, a + [x], Waiting(1 + wf.ticks(a + [x])), left, budget)
  {
    hide ReplayContext.Valid, TurnAt, ReplayOf, Verdict;
    OneMoreRound(ctx.hash, wf, ctx.history, a, x);
  }

  // or one of them never will in this pass,
  lemma CourseBlocks(ctx: ReplayContext, wf: Workflow, a: Answers, left: nat, budget: nat)
    requires ctx.Valid() && ctx.calls == Prior(wf, a) + CallsAt(wf, a) && wf.next(a).Await?
    requires Trace(PassOf(ctx.hash, wf, ctx.history), a)
    requires Gather(RepliesAt(ctx.hash, wf, ctx.history, a)).None?
    requires ReplayOf(ctx.hash, wf, ctx.history, budget) ==
      DriveAfter(PassOf(ctx.hash, wf, ctx.history), a, 0, left, EXHAUSTED)
    ensures OnCourse(ctx, wf, a, Blocked, left, budget)
  {
    hide ReplayContext.Valid, ReplayOf, Verdict, RepliesAt;
  }

  // or the function has ended.
  lemma CourseEnds(ctx: ReplayContext, wf: Workflow, a: Answers, left: nat, budget: nat)
    requires OnCourse(ctx, wf, a, Waiting(0), left, budget) && !wf.next(a).Await?
    ensures OnCourse(ctx, wf, a, Ended(wf.next(a)), left, budget)
  {
    hide ReplayContext.Valid, ReplayOf, Verdict, RepliesAt;
  }

  lemma BatchAdvances(hash: Hash, wf: Workflow, history: seq<Stored>, a: Answers, x: seq<Answer>)
    requires wf.next(a).Await? && Gather(RepliesAt(hash, wf, history, a)) == Some(x)
    ensures PassOf(hash, wf, history).turn(a) == Advance(x)
  {
    hide RepliesAt, Verdict;
  }

  // The function runs from the answers it has to its next await.
  method Proceed(
    ctx: ReplayContext, wf: Workflow, a: Answers, ghost left: nat, ghost budget: nat) returns (b: Answers, p: Progress)
    requires OnCourse(ctx, wf, a, Waiting(0), left, budget)
    modifies ctx
    ensures OnCourse(ctx, wf, b, p, left, budget)
    ensures p.Waiting? ==> p.ticks > 0
  {
    hide ReplayContext.Valid, RepliesAt, ReplayOf, PassOf, Gather, DriveAfter;
    assert ReplayOf(ctx.hash, wf, ctx.history, budget) ==
      DriveAfter(PassOf(ctx.hash, wf, ctx.history), a, 0, left, EXHAUSTED);
    assert Trace(PassOf(ctx.hash, wf, ctx.history), a) && ctx.Valid() && ctx.calls == Prior(wf, a);
    hide Trace;
    b := a;
    match wf.next(a) {
      case Await(_) =>
        var answers := MakeCalls(ctx, wf, a);
        match answers {
          case Some(xs) =>
            b := a + [xs];
            p := Waiting(1 + wf.ticks(b));
            BatchAdvances(ctx.hash, wf, ctx.history, a, xs);
            hide OnCourse;
            CourseAdvances(ctx, wf, a, xs, left, budget);
          case None =>
            p := Blocked;
            hide OnCourse;
            CourseBlocks(ctx, wf, a, left, budget);
        }
      case end =>
        p := Ended(end);
        hide OnCourse;
        CourseEnds(ctx, wf, a, left, budget);
    }
  }

  lemma Starting(ctx: ReplayContext, wf: Workflow, budget: nat)
    requires ctx.Valid() && ctx.calls == []
    ensures OnCourse(ctx, wf, [], Waiting(wf.ticks([])), budget, budget)
  {
    hide ReplayContext.Valid, TurnAt;
  }

  // A tick of the loop: a wait gets shorter, what has stopped stays as it is.
  lemma Tick(ctx: ReplayContext, wf: Workflow, a: Answers, p: Progress, left: nat, budget: nat)
    requires OnCourse(ctx, wf, a, p, left, budget) && left > 0 && (p.Waiting? ==> p.ticks > 0)
    ensures OnCourse(ctx, wf, a, if p.Waiting? then Waiting(p.ticks - 1) else p, left - 1, budget)
  {
    hide ReplayContext.Valid, TurnAt, ReplayOf, Verdict;
  }

  // Once the function has ended the rest of the ticks do not matter.
  lemma Stopped(ctx: ReplayContext, wf: Workflow, a: Answers, p: Progress, left: nat, budget: nat)
    requires OnCourse(ctx, wf, a, p, left, budget) && p.Ended?
    ensures OnCourse(ctx, wf, a, p, 0, budget)
  {
  }

  method Replay(hash: Hash, wf: Workflow, history: seq<Stored>, budget: nat) returns (r: ReplayResult)
    ensures r == ReplayOf(hash, wf, history, budget)
  {
    hide ReplayContext.Valid, RepliesAt, OnCourse, ReplayOf;
    var ctx := new ReplayContext(hash, history);
    var a: Answers, p := [], Waiting(wf.ticks([]));
    Starting(ctx, wf, budget);
    if p.ticks == 0 { a, p := Proceed(ctx, wf, a, budget, budget); }
    var i := 0;
    while i < budget && !p.Ended?
      invariant 0 <= i <= budget
      invariant ctx.hash == hash && ctx.history == history
      invariant OnCourse(ctx, wf, a, p, budget - i, budget)
      invariant p.Waiting? ==> p.ticks > 0
    {
      Tick(ctx, wf, a, p, budget - i, budget);
      i := i + 1;
      if p.Waiting? {
        p := Waiting(p.ticks - 1);
        if p.ticks == 0 { a, p := Proceed(ctx, wf, a, budget - i, budget); }
      }
    }
    if p.Ended? { Stopped(ctx, wf, a, p, budget - i, budget); }
    r := Report(ctx, wf, a, p, budget);
  }

  // What the function returns after the loop.
  method Report(ctx: ReplayContext, wf: Workflow, a: Answers, p: Progress, ghost budget: nat) returns (r: ReplayResult)
    requires OnCourse(ctx, wf, a, p, 0, budget)
    requires p.Waiting? ==> p.ticks > 0
    ensures r == ReplayOf(ctx.hash, wf, ctx.history, budget)
  {
    hide RepliesAt, Tallied;
    TallyAt(ctx.hash, wf, ctx.history, a);
    match ctx.nonDeterminismError {
      case Some(e) => r := Raised(e);
      case None =>
        match p {
          case Ended(Return(v)) => r := Completed(v);
          case Ended(Throw(e)) => r := Failed(e);
          case Waiting(_) => r := Running(ctx.commands, ctx.pendingLlmRequests);
          case Blocked => r := Running(ctx.commands, ctx.pendingLlmRequests);
        }
    }
  }
}
