/**
 What a call of workflow code gets, read off the events of the log themselves: which event stands for the
 call, which outcome event is the last to name it, and what that event says. This is the reference that
 packages/core/src/replay.ts with its filters, counters and maps is measured against.
 */
module Readings {
  import opened Wrappers
  import opened Texts
  import opened Requests
  import opened Events
  import opened Drain
  import opened ReplaySpec

  // ---------------------------------------------------------------- events and places

  // The event asks for something of this kind, or is a signal of this name.
  predicate Asks(e: Event, lane: Lane) {
    match lane
    case ActivityLane => e.ActivityScheduled?
    case TimerLane => e.TimerScheduled?
    case LlmLane => e.LlmRequested?
    case ToolLane => e.ToolRequested?
    case SignalLane(name) => e.SignalReceived? && e.signalName == name
  }

  function CountAsks(log: seq<Stored>, lane: Lane): nat {
    if log == [] then 0
    else CountAsks(log[..|log| - 1], lane) + if Asks(log[|log| - 1].event, lane) then 1 else 0
  }

  // The q-th event of the log is the k-th of its kind.
  predicate StandsFor(log: seq<Stored>, lane: Lane, k: nat, q: nat) {
    q < |log| && Asks(log[q].event, lane) && CountAsks(log[..q], lane) == k
  }

  lemma AsksIsLane(e: Event, lane: Lane)
    ensures Asks(e, lane) <==> EventLane(e) == Some(lane)
  {
  }

  lemma {:induction false} CountIsLength(log: seq<Stored>, lane: Lane)
    ensures CountAsks(log, lane) == |Recorded(log, lane)|
  {
    if log != [] {
      CountIsLength(log[..|log| - 1], lane);
      AsksIsLane(log[|log| - 1].event, lane);
    }
  }

  // The places of a lane are those of its events in the log.
  lemma {:induction false} PlaceOf(log: seq<Stored>, lane: Lane, k: nat) returns (q: nat)
    requires k < |Recorded(log, lane)|
    ensures StandsFor(log, lane, k, q) && Recorded(log, lane)[k] == log[q]
  {
    var n := |log| - 1;
    var init := log[..n];
    AsksIsLane(log[n].event, lane);
    if k < |Recorded(init, lane)| {
      q := PlaceOf(init, lane, k);
      assert init[..q] == log[..q];
    } else {
      q := n;
      CountIsLength(init, lane);
    }
  }

  lemma {:induction false} AtPlace(log: seq<Stored>, lane: Lane, k: nat, q: nat)
    requires StandsFor(log, lane, k, q)
    ensures k < |Recorded(log, lane)| && Recorded(log, lane)[k] == log[q]
  {
    var n := |log| - 1;
    AsksIsLane(log[n].event, lane);
    if q < n {
      assert log[..n][..q] == log[..q];
      AtPlace(log[..n], lane, k, q);
    } else {
      CountIsLength(log[..n], lane);
    }
  }

  // ---------------------------------------------------------------- outcome events

  // The event says how the step of this kind with this number came out.
  predicate Names(e: Event, lane: Lane, s: nat) {
    match lane
    case ActivityLane => (e.ActivityCompleted? || e.ActivityFailed?) && e.scheduledEventSeq == s
    case TimerLane => e.TimerFired? && e.scheduledEventSeq == s
    case LlmLane => (e.LlmCompleted? || e.LlmFailed?) && e.scheduledEventSeq == s
    case ToolLane => (e.ToolCompleted? || e.ToolFailed?) && e.scheduledEventSeq == s
    case SignalLane(_) => false
  }

  // A completion hands over what it carries, an LLM answer whole, and a failure its error.
  predicate Tells(e: Event, a: Answer) {
    match e
    case ActivityCompleted(_, result) => a == Value(result)
    case ActivityFailed(_, error) => a == Rejected(error)
    case TimerFired(_) => a == Fired
    case LlmCompleted(_, _, _, response, _, _, _) =>
      && a.Response?
      && a.response.text == response.text && a.response.toolCalls == response.toolCalls
      && a.response.model == response.model
      && a.response.tokensIn == response.tokensIn && a.response.tokensOut == response.tokensOut
      && a.response.truncated == response.truncated
    case LlmFailed(_, _, error, _, _, _) => a == Rejected(error)
    case ToolCompleted(_, _, _, result, _, _) => a == Value(result)
    case ToolFailed(_, _, _, error, _, _, _) => a == Rejected(error)
    case _ => false
  }

  // The i-th event is the last to say how this step came out.
  ghost predicate LastToName(log: seq<Stored>, lane: Lane, s: nat, i: nat) {
    i < |log| && Names(log[i].event, lane, s) && forall j :: i < j < |log| ==> !Names(log[j].event, lane, s)
  }

  ghost predicate NeverNamed(log: seq<Stored>, lane: Lane, s: nat) {
    forall j :: 0 <= j < |log| ==> !Names(log[j].event, lane, s)
  }

  // The last event to name the step tells this.
  ghost predicate Told(log: seq<Stored>, lane: Lane, s: nat, a: Answer) {
    exists i: nat :: LastToName(log, lane, s, i) && Tells(log[i].event, a)
  }

  lemma NamesIsOutcome(e: Event, lane: Lane, s: nat)
    ensures Names(e, lane, s) <==>
      OutcomeOf(e).Some? && OutcomeOf(e).value.lane == lane && OutcomeOf(e).value.seqNo == s
    ensures Names(e, lane, s) ==> Tells(e, OutcomeOf(e).value.answer)
  {
  }

  lemma ToldSnoc(log: seq<Stored>, x: Stored, lane: Lane, s: nat, a: Answer)
    ensures Names(x.event, lane, s) && Tells(x.event, a) ==> Told(log + [x], lane, s, a)
    ensures !Names(x.event, lane, s) && Told(log, lane, s, a) ==> Told(log + [x], lane, s, a)
    ensures NeverNamed(log + [x], lane, s) <==> NeverNamed(log, lane, s) && !Names(x.event, lane, s)
  {
    hide Names, Tells;
    var all := log + [x];
    assert all[|log|] == x && forall j :: 0 <= j < |log| ==> all[j] == log[j];
    if Names(x.event, lane, s) {
      assert LastToName(all, lane, s, |log|);
    } else if Told(log, lane, s, a) {
      var i: nat :| LastToName(log, lane, s, i) && Tells(log[i].event, a);
      assert LastToName(all, lane, s, i);
    }
  }

  // The outcome that counts is what the last event to name the step tells.
  lemma {:induction false} OutcomeIsLast(log: seq<Stored>, lane: Lane, s: nat)
    ensures OutcomeIn(log, lane, s).None? <==> NeverNamed(log, lane, s)
    ensures OutcomeIn(log, lane, s).Some? ==> Told(log, lane, s, OutcomeIn(log, lane, s).value)
  {
    if log != [] {
      var init, x := log[..|log| - 1], log[|log| - 1];
      assert log == init + [x];
      OutcomeIsLast(init, lane, s);
      NamesIsOutcome(x.event, lane, s);
      hide Names, Tells, OutcomeOf, Told, NeverNamed;
      if OutcomeIn(log, lane, s).Some? {
        ToldSnoc(init, x, lane, s, OutcomeIn(log, lane, s).value);
      } else {
        ToldSnoc(init, x, lane, s, Fired);
      }
    }
  }

  lemma TellsOne(e: Event, a: Answer, b: Answer)
    requires Tells(e, a) && Tells(e, b)
    ensures a == b
  {
  }

  // ---------------------------------------------------------------- one call

  // The event recorded at its place is one this very call could have caused.
  predicate Fits(hash: Hash, e: Event, c: Call, k: nat) {
    match c
    case Activity(activityType, _) => e.ActivityScheduled? && e.activityType == activityType
    case Sleep(_) => e.TimerScheduled?
    case Llm(request) =>
      && e.LlmRequested? && e.stepId == Lit("llm-") + Decimal(k)
      && e.requestHash == hash(CanonicalLlmRequest(request))
    case Tool(tool, args) =>
      && e.ToolRequested? && e.stepId == Lit("tool-") + Decimal(k)
      && e.argsHash == hash(CanonicalToolCall(tool, args))
    case WaitSignal(name) => e.SignalReceived? && e.signalName == name
  }

  // What the k-th call of its kind is answered with: by the event at its place and the last one to name it.
  ghost predicate Gets(hash: Hash, log: seq<Stored>, c: Call, k: nat, a: Answer) {
    exists q: nat :: StandsFor(log, LaneOf(c), k, q) && GetsFrom(hash, log, c, k, a, q)
  }

  ghost predicate GetsFrom(hash: Hash, log: seq<Stored>, c: Call, k: nat, a: Answer, q: nat)
    requires q < |log|
  {
    && Fits(hash, log[q].event, c, k)
    && if c.WaitSignal? then a == Value(log[q].event.payload) else Told(log, LaneOf(c), log[q].seqNo, a)
  }

  // The command of a call nothing stands for yet.
  predicate Commands(hash: Hash, c: Call, k: nat, command: Command) {
    match c
    case Activity(activityType, input) => command == ScheduleActivity(activityType, input)
    case Sleep(durationMs) => command == ScheduleTimer(durationMs)
    case Llm(request) =>
      command == RequestLlmCall(Lit("llm-") + Decimal(k), request, hash(CanonicalLlmRequest(request)))
    case Tool(tool, args) =>
      command == RequestToolCall(Lit("tool-") + Decimal(k), tool, args, hash(CanonicalToolCall(tool, args)))
    case WaitSignal(_) => false
  }

  // The error names what is recorded and what the code asks for now.
  predicate Blames(hash: Hash, e: Event, c: Call, k: nat, error: ReplayError) {
    match c
    case Activity(activityType, _) => e.ActivityScheduled? && error == NonDeterminism(k, e.activityType, activityType)
    case Llm(request) =>
      && e.LlmRequested?
      && error == StepMismatch(Lit("llm-") + Decimal(k), k, e.requestHash, hash(CanonicalLlmRequest(request)), false)
    case Tool(tool, args) =>
      && e.ToolRequested?
      && error == StepMismatch(Lit("tool-") + Decimal(k), k, e.argsHash, hash(CanonicalToolCall(tool, args)), true)
    case _ => false
  }

  // The reply to the k-th call of its kind, read off the log.
  ghost predicate Reads(hash: Hash, log: seq<Stored>, c: Call, k: nat, r: Reply) {
    match r
    case Settled(a) => Gets(hash, log, c, k, a)
    case Hanging =>
      if c.WaitSignal? then CountAsks(log, LaneOf(c)) <= k
      else exists q: nat ::
        && StandsFor(log, LaneOf(c), k, q) && Fits(hash, log[q].event, c, k)
        && NeverNamed(log, LaneOf(c), log[q].seqNo)
    case New(command) => CountAsks(log, LaneOf(c)) <= k && Commands(hash, c, k, command)
    case Mismatch(error) =>
      exists q: nat ::
        && StandsFor(log, LaneOf(c), k, q) && !Fits(hash, log[q].event, c, k)
        && Blames(hash, log[q].event, c, k, error)
  }

  lemma FitsIsMatch(hash: Hash, e: Event, c: Call, k: nat)
    requires EventLane(e) == Some(LaneOf(c))
    ensures Fits(hash, e, c, k) <==> Matches(hash, e, c, k)
    ensures !Matches(hash, e, c, k) ==> Blames(hash, e, c, k, MismatchError(hash, e, c, k))
  {
    hide CanonicalLlmRequest, CanonicalToolCall;
  }

  lemma CommandReads(hash: Hash, c: Call, k: nat)
    requires !c.WaitSignal?
    ensures Commands(hash, c, k, CommandFor(hash, c, k))
  {
    hide CanonicalLlmRequest, CanonicalToolCall;
  }

  lemma RespondAt(hash: Hash, log: seq<Stored>, c: Call, k: nat, q: nat)
    requires StandsFor(log, LaneOf(c), k, q)
    ensures Reads(hash, log, c, k, Respond(hash, log, c, k))
  {
    AtPlace(log, LaneOf(c), k, q);
    FitsIsMatch(hash, log[q].event, c, k);
    OutcomeIsLast(log, LaneOf(c), log[q].seqNo);
    hide Fits, Matches, MismatchError, Blames, StandsFor, LastToName, NeverNamed, Tells, Recorded, OutcomeIn,
      CommandFor;
  }

  // The reply of replay to any call at any place, on any log, is the one read off the log.
  lemma ReplyReads(hash: Hash, log: seq<Stored>, c: Call, k: nat)
    ensures Reads(hash, log, c, k, Respond(hash, log, c, k))
  {
    CountIsLength(log, LaneOf(c));
    if k < |Recorded(log, LaneOf(c))| {
      var q := PlaceOf(log, LaneOf(c), k);
      RespondAt(hash, log, c, k, q);
    } else if !c.WaitSignal? {
      hide Commands, CommandFor;
      CommandReads(hash, c, k);
    }
  }

  lemma OnePlace(log: seq<Stored>, lane: Lane, k: nat, q: nat, p: nat)
    requires StandsFor(log, lane, k, q) && StandsFor(log, lane, k, p)
    ensures q == p
  {
    if q < p { CountGrows(log, lane, q, p); }
    if p < q { CountGrows(log, lane, p, q); }
  }

  lemma {:induction false} CountGrows(log: seq<Stored>, lane: Lane, q: nat, p: nat)
    requires q < p <= |log| && Asks(log[q].event, lane)
    ensures CountAsks(log[..q], lane) < CountAsks(log[..p], lane)
    decreases p
  {
    assert log[..p][..p - 1] == log[..p - 1];
    if q < p - 1 { CountGrows(log, lane, q, p - 1); }
  }

  lemma ToldOne(log: seq<Stored>, lane: Lane, s: nat, a: Answer, b: Answer)
    requires Told(log, lane, s, a) && Told(log, lane, s, b)
    ensures a == b
  {
    var i: nat :| LastToName(log, lane, s, i) && Tells(log[i].event, a);
    var j: nat :| LastToName(log, lane, s, j) && Tells(log[j].event, b);
    assert i == j;
    TellsOne(log[i].event, a, b);
  }

  lemma OutcomeTells(log: seq<Stored>, lane: Lane, s: nat, a: Answer)
    ensures OutcomeIn(log, lane, s) == Some(a) <==> Told(log, lane, s, a)
  {
    OutcomeIsLast(log, lane, s);
    if OutcomeIn(log, lane, s).Some? && Told(log, lane, s, a) {
      ToldOne(log, lane, s, a, OutcomeIn(log, lane, s).value);
    }
  }

  // There is at most one such answer.
  lemma GetsOne(hash: Hash, log: seq<Stored>, c: Call, k: nat, a: Answer, b: Answer)
    requires Gets(hash, log, c, k, a) && Gets(hash, log, c, k, b)
    ensures a == b
  {
    var q: nat :| StandsFor(log, LaneOf(c), k, q) && GetsFrom(hash, log, c, k, a, q);
    var p: nat :| StandsFor(log, LaneOf(c), k, p) && GetsFrom(hash, log, c, k, b, p);
    hide StandsFor, Told, Fits;
    OnePlace(log, LaneOf(c), k, q, p);
    if !c.WaitSignal? { ToldOne(log, LaneOf(c), log[q].seqNo, a, b); }
  }

  lemma HangingGetsNothing(hash: Hash, log: seq<Stored>, c: Call, k: nat, a: Answer)
    requires !Respond(hash, log, c, k).Settled?
    ensures !Gets(hash, log, c, k, a)
  {
    if Gets(hash, log, c, k, a) {
      var q: nat :| StandsFor(log, LaneOf(c), k, q) && GetsFrom(hash, log, c, k, a, q);
      AtPlace(log, LaneOf(c), k, q);
      FitsIsMatch(hash, log[q].event, c, k);
      OutcomeIsLast(log, LaneOf(c), log[q].seqNo);
      hide Fits, Matches, StandsFor, MismatchError, CommandFor, Blames;
    }
  }

  // A call is answered with exactly what the log tells, and with nothing where it tells nothing.
  lemma SettledIff(hash: Hash, log: seq<Stored>, c: Call, k: nat, a: Answer)
    ensures Respond(hash, log, c, k) == Settled(a) <==> Gets(hash, log, c, k, a)
  {
    ReplyReads(hash, log, c, k);
    hide Respond, Gets;
    var r := Respond(hash, log, c, k);
    if r.Settled? {
      if Gets(hash, log, c, k, a) { GetsOne(hash, log, c, k, a, r.answer); }
    } else {
      HangingGetsNothing(hash, log, c, k, a);
    }
  }

  // ---------------------------------------------------------------- whole passes

  // The batch at `b` as it is answered: every call of it, in order, with what the log tells for its place.
  lemma BatchGets(hash: Hash, wf: Workflow, log: seq<Stored>, b: Answers, x: seq<Answer>, i: nat)
    requires TurnAt(hash, wf, log, b) == Advance(x) && i < |x|
    ensures |x| == |CallsAt(wf, b)|
    ensures var c := CallsAt(wf, b)[i];
      Gets(hash, log, c, |InLane(Prior(wf, b) + CallsAt(wf, b)[..i], LaneOf(c))|, x[i])
  {
    hide Respond, Gets;
    var c := CallsAt(wf, b)[i];
    assert RepliesAt(hash, wf, log, b)[i] == Settled(x[i]);
    SettledIff(hash, log, c, Position(Prior(wf, b) + CallsAt(wf, b)[..i], c), x[i]);
  }

  // In every pass over a log each answer the code is given is the one the log tells for that call: the call's
  // place counts the calls of its kind made before.
  lemma AnswersAreTold(hash: Hash, wf: Workflow, log: seq<Stored>, a: Answers, n: nat, i: nat)
    requires Trace(PassOf(hash, wf, log), a) && n < |a| && i < |a[n]|
    ensures |a[n]| == |CallsAt(wf, a[..n])|
    ensures var b := a[..n];
      var c := CallsAt(wf, b)[i];
      Gets(hash, log, c, |InLane(Prior(wf, b) + CallsAt(wf, b)[..i], LaneOf(c))|, a[n][i])
  {
    hide Gets, TurnAt, InLane;
    assert PassOf(hash, wf, log).turn(a[..n]) == Advance(a[n]);
    BatchGets(hash, wf, log, a[..n], a[n], i);
  }
}
