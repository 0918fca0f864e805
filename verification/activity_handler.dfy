/**
 packages/worker-sdk/src/activityHandler.ts and timerHandler.ts. Neither handler is fenced: it reads the log, works
 outside any transaction, and appends. As it is written it has the tables to itself; `ActivityRuns` is about others
 of the same step going on beside it.
 */
module ActivityHandler {
  import opened Wrappers
  import opened Texts
  import opened Json
  import opened Events
  import opened EventStore
  import opened Queue

  // ---------------------------------------------------------------- what the handler looks for

  predicate Settles(e: Event, seqNo: nat) {
    || (e.ActivityCompleted? && e.scheduledEventSeq == seqNo)
    || (e.ActivityFailed? && e.scheduledEventSeq == seqNo)
  }

  predicate HasOutcome(log: seq<Stored>, seqNo: nat) {
    exists i :: 0 <= i < |log| && Settles(log[i].event, seqNo)
  }

  // The first event with this number.
  predicate IsEntry(log: seq<Stored>, seqNo: nat, i: nat) {
    i < |log| && log[i].seqNo == seqNo && forall j :: 0 <= j < i ==> log[j].seqNo != seqNo
  }

  ghost predicate IsScheduled(log: seq<Stored>, seqNo: nat, activityType: Text) {
    exists i: nat ::
      IsEntry(log, seqNo, i) && log[i].event.ActivityScheduled? && log[i].event.activityType == activityType
  }

  function OutcomeEvent(seqNo: nat, ran: Result<Json, Text>): Event {
    match ran
    case Ok(value) => ActivityCompleted(seqNo, value)
    case Err(message) => ActivityFailed(seqNo, message)
  }

  // ---------------------------------------------------------------- as it is written

  method FindEntry(log: seq<Stored>, seqNo: nat) returns (entry: Option<Event>)
    ensures entry.None? <==> forall i :: 0 <= i < |log| ==> log[i].seqNo != seqNo
    ensures entry.Some? ==> exists i: nat :: IsEntry(log, seqNo, i) && log[i].event == entry.value
    ensures forall i: nat :: IsEntry(log, seqNo, i) ==> entry == Some(log[i].event)
  {
    for i := 0 to |log|
      invariant forall j :: 0 <= j < i ==> log[j].seqNo != seqNo
    {
      if log[i].seqNo == seqNo {
        assert IsEntry(log, seqNo, i);
        return Some(log[i].event);
      }
    }
    return None;
  }

  method FindOutcome(log: seq<Stored>, seqNo: nat) returns (found: bool)
    ensures found <==> HasOutcome(log, seqNo)
  {
    for i := 0 to |log|
      invariant forall j :: 0 <= j < i ==> !Settles(log[j].event, seqNo)
    {
      if Settles(log[i].event, seqNo) { return true; }
    }
    return false;
  }

  // createActivityHandler: the outcome is appended to a scheduled step of a registered type that has none, and
  // says what the function returned or threw; nothing else changes the tables.
  method HandleActivity(
    store: Store, w: nat, seqNo: Option<nat>, registry: set<Text>, ran: Result<Json, Text>, now: int)
    returns (throws: bool)
    modifies store, store.queue
    ensures var log := LogOf(old(store.logs), w);
      var runs := seqNo.Some? && !HasOutcome(log, seqNo.value) &&
        exists t :: t in registry && IsScheduled(log, seqNo.value, t);
      var s := if seqNo.Some? then seqNo.value else 0;
      var outcome := if ran.Ok? then ActivityCompleted(s, ran.value) else ActivityFailed(s, ran.error);
      var appended := Appended(old(store.Contents()), w, [outcome], now);
      && store.Contents() == (if runs && appended.Ok? then appended.value else old(store.Contents()))
      && (throws <==>
           || seqNo.None? || (runs && appended.Err?)
           || (!HasOutcome(log, seqNo.value) && !runs)
           || forall t :: !IsScheduled(log, seqNo.value, t))
  {
    if seqNo.None? { return true; }
    var s := seqNo.value;
    var log := store.GetEvents(w);
    var entry := FindEntry(log, s);
    if entry.None? || !entry.value.ActivityScheduled? { return true; }
    var activityType := entry.value.activityType;
    assert IsScheduled(log, s, activityType);
    assert forall t :: IsScheduled(log, s, t) ==> t == activityType;
    var found := FindOutcome(log, s);
    if found { return false; }
    if activityType !in registry { return true; }
    var outcome := OutcomeEvent(s, ran);
    var r := store.AppendEvents(w, [outcome], now);
    return r.Err?;
  }

  // createTimerHandler: TimerFired goes in whatever the log says; its task is due, which Dequeue sees to.
  method HandleTimer(store: Store, w: nat, seqNo: Option<nat>, now: int) returns (throws: bool)
    modifies store, store.queue
    ensures var s := if seqNo.Some? then seqNo.value else 0;
      var appended := Appended(old(store.Contents()), w, [TimerFired(s)], now);
      && store.Contents() == (if seqNo.Some? && appended.Ok? then appended.value else old(store.Contents()))
      && (throws <==> seqNo.None? || appended.Err?)
  {
    if seqNo.None? { return true; }
    var r := store.AppendEvents(w, [TimerFired(seqNo.value)], now);
    return r.Err?;
  }
}
