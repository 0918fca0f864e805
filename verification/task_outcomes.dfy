/**
 packages/worker-sdk/src/workflowReplayHandler.ts: what one workflow task appends, read off the log it has read
 and the end its replay comes to, changed code included.
 */
module TaskOutcomes {
  import opened Wrappers
  import opened Texts
  import opened Json
  import opened Requests
  import opened Events
  import opened StoredRequests
  import opened Drain
  import opened ReplaySpec
  import opened ReplayLaws
  import opened Decisions
  import opened Engine
  import opened Runs
  import opened Delivery

  // ---------------------------------------------------------------- what is looked up in the log

  ghost predicate FirstStart(log: seq<Stored>, i: nat) {
    i < |log| && log[i].event.WorkflowStarted? && forall j :: 0 <= j < i ==> !log[j].event.WorkflowStarted?
  }

  ghost predicate FirstCancel(log: seq<Stored>, i: nat) {
    i < |log| && log[i].event.CancellationRequested? && forall j :: 0 <= j < i ==> !log[j].event.CancellationRequested?
  }

  ghost predicate HasEnd(log: seq<Stored>) {
    exists i: nat :: i < |log| &&
      (log[i].event.WorkflowCompleted? || log[i].event.WorkflowFailed? || log[i].event.WorkflowCanceled?)
  }

  lemma {:induction false} StartIsFirst(log: seq<Stored>, e: Event)
    ensures Started(log) == Some(e) <==> exists i: nat :: FirstStart(log, i) && log[i].event == e
  {
    if log != [] {
      StartIsFirst(log[1..], e);
      if i: nat :| FirstStart(log, i) && log[i].event == e {
        if i > 0 { assert FirstStart(log[1..], i - 1); }
      }
      if log[0].event.WorkflowStarted? {
        assert FirstStart(log, 0);
      } else if i: nat :| FirstStart(log[1..], i) && log[1..][i].event == e {
        assert FirstStart(log, i + 1);
      }
    }
  }

  lemma {:induction false} CancelIsFirst(log: seq<Stored>, e: Event)
    ensures CancelRequest(log) == Some(e) <==> exists i: nat :: FirstCancel(log, i) && log[i].event == e
  {
    if log != [] {
      CancelIsFirst(log[1..], e);
      if i: nat :| FirstCancel(log, i) && log[i].event == e {
        if i > 0 { assert FirstCancel(log[1..], i - 1); }
      }
      if log[0].event.CancellationRequested? {
        assert FirstCancel(log, 0);
      } else if i: nat :| FirstCancel(log[1..], i) && log[1..][i].event == e {
        assert FirstCancel(log, i + 1);
      }
    }
  }

  // ---------------------------------------------------------------- what comes of a task

  // Nothing but a first start of a registered type gets a task going.
  lemma UnstartedThrows(d: Deployment, log: seq<Stored>, now: int)
    requires forall i: nat :: FirstStart(log, i) ==> log[i].event.workflowType !in d.registry
    ensures Handle(d, log, now) == Thrown
  {
    if Started(log).Some? { StartIsFirst(log, Started(log).value); }
  }

  // The start of the workflow, and no cancellation to see to.
  ghost predicate Decides(d: Deployment, log: seq<Stored>, s: nat) {
    && FirstStart(log, s) && log[s].event.workflowType in d.registry
    && (HasEnd(log) || forall i :: 0 <= i < |log| ==> !log[i].event.CancellationRequested?)
  }

  function CodeOf(d: Deployment, e: Event): Workflow
    requires e.WorkflowStarted? && e.workflowType in d.registry
  {
    d.registry[e.workflowType](e.input)
  }

  // A cancellation comes before the code, as long as the workflow has no end: with the reason first given.
  lemma CancellationFirst(d: Deployment, log: seq<Stored>, now: int, s: nat, c: nat)
    requires FirstStart(log, s) && log[s].event.workflowType in d.registry
    requires FirstCancel(log, c) && !HasEnd(log)
    ensures Handle(d, log, now) == Append([WorkflowCanceled(log[c].event.reason)])
  {
    StartIsFirst(log, log[s].event);
    CancelIsFirst(log, log[c].event);
  }

  lemma Decision(d: Deployment, log: seq<Stored>, now: int, s: nat)
    requires Decides(d, log, s)
    ensures Handle(d, log, now) ==
      Decided(ReplayOf(d.hash, CodeOf(d, log[s].event), log, d.budget), d, now)
  {
    StartIsFirst(log, log[s].event);
    if CancelRequest(log).Some? {
      CancelIsFirst(log, CancelRequest(log).value);
    }
    hide ReplayOf, Decided;
  }

  // Otherwise the task does what the code came to: its end is appended, or the commands it asks for, one event
  // each; without any, or stuck, nothing.
  lemma CodeDecides(d: Deployment, log: seq<Stored>, now: int, s: nat)
    requires Decides(d, log, s)
    ensures var h := Handle(d, log, now);
      match ReplayOf(d.hash, CodeOf(d, log[s].event), log, d.budget)
      case Completed(v) => h == Append([WorkflowCompleted(v)])
      case Failed(e) => h == Append([WorkflowFailed(e)])
      case Running(commands, _) =>
        if commands == [] then h == Nothing else h.Append? && |h.events| == |commands|
      case Raised(cause) =>
        if cause.NonDeterminism? then h == Thrown else h == Append([WorkflowFailed(d.describe(cause))])
  {
    hide ReplayOf, Handle;
    Decision(d, log, now, s);
  }

  // The error with which changed code ends, if replay gets as far as `b`.
  lemma RaisedThere(hash: Hash, wf: Workflow, log: seq<Stored>, b: Answers, budget: nat)
    requires FullTrace(PassOf(hash, wf, log), b) && TicksTo(PassOf(hash, wf, log), b) <= budget
    ensures var r := ReplayOf(hash, wf, log, budget);
      r.Raised? ==> wf.next(b).Await? && LastMismatch(RepliesAt(hash, wf, log, b)) == Some(r.cause)
  {
    BoundedDrain(PassOf(hash, wf, log), b, budget, EXHAUSTED);
    hide RepliesAt, NewCommands, PendingLlm;
  }

  /**
   Changed code: the last call of the batch that is not the one recorded at its place decides. An activity makes
   the task throw, to be retried; an LLM or tool call fails the workflow with the hash recorded and the hash of now.
   */
  lemma LastDifferenceDecides(d: Deployment, log: seq<Stored>, now: int, s: nat, b: Answers)
    returns (k: nat, cause: ReplayError)
    requires Decides(d, log, s)
    requires var p := PassOf(d.hash, CodeOf(d, log[s].event), log); FullTrace(p, b) && TicksTo(p, b) <= d.budget
    requires ReplayOf(d.hash, CodeOf(d, log[s].event), log, d.budget).Raised?
    ensures var wf := CodeOf(d, log[s].event);
      && |Prior(wf, b)| <= k < |Asked(wf, b)| && DiffersAt(d.hash, log, Asked(wf, b), k, cause)
      && (forall l, other :: k < l < |Asked(wf, b)| ==> !DiffersAt(d.hash, log, Asked(wf, b), l, other))
      && Handle(d, log, now) ==
           if Asked(wf, b)[k].Activity? then Thrown else Append([WorkflowFailed(d.describe(cause))])
  {
    var wf := CodeOf(d, log[s].event);
    hide ReplayOf, Handle, RepliesAt;
    CodeDecides(d, log, now, s);
    RaisedThere(d.hash, wf, log, b, d.budget);
    cause := ReplayOf(d.hash, wf, log, d.budget).cause;
    k := LastOfBatch(d.hash, wf, log, b);
  }

  lemma LastOfBatch(hash: Hash, wf: Workflow, log: seq<Stored>, b: Answers) returns (k: nat)
    requires LastMismatch(RepliesAt(hash, wf, log, b)).Some?
    ensures |Prior(wf, b)| <= k < |Asked(wf, b)|
    ensures DiffersAt(hash, log, Asked(wf, b), k, LastMismatch(RepliesAt(hash, wf, log, b)).value)
    ensures forall l, other :: k < l < |Asked(wf, b)| ==> !DiffersAt(hash, log, Asked(wf, b), l, other)
  {
    hide Respond, DiffersAt, Position;
    var n := |Prior(wf, b)|;
    var i := LastDifferenceIsRaised(hash, log, Prior(wf, b), CallsAt(wf, b));
    k := n + i;
    forall l, other | k < l < |Asked(wf, b)| ensures !DiffersAt(hash, log, Asked(wf, b), l, other) {
      BatchReply(hash, wf, log, b, l - n);
      MismatchSays(hash, log, Asked(wf, b), l, other);
    }
  }
}
