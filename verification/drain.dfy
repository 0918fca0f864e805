/**
 The bounded drain loop of packages/core/src/replay.ts, for any deterministic pass.

 A pass goes through rounds; each round hands over what the function waits for, until a
 round stops with a result. Every round takes microtask ticks, and only so many are spent.
 */
module Drain {
  datatype Turn<A, R> = Advance(answers: A) | Stop(result: R)

  // ticks: what it takes to get from those rounds to the next turn.
  datatype Pass<!A, !R> = Pass(turn: seq<A> -> Turn<A, R>, ticks: seq<A> -> nat)

  // Resuming after a round takes a tick of its own.
  function Cost<A, R>(p: Pass<A, R>, a: seq<A>): nat {
    if a == [] then p.ticks(a) else 1 + p.ticks(a)
  }

  function Drive<A, R>(p: Pass<A, R>, a: seq<A>, budget: nat, exhausted: R): R
    decreases budget, if a == [] then 1 else 0
  {
    if budget < Cost(p, a) then exhausted
    else
      match p.turn(a)
      case Advance(x) => Drive(p, a + [x], budget - Cost(p, a), exhausted)
      case Stop(r) => r
  }

  // The rounds a pass goes through, up to some point.
  ghost predicate Trace<A(!new), R(!new)>(p: Pass<A, R>, a: seq<A>) {
    forall i :: 0 <= i < |a| ==> p.turn(a[..i]) == Advance(a[i])
  }

  // All of them.
  ghost predicate FullTrace<A(!new), R(!new)>(p: Pass<A, R>, a: seq<A>) {
    Trace(p, a) && p.turn(a).Stop?
  }

  // The ticks it takes to reach the turn at `a`.
  function TicksTo<A, R>(p: Pass<A, R>, a: seq<A>): (n: nat)
    ensures n >= Cost(p, a)
  {
    Cost(p, a) + if a == [] then 0 else TicksTo(p, a[..|a| - 1])
  }

  lemma TracePrefix<A(!new), R(!new)>(p: Pass<A, R>, a: seq<A>, n: nat)
    requires Trace(p, a) && n <= |a|
    ensures Trace(p, a[..n])
  {
    forall i | 0 <= i < n ensures p.turn(a[..n][..i]) == Advance(a[..n][i]) {
      assert a[..n][..i] == a[..i];
    }
  }

  // Of two traces of a pass one is a prefix of the other.
  lemma {:induction false} TracesComparable<A(!new), R(!new)>(p: Pass<A, R>, a: seq<A>, b: seq<A>)
    requires Trace(p, a) && Trace(p, b) && |a| <= |b|
    ensures a == b[..|a|]
    decreases |a|
  {
    if a != [] {
      var n := |a| - 1;
      TracePrefix(p, a, n);
      TracesComparable(p, a[..n], b);
      assert a[..n] == b[..n];
      assert a == a[..n] + [a[n]];
      assert b[..n + 1] == b[..n] + [b[n]];
    }
  }

  lemma TraceWithin<A(!new), R(!new)>(p: Pass<A, R>, a: seq<A>, full: seq<A>)
    requires Trace(p, a) && FullTrace(p, full)
    ensures a <= full
    ensures FullTrace(p, a) ==> a == full
  {
    if |full| < |a| { TracesComparable(p, full, a); }
    TracesComparable(p, a, full);
    if |a| < |full| { assert p.turn(full[..|a|]).Advance?; }
  }

  // Draining passes through every trace it has the ticks for.
  lemma {:induction false} DriveAlong<A(!new), R(!new)>(p: Pass<A, R>, a: seq<A>, left: nat, exhausted: R)
    requires Trace(p, a)
    ensures Drive(p, [], TicksTo(p, a) - Cost(p, a) + left, exhausted) == Drive(p, a, left, exhausted)
    decreases |a|
  {
    if a != [] {
      var b := a[..|a| - 1];
      TracePrefix(p, a, |a| - 1);
      assert b + [a[|a| - 1]] == a;
      DriveAlong(p, b, Cost(p, b) + left, exhausted);
    }
  }

  lemma {:induction false} DriveRunsOut<A(!new), R(!new)>(p: Pass<A, R>, a: seq<A>, budget: nat, exhausted: R)
    requires Trace(p, a) && budget < TicksTo(p, a)
    ensures Drive(p, [], budget, exhausted) == exhausted
    decreases |a|
  {
    var before := TicksTo(p, a) - Cost(p, a);
    if before <= budget {
      DriveAlong(p, a, budget - before, exhausted);
    } else {
      TracePrefix(p, a, |a| - 1);
      DriveRunsOut(p, a[..|a| - 1], budget, exhausted);
    }
  }

  // With the ticks to reach its end a pass reports what it stops with there; with fewer, nothing.
  lemma BoundedDrain<A(!new), R(!new)>(p: Pass<A, R>, a: seq<A>, budget: nat, exhausted: R)
    requires FullTrace(p, a)
    ensures Drive(p, [], budget, exhausted) == if TicksTo(p, a) <= budget then p.turn(a).result else exhausted
  {
    if TicksTo(p, a) <= budget {
      DriveAlong(p, a, budget - (TicksTo(p, a) - Cost(p, a)), exhausted);
    } else {
      DriveRunsOut(p, a, budget, exhausted);
    }
  }

  lemma {:induction false} DriveStops<A(!new), R(!new)>(p: Pass<A, R>, a: seq<A>, budget: nat, exhausted: R)
    requires Trace(p, a)
    ensures Drive(p, a, budget, exhausted) == exhausted ||
      exists b :: FullTrace(p, b) && Drive(p, a, budget, exhausted) == p.turn(b).result
    decreases budget, if a == [] then 1 else 0
  {
    if budget >= Cost(p, a) {
      match p.turn(a)
      case Advance(x) =>
        forall i | 0 <= i < |a + [x]| ensures p.turn((a + [x])[..i]) == Advance((a + [x])[i]) {
          assert (a + [x])[..i] == a[..i];
          assert a[..|a|] == a;
        }
        DriveStops(p, a + [x], budget - Cost(p, a), exhausted);
      case Stop(r) =>
        assert FullTrace(p, a);
    }
  }

  // A drain that reports anything has reached the end of the pass.
  lemma DriveEnds<A(!new), R(!new)>(p: Pass<A, R>, budget: nat, exhausted: R) returns (a: seq<A>)
    requires Drive(p, [], budget, exhausted) != exhausted
    ensures FullTrace(p, a) && TicksTo(p, a) <= budget
    ensures Drive(p, [], budget, exhausted) == p.turn(a).result
  {
    DriveStops(p, [], budget, exhausted);
    a :| FullTrace(p, a) && Drive(p, [], budget, exhausted) == p.turn(a).result;
    BoundedDrain(p, a, budget, exhausted);
  }

  // Whatever the budgets, a drain never reports what a longer one would not.
  lemma DrainMonotone<A(!new), R(!new)>(p: Pass<A, R>, small: nat, large: nat, exhausted: R)
    requires small <= large
    ensures Drive(p, [], small, exhausted) == Drive(p, [], large, exhausted) ||
      Drive(p, [], small, exhausted) == exhausted
  {
    if Drive(p, [], small, exhausted) != exhausted {
      var a := DriveEnds(p, small, exhausted);
      BoundedDrain(p, a, large, exhausted);
    }
  }
}
