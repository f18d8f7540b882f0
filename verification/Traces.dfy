/** The states that a process goes through, operation by operation. */
module Traces {
  /**
   A complete trace: it begins and ends where the process does, and every state on the way follows
   from the one before it by one operation (or is that state, noted once more).
   */
  ghost predicate Connected<S>(trace: seq<S>, from: S, to: S, operation: (S, S) -> bool)
  {
    && trace != [] && trace[0] == from && trace[|trace| - 1] == to
    && forall i, j | 0 <= i < j < |trace| && j == i + 1 :: trace[i] == trace[j] || operation(trace[i], trace[j])
  }

  lemma Stands<S>(s: S, operation: (S, S) -> bool)
    ensures Connected([s], s, s, operation)
  {
  }

  lemma Continues<S>(trace: seq<S>, from: S, to: S, next: S, operation: (S, S) -> bool)
    requires Connected(trace, from, to, operation) && operation(to, next)
    ensures Connected(trace + [next], from, next, operation)
  {
  }

  lemma Joins<S>(a: seq<S>, b: seq<S>, from: S, middle: S, to: S, operation: (S, S) -> bool)
    requires Connected(a, from, middle, operation) && Connected(b, middle, to, operation)
    ensures Connected(a + b, from, to, operation)
  {
    var trace := a + b;
    forall i, j | 0 <= i < j < |trace| && j == i + 1
      ensures trace[i] == trace[j] || operation(trace[i], trace[j])
    {
      if j < |a| {
        assert trace[i] == a[i] && trace[j] == a[j];
      } else if i >= |a| {
        assert trace[i] == b[i - |a|] && trace[j] == b[j - |a|];
      }
    }
  }
}
