/** Runs of a step function: the loop shape `state = step(i, state)` for
    `i` in `range(1, k)`, recorded state by state. */
module Iteration {

  /** The `k` states `start, step(1, start), step(2, step(1, start)), …`. */
  function Iterate<S>(start: S, step: (nat, S) -> S, k: nat): (r: seq<S>)
    requires k >= 1
    ensures |r| == k
  {
    if k == 1 then [start]
    else
      var prev := Iterate(start, step, k - 1);
      prev + [step(k - 1, prev[k - 2])]
  }

  /** State `j` does not depend on how far the run goes on. */
  lemma {:induction false} IterateStable<S>(start: S, step: (nat, S) -> S, k: nat, j: nat)
    requires j < k
    ensures Iterate(start, step, k)[j] == Iterate(start, step, j + 1)[j]
    decreases k
  {
    if j < k - 1 {
      IterateStable(start, step, k - 1, j);
    }
  }

  /** Every run begins with the start state, and each later state is the
      step from the one before it. */
  lemma IterateSteps<S>(start: S, step: (nat, S) -> S, k: nat, i: nat)
    requires 1 <= i < k
    ensures Iterate(start, step, k)[0] == start
    ensures Iterate(start, step, k)[i] == step(i, Iterate(start, step, k)[i - 1])
  {
    IterateStable(start, step, k, 0);
    IterateStable(start, step, k, i);
    IterateStable(start, step, k, i - 1);
    IterateStable(start, step, i + 1, i - 1);
  }
}
