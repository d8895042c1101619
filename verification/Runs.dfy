/** Runs of a step relation, and what its steps keep. */
module Runs {

  /** Every step from state `i` to state `j` satisfies `next`. */
  ghost predicate Linked<S(!new), L(!new)>(next: (S, L, S) -> bool, states: seq<S>, steps: seq<L>, i: nat, j: nat)
    requires |states| == |steps| + 1 && i <= j < |states|
  {
    forall k :: i <= k < j ==> next(states[k], steps[k], states[k + 1])
  }

  /** What every step keeps holds to the end. */
  lemma {:induction false} Stays<S(!new), L(!new)>(
      next: (S, L, S) -> bool, p: S -> bool, states: seq<S>, steps: seq<L>, i: nat, j: nat)
    requires |states| == |steps| + 1 && i <= j < |states| && Linked(next, states, steps, i, j)
    requires forall s, step, s' :: next(s, step, s') && p(s) ==> p(s')
    requires p(states[i])
    ensures p(states[j])
    decreases j - i
  {
    if i < j {
      assert next(states[i], steps[i], states[i + 1]);
      Stays(next, p, states, steps, i + 1, j);
    }
  }

  /** What the steps from `i` to `j` weigh together. */
  function Total<S, L>(weight: (S, L) -> nat, states: seq<S>, steps: seq<L>, i: nat, j: nat): nat
    requires i <= j <= |steps| <= |states|
  {
    if i == j then 0 else Total(weight, states, steps, i, j - 1) + weight(states[j - 1], steps[j - 1])
  }

  /** What every step keeps of a state and the weight so far holds to the end. */
  lemma {:induction false} StaysWithTotal<S(!new), L(!new)>(
      next: (S, L, S) -> bool, weight: (S, L) -> nat, p: (S, nat) -> bool,
      states: seq<S>, steps: seq<L>, i: nat, j: nat)
    requires |states| == |steps| + 1 && i <= j < |states| && Linked(next, states, steps, i, j)
    requires forall s, step, s', n: nat :: next(s, step, s') && p(s, n) ==> p(s', n + weight(s, step))
    requires p(states[i], 0)
    ensures p(states[j], Total(weight, states, steps, i, j))
    decreases j - i
  {
    if i < j {
      StaysWithTotal(next, weight, p, states, steps, i, j - 1);
      assert next(states[j - 1], steps[j - 1], states[j - 1 + 1]);
    }
  }
}
