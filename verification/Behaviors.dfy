/** Runs of a transition system, whatever its states and actions are. */
module Behaviors {

  /** `states` is what the system goes through while it takes the actions `acts`. */
  ghost predicate IsBehavior<S(!new), A(!new)>(next: (S, A, S) -> bool, states: seq<S>, acts: seq<A>) {
    && |states| == |acts| + 1
    && forall i {:trigger acts[i]} :: 0 <= i < |acts| ==> next(states[i], acts[i], states[i + 1])
  }

  /** A property that every action keeps holds from wherever it starts to hold. */
  lemma {:induction false} Keeps<S(!new), A(!new)>(next: (S, A, S) -> bool, p: S -> bool, states: seq<S>, acts: seq<A>, i: nat, k: nat)
    requires IsBehavior(next, states, acts) && i <= k < |states| && p(states[i])
    requires forall x, a, y :: p(x) && next(x, a, y) ==> p(y)
    ensures p(states[k])
    decreases k
  {
    if i < k {
      Keeps(next, p, states, acts, i, k - 1);
      assert next(states[k - 1], acts[k - 1], states[k]);
    }
  }

  ghost predicate Throughout<S(!new)>(p: S -> bool, states: seq<S>, i: nat, k: nat)
    requires i <= k <= |states|
  {
    forall m :: i <= m < k ==> p(states[m])
  }

  /** The same for a property kept only in states that satisfy `inv`. */
  lemma {:induction false} KeepsGiven<S(!new), A(!new)>(next: (S, A, S) -> bool, inv: S -> bool, p: S -> bool,
                                                       states: seq<S>, acts: seq<A>, i: nat, k: nat)
    requires IsBehavior(next, states, acts) && i <= k < |states| && p(states[i])
    requires Throughout(inv, states, i, k)
    requires forall x, a, y :: inv(x) && p(x) && next(x, a, y) ==> p(y)
    ensures p(states[k])
    decreases k
  {
    if i < k {
      KeepsGiven(next, inv, p, states, acts, i, k - 1);
      assert next(states[k - 1], acts[k - 1], states[k]);
    }
  }

  /** A behavior from an initial state. */
  ghost predicate IsExecution<S(!new), A(!new)>(init: S -> bool, next: (S, A, S) -> bool, states: seq<S>, acts: seq<A>) {
    IsBehavior(next, states, acts) && init(states[0])
  }

  /** Induction over executions. */
  lemma Always<S(!new), A(!new)>(init: S -> bool, next: (S, A, S) -> bool, p: S -> bool, states: seq<S>, acts: seq<A>, k: nat)
    requires IsExecution(init, next, states, acts) && k < |states|
    requires forall x :: init(x) ==> p(x)
    requires forall x, a, y :: p(x) && next(x, a, y) ==> p(y)
    ensures p(states[k])
  {
    Keeps(next, p, states, acts, 0, k);
  }
}
