/** Runs of a transition system: what every step keeps holds in every state, and what a step sets stays set. */
module Runs {
  ghost predicate Run<S(!new), E(!new)>(start: S, step: (S, E, S) -> bool, states: seq<S>, events: seq<E>) {
    && |states| == |events| + 1 && states[0] == start
    && forall i | 0 <= i < |events| :: step(states[i], events[i], states[i + 1])
  }

  ghost predicate Kept<S(!new), E(!new)>(step: (S, E, S) -> bool, p: S -> bool) {
    forall s: S, e: E, t: S :: p(s) && step(s, e, t) ==> p(t)
  }

  lemma {:induction false} Stays<S(!new), E(!new)>(start: S, step: (S, E, S) -> bool, p: S -> bool,
                                                   states: seq<S>, events: seq<E>, k: nat, i: nat)
    requires Run(start, step, states, events) && Kept(step, p) && k <= i < |states| && p(states[k])
    ensures p(states[i])
    decreases i
  {
    if k < i {
      Stays(start, step, p, states, events, k, i - 1);
      assert step(states[i - 1], events[i - 1], states[i - 1 + 1]);
    }
  }

  /** A property that fails at the start and holds now was switched on by some step, and has held since. */
  lemma {:induction false} SwitchedOn<S(!new), E(!new)>(start: S, step: (S, E, S) -> bool, p: S -> bool,
                                                        states: seq<S>, events: seq<E>, i: nat) returns (k: nat)
    requires Run(start, step, states, events) && i < |states| && !p(start) && p(states[i])
    ensures k < i && !p(states[k]) && step(states[k], events[k], states[k + 1])
    ensures forall j | k < j <= i :: p(states[j])
    decreases i
  {
    assert i > 0;
    assert step(states[i - 1], events[i - 1], states[i - 1 + 1]);
    if p(states[i - 1]) {
      k := SwitchedOn(start, step, p, states, events, i - 1);
    } else {
      k := i - 1;
    }
  }
}
