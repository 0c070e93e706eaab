/** Induction along a run, for any kind of state and step. */
module Runs {

  /** `states` lists the states that the events pass through. */
  ghost predicate IsRunOf<S(!new), E(!new)>(step: (S, E, S) -> bool, states: seq<S>, events: seq<E>) {
    |states| == |events| + 1 && forall k :: 0 <= k < |events| ==> step(states[k], events[k], states[k + 1])
  }

  ghost predicate Preserved<S(!new), E(!new)>(step: (S, E, S) -> bool, good: S -> bool) {
    forall s, e, s' :: good(s) && step(s, e, s') ==> good(s')
  }

  /** What every step keeps holds in every state of the run. */
  lemma {:induction false} HoldsAlong<S(!new), E(!new)>(step: (S, E, S) -> bool, good: S -> bool,
                                                       states: seq<S>, events: seq<E>, j: nat, k: nat)
    requires IsRunOf(step, states, events) && Preserved(step, good) && j <= k <= |events| && good(states[j])
    ensures good(states[k])
  {
    if j < k {
      HoldsAlong(step, good, states, events, j, k - 1);
    }
  }

  ghost predicate StepRelates<S(!new), E(!new)>(step: (S, E, S) -> bool, good: S -> bool, later: (S, S) -> bool) {
    forall s, e, s' :: good(s) && step(s, e, s') ==> later(s, s')
  }

  ghost predicate ReflexiveTransitive<S(!new)>(good: S -> bool, later: (S, S) -> bool) {
    && (forall s :: good(s) ==> later(s, s))
    && (forall s, s', s'' :: good(s) && good(s') && good(s'') && later(s, s') && later(s', s'') ==> later(s, s''))
  }

  /** What relates a state to the next one relates it to every later one. */
  lemma {:induction false} RelatesAlong<S(!new), E(!new)>(step: (S, E, S) -> bool, good: S -> bool,
      later: (S, S) -> bool, states: seq<S>, events: seq<E>, j: nat, k: nat)
    requires IsRunOf(step, states, events) && Preserved(step, good) && j <= k <= |events| && good(states[j])
    requires StepRelates(step, good, later) && ReflexiveTransitive(good, later)
    ensures later(states[j], states[k])
  {
    if j < k {
      RelatesAlong(step, good, later, states, events, j, k - 1);
      HoldsAlong(step, good, states, events, j, k - 1);
      assert step(states[k - 1], events[k - 1], states[k]);
    }
  }

  // ---- a switch that events set and clear ------------------------------------------------------------

  /** Some event since state j set the switch, and none after it cleared it. */
  ghost predicate StillSet<S(!new), E(!new)>(sets: (S, E) -> bool, clears: (S, E) -> bool,
                                             states: seq<S>, events: seq<E>, j: nat, k: nat)
    requires k <= |events| < |states|
  {
    exists m :: j <= m < k && sets(states[m], events[m])
                && forall n :: m < n < k ==> !clears(states[n], events[n])
  }

  /** While the run is alive, setting turns `on` off, clearing turns it on, nothing else touches it. */
  ghost predicate Switches<S(!new), E(!new)>(step: (S, E, S) -> bool, good: S -> bool, alive: S -> bool,
      sets: (S, E) -> bool, clears: (S, E) -> bool, on: S -> bool)
  {
    forall s, e, s' :: good(s) && step(s, e, s') && alive(s') ==>
      && alive(s)
      && !(sets(s, e) && clears(s, e))
      && on(s') == if sets(s, e) then false else if clears(s, e) then true else on(s)
  }

  lemma {:induction false} OnUnlessStillSet<S(!new), E(!new)>(step: (S, E, S) -> bool, good: S -> bool, alive: S -> bool,
      sets: (S, E) -> bool, clears: (S, E) -> bool, on: S -> bool, states: seq<S>, events: seq<E>, j: nat, k: nat)
    requires IsRunOf(step, states, events) && Preserved(step, good) && j <= k <= |events| && good(states[j])
    requires Switches(step, good, alive, sets, clears, on) && on(states[j]) && alive(states[k])
    ensures on(states[k]) <==> !StillSet(sets, clears, states, events, j, k)
  {
    if j < k {
      HoldsAlong(step, good, states, events, j, k - 1);
      assert step(states[k - 1], events[k - 1], states[k]);
      OnUnlessStillSet(step, good, alive, sets, clears, on, states, events, j, k - 1);
    }
  }

  // ---- who did it ------------------------------------------------------------------------------------

  /** What is bad after a step was bad before it, with the same culprits, or the event is the culprit. */
  ghost predicate Traceable<S(!new), E(!new)>(step: (S, E, S) -> bool, good: S -> bool, bad: S -> bool,
                                              culprit: (S, E, S) -> bool)
  {
    forall s, e, s' :: good(s) && step(s, e, s') && bad(s') ==>
      culprit(s, e, s') || (bad(s) && forall p, f :: culprit(p, f, s) ==> culprit(p, f, s'))
  }

  lemma {:induction false} TracedBack<S(!new), E(!new)>(step: (S, E, S) -> bool, good: S -> bool, bad: S -> bool,
      culprit: (S, E, S) -> bool, states: seq<S>, events: seq<E>, j: nat, k: nat)
    requires IsRunOf(step, states, events) && Preserved(step, good) && j <= k <= |events| && good(states[j])
    requires Traceable(step, good, bad, culprit) && !bad(states[j])
    ensures bad(states[k]) ==> exists m :: j <= m < k && culprit(states[m], events[m], states[k])
  {
    if j < k {
      HoldsAlong(step, good, states, events, j, k - 1);
      assert step(states[k - 1], events[k - 1], states[k]);
      TracedBack(step, good, bad, culprit, states, events, j, k - 1);
    }
  }
}
