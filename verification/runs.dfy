/** Runs of any machine that is given by its steps. */
module Runs {

  ghost predicate IsRunOf<S(!new), E(!new)>(step: (S, E, S) -> bool, states: seq<S>, events: seq<E>) {
    && |states| == |events| + 1
    && forall i | 0 <= i < |events| :: step(states[i], events[i], states[i + 1])
  }

  ghost predicate LeadsBy<S(!new), E(!new)>(step: (S, E, S) -> bool, states: seq<S>, events: seq<E>, s: S, s': S) {
    IsRunOf(step, states, events) && states[0] == s && states[|events|] == s'
  }

  /** Some run leads from the one state to the other. */
  ghost predicate Leads<S(!new), E(!new)>(step: (S, E, S) -> bool, s: S, s': S) {
    exists states, events :: LeadsBy(step, states, events, s, s')
  }

  lemma StayingLeads<S(!new), E(!new)>(step: (S, E, S) -> bool, s: S)
    ensures Leads(step, s, s)
  {
    assert LeadsBy(step, [s], [], s, s);
  }

  lemma StepLeads<S(!new), E(!new)>(step: (S, E, S) -> bool, s: S, e: E, mid: S, s': S)
    requires step(s, e, mid) && Leads(step, mid, s')
    ensures Leads(step, s, s')
  {
    var states, events :| LeadsBy(step, states, events, mid, s');
    assert LeadsBy(step, [s] + states, [e] + events, s, s');
  }

  lemma LeadsOn<S(!new), E(!new)>(step: (S, E, S) -> bool, s: S, mid: S, s': S)
    requires Leads(step, s, mid) && Leads(step, mid, s')
    ensures Leads(step, s, s')
  {
    var states, events :| LeadsBy(step, states, events, s, mid);
    RunLeadsOn(step, states, events, s');
  }

  lemma {:induction false} RunLeadsOn<S(!new), E(!new)>(step: (S, E, S) -> bool, states: seq<S>, events: seq<E>, s': S)
    requires IsRunOf(step, states, events) && Leads(step, states[|events|], s')
    ensures Leads(step, states[0], s')
  {
    if events != [] {
      RunLeadsOn(step, states[1..], events[1..], s');
      StepLeads(step, states[0], events[0], states[1], s');
    }
  }
}
