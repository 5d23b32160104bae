/** Runs of a machine whose steps are named: what the code of one party has contributed. */
module Replay {

  /** Which actions a state allows, and where they lead. */
  datatype Machine<!S, !A> = Machine(may: (S, A) -> bool, step: (S, A) -> S)

  /** The actions, one after the other, lead from one state to the other. */
  ghost predicate Replays<S, A>(m: Machine<S, A>, s: S, actions: seq<A>, s': S)
    decreases actions
  {
    if actions == [] then s' == s
    else m.may(s, actions[0]) && Replays(m, m.step(s, actions[0]), actions[1..], s')
  }

  lemma {:induction false} ReplayOneMore<S, A>(m: Machine<S, A>, s: S, actions: seq<A>, s1: S, a: A)
    requires Replays(m, s, actions, s1) && m.may(s1, a)
    ensures Replays(m, s, actions + [a], m.step(s1, a))
    decreases actions
  {
    if actions == [] {
      assert [a][1..] == [];
    } else {
      ReplayOneMore(m, m.step(s, actions[0]), actions[1..], s1, a);
      assert (actions + [a])[1..] == actions[1..] + [a];
    }
  }
}
