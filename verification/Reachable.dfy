/** The invariant of every interleaving. */
module Reachable {
  import opened Types
  import opened Client
  import opened ClientGate
  import opened ClientCalls
  import opened ClientJoins

  ghost predicate Inv(o: Options, s: State) {
    GateOk(s) && TrafficOk(o, s) && JoinsOk(s)
  }

  lemma InitialOk(o: Options)
    ensures Inv(o, InitialState(o))
  {
    assert Users(InitialState(o)) == {};
  }

  lemma StepKeepsInv(o: Options, s: State, a: Action)
    requires Valid(o) && Inv(o, s) && StepEnabled(o, s, a)
    ensures Inv(o, Step(o, s, a))
  {
    hide Step, StepEnabled, GateOk, RunsOk, CallOk, RunCallsOk, PermitsOk, JoinsOk;
    StepKeepsGate(o, s, a);
    StepKeepsTraffic(o, s, a);
    StepKeepsJoins(o, s, a);
  }

  /** `s` is reached by some interleaving. */
  ghost predicate Reached(o: Options, s: State) {
    exists states: seq<State>, actions: seq<Action> :: Execution(o, states, actions) && states[|actions|] == s
  }

  lemma {:induction false} ExecutionOk(o: Options, states: seq<State>, actions: seq<Action>, i: nat)
    requires Valid(o) && Execution(o, states, actions) && i <= |actions|
    ensures Inv(o, states[i])
  {
    hide Step, StepEnabled, Inv;
    if i == 0 {
      InitialOk(o);
    } else {
      ExecutionOk(o, states, actions, i - 1);
      StepKeepsInv(o, states[i - 1], actions[i - 1]);
    }
  }

  lemma ReachedOk(o: Options, s: State)
    requires Valid(o) && Reached(o, s)
    ensures Inv(o, s)
  {
    hide Inv;
    var states: seq<State>, actions: seq<Action> :| Execution(o, states, actions) && states[|actions|] == s;
    ExecutionOk(o, states, actions, |actions|);
  }

  lemma PrefixReached(o: Options, states: seq<State>, actions: seq<Action>, i: nat)
    requires Execution(o, states, actions) && i <= |actions|
    ensures Reached(o, states[i])
  {
    hide Step, StepEnabled;
    assert Execution(o, states[..i + 1], actions[..i]);
    assert states[..i + 1][i] == states[i];
  }
}
