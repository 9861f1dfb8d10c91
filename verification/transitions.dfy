/** Transitions and the states that own them. */
module Transitions {
  import opened Outcomes

  /** One rule: on reading `inp`, write `out`, move the head by `mv` and switch
      to the state named `state`. Equality is structural, as for a named tuple. */
  datatype Transition = Transition(inp: char, out: char, mv: int, state: string)

  /** A named state with its (deduplicated, unordered) outgoing transitions. */
  datatype State = State(name: string, transitions: set<Transition>)

  /** The head movements a transition may ask for. */
  predicate UnitMove(mv: int) {
    mv in {-1, 0, 1}
  }

  /** Adds `t` to the state's transitions; a move outside {-1, 0, 1} fails the assertion. */
  function AddTransition(s: State, t: Transition): (r: Result<State>)
    ensures r.Success? <==> UnitMove(t.mv)
    ensures r.Failure? ==> r.error == TransitionRejected
    ensures r.Success? ==> r.value.name == s.name && r.value.transitions == s.transitions + {t}
  {
    if UnitMove(t.mv) then Success(s.(transitions := s.transitions + {t}))
    else Failure(TransitionRejected)
  }

  /** Builds a state by adding the given transitions one at a time, in whatever
      order the set yields them; the first transition with a bad move aborts the
      construction. */
  method NewState(name: string, ts: set<Transition>) returns (r: Result<State>)
    ensures r.Success? <==> forall t :: t in ts ==> UnitMove(t.mv)
    ensures r.Success? ==> r.value == State(name, ts)
    ensures r.Failure? ==> r.error == TransitionRejected
  {
    var s := State(name, {});
    var rest := ts;
    while rest != {}
      invariant rest <= ts
      invariant s == State(name, ts - rest)
      invariant forall t :: t in ts - rest ==> UnitMove(t.mv)
      decreases rest
    {
      var t :| t in rest;
      var added := AddTransition(s, t);
      if added.Failure? {
        return added;
      }
      s := added.value;
      rest := rest - {t};
    }
    return Success(s);
  }

  /** The transitions of `s` that fire on the symbol `c`. */
  function Matches(s: State, c: char): set<Transition> {
    set t | t in s.transitions && t.inp == c
  }

  /** At most one transition per input symbol. machine.py does not enforce
      this; when it fails, which transition fires depends on set iteration order. */
  predicate Deterministic(s: State) {
    forall t, u :: t in s.transitions && u in s.transitions && t.inp == u.inp ==> t == u
  }

  /** In a deterministic state a symbol selects at most one transition, and
      conversely a state in which no symbol selects two is deterministic. */
  lemma DeterministicIffSingleMatches(s: State)
    ensures Deterministic(s) <==>
              forall c, t, u :: t in Matches(s, c) && u in Matches(s, c) ==> t == u
  {
    if forall c, t, u :: t in Matches(s, c) && u in Matches(s, c) ==> t == u {
      forall t, u | t in s.transitions && u in s.transitions && t.inp == u.inp
        ensures t == u
      {
        assert t in Matches(s, t.inp) && u in Matches(s, t.inp);
      }
    }
  }

  /** Adding a transition keeps a state deterministic exactly when no existing
      transition on the same input symbol differs from it. */
  lemma AddTransitionKeepsDeterminism(s: State, t: Transition)
    requires Deterministic(s) && UnitMove(t.mv)
    ensures Deterministic(AddTransition(s, t).value) <==>
              forall u :: u in s.transitions && u.inp == t.inp ==> u == t
  {
  }
}
