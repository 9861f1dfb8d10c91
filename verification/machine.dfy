/** The engine: registered states, a current state, and the dispatch loop.

    `compute` loops while a current state is set; `Step` models one round of
    that loop and `Run` repeats it for at most `fuel` rounds, since a machine
    need not halt. The failure handling is that of machine.py as written:
    - a write of a symbol outside the alphabet is caught, the transition loop
      is left without halting, and the next round repeats the same write;
    - a move that leaves the tape raises a value error, which the handler for
      index errors does not catch, so it escapes the loop;
    - an unknown next state makes `set_state` return false without raising,
      so the loop goes on in the old state with the write and move applied;
    - reading with the head one past the last cell raises an index error that
      nothing catches.
 */
module Machine {
  import opened Outcomes
  import opened Tapes
  import opened Transitions

  /** The engine: states by name, and the current state (none once halted). */
  datatype Fsm = Fsm(states: map<string, State>, current: Option<State>)

  /** A fresh engine: no states and no current state. */
  function NewFsm(): (r: Fsm)
    ensures r.states == map[] && r.current.None?
  {
    Fsm(map[], None)
  }

  /** Registers `s` under its name, replacing any state of that name. */
  function AddState(m: Fsm, s: State): (r: Fsm)
    ensures r.states.Keys == m.states.Keys + {s.name}
    ensures r.states[s.name] == s
    ensures forall n :: n in m.states && n != s.name ==> r.states[n] == m.states[n]
    ensures r.current == m.current
  {
    m.(states := m.states[s.name := s])
  }

  /** Makes the state registered as `name` current. The flag is false, and the
      engine unchanged, when no state of that name is registered; machine.py
      returns `False` then (and `None` on success). */
  function SetState(m: Fsm, name: string): (r: (Fsm, bool))
    ensures r.1 <==> name in m.states
    ensures r.1 ==> r.0.current == Some(m.states[name]) && r.0.states == m.states
    ensures !r.1 ==> r.0 == m
  {
    if name in m.states then (m.(current := Some(m.states[name])), true) else (m, false)
  }

  /** States are registered under their own names, and the current state, when
      set, is the one registered under its name. */
  predicate Consistent(m: Fsm) {
    && (forall n :: n in m.states ==> m.states[n].name == n)
    && (m.current.Some? ==> m.current.value.name in m.states && m.states[m.current.value.name] == m.current.value)
  }

  /** Every registered state and the current state are deterministic. */
  predicate AllDeterministic(m: Fsm) {
    && (forall n :: n in m.states ==> Deterministic(m.states[n]))
    && (m.current.Some? ==> Deterministic(m.current.value))
  }

  /** A fresh engine is consistent and deterministic. */
  lemma NewFsmInvariants()
    ensures Consistent(NewFsm()) && AllDeterministic(NewFsm())
  {
  }

  /** Selecting a state keeps the engine consistent and deterministic, whether
      or not the name is registered. */
  lemma SetStateInvariants(m: Fsm, name: string)
    ensures Consistent(m) ==> Consistent(SetState(m, name).0)
    ensures AllDeterministic(m) ==> AllDeterministic(SetState(m, name).0)
  {
  }

  /** Registering a state keeps a consistent engine consistent exactly when it
      does not replace the current state's entry by a different state: the
      current state is a reference that registration does not update. */
  lemma AddStateConsistency(m: Fsm, s: State)
    requires Consistent(m)
    ensures Consistent(AddState(m, s)) <==>
              (m.current.None? || m.current.value.name != s.name || m.current.value == s)
  {
  }

  /** Registering a state keeps a deterministic engine deterministic exactly
      when the new state is deterministic. */
  lemma AddStateDeterminism(m: Fsm, s: State)
    requires AllDeterministic(m)
    ensures AllDeterministic(AddState(m, s)) <==> Deterministic(s)
  {
  }

  /** Re-registering the current state's name with a new state leaves the
      current state pointing at the replaced one. */
  lemma ReRegisteringCurrentIsStale()
    ensures var old0 := State("q", {});
            var new0 := State("q", {Transition('0', '0', 0, "q")});
            var m := SetState(AddState(NewFsm(), old0), "q").0;
            && Consistent(m)
            && AddState(m, new0).current == Some(old0)
            && !Consistent(AddState(m, new0))
  {
  }

  /** What one round of the dispatch loop leads to. */
  datatype Outcome =
    | Continue(m: Fsm, tape: Tape)     // the loop goes round again
    | Halt(m: Fsm, tape: Tape)         // no transition matched; no current state any more
    | Crash(fault: Fault, m: Fsm, tape: Tape)  // an exception escaped the loop; the engine is left as it was

  /** The body of the transition loop once `t` matched the symbol read: write,
      move, switch state, each with the handler machine.py puts around it. */
  function Fire(m: Fsm, tape: Tape, t: Transition): (r: Outcome)
    requires 0 <= tape.head
    ensures t.out !in tape.alphabet ==> r == Continue(m, tape)
    ensures t.out in tape.alphabet && tape.head >= |tape.data| ==> r == Crash(CellOutOfRange, m, tape)
    ensures t.out in tape.alphabet && tape.head < |tape.data| && !(UnitMove(t.mv) && 0 <= tape.head + t.mv <= tape.size) ==>
              && r.Crash?
              && r.fault == (if UnitMove(t.mv) then HeadOffTape else MoveNotUnit)
              && r.m == m
              && r.tape == tape.(data := tape.data[tape.head := t.out])
    ensures t.out in tape.alphabet && tape.head < |tape.data| && UnitMove(t.mv) && 0 <= tape.head + t.mv <= tape.size ==>
              && r.Continue?
              && r.tape == tape.(data := tape.data[tape.head := t.out], head := tape.head + t.mv)
              && r.m == (if t.state in m.states then m.(current := Some(m.states[t.state])) else m)
    ensures Valid(tape) ==> Valid(r.tape)
    ensures r.tape.alphabet == tape.alphabet && r.tape.size == tape.size && |r.tape.data| == |tape.data|
  {
    match Write(tape, t.out)
    case Failure(f) =>
      // the handler catches value errors and leaves the transition loop
      if f.Class() == ValueError then Continue(m, tape) else Crash(f, m, tape)
    case Success(written) =>
      match MoveHead(written, t.mv)
      case Failure(f) =>
        // the handler catches index errors only
        if f.Class() == IndexError then Continue(m, written) else Crash(f, m, written)
      case Success(moved) =>
        Continue(SetState(m, t.state).0, moved)
  }

  /** One round of the dispatch loop, for any transition order: the relation
      admits every matching transition, as set iteration may yield any first. */
  ghost predicate StepRel(m: Fsm, tape: Tape, r: Outcome)
    requires m.current.Some? && 0 <= tape.head
    ensures StepRel(m, tape, r) && Valid(tape) ==> Valid(r.tape)
    ensures StepRel(m, tape, r) ==> r.m.states == m.states
    ensures StepRel(m, tape, r) ==> r.tape.alphabet == tape.alphabet && r.tape.size == tape.size && |r.tape.data| == |tape.data|
    ensures StepRel(m, tape, r) && r.Crash? ==> r.m == m
    ensures StepRel(m, tape, r) && r.Halt? ==> r.m.current.None? && r.tape == tape
    ensures StepRel(m, tape, r) && r.Continue? ==>
              r.m.current.Some? && (r.m.current == m.current || r.m.current.value in m.states.Values)
  {
    match Read(tape)
    case Failure(f) => r == Crash(f, m, tape)
    case Success(c) =>
      if Matches(m.current.value, c) == {} then r == Halt(m.(current := None), tape)
      else exists t :: t in Matches(m.current.value, c) && r == Fire(m, tape, t)
  }

  /** One round of the dispatch loop when the current state is deterministic. */
  function Step(m: Fsm, tape: Tape): (r: Outcome)
    requires m.current.Some? && Deterministic(m.current.value)
    requires 0 <= tape.head
    ensures Valid(tape) ==> Valid(r.tape)
    ensures r.m.states == m.states
    ensures r.Crash? ==> r.m == m
    ensures r.Halt? ==> r.m.current.None? && r.tape == tape
    ensures r.Continue? ==> r.m.current.Some? && (r.m.current == m.current || r.m.current.value in m.states.Values)
    ensures r.Crash? ==> r.fault in {CellOutOfRange, MoveNotUnit, HeadOffTape}
    ensures r.tape.alphabet == tape.alphabet && r.tape.size == tape.size && |r.tape.data| == |tape.data|
  {
    var cur := m.current.value;
    match Read(tape)
    case Failure(f) => Crash(f, m, tape)
    case Success(c) =>
      var ms := Matches(cur, c);
      if ms == {} then Halt(m.(current := None), tape)
      else
        var t :| t in ms;
        Fire(m, tape, t)
  }

  /** The result of running the engine on a tape. */
  datatype RunResult =
    | Finished(m: Fsm, tape: Tape)       // halted normally: no transition matched
    | Crashed(fault: Fault, m: Fsm, tape: Tape)  // an exception escaped the loop; the engine is left in the failing round's state
    | OutOfFuel(m: Fsm, tape: Tape)      // still running after the allowed rounds

  /** Runs the dispatch loop for at most `fuel` rounds. */
  function Run(m: Fsm, tape: Tape, fuel: nat): (r: RunResult)
    requires AllDeterministic(m) && Valid(tape)
    ensures Valid(r.tape)
    ensures r.Finished? ==> r.m.current.None? && r.m.states == m.states
    ensures r.OutOfFuel? ==> r.m.current.Some? && r.m.states == m.states && AllDeterministic(r.m)
    ensures Consistent(m) ==> Consistent(r.m)
    ensures r.Crashed? ==> r.fault in {CellOutOfRange, MoveNotUnit, HeadOffTape}
    ensures r.Crashed? ==> r.m.current.Some? && r.m.states == m.states && AllDeterministic(r.m)
    ensures r.tape.alphabet == tape.alphabet && r.tape.size == tape.size && |r.tape.data| == |tape.data|
    decreases fuel
  {
    if m.current.None? then Finished(m, tape)
    else if fuel == 0 then OutOfFuel(m, tape)
    else
      match Step(m, tape)
      case Continue(m', tape') => Run(m', tape', fuel - 1)
      case Halt(m', tape') => Finished(m', tape')
      case Crash(f, m', tape') => Crashed(f, m', tape')
  }
}
