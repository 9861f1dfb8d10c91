/** What one round and a bounded run of the dispatch loop do, in terms of the tape. */
module MachineProofs {
  import opened Outcomes
  import opened Tapes
  import opened Transitions
  import opened Machine

  /** In a deterministic state, the round fires the transition matching the symbol read. */
  lemma StepFiresTheMatch(m: Fsm, tape: Tape, t: Transition)
    requires m.current.Some? && Deterministic(m.current.value) && 0 <= tape.head
    requires tape.head < |tape.data| && t in m.current.value.transitions && t.inp == tape.data[tape.head]
    ensures Step(m, tape) == Fire(m, tape, t)
  {
    assert t in Matches(m.current.value, tape.data[tape.head]);
  }

  /** A round halts exactly when the symbol under the head is read and no
      transition of the current state takes it; the halt clears the current
      state and leaves the tape untouched. */
  lemma StepHaltsIffNoMatch(m: Fsm, tape: Tape)
    requires m.current.Some? && Deterministic(m.current.value) && 0 <= tape.head
    ensures Step(m, tape).Halt? <==>
              && tape.head < |tape.data|
              && forall t :: t in m.current.value.transitions ==> t.inp != tape.data[tape.head]
    ensures Step(m, tape).Halt? ==> Step(m, tape) == Halt(m.(current := None), tape)
  {
    if tape.head < |tape.data| {
      var c := tape.data[tape.head];
      if t :| t in m.current.value.transitions && t.inp == c {
        StepFiresTheMatch(m, tape, t);
      }
    }
  }

  /** With the head one past the last cell, the read raises an index error that
      escapes, leaving engine and tape as they were. */
  lemma StepReadOffTape(m: Fsm, tape: Tape)
    requires m.current.Some? && Deterministic(m.current.value)
    requires Valid(tape) && tape.head == |tape.data|
    ensures Step(m, tape) == Crash(CellOutOfRange, m, tape)
  {
  }

  /** When the matching transition writes a symbol of the alphabet, moves within
      the tape and names a registered state, the round writes the cell under the
      head, moves the head, and makes that state current; nothing else changes. */
  lemma StepApplies(m: Fsm, tape: Tape, t: Transition)
    requires m.current.Some? && Deterministic(m.current.value) && Valid(tape)
    requires tape.head < |tape.data| && t in m.current.value.transitions && t.inp == tape.data[tape.head]
    requires t.out in tape.alphabet && UnitMove(t.mv) && 0 <= tape.head + t.mv <= tape.size
    requires t.state in m.states
    ensures Step(m, tape).Continue?
    ensures Step(m, tape).m == m.(current := Some(m.states[t.state]))
    ensures Step(m, tape).tape.data == tape.data[tape.head := t.out]
    ensures Step(m, tape).tape.head == tape.head + t.mv
    ensures Step(m, tape).tape.alphabet == tape.alphabet && Step(m, tape).tape.size == tape.size
    ensures Step(m, tape).tape == MoveHead(Write(tape, t.out).value, t.mv).value
  {
    StepFiresTheMatch(m, tape, t);
  }

  /** When the matching transition writes a symbol outside the alphabet, the
      write's error is caught, the engine stays in its state and the tape is
      untouched: the next round faces exactly the same situation. */
  lemma StepBadWriteRepeats(m: Fsm, tape: Tape, t: Transition)
    requires m.current.Some? && Deterministic(m.current.value) && Valid(tape)
    requires tape.head < |tape.data| && t in m.current.value.transitions && t.inp == tape.data[tape.head]
    requires t.out !in tape.alphabet
    ensures Step(m, tape) == Continue(m, tape)
  {
    StepFiresTheMatch(m, tape, t);
  }

  /** When the write succeeds but the move does not, the value error escapes the
      loop: the engine stays in the failing round's state, and the tape keeps
      the write. */
  lemma StepBadMoveEscapes(m: Fsm, tape: Tape, t: Transition)
    requires m.current.Some? && Deterministic(m.current.value) && Valid(tape)
    requires tape.head < |tape.data| && t in m.current.value.transitions && t.inp == tape.data[tape.head]
    requires t.out in tape.alphabet && !(UnitMove(t.mv) && 0 <= tape.head + t.mv <= tape.size)
    ensures Step(m, tape).Crash?
    ensures Step(m, tape).fault == (if UnitMove(t.mv) then HeadOffTape else MoveNotUnit)
    ensures Step(m, tape).m == m
    ensures Step(m, tape).tape == tape.(data := tape.data[tape.head := t.out])
  {
    StepFiresTheMatch(m, tape, t);
  }

  /** When the write and the move succeed but the next state is not registered,
      nothing is raised: the loop goes on in the old state, with the write and
      the move applied. */
  lemma StepUnknownStateContinues(m: Fsm, tape: Tape, t: Transition)
    requires m.current.Some? && Deterministic(m.current.value) && Valid(tape)
    requires tape.head < |tape.data| && t in m.current.value.transitions && t.inp == tape.data[tape.head]
    requires t.out in tape.alphabet && UnitMove(t.mv) && 0 <= tape.head + t.mv <= tape.size
    requires t.state !in m.states
    ensures Step(m, tape) == Continue(m, tape.(data := tape.data[tape.head := t.out], head := tape.head + t.mv))
  {
    StepFiresTheMatch(m, tape, t);
  }

  /** For a deterministic current state the round is a function of the engine
      and the tape: the relation admits exactly the outcome `Step` computes. */
  lemma StepIsStepRel(m: Fsm, tape: Tape, r: Outcome)
    requires m.current.Some? && Deterministic(m.current.value) && 0 <= tape.head
    ensures StepRel(m, tape, r) <==> r == Step(m, tape)
  {
  }

  /** Without determinism a round is not a function: two transitions on the
      same symbol give two different outcomes from one engine and tape. */
  lemma DuplicateInputsAreAmbiguous()
    ensures var t0 := Transition('1', '0', 0, "q");
            var t1 := Transition('1', '1', 0, "q");
            var q := State("q", {t0, t1});
            var m := Fsm(map["q" := q], Some(q));
            var tape := Tape({'0', '1', Blank}, 1, ['1'], 0);
            && !Deterministic(q)
            && StepRel(m, tape, Continue(m, tape.(data := ['0'])))
            && StepRel(m, tape, Continue(m, tape))
  {
    var t0 := Transition('1', '0', 0, "q");
    var t1 := Transition('1', '1', 0, "q");
    var q := State("q", {t0, t1});
    var m := Fsm(map["q" := q], Some(q));
    var tape := Tape({'0', '1', Blank}, 1, ['1'], 0);
    assert t0 in Matches(q, '1') && t1 in Matches(q, '1');
    assert Fire(m, tape, t0) == Continue(m, tape.(data := ['0']));
    assert tape.data[0 := '1'] == tape.data;
    assert Fire(m, tape, t1) == Continue(m, tape);
  }

  /** Once a run has stopped within `f` rounds, more fuel changes nothing. */
  lemma {:induction false} RunMoreFuel(m: Fsm, tape: Tape, f: nat, g: nat)
    requires AllDeterministic(m) && Valid(tape)
    requires f <= g && !Run(m, tape, f).OutOfFuel?
    ensures Run(m, tape, g) == Run(m, tape, f)
    decreases f
  {
    if m.current.Some? {
      assert f > 0;
      match Step(m, tape)
      case Continue(m', tape') =>
        assert AllDeterministic(m');
        RunMoreFuel(m', tape', f - 1, g - 1);
      case Halt(_, _) =>
      case Crash(_, _, _) =>
    }
  }

  /** A round that leads back to the very same engine and tape makes the run
      spin for ever: no amount of fuel makes it stop. */
  lemma {:induction false} RepeatingStepNeverStops(m: Fsm, tape: Tape, f: nat)
    requires AllDeterministic(m) && Valid(tape) && m.current.Some?
    requires Step(m, tape) == Continue(m, tape)
    ensures Run(m, tape, f) == OutOfFuel(m, tape)
    decreases f
  {
    if f > 0 {
      RepeatingStepNeverStops(m, tape, f - 1);
    }
  }

  /** A matching transition that writes outside the alphabet keeps the engine
      running for ever on an unchanged tape, instead of halting with an error. */
  lemma BadWriteNeverStops(m: Fsm, tape: Tape, t: Transition, f: nat)
    requires AllDeterministic(m) && Valid(tape) && m.current.Some?
    requires tape.head < |tape.data| && t in m.current.value.transitions && t.inp == tape.data[tape.head]
    requires t.out !in tape.alphabet
    ensures Run(m, tape, f) == OutOfFuel(m, tape)
  {
    StepBadWriteRepeats(m, tape, t);
    RepeatingStepNeverStops(m, tape, f);
  }

  /** An engine without a current state does not compute: the run returns at once. */
  lemma HaltedEngineDoesNothing(m: Fsm, tape: Tape, f: nat)
    requires AllDeterministic(m) && Valid(tape) && m.current.None?
    ensures Run(m, tape, f) == Finished(m, tape)
  {
  }
}
