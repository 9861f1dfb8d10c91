/** Where small machines end under `Run`, one lemma for each way a run can end. */
module Scenarios {
  import opened Outcomes
  import opened Tapes
  import opened Transitions
  import opened Machine
  import opened MachineProofs

  /** A fresh engine with `q` registered and then made current. */
  function OneStateEngine(q: State): (m: Fsm)
    ensures m.states == map[q.name := q] && m.current == Some(q)
  {
    SetState(AddState(NewFsm(), q), q.name).0
  }

  /** The tape over "01" with five cells, initialised from "101". */
  lemma BinaryTape()
    ensures NewTape("01", 5, Some("101")) == Success(Tape({'0', '1', Blank}, 5, "101" + [Blank, Blank], 0))
  {
    assert "101"[0] == '1' && "101"[1] == '0';
    assert "01"[0] == '0' && "01"[1] == '1';
    assert Symbols("101") == {'1', '0'};
    assert Symbols("01") == {'0', '1'};
    assert Symbols("101") <= Symbols("01") + {Blank};
    assert Blanks(5 - |"101"|) == [Blank, Blank];
    assert Symbols("01") + {Blank} == {'0', '1', Blank};
    var r := NewTape("01", 5, Some("101"));
    assert r.Success?;
    assert r.value.data == "101" + [Blank, Blank];
    assert r.value.alphabet == {'0', '1', Blank};
  }

  /** On "101", the state `q0` with the one transition (1, 0, +1, q0) rewrites the
      first cell, steps right, finds no transition for '0' and halts normally,
      leaving "001" and two blanks with the head on cell 1. */
  lemma BinaryRunHalts(f: nat)
    requires f >= 2
    ensures var q0 := State("q0", {Transition('1', '0', 1, "q0")});
            var m := OneStateEngine(q0);
            Run(m, Tape({'0', '1', Blank}, 5, "101" + [Blank, Blank], 0), f)
              == Finished(m.(current := None), Tape({'0', '1', Blank}, 5, "001" + [Blank, Blank], 1))
  {
    var t := Transition('1', '0', 1, "q0");
    var q0 := State("q0", {t});
    var m := OneStateEngine(q0);
    var tape := Tape({'0', '1', Blank}, 5, "101" + [Blank, Blank], 0);
    var tape' := Tape({'0', '1', Blank}, 5, "001" + [Blank, Blank], 1);
    StepApplies(m, tape, t);
    assert tape.data[0 := '0'] == tape'.data;
    assert Step(m, tape) == Continue(m, tape');
    StepHaltsIffNoMatch(m, tape');
    assert Run(m, tape, 2) == Finished(m.(current := None), tape');
    RunMoreFuel(m, tape, 2, f);
  }

  /** On a one-cell tape a right move is allowed onto position 1 = size, and the
      next read there raises an index error that escapes, with the write kept. */
  lemma OneCellRightMoveCrashesOnRead(f: nat)
    requires f >= 2
    ensures var q := State("q", {Transition(Blank, '1', 1, "q")});
            var m := OneStateEngine(q);
            Run(m, Tape({'0', '1', Blank}, 1, [Blank], 0), f)
              == Crashed(CellOutOfRange, m, Tape({'0', '1', Blank}, 1, ['1'], 1))
  {
    var t := Transition(Blank, '1', 1, "q");
    var q := State("q", {t});
    var m := OneStateEngine(q);
    var tape := Tape({'0', '1', Blank}, 1, [Blank], 0);
    var tape' := Tape({'0', '1', Blank}, 1, ['1'], 1);
    StepApplies(m, tape, t);
    assert Step(m, tape) == Continue(m, tape');
    StepReadOffTape(m, tape');
    assert Run(m, tape, 2) == Crashed(CellOutOfRange, m, tape');
    RunMoreFuel(m, tape, 2, f);
  }

  /** On a one-cell tape a left move from cell 0 raises a value error that escapes. */
  lemma OneCellLeftMoveCrashes(f: nat)
    requires f >= 1
    ensures var q := State("q", {Transition(Blank, '1', -1, "q")});
            var m := OneStateEngine(q);
            Run(m, Tape({'0', '1', Blank}, 1, [Blank], 0), f)
              == Crashed(HeadOffTape, m, Tape({'0', '1', Blank}, 1, ['1'], 0))
  {
    var t := Transition(Blank, '1', -1, "q");
    var q := State("q", {t});
    var m := OneStateEngine(q);
    var tape := Tape({'0', '1', Blank}, 1, [Blank], 0);
    StepBadMoveEscapes(m, tape, t);
    assert Run(m, tape, 1) == Crashed(HeadOffTape, m, Tape({'0', '1', Blank}, 1, ['1'], 0));
    RunMoreFuel(m, tape, 1, f);
  }

  /** A transition to an unregistered state keeps the write, stays in the old
      state, and here halts normally on the next round. */
  lemma UnknownNextStateHalts(f: nat)
    requires f >= 2
    ensures var q := State("q", {Transition(Blank, '0', 0, "nowhere")});
            var m := OneStateEngine(q);
            Run(m, Tape({'0', '1', Blank}, 1, [Blank], 0), f)
              == Finished(m.(current := None), Tape({'0', '1', Blank}, 1, ['0'], 0))
  {
    var t := Transition(Blank, '0', 0, "nowhere");
    var q := State("q", {t});
    var m := OneStateEngine(q);
    var tape := Tape({'0', '1', Blank}, 1, [Blank], 0);
    var tape' := Tape({'0', '1', Blank}, 1, ['0'], 0);
    StepUnknownStateContinues(m, tape, t);
    assert Step(m, tape) == Continue(m, tape');
    StepHaltsIffNoMatch(m, tape');
    assert Run(m, tape, 2) == Finished(m.(current := None), tape');
    RunMoreFuel(m, tape, 2, f);
  }
}
