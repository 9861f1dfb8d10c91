# Turing machine engine in Dafny

A model of the execution engine of a small deterministic single-tape Turing
machine simulator (`machine.py`). It has three parts:

- **Tape** (`tapes.dfy`, module `Tapes`). This is a fixed number of cells over
  a closed alphabet, plus one head.
  - The alphabet always contains the blank symbol U+25A1.
  - `Write` accepts only symbols of the alphabet.
  - `MoveHead` accepts only moves of -1, 0 and 1.
  - `MoveHead` and `SetHead` keep the head in `[0, size]`. The head may rest
    one past the last cell. Reading or writing there fails with an index error.
- **Transitions and states** (`transitions.dfy`, module `Transitions`).
  - A transition is a 4-tuple `(inp, out, mv, state)`.
  - A state is a name plus a set of transitions.
  - Adding a transition whose move is outside {-1, 0, 1} fails the assertion.
- **Engine** (`machine.dfy`, module `Machine`). The engine maps state names to
  states and has a current state, which may be absent.
  - `Step` is one round of the `compute` loop: read, find the matching
    transition, then write, move and switch state.
  - `Run` repeats `Step` for at most `fuel` rounds, because a machine need not
    halt.
  - `StepRel` is the same round as a relation. It admits any matching
    transition, because machine.py takes whichever one set iteration yields
    first.

`machine_proofs.dfy` (module `MachineProofs`) states what a round does to the
tape and the engine in each case, and how runs behave as fuel grows.
`scenarios.dfy` (module `Scenarios`) proves where small machines end, one for
each way a run can end. Failures are values of `Outcomes.Result`. Each
`Outcomes.Fault` records the Python exception class machine.py raises, so the
loop's handlers catch exactly what machine.py's handlers catch.

The model follows what machine.py does, which is not always what its
messages and handlers suggest:

- **Invalid write.** The handler prints "Computation halted" (machine.py:77),
  but the loop does not halt. The handler leaves the transition loop with
  `break`, which also skips the loop's `else`, so the current state stays set.
  The next round repeats the same failing write for ever
  (`MachineProofs.BadWriteNeverStops`).
- **Head leaving the tape.** The "Tape head moved off of tape" message
  (machine.py:85) can never print. `move_head` raises a value error, and the
  handler catches only index errors, so the error escapes `compute`
  (`MachineProofs.StepBadMoveEscapes`, `Tapes.MoveHeadRaisesOnlyValueErrors`).
  The write just made stays on the tape.
- **Unknown next state.** The `KeyError` handler (machine.py:91-94) is dead
  code: `set_state` returns `False` and raises nothing. The loop goes on in the
  old state, with the write and the move applied
  (`MachineProofs.StepUnknownStateContinues`).
- **Engine after an escaping exception.** `compute` changes the engine in
  place. When the read's index error or the move's value error escapes, the
  current state is still the failing round's state, not `None`, and the
  registered states are unchanged. A caller reusing the engine resumes from
  there (`Machine.Step`, `Machine.Run`).
- **Right move on a one-cell tape.** The move succeeds, because position 1 =
  size is allowed. The next read then fails with an index error
  (`Scenarios.OneCellRightMoveCrashesOnRead`).
- **Re-registering the current state's name.** `add_state` replaces the entry
  but leaves `current_state` pointing at the old object
  (`Machine.ReRegisteringCurrentIsStale`).
- **A worked example.** On `"101"`, one transition `(1, 0, +1, q0)` leaves
  `"001"` and two blanks on a five-cell tape, with the head on cell 1
  (`Scenarios.BinaryRunHalts`).

## Model

| member | source | states |
|---|---|---|
| Tapes.NewTape | machine.py:7-15 | Construction succeeds iff there is no initial content, or it fits in `size` and uses only symbols of the alphabet or blank. Otherwise the assertion fails. On success: the alphabet is the given symbols plus blank, the head is 0, the tape invariant holds, there are `size` cells for a non-negative size, the initial content comes first and every later cell is blank. |
| Tapes.Write | machine.py:17-20 | A symbol outside the alphabet raises a value error. At the position one past the last cell the list assignment raises an index error. Otherwise only the cell under the head changes, it becomes the symbol, and head, size and alphabet stay the same. The tape invariant is preserved. |
| Tapes.Read | machine.py:22 | Succeeds iff the head is on a cell, and then returns that cell. That symbol is in the alphabet on a valid tape. One past the last cell it raises an index error. |
| Tapes.Display | machine.py:23 | The rendering is the cells in order followed by a line break. |
| Tapes.MoveHead | machine.py:25-33 | Succeeds iff the move is -1, 0 or 1 and the new position lies in `[0, size]`. A bad magnitude and an off-tape target raise different faults. On success the head moves by exactly `mv` and nothing else changes. The tape invariant is preserved. |
| Tapes.SetHead | machine.py:35-39 | Succeeds iff `0 <= pos <= size`, and then puts the head at `pos` and changes nothing else. Otherwise it raises an index error. The tape invariant is preserved. |
| Tapes.WriteThenRead | machine.py:17-22 | Reading after a successful write returns the symbol written. |
| Tapes.WriteWhatIsRead | machine.py:17-22 | Writing back the symbol just read leaves the tape unchanged. |
| Tapes.MoveIsRelativeSetHead | machine.py:25-39 | For a unit move, `move_head(mv)` and `set_head(head + mv)` succeed on the same tapes and give the same tape. |
| Tapes.MoveThenMoveBack | machine.py:25-33 | On a valid tape, a successful move is undone by the opposite move. |
| Tapes.DisplayDeterminesCells | machine.py:23 | Two tapes with the same rendering have the same cells. |
| Tapes.MoveHeadRaisesOnlyValueErrors | machine.py:25-33 | Every failure of `move_head` is a value error, never the index error that the loop's handler expects. |
| Transitions.AddTransition | machine.py:51-53 | Succeeds iff the move is -1, 0 or 1, and then adds exactly that transition and keeps the name. Otherwise the assertion fails. |
| Transitions.NewState | machine.py:44-49 | Adding the given transitions one at a time succeeds iff every move is -1, 0 or 1. The resulting state then has exactly the given name and transitions. |
| Transitions.DeterministicIffSingleMatches | machine.py:72-73 | A state has at most one transition per input symbol iff no symbol read matches two different transitions. |
| Transitions.AddTransitionKeepsDeterminism | machine.py:51-53 | Adding a transition keeps a deterministic state deterministic iff no existing transition on the same symbol differs from it. |
| Machine.NewFsm | machine.py:57-59 | A new engine has no states and no current state. |
| Machine.AddState | machine.py:61 | Registering a state adds or replaces exactly its name's entry. Other entries and the current state stay the same. |
| Machine.SetState | machine.py:63-67 | The flag is true iff the name is registered. Then that state becomes current and the states stay the same. Otherwise nothing changes. |
| Machine.NewFsmInvariants | machine.py:57-59 | A new engine is consistent: states are keyed by their names, and the current state, when set, is the registered one. It is also deterministic. |
| Machine.SetStateInvariants | machine.py:63-67 | Selecting a state, registered or not, keeps engine consistency and determinism. |
| Machine.AddStateConsistency | machine.py:61 | Registering a state keeps a consistent engine consistent iff it does not replace the current state's entry by a different state. |
| Machine.AddStateDeterminism | machine.py:61 | Registering a state keeps a deterministic engine deterministic iff the new state is deterministic. |
| Machine.ReRegisteringCurrentIsStale | machine.py:61 | Re-registering the current state's name with a different state leaves the current state pointing at the replaced one, and the engine is no longer consistent. |
| Machine.Fire | machine.py:74-95 | Once a transition matched: a write outside the alphabet is caught and leaves engine and tape unchanged. A write with the head one past the last cell escapes as an index error. A failed move escapes, as a bad-magnitude or off-tape fault, with the engine unchanged and the write kept. Otherwise the cell under the head becomes `out`, the head moves by `mv`, and the named state becomes current if registered. Otherwise the state stays as it was. The tape invariant is preserved, and the tape keeps its alphabet, size and cell count. |
| Machine.StepRel | machine.py:70-97 | Every outcome the round admits, for any transition order, keeps the tape invariant, the tape's alphabet, size and cell count, and the registered states. An escaping fault leaves the engine as it was. A halt clears the current state and leaves the tape untouched. After a round that continues, the current state is the old one or a registered one. |
| Machine.Step | machine.py:70-97 | One round keeps the tape invariant and the tape's alphabet, size and cell count, and never changes the registered states. An escaping fault leaves the engine exactly as it was. A halt clears the current state and leaves the tape untouched. After a round that continues, the current state is the old one or a registered one. An escaping fault is an index error from the read or a value error from the move. |
| Machine.Run | machine.py:69-99 | A bounded run keeps the tape invariant, and the result tape has the input tape's alphabet, size and cell count. A finished run has no current state and the same states. A run out of fuel still has a current state. Engine consistency is preserved. A crash is only one of the three escaping faults, and leaves the engine with a current state (the failing round's), the same states and determinism intact. |
| MachineProofs.StepFiresTheMatch | machine.py:71-73 | In a deterministic state, the round applies the transition whose input is the symbol read. |
| MachineProofs.StepHaltsIffNoMatch | machine.py:72-97 | A round halts iff the symbol is read and no transition of the current state takes it. The halt clears the current state and leaves the tape untouched. |
| MachineProofs.StepReadOffTape | machine.py:71 | With the head one past the last cell, the read's index error escapes the loop, leaving engine and tape unchanged. |
| MachineProofs.StepApplies | machine.py:73-95 | When the write, the move and the state switch all succeed, the cell under the head becomes `out` and the head moves by `mv`. The named state becomes current. The result equals write-then-move on the old tape. |
| MachineProofs.StepBadWriteRepeats | machine.py:74-79 | A write outside the alphabet is caught. Engine and tape come out of the round unchanged. |
| MachineProofs.StepBadMoveEscapes | machine.py:82-87 | A failed move escapes the loop as a bad-magnitude or off-tape fault. The engine stays in the failing round's state, and the write stays on the tape. |
| MachineProofs.StepUnknownStateContinues | machine.py:89-95 | An unregistered next state raises nothing. The loop continues in the old state with the write and the move applied. |
| MachineProofs.StepIsStepRel | machine.py:72-95 | For a deterministic current state, the relational round admits exactly the outcome `Step` computes, in both directions. |
| MachineProofs.DuplicateInputsAreAmbiguous | machine.py:72-73 | Two transitions on the same symbol let one engine and tape reach two different outcomes. |
| MachineProofs.RunMoreFuel | machine.py:70 | Once a run has stopped, more fuel gives the same result. |
| MachineProofs.RepeatingStepNeverStops | machine.py:70-79 | If a round leads back to the same engine and tape, the run never stops, whatever the fuel. |
| MachineProofs.BadWriteNeverStops | machine.py:70-79 | A matching transition that writes outside the alphabet makes the run spin for ever on an unchanged tape. |
| MachineProofs.HaltedEngineDoesNothing | machine.py:70 | An engine without a current state returns at once and leaves the tape as it was. |
| Scenarios.OneStateEngine | machine.py:61-67 | Registering one state and then selecting it gives an engine with that single state, which is current. |
| Scenarios.BinaryTape | machine.py:7-15 | The five-cell tape over "01" built from "101" holds "101" and two blanks, with the head at 0. |
| Scenarios.BinaryRunHalts | machine.py:69-99 | The one-transition machine on "101" halts normally. It leaves "001" and two blanks, with the head on cell 1. |
| Scenarios.OneCellRightMoveCrashesOnRead | machine.py:70-87 | On a one-cell tape a right move succeeds onto position 1. The next read fails with an index error, leaving the engine in its state. |
| Scenarios.OneCellLeftMoveCrashes | machine.py:82-87 | On a one-cell tape a left move from cell 0 escapes as a value error, with the engine in its state and the write kept. |
| Scenarios.UnknownNextStateHalts | machine.py:89-97 | A transition to an unregistered state keeps its write and stays in the old state. Here it then halts normally. |

## Left out

- `fsm_from_json` (machine.py:105-109): file I/O and JSON decoding belong to a foreign library.
- The `print` calls in `compute` and the trace-line formatting: they are presentation only and do not affect control flow. `display` is modelled as the concatenation of the cells.
- Exceptions are not modelled as Python objects. Each becomes a `Fault` value tagged with its exception class.
- Python's dynamic typing: the `type(t) is Transition` assertion and magnitudes that are not integers (`True == 1`) are ruled out by Dafny's types.
- Symbols are single characters. The alphabet is given as a string, as in machine.py.
- Object identity and aliasing: states are values. A transition added to a state after it was registered or made current is not seen through the engine's references.
- Machine.Step: requires the current state to be deterministic. The general case, where set iteration order decides, is the relation `Machine.StepRel`.
- Machine.Run: is bounded by `fuel`, because `compute` need not terminate; runs longer than the fuel end as `OutOfFuel`. It also requires every registered state to be deterministic, because each round is a `Machine.Step`, which requires it; no relational run over `Machine.StepRel` is modelled.
- Machine.SetState: returns a flag instead of machine.py's `None` on success and `False` on failure.
