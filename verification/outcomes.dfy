/** Failure values shared by the tape, the states and the engine.

    machine.py signals failure with Python exceptions, and which handler (if
    any) catches one depends only on its class. Each `Fault` therefore records
    the exception class machine.py raises, so that the dispatch loop can decide
    "caught" versus "escapes" exactly as machine.py does.
 */
module Outcomes {

  /** The built-in exception classes the engine raises or catches. */
  datatype ExceptionClass = ValueError | IndexError | AssertionError

  /** Every way a tape, state or engine operation can fail. */
  datatype Fault =
    | SymbolNotInAlphabet   // write of a symbol outside the tape's alphabet
    | CellOutOfRange        // read or write with the head one past the last cell
    | MoveNotUnit           // move_head with a magnitude outside {-1, 0, 1}
    | HeadOffTape           // move_head whose target lies outside [0, size]
    | PositionOffTape       // set_head with a position outside [0, size]
    | InitialDataRejected   // the constructor's assertion on the initial content
    | TransitionRejected    // add_transition's assertion on the move
  {
    /** The exception class machine.py raises for this fault. */
    function Class(): ExceptionClass {
      match this
      case SymbolNotInAlphabet | MoveNotUnit | HeadOffTape => ValueError
      case CellOutOfRange | PositionOffTape => IndexError
      case InitialDataRejected | TransitionRejected => AssertionError
    }
  }

  /** An optional value, standing for Python's `None` default arguments and references. */
  datatype Option<+T> = None | Some(value: T)

  /** Either the value an operation produces or the fault it raises. */
  datatype Result<+T> = Success(value: T) | Failure(error: Fault)
}
