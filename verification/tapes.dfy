/** The tape: a fixed number of cells over a closed alphabet, and one head.

    The head may rest on any cell or one past the last one; reading or writing
    there fails with an index error, exactly as list indexing does in machine.py.
 */
module Tapes {
  import opened Outcomes

  /** The reserved blank symbol (U+25A1, WHITE SQUARE). It is always in the alphabet. */
  const Blank: char := '\U{25A1}'

  /** The set of symbols occurring in a string. */
  function Symbols(s: seq<char>): set<char> {
    set c | c in s
  }

  /** Number of cells a tape of nominal size `size` holds: a negative size yields none. */
  function CellCount(size: int): nat {
    if size < 0 then 0 else size
  }

  /** `n` blank cells (none when `n` is not positive). */
  function Blanks(n: int): seq<char> {
    seq(CellCount(n), _ => Blank)
  }

  /** A tape. `size` is the nominal size the caller gave; `data` holds the cells. */
  datatype Tape = Tape(alphabet: set<char>, size: int, data: seq<char>, head: int)

  /** The tape invariant: blank is a symbol, every cell holds a symbol of the
      alphabet, the cell count follows the size, and `0 <= head <=` the cell count. */
  predicate Valid(t: Tape) {
    && Blank in t.alphabet
    && |t.data| == CellCount(t.size)
    && (forall i :: 0 <= i < |t.data| ==> t.data[i] in t.alphabet)
    && 0 <= t.head <= |t.data|
  }

  /** Builds a tape over `alphabet` plus blank with `size` cells, the first ones
      taken from `init` and the rest blank; the head starts on cell 0. */
  function NewTape(alphabet: seq<char>, size: int, init: Option<seq<char>>): (r: Result<Tape>)
    ensures r.Success? <==>
              (init.None? || (|init.value| <= size && Symbols(init.value) <= Symbols(alphabet) + {Blank}))
    ensures r.Failure? ==> r.error == InitialDataRejected
    ensures r.Success? ==> Valid(r.value)
    ensures r.Success? ==> r.value.head == 0 && r.value.size == size
    ensures r.Success? ==> r.value.alphabet == Symbols(alphabet) + {Blank}
    ensures r.Success? && size >= 0 ==> |r.value.data| == size
    ensures r.Success? && init.Some? ==> r.value.data[..|init.value|] == init.value
    ensures r.Success? ==>
              var filled := if init.Some? then |init.value| else 0;
              forall i :: filled <= i < |r.value.data| ==> r.value.data[i] == Blank
  {
    var symbols := Symbols(alphabet) + {Blank};
    match init
    case None => Success(Tape(symbols, size, Blanks(size), 0))
    case Some(d) =>
      if |d| <= size && Symbols(d) <= symbols then
        var data := d + Blanks(size - |d|);
        assert forall i :: 0 <= i < |data| ==> data[i] in symbols by {
          forall i | 0 <= i < |data|
            ensures data[i] in symbols
          {
            if i < |d| {
              assert d[i] in Symbols(d);
            }
          }
        }
        Success(Tape(symbols, size, data, 0))
      else
        Failure(InitialDataRejected)
  }

  /** Writes `c` into the cell under the head. */
  function Write(t: Tape, c: char): (r: Result<Tape>)
    requires 0 <= t.head
    ensures r.Success? <==> c in t.alphabet && t.head < |t.data|
    ensures c !in t.alphabet ==> r == Failure(SymbolNotInAlphabet)
    ensures c in t.alphabet && t.head >= |t.data| ==> r == Failure(CellOutOfRange)
    ensures r.Success? ==>
              && |r.value.data| == |t.data|
              && r.value.data[t.head] == c
              && (forall i :: 0 <= i < |t.data| && i != t.head ==> r.value.data[i] == t.data[i])
              && r.value.head == t.head && r.value.size == t.size && r.value.alphabet == t.alphabet
    ensures Valid(t) && r.Success? ==> Valid(r.value)
  {
    if c !in t.alphabet then Failure(SymbolNotInAlphabet)
    else if t.head >= |t.data| then Failure(CellOutOfRange)
    else Success(t.(data := t.data[t.head := c]))
  }

  /** The symbol under the head. */
  function Read(t: Tape): (r: Result<char>)
    requires 0 <= t.head
    ensures r.Success? <==> t.head < |t.data|
    ensures r.Failure? ==> r.error == CellOutOfRange
    ensures r.Success? ==> r.value == t.data[t.head]
    ensures Valid(t) && r.Success? ==> r.value in t.alphabet
  {
    if t.head < |t.data| then Success(t.data[t.head]) else Failure(CellOutOfRange)
  }

  /** The cells in order, followed by a line break. */
  function Display(t: Tape): (r: string)
    ensures |r| == |t.data| + 1
    ensures r[..|t.data|] == t.data && r[|t.data|] == '\n'
  {
    t.data + "\n"
  }

  /** Moves the head by `mv`, which must be -1, 0 or 1, keeping it within `[0, size]`. */
  function MoveHead(t: Tape, mv: int): (r: Result<Tape>)
    ensures r.Success? <==> mv in {-1, 0, 1} && 0 <= t.head + mv <= t.size
    ensures mv !in {-1, 0, 1} ==> r == Failure(MoveNotUnit)
    ensures mv in {-1, 0, 1} && !(0 <= t.head + mv <= t.size) ==> r == Failure(HeadOffTape)
    ensures r.Success? ==>
              && r.value.head == t.head + mv
              && r.value.data == t.data && r.value.size == t.size && r.value.alphabet == t.alphabet
    ensures Valid(t) && r.Success? ==> Valid(r.value)
  {
    if mv !in {-1, 0, 1} then Failure(MoveNotUnit)
    else if !(0 <= t.head + mv <= t.size) then Failure(HeadOffTape)
    else Success(t.(head := t.head + mv))
  }

  /** Puts the head at `pos`, which must lie within `[0, size]`. */
  function SetHead(t: Tape, pos: int): (r: Result<Tape>)
    ensures r.Success? <==> 0 <= pos <= t.size
    ensures r.Failure? ==> r.error == PositionOffTape
    ensures r.Success? ==>
              && r.value.head == pos
              && r.value.data == t.data && r.value.size == t.size && r.value.alphabet == t.alphabet
    ensures Valid(t) && r.Success? ==> Valid(r.value)
  {
    if 0 <= pos <= t.size then Success(t.(head := pos)) else Failure(PositionOffTape)
  }

  /** Reading back a successful write yields the symbol written. */
  lemma WriteThenRead(t: Tape, c: char)
    requires 0 <= t.head
    requires Write(t, c).Success?
    ensures Read(Write(t, c).value) == Success(c)
  {
  }

  /** Writing the symbol already under the head leaves the tape as it was. */
  lemma WriteWhatIsRead(t: Tape)
    requires Valid(t) && Read(t).Success?
    ensures Write(t, Read(t).value) == Success(t)
  {
    assert t.data[t.head := t.data[t.head]] == t.data;
  }

  /** A unit move is a positioning at the neighbouring index: both succeed on the
      same inputs and give the same tape. */
  lemma MoveIsRelativeSetHead(t: Tape, mv: int)
    requires mv in {-1, 0, 1}
    ensures MoveHead(t, mv).Success? <==> SetHead(t, t.head + mv).Success?
    ensures MoveHead(t, mv).Success? ==> MoveHead(t, mv).value == SetHead(t, t.head + mv).value
  {
  }

  /** A successful move is undone by the opposite move. */
  lemma MoveThenMoveBack(t: Tape, mv: int)
    requires Valid(t) && MoveHead(t, mv).Success?
    ensures MoveHead(MoveHead(t, mv).value, -mv) == Success(t)
  {
  }

  /** The displayed text determines the cells. */
  lemma DisplayDeterminesCells(t: Tape, u: Tape)
    requires Display(t) == Display(u)
    ensures t.data == u.data
  {
  }

  /** The move handler of the dispatch loop expects an index error, but every
      fault `MoveHead` can raise is a value error. */
  lemma MoveHeadRaisesOnlyValueErrors(t: Tape, mv: int)
    requires MoveHead(t, mv).Failure?
    ensures MoveHead(t, mv).error.Class() == ValueError
  {
  }
}
