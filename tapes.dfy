/** The tape of a single-tape Turing machine: a finite window of cells over a
    conceptually infinite tape, a blank symbol, and a head position that may
    lie anywhere on the integers (left of the window or past its end).

    The module first gives the tape as a value (TapeView) with the meaning of
    each operation as a function, then the class Tape whose methods update
    the window and the head in place and are proved to agree with those
    functions. */
module Tapes {

  /** The only failure of the tape: move_head with a direction other than
      "L" or "R" raises an error. */
  datatype Error = InvalidDirection(direction: string)

  datatype Result<T> = Ok(value: T) | Err(error: Error)

  datatype Outcome = Pass | Fail(error: Error)

  /** A snapshot of a tape: the stored window, the blank symbol and the head. */
  datatype TapeView = TapeView(cells: seq<char>, blank: char, head: int)

  /** The tape right after construction from a string: the head on cell 0. */
  function Initial(tapeString: string, blank: char): TapeView
  {
    TapeView(tapeString, blank, 0)
  }

  /** The symbol at window index `pos`; every index outside the window
      holds the blank. */
  function SymbolAt(t: TapeView, pos: int): char
  {
    if 0 <= pos < |t.cells| then t.cells[pos] else t.blank
  }

  /** The symbol under the head. */
  function CurrentSymbol(t: TapeView): char
  {
    SymbolAt(t, t.head)
  }

  /** The conceptual infinite tape seen from the head: the symbol `k` cells
      to the right of the head (to the left when `k < 0`). This view does
      not depend on where the window starts, so it is the one that write
      and move must act on as a textbook Turing machine does. */
  function Cell(t: TapeView, k: int): char
  {
    SymbolAt(t, t.head + k)
  }

  /** `n` copies of the blank, as `[blank] * n` builds them. */
  function Blanks(blank: char, n: nat): (r: seq<char>)
    ensures |r| == n
    ensures forall i :: 0 <= i < n ==> r[i] == blank
  {
    if n == 0 then [] else [blank] + Blanks(blank, n - 1)
  }

  /** Writing `s` under the head. The window is widened to the smallest
      range of indices that holds both the old window and the head, the
      new cells are blank, and the head's cell holds `s`. The indices are
      renumbered so that the window starts at 0 again: a head left of the
      window ends on the new cell 0. */
  function Write(t: TapeView, s: char): (r: TapeView)
    ensures r.blank == t.blank
    ensures 0 <= r.head < |r.cells| && r.cells[r.head] == s
    // Left of the window: -head blanks are prepended, the old cells are
    // shifted by -head, the head becomes 0.
    ensures t.head < 0 ==>
      && r.head == 0
      && |r.cells| == |t.cells| - t.head
      && (forall i :: 0 < i < -t.head ==> r.cells[i] == t.blank)
      && (forall i :: 0 <= i < |t.cells| ==> r.cells[i - t.head] == t.cells[i])
    // Inside the window: only the head's cell changes.
    ensures 0 <= t.head < |t.cells| ==>
      && r.head == t.head
      && |r.cells| == |t.cells|
      && (forall i :: 0 <= i < |t.cells| && i != t.head ==> r.cells[i] == t.cells[i])
    // Past the end: head - |cells| + 1 blanks are appended, the old cells
    // keep their indices.
    ensures t.head >= |t.cells| ==>
      && r.head == t.head
      && |r.cells| == t.head + 1
      && r.cells[..|t.cells|] == t.cells
      && (forall i :: |t.cells| <= i < t.head ==> r.cells[i] == t.blank)
  {
    var lo := if t.head < 0 then t.head else 0;
    var hi := if t.head < |t.cells| then |t.cells| else t.head + 1;
    var cells := seq(hi - lo, i =>
                   if i + lo == t.head then s else SymbolAt(t, i + lo));
    assert forall i :: 0 <= i < |cells| ==>
      cells[i] == if i + lo == t.head then s else SymbolAt(t, i + lo);
    assert t.head >= |t.cells| ==> cells[..|t.cells|] == t.cells;
    TapeView(cells, t.blank, t.head - lo)
  }

  /** The head moves one cell: "L" to the left, "R" to the right; any other
      direction is an error and the tape is left as it was. The window is
      never touched. */
  function Move(t: TapeView, direction: string): (r: Result<TapeView>)
    ensures r.Ok? <==> direction == "L" || direction == "R"
    ensures r.Err? ==> r.error == InvalidDirection(direction)
    ensures r.Ok? ==> r.value.cells == t.cells && r.value.blank == t.blank
    ensures direction == "L" ==> r.Ok? && r.value.head == t.head - 1
    ensures direction == "R" ==> r.Ok? && r.value.head == t.head + 1
  {
    if direction == "L" then Ok(t.(head := t.head - 1))
    else if direction == "R" then Ok(t.(head := t.head + 1))
    else Err(InvalidDirection(direction))
  }

  /** How far a valid direction moves the head. */
  function Shift(direction: string): int
  {
    if direction == "L" then -1 else 1
  }

  /** A read right after writing returns the symbol written. */
  lemma ReadAfterWrite(t: TapeView, s: char)
    ensures CurrentSymbol(Write(t, s)) == s
  {
  }

  /** On the conceptual infinite tape a write changes the cell under the
      head and nothing else, whatever renumbering of the window it did. */
  lemma WriteChangesOnlyHeadCell(t: TapeView, s: char, k: int)
    ensures Cell(Write(t, s), k) == if k == 0 then s else Cell(t, k)
  {
  }

  /** On the conceptual infinite tape a move shifts the view by one cell
      and changes no symbol. */
  lemma MoveShiftsView(t: TapeView, direction: string, k: int)
    requires direction == "L" || direction == "R"
    ensures Cell(Move(t, direction).value, k) == Cell(t, k + Shift(direction))
  {
  }

  /** Moving left and then right, or right and then left, restores the tape. */
  lemma MoveLeftRightInverse(t: TapeView)
    ensures Move(Move(t, "L").value, "R") == Ok(t)
    ensures Move(Move(t, "R").value, "L") == Ok(t)
  {
  }

  /** The head is at most one cell outside the window. A tape built from a
      string starts so, and a write followed by a move keeps it so. */
  predicate NearWindow(t: TapeView)
  {
    -1 <= t.head <= |t.cells|
  }

  /** A write on a tape whose head is at most one cell outside the window
      grows the window by at most one cell: the tape grows by at most one
      cell per executed transition. */
  lemma WriteGrowsByAtMostOne(t: TapeView, s: char)
    requires NearWindow(t)
    ensures |Write(t, s).cells| <= |t.cells| + 1
    ensures |Write(t, s).cells| == |t.cells| <==> 0 <= t.head < |t.cells|
  {
  }

  /** A write followed by a valid move keeps the head near the window. */
  lemma WriteMoveNearWindow(t: TapeView, s: char, direction: string)
    requires direction == "L" || direction == "R"
    ensures NearWindow(Write(t, s))
    ensures NearWindow(Move(Write(t, s), direction).value)
  {
  }

  /** The tape object: a list of cells rebuilt or extended by writes, a
      fixed blank symbol, and a head position that moves freely. */
  class Tape {
    var cells: seq<char>
    const blankSymbol: char
    var headPosition: int

    /** The tape's current value. */
    function View(): TapeView
      reads this
    {
      TapeView(cells, blankSymbol, headPosition)
    }

    /** A tape holding `tapeString`, with the head on its first cell. */
    constructor (tapeString: string, blankSymbol: char)
      ensures View() == Initial(tapeString, blankSymbol)
      ensures GetCurrentSymbol() == if tapeString == [] then blankSymbol else tapeString[0]
    {
      cells := tapeString;
      this.blankSymbol := blankSymbol;
      headPosition := 0;
    }

    /** The symbol under the head: the blank when the head is outside the
        stored cells. Reading never extends the tape. */
    function GetCurrentSymbol(): (c: char)
      reads this
      ensures 0 <= headPosition < |cells| ==> c == cells[headPosition]
      ensures headPosition < 0 || headPosition >= |cells| ==> c == blankSymbol
      ensures c == Cell(View(), 0)
    {
      CurrentSymbol(View())
    }

    /** Writes `symbol` under the head, first growing the list of cells so
        that it holds the head: blanks are prepended (and the head reset to
        0) when the head is left of the cells, appended when it is past
        their end. */
    method WriteSymbol(symbol: char)
      modifies this
      ensures View() == Write(old(View()), symbol)
    {
      if headPosition < 0 {
        cells := Blanks(blankSymbol, -headPosition) + cells;
        headPosition := 0;
      } else if headPosition >= |cells| {
        cells := cells + Blanks(blankSymbol, headPosition - |cells| + 1);
      }
      cells := cells[headPosition := symbol];
      ghost var w := Write(old(View()), symbol);
      assert |cells| == |w.cells|;
      forall i | 0 <= i < |cells| ensures cells[i] == w.cells[i] {
        if i != headPosition && old(headPosition) >= 0 {
          if i < |old(cells)| {
            assert cells[i] == old(cells)[i];
          } else {
            assert cells[i] == blankSymbol;
          }
        }
      }
    }

    /** Moves the head one cell left ("L") or right ("R"). Any other
        direction fails with InvalidDirection and leaves the tape alone.
        The cells never change. */
    method MoveHead(direction: string) returns (r: Outcome)
      modifies this
      ensures r == Pass <==> Move(old(View()), direction).Ok?
      ensures r == Pass ==> View() == Move(old(View()), direction).value
      ensures r.Fail? ==> r.error == Move(old(View()), direction).error && View() == old(View())
    {
      if direction == "L" {
        headPosition := headPosition - 1;
        r := Pass;
      } else if direction == "R" {
        headPosition := headPosition + 1;
        r := Pass;
      } else {
        r := Fail(InvalidDirection(direction));
      }
    }

    /** The cells joined into a string: with the head placed on index `i`,
        the string's `i`-th character is what the head would read. */
    function GetTapeContents(): (s: string)
      reads this
      ensures |s| == |cells|
      ensures forall i :: 0 <= i < |s| ==> s[i] == SymbolAt(View(), i)
    {
      cells
    }
  }
}
