# Single-tape Turing machine engine, modelled in Dafny

This project models the engine of a deterministic single-tape Turing
machine simulator written in Python (`main.py`). The engine has two parts.

- The **tape** (`Tapes`, `tapes.dfy`) holds a list of single-character
  cells, a blank symbol and an integer head position. The head may stand
  left of the list or past its end. A read outside the list returns the
  blank and changes nothing. A write first grows the list so that it holds
  the head — blanks are prepended and the head reset to 0 when the head is
  left of the list, appended when it is past the end — and then stores the
  symbol. A move changes only the head, by -1 for `"L"` and +1 for `"R"`;
  any other direction is an error.
- The **machine** (`Machines`, `machines.dfy`) holds the tape, the current
  state, the set of final states, the transition table
  `(state, symbol) -> (next state, symbol to write, direction)` and a step
  counter. `step` either finds no table entry and changes nothing, or
  writes, moves, changes state and counts the step. `run(max_steps)` steps
  until the state is final, the count reaches `max_steps`, or `step` finds
  no entry.

Each part is given twice. First as values: `TapeView` and `Config`, with
the meaning of write, move, one step and a whole run as functions
(`Write`, `Move`, `Transition`, `RunFrom`) whose contracts and lemmas state
what the source promises. Then as classes, `Tapes.Tape` and
`Machines.TuringMachine`, whose fields hold the same state and whose methods
update it in place, as the Python objects do. Each method is proved to
leave the object in exactly the state the corresponding function gives.

`Write` is not defined by the Python steps. It is defined as a window: the
smallest range of indices holding both the old cells and the head, blank
where nothing was stored, renumbered to start at 0. The method
`Tape.WriteSymbol` follows the Python steps (prepend or append blanks,
then assign) and is proved equal to it. `Cell(t, k)`, the symbol `k` cells
right of the head, views the tape as the conceptual infinite tape. It does
not depend on how the window is numbered. On that view a write changes
only the cell under the head, a move shifts the view by one, and a step is
the textbook Turing-machine transition (`TransitionOnInfiniteTape`).

`Scenarios` (`scenarios.dfy`) runs the engine on the transition table the
palindrome driver builds, used only as sample data.

Two facts about `main.py` follow from the model:

- A step is not all-or-nothing when the table holds a direction other than
  `"L"` or `"R"`. `step` writes the entry's symbol first (main.py:77) and
  only then calls `move_head` (main.py:79), which raises (main.py:42). The
  tape keeps the write, while the state and the count keep their old
  values (main.py:81-82 are not reached). `Transition` returns `Failed`
  with the written tape, and `RunFrom` ends with `Raised`. With a table
  whose directions are all valid this cannot happen
  (`Machines.WellFormedRunCompletes`).
- The palindrome driver's table rejects the one-letter input `"a"`: state
  `q0` on `'a'` goes straight to `q_reject` (main.py:124). The comment at
  main.py:107 says that the function checks for palindromes. See
  `Scenarios.SingleAIsRejected`.

## Model

| member | source | states |
|---|---|---|
| Tapes.Blanks | main.py:26 | `[blank] * n` is exactly `n` cells, every one the blank |
| Tapes.Write | main.py:20-31 | after a write the head is inside the list and its cell holds the symbol; head left of the list: exactly `-head` blanks are prepended, old cell `i` moves to `i - head`, the head becomes 0; head inside the list: the length is kept and only the head's cell changes; head past the end: exactly `head - len + 1` blanks are appended, the old cells are kept, and the length becomes `head + 1`; the blank is unchanged |
| Tapes.Move | main.py:33-42 | `"L"` lowers the head by one, `"R"` raises it by one, and the cells never change; any other direction is `InvalidDirection`, and only these two directions succeed |
| Tapes.ReadAfterWrite | main.py:16-31 | reading right after a write returns the symbol written |
| Tapes.WriteChangesOnlyHeadCell | main.py:24-31 | on the infinite tape seen from the head, a write changes the cell under the head and no other, whatever the window's renumbering |
| Tapes.MoveShiftsView | main.py:37-40 | on the infinite tape seen from the head, a move shifts the view by one cell and changes no symbol |
| Tapes.MoveLeftRightInverse | main.py:37-40 | moving left then right, or right then left, restores the tape exactly |
| Tapes.WriteGrowsByAtMostOne | main.py:24-30 | with the head at most one cell outside the list, a write grows the list by at most one cell, and keeps its length exactly when the head is inside |
| Tapes.WriteMoveNearWindow | main.py:24-40 | after a write the head is inside the list, and after a following move it is at most one cell outside |
| Tapes.Tape.constructor | main.py:2-10 | the cells are the initial string, the head is 0, and the first read gives the string's first character or the blank when the string is empty |
| Tapes.Tape.GetCurrentSymbol | main.py:12-18 | the blank when the head is negative or past the end, otherwise the cell at the head; it reads the object and changes nothing |
| Tapes.Tape.WriteSymbol | main.py:20-31 | the tape afterwards is exactly `Write` of the tape before |
| Tapes.Tape.MoveHead | main.py:33-42 | succeeds exactly for `"L"` and `"R"` and then leaves the tape `Move` gives; otherwise reports `InvalidDirection` and changes nothing |
| Tapes.Tape.GetTapeContents | main.py:44-48 | one character per cell, the `i`-th being what the head reads at index `i` |
| Machines.Transition | main.py:66-83 | no entry for `(state, symbol under the head)`: outcome `NoTransition` and nothing changes, and only then; an entry with a valid direction: the state becomes the entry's next state, the count rises by exactly one, and the tape is the old tape after writing the entry's symbol and then moving in its direction; a bad direction: the error is `InvalidDirection` of that direction, the tape holds the write, and the state and the count are unchanged |
| Machines.RunFrom | main.py:85-92 | the run stops; a completed run ends after exactly `n` successful transitions from the start (`Iterate`), where `n` is the rise of the count; before each of those steps the state was not final and the count was below `max_steps` (`Unstopped`); the run ends in a final state, with the count at least `max_steps`, or with no entry; a raised run ends in the failed step that follows the successful ones, taken in a non-final state within the budget; the count never decreases, and it ends at most `max_steps` when it started at most `max_steps`; a run that begins final or over budget changes nothing |
| Machines.TransitionOnInfiniteTape | main.py:75-83 | seen from the new head, the cell the head left holds the written symbol and every other cell is as before the step |
| Machines.WellFormedRunCompletes | main.py:85-92 | when every table direction is `"L"` or `"R"`, a run never raises |
| Machines.RunGrowsTapeByStepCount | main.py:85-92 | from a tape whose head is at most one cell outside the list, the list grows by at most one cell per counted step (plus one for a step that raised) and the head stays at most one cell outside |
| Machines.TuringMachine.constructor | main.py:52-64 | the machine keeps the given tape object, final states and table, starts in the initial state, and has counted no step |
| Machines.TuringMachine.Step | main.py:66-83 | the new state, tape and count, and the returned outcome, are exactly what `Transition` gives for the old configuration |
| Machines.TuringMachine.Run | main.py:85-92 | the final state, tape and count, and the outcome, are exactly what `RunFrom` gives for the old configuration |
| Machines.TuringMachine.GetConfiguration | main.py:98-103 | the snapshot holds the current state, and its contents and head position together with the blank give back the whole tape |
| Scenarios.PalindromeTableWellFormed | main.py:121-148 | every direction in the palindrome table is `"L"` or `"R"` |
| Scenarios.EmptyInputAccepted | main.py:113-148 | the tape `"#"` is accepted after exactly one step, head on index 1 |
| Scenarios.SingleAIsRejected | main.py:124 | the input `"a"` ends in `q_reject` after one step |
| Scenarios.AdIsRejected | main.py:124 | the input `"ad"` ends in `q_reject` after one step, within the budget |
| Scenarios.RrIsAccepted | main.py:123-142 | the input `"rr"` is accepted after five steps with both letters blanked |
| Scenarios.RHaltsWithoutTransition | main.py:123-135 | the input `"r"` stops in `q2` with no table entry for the blank, after two steps, below the budget |
| Scenarios.LoopExhaustsBudget | main.py:90-92 | a table that walks right forever stops in a non-final state with the count equal to a budget of three |
| Scenarios.EmptyInputOnObjects | main.py:113-162 | running the objects on `"#"` with the default budget yields the snapshot `("q_accept", "#", 1)` |

## Left out

- `palindrome_checker` (main.py:108-162): it reads a line from the console
  and prints. Its table is reused as constant data in `Scenarios`; the
  reading, lower-casing and stripping of the input are not modelled.
- The `print` calls in `run` (main.py:93-96): console output. `Run`
  returns its outcome and leaves the final configuration in the object,
  which is what the prints report.
- The text formatting of `get_configuration` (main.py:104): the model
  returns the tuple (state, tape contents, head position) instead of a
  formatted string.
- Symbols are single characters (`char`). Python would also accept longer
  strings as symbols; the engine never relies on that.
- The default arguments (`tape_string=""`, `blank_symbol=" "`,
  `max_steps=1000`): Dafny has no default arguments, so callers pass them.
- Raised errors are modelled as returned values (`Outcome`, `StepOutcome`,
  `RunOutcome`) rather than exceptions that unwind the caller.
- Determinism of repeated runs is not stated as a lemma: `RunFrom` is a
  function of the starting configuration, so equal starts give equal ends.
