/** The engine of a deterministic single-tape Turing machine: one transition
    at a time, or a run bounded by a step budget.

    As for the tape, the meaning of a step and of a run is given first as
    functions on configurations (Transition, RunFrom); the class
    TuringMachine then carries the state in fields, drives a Tape object in
    place, and is proved to agree with those functions. */
module Machines {
  import opened Tapes

  /** The transition table: `(state, symbol read)` maps to
      `(next state, symbol to write, direction)`. A map holds at most one
      entry per key, so the machine is deterministic. */
  type Table = map<(string, char), (string, char, string)>

  /** Everything that changes while the machine runs. */
  datatype Config = Config(state: string, tape: TapeView, steps: nat)

  /** What one call of step does. `Failed` is the error that move_head
      raises for a direction other than "L" or "R". */
  datatype StepOutcome = NoTransition | Stepped | Failed(error: Error)

  datatype StepResult = StepResult(outcome: StepOutcome, config: Config)

  /** How a run ends: normally (final state, budget reached or no
      transition), or with the error raised by a step. */
  datatype RunOutcome = Completed | Raised(error: Error)

  datatype RunResult = RunResult(outcome: RunOutcome, config: Config)

  /** The table entry that applies in `c`, if there is one. */
  predicate HasTransition(c: Config, table: Table)
  {
    (c.state, CurrentSymbol(c.tape)) in table
  }

  /** Every direction in the table is "L" or "R". */
  predicate WellFormed(table: Table)
  {
    forall key :: key in table ==> table[key].2 == "L" || table[key].2 == "R"
  }

  /** One step. Without a table entry for the state and the symbol under
      the head nothing changes. Otherwise the entry's symbol is written,
      the head moves, the state changes and the step is counted. A bad
      direction is discovered only when moving, after the write: the
      written tape is kept while the state and the count are not updated. */
  function Transition(c: Config, table: Table): (r: StepResult)
    ensures r.outcome == NoTransition <==> !HasTransition(c, table)
    ensures r.outcome == NoTransition ==> r.config == c
    ensures r.outcome == Stepped ==>
      var (next, symbol, direction) := table[(c.state, CurrentSymbol(c.tape))];
      && r.config.state == next
      && r.config.steps == c.steps + 1
      && Move(Write(c.tape, symbol), direction) == Ok(r.config.tape)
    ensures r.outcome.Failed? ==>
      var (_, symbol, direction) := table[(c.state, CurrentSymbol(c.tape))];
      && r.outcome.error == InvalidDirection(direction)
      && r.config.state == c.state
      && r.config.steps == c.steps
      && r.config.tape == Write(c.tape, symbol)
    ensures HasTransition(c, table) ==>
      var direction := table[(c.state, CurrentSymbol(c.tape))].2;
      r.outcome == Stepped <==> direction == "L" || direction == "R"
  {
    var key := (c.state, CurrentSymbol(c.tape));
    if key !in table then StepResult(NoTransition, c)
    else
      var (next, symbol, direction) := table[key];
      var written := Write(c.tape, symbol);
      match Move(written, direction)
      case Err(e) => StepResult(Failed(e), c.(tape := written))
      case Ok(moved) => StepResult(Stepped, Config(next, moved, c.steps + 1))
  }

  /** The configuration after applying Transition `n` times. */
  function Iterate(c: Config, table: Table, n: nat): Config
    decreases n
  {
    if n == 0 then c else Iterate(Transition(c, table).config, table, n - 1)
  }

  /** The loop of run goes round at least `n` times from `c`: before each of
      the first `n` steps the state is not final, the count is below the
      budget, and the step succeeds. */
  predicate Unstopped(c: Config, finalStates: set<string>, table: Table, maxSteps: int, n: nat)
    decreases n
  {
    n == 0 ||
    (&& c.state !in finalStates
     && c.steps < maxSteps
     && Transition(c, table).outcome == Stepped
     && Unstopped(Transition(c, table).config, finalStates, table, maxSteps, n - 1))
  }

  /** The run loop: it stops without stepping in a final state or once the
      count has reached the budget, stops when a step finds no transition,
      and passes on the error of a failed step. The configuration it ends
      in is the first one on the machine's own path of transitions where
      one of these happens. */
  function RunFrom(c: Config, finalStates: set<string>, table: Table, maxSteps: int): (r: RunResult)
    ensures r.config.steps >= c.steps
    // a completed run ends after exactly `steps - c.steps` successful steps
    ensures r.outcome == Completed ==>
      var n := r.config.steps - c.steps;
      Unstopped(c, finalStates, table, maxSteps, n) && Iterate(c, table, n) == r.config
    // a raised run fails in the step after the successful ones
    ensures r.outcome.Raised? ==>
      var n := r.config.steps - c.steps;
      var d := Iterate(c, table, n);
      && Unstopped(c, finalStates, table, maxSteps, n)
      && d.state !in finalStates && d.steps < maxSteps
      && Transition(d, table) == StepResult(Failed(r.outcome.error), r.config)
    ensures c.steps <= maxSteps ==> r.config.steps <= maxSteps
    ensures r.outcome == Completed ==>
      || r.config.state in finalStates
      || r.config.steps >= maxSteps
      || !HasTransition(r.config, table)
    ensures r.outcome.Raised? ==>
      r.config.state !in finalStates && r.config.steps < maxSteps
    ensures c.state in finalStates || c.steps >= maxSteps ==> r == RunResult(Completed, c)
    decreases maxSteps - c.steps
  {
    if c.state in finalStates || c.steps >= maxSteps then RunResult(Completed, c)
    else
      var s := Transition(c, table);
      match s.outcome
      case NoTransition => RunResult(Completed, c)
      case Failed(e) => RunResult(Raised(e), s.config)
      case Stepped => RunFrom(s.config, finalStates, table, maxSteps)
  }

  /** A step acts on the conceptual infinite tape as a textbook transition
      does: seen from the new head, the cell the head left holds the written
      symbol and every other cell is as before. */
  lemma TransitionOnInfiniteTape(c: Config, table: Table, k: int)
    requires Transition(c, table).outcome == Stepped
    ensures
      var (_, symbol, direction) := table[(c.state, CurrentSymbol(c.tape))];
      var t := Transition(c, table).config.tape;
      Cell(t, k) == if k + Shift(direction) == 0 then symbol else Cell(c.tape, k + Shift(direction))
  {
    var (_, symbol, direction) := table[(c.state, CurrentSymbol(c.tape))];
    var written := Write(c.tape, symbol);
    MoveShiftsView(written, direction, k);
    WriteChangesOnlyHeadCell(c.tape, symbol, k + Shift(direction));
  }

  /** With a table whose directions are all valid, no run raises. */
  lemma {:induction false} WellFormedRunCompletes(c: Config, finalStates: set<string>, table: Table, maxSteps: int)
    requires WellFormed(table)
    ensures RunFrom(c, finalStates, table, maxSteps).outcome == Completed
    decreases maxSteps - c.steps
  {
    if c.state !in finalStates && c.steps < maxSteps && HasTransition(c, table) {
      var s := Transition(c, table);
      WellFormedRunCompletes(s.config, finalStates, table, maxSteps);
    }
  }

  /** A run starting with the head at most one cell outside the window (as
      every tape built from a string does) keeps it so, and grows the
      window by at most one cell per counted step, plus one for the write
      of a step that raised. */
  lemma {:induction false} RunGrowsTapeByStepCount(c: Config, finalStates: set<string>, table: Table, maxSteps: int)
    requires NearWindow(c.tape)
    ensures
      var r := RunFrom(c, finalStates, table, maxSteps);
      && NearWindow(r.config.tape)
      && |r.config.tape.cells| <= |c.tape.cells| + (r.config.steps - c.steps) + (if r.outcome.Raised? then 1 else 0)
    decreases maxSteps - c.steps
  {
    if c.state !in finalStates && c.steps < maxSteps && HasTransition(c, table) {
      var (_, symbol, direction) := table[(c.state, CurrentSymbol(c.tape))];
      WriteGrowsByAtMostOne(c.tape, symbol);
      var s := Transition(c, table);
      if s.outcome == Stepped {
        WriteMoveNearWindow(c.tape, symbol, direction);
        RunGrowsTapeByStepCount(s.config, finalStates, table, maxSteps);
      } else {
        assert s.config.tape == Write(c.tape, symbol);
      }
    }
  }

  /** The machine object. It drives the tape it was given (the caller keeps
      a reference to the same tape) and counts executed transitions. */
  class TuringMachine {
    const tape: Tape
    var currentState: string
    const finalStates: set<string>
    const transitionFunction: Table
    var stepCount: nat

    /** The machine's current configuration. */
    function Configuration(): Config
      reads this, tape
    {
      Config(currentState, tape.View(), stepCount)
    }

    /** A machine in `initialState` on `tape`, with no step counted yet. */
    constructor (tape: Tape, initialState: string, finalStates: set<string>, transitionFunction: Table)
      ensures this.tape == tape && this.finalStates == finalStates
      ensures this.transitionFunction == transitionFunction
      ensures Configuration() == Config(initialState, tape.View(), 0)
    {
      this.tape := tape;
      currentState := initialState;
      this.finalStates := finalStates;
      this.transitionFunction := transitionFunction;
      stepCount := 0;
    }

    /** Executes one transition, as Transition describes. */
    method Step() returns (r: StepOutcome)
      modifies this, tape
      ensures Transition(old(Configuration()), transitionFunction) == StepResult(r, Configuration())
    {
      var currentSymbol := tape.GetCurrentSymbol();
      var key := (currentState, currentSymbol);
      if key !in transitionFunction {
        return NoTransition;
      }
      var (newState, writeSymbol, direction) := transitionFunction[key];
      tape.WriteSymbol(writeSymbol);
      var moved := tape.MoveHead(direction);
      if moved.Fail? {
        return Failed(moved.error);
      }
      currentState := newState;
      stepCount := stepCount + 1;
      return Stepped;
    }

    /** Steps until the state is final, the count reaches `maxSteps`, or no
        transition applies; a failed step ends the run with its error. */
    method Run(maxSteps: int) returns (r: RunOutcome)
      modifies this, tape
      ensures RunFrom(old(Configuration()), finalStates, transitionFunction, maxSteps)
              == RunResult(r, Configuration())
    {
      r := Completed;
      while currentState !in finalStates && stepCount < maxSteps
        invariant RunFrom(Configuration(), finalStates, transitionFunction, maxSteps)
                  == RunFrom(old(Configuration()), finalStates, transitionFunction, maxSteps)
        decreases maxSteps - stepCount
      {
        var s := Step();
        if s == NoTransition {
          break;
        }
        if s.Failed? {
          return Raised(s.error);
        }
      }
    }

    /** A snapshot of the state, the tape contents and the head position,
        for a caller to display. Together with the blank symbol it gives
        back the whole tape. */
    function GetConfiguration(): (snapshot: (string, string, int))
      reads this, tape
      ensures snapshot.0 == currentState
      ensures TapeView(snapshot.1, tape.blankSymbol, snapshot.2) == tape.View()
    {
      (currentState, tape.GetTapeContents(), tape.headPosition)
    }
  }
}
