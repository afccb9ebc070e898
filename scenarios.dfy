/** Concrete runs of the engine. The table is the one the palindrome driver
    builds (an input string followed by the end marker '#', initial state
    "q0", final states "q_accept" and "q_reject", blank ' '), used here only
    as sample data. */
module Scenarios {
  import opened Tapes
  import opened Machines

  const PalindromeTable: Table := map[
    ("q0", 'r') := ("q1", ' ', "R"),
    ("q0", 'a') := ("q_reject", 'a', "R"),
    ("q0", 'd') := ("q_reject", 'd', "R"),
    ("q0", '#') := ("q_accept", '#', "R"),
    ("q1", 'a') := ("q1", 'a', "R"),
    ("q1", 'd') := ("q1", 'd', "R"),
    ("q1", 'r') := ("q1", 'r', "R"),
    ("q1", '#') := ("q2", '#', "L"),
    ("q2", 'r') := ("q3", ' ', "L"),
    ("q2", 'a') := ("q_reject", 'a', "L"),
    ("q2", 'd') := ("q_reject", 'd', "L"),
    ("q3", 'a') := ("q4", 'a', "L"),
    ("q3", 'd') := ("q_reject", 'd', "L"),
    ("q3", ' ') := ("q_accept", ' ', "R"),
    ("q4", 'a') := ("q0", 'a', "R"),
    ("q4", 'd') := ("q_reject", 'd', "L"),
    ("q4", ' ') := ("q_reject", ' ', "R")
  ]

  const PalindromeFinals: set<string> := {"q_accept", "q_reject"}

  /** The configuration the driver starts from for `input`. */
  function Start(input: string): Config
  {
    Config("q0", Initial(input + "#", ' '), 0)
  }

  /** The run the driver performs, with the default budget of 1000 steps. */
  function PalindromeRun(input: string): RunResult
  {
    RunFrom(Start(input), PalindromeFinals, PalindromeTable, 1000)
  }

  lemma PalindromeTableWellFormed()
    ensures WellFormed(PalindromeTable)
  {
  }

  /** Empty input: the transition on '#' accepts after one step. */
  lemma EmptyInputAccepted()
    ensures PalindromeRun("") == RunResult(Completed, Config("q_accept", TapeView("#", ' ', 1), 1))
  {
    var c1 := Transition(Start(""), PalindromeTable).config;
    assert c1 == Config("q_accept", TapeView("#", ' ', 1), 1);
  }

  /** Input "a": the table sends 'a' in state q0 straight to q_reject. */
  lemma SingleAIsRejected()
    ensures PalindromeRun("a").config.state == "q_reject"
    ensures PalindromeRun("a").config.steps == 1
  {
    var c1 := Transition(Start("a"), PalindromeTable).config;
    assert c1.state == "q_reject" && c1.steps == 1;
  }

  /** Input "ad": rejected after one step, far inside the budget. */
  lemma AdIsRejected()
    ensures PalindromeRun("ad").outcome == Completed
    ensures PalindromeRun("ad").config.state == "q_reject"
    ensures PalindromeRun("ad").config.steps == 1 < 1000
  {
    var c1 := Transition(Start("ad"), PalindromeTable).config;
    assert c1.state == "q_reject" && c1.steps == 1;
  }

  /** Input "rr": the head walks to '#', back over both 'r's (blanking
      them) onto the first cell, now blank, and accepts after five steps. */
  lemma RrIsAccepted()
    ensures PalindromeRun("rr") == RunResult(Completed, Config("q_accept", TapeView("  #", ' ', 1), 5))
  {
    var c0 := Start("rr");
    var c1 := Transition(c0, PalindromeTable).config;
    assert c1 == Config("q1", TapeView(" r#", ' ', 1), 1);
    var c2 := Transition(c1, PalindromeTable).config;
    assert c2 == Config("q1", TapeView(" r#", ' ', 2), 2);
    var c3 := Transition(c2, PalindromeTable).config;
    assert c3 == Config("q2", TapeView(" r#", ' ', 1), 3);
    var c4 := Transition(c3, PalindromeTable).config;
    assert c4 == Config("q3", TapeView("  #", ' ', 0), 4);
    var c5 := Transition(c4, PalindromeTable).config;
    assert c5 == Config("q_accept", TapeView("  #", ' ', 1), 5);
    assert RunFrom(c4, PalindromeFinals, PalindromeTable, 1000) == RunResult(Completed, c5);
    assert RunFrom(c3, PalindromeFinals, PalindromeTable, 1000) == RunResult(Completed, c5);
    assert RunFrom(c2, PalindromeFinals, PalindromeTable, 1000) == RunResult(Completed, c5);
    assert RunFrom(c1, PalindromeFinals, PalindromeTable, 1000) == RunResult(Completed, c5);
  }

  /** Input "r": after blanking the 'r' and walking back, state q2 finds a
      blank, for which the table has no entry. The run stops in a state
      that is not final with the count below the budget, which tells this
      halt apart from an exhausted budget. */
  lemma RHaltsWithoutTransition()
    ensures PalindromeRun("r").outcome == Completed
    ensures PalindromeRun("r").config.state !in PalindromeFinals
    ensures PalindromeRun("r").config.steps == 2 < 1000
    ensures !HasTransition(PalindromeRun("r").config, PalindromeTable)
  {
    var c1 := Transition(Start("r"), PalindromeTable).config;
    assert c1 == Config("q1", TapeView(" #", ' ', 1), 1);
    var c2 := Transition(c1, PalindromeTable).config;
    assert c2 == Config("q2", TapeView(" #", ' ', 0), 2);
    assert !HasTransition(c2, PalindromeTable);
    assert RunFrom(c2, PalindromeFinals, PalindromeTable, 1000) == RunResult(Completed, c2);
    assert RunFrom(c1, PalindromeFinals, PalindromeTable, 1000) == RunResult(Completed, c2);
  }

  /** A table that walks right over blanks forever: the run ends when the
      budget of three steps is used up, with the count equal to the budget. */
  lemma LoopExhaustsBudget()
    ensures
      var r := RunFrom(Config("q", Initial("", ' '), 0), {"done"}, map[("q", ' ') := ("q", ' ', "R")], 3);
      r.outcome == Completed && r.config.state == "q" && r.config.steps == 3
  {
    var table := map[("q", ' ') := ("q", ' ', "R")];
    var c1 := Transition(Config("q", Initial("", ' '), 0), table).config;
    assert c1 == Config("q", TapeView(" ", ' ', 1), 1);
    var c2 := Transition(c1, table).config;
    assert c2 == Config("q", TapeView("  ", ' ', 2), 2);
    var c3 := Transition(c2, table).config;
    assert c3.tape.cells == "   " by {
      assert Write(c2.tape, ' ').cells == "   ";
    }
    assert c3 == Config("q", TapeView("   ", ' ', 3), 3);
  }

  /** The driver's use of the objects: build the tape and the machine, run
      with the default budget, and read the result. */
  method EmptyInputOnObjects() returns (snapshot: (string, string, int))
    ensures snapshot == ("q_accept", "#", 1)
  {
    var tape := new Tape("#", ' ');
    var machine := new TuringMachine(tape, "q0", PalindromeFinals, PalindromeTable);
    assert machine.Configuration() == Start("");
    var outcome := machine.Run(1000);
    EmptyInputAccepted();
    snapshot := machine.GetConfiguration();
  }
}
