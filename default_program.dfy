/** The rule table the simulator page opens with (src/pages/Simulator.tsx), which adds 1 to the
    binary number 1011. */
module DefaultProgram {
  import opened Wrappers
  import opened Parser
  import opened Engine

  /** The transition list the parser flattens the default table into: the states in the order
      of their headers, and within each state the keys `0` and `1` (array indices, so listed
      first and in numeric order) before `_`. A rule without `write:` writes back what it
      read. */
  const Transitions: seq<Transition> := [
    Transition("right", "0", "right", "0", R),
    Transition("right", "1", "right", "1", R),
    Transition("right", "_", "carry", "_", L),
    Transition("carry", "0", "done", "1", L),
    Transition("carry", "1", "carry", "0", L),
    Transition("carry", "_", "done", "1", L),
    Transition("done", "0", "done", "0", N),
    Transition("done", "1", "done", "1", N),
    Transition("done", "_", "done", "_", N)
  ]

  /** What the parser returns for the default table: input `1011`, start state `right`. */
  const Table: StateTable := StateTable(Transitions, ["1", "0", "1", "1"], "right")

  /** The page's fields before the first `initialize`. */
  const Fresh: Machine := Machine([], [], 0, "", 0, false, false, None)

  /** The fields after `initialize` and after each of the eight steps that follow: the head runs
      right to the first blank, then carries the 1 back to the left. */
  const M0: Machine := Machine(Transitions, ["1", "0", "1", "1"], 0, "right", 0, false, false, None)
  const M1: Machine := M0.(head := 1, step := 1)
  const M2: Machine := M0.(head := 2, step := 2)
  const M3: Machine := M0.(head := 3, step := 3)
  const M4: Machine := M0.(tape := ["1", "0", "1", "1", "_"], head := 4, step := 4)
  const M5: Machine := M4.(head := 3, state := "carry", step := 5)
  const M6: Machine := M5.(tape := ["1", "0", "1", "0", "_"], head := 2, step := 6)
  const M7: Machine := M5.(tape := ["1", "0", "0", "0", "_"], head := 1, step := 7)
  const M8: Machine := Machine(Transitions, ["1", "1", "0", "0", "_"], 0, "done", 8, true, false, None)

  lemma Started()
    ensures Initialized(Fresh, Table) == M0
  {
  }

  /** Reading `1` or `0` in `right` moves right. */
  lemma ScansRight()
    ensures Stepped(M0, Table) == M1 && Stepped(M1, Table) == M2 && Stepped(M2, Table) == M3
  {
    assert FirstMatch(Transitions, "right", "1") == Some(1);
    assert FirstMatch(Transitions, "right", "0") == Some(0);
  }

  /** The fourth step walks off the end of the tape, which grows by one blank cell. */
  lemma GrowsTape()
    ensures Stepped(M3, Table) == M4
  {
    assert FirstMatch(Transitions, "right", "1") == Some(1);
  }

  /** The blank turns the machine back left into `carry`. */
  lemma TurnsAtBlank()
    ensures Stepped(M4, Table) == M5
  {
    assert FirstMatch(Transitions, "right", "_") == Some(2);
  }

  /** Each `1` becomes `0` while the carry moves left. */
  lemma Carries()
    ensures Stepped(M5, Table) == M6 && Stepped(M6, Table) == M7
  {
    assert FirstMatch(Transitions, "carry", "1") == Some(4);
  }

  /** The first `0` takes the carry and the machine enters `done`, which halts it. */
  lemma TakesCarry()
    ensures Stepped(M7, Table) == M8
  {
    assert FirstMatch(Transitions, "carry", "0") == Some(3);
  }

  /** Eight steps after `initialize`, the machine halts in `done` with `1100` on the tape (and
      the blank cell it grew on reaching the right end) and the head back on cell 0. */
  lemma IncrementsBinary()
    ensures var m := Steps(Initialized(Fresh, Table), Table, 8);
      && m.tape == ["1", "1", "0", "0", "_"] && m.head == 0 && m.state == "done"
      && m.isDone && !m.isRunning && m.step == 8 && m.error == None
  {
    Started();
    ScansRight();
    GrowsTape();
    TurnsAtBlank();
    Carries();
    TakesCarry();
    assert Steps(M8, Table, 0) == M8;
    assert Steps(M7, Table, 1) == M8;
    assert Steps(M6, Table, 2) == M8;
    assert Steps(M5, Table, 3) == M8;
    assert Steps(M4, Table, 4) == M8;
    assert Steps(M3, Table, 5) == M8;
    assert Steps(M2, Table, 6) == M8;
    assert Steps(M1, Table, 7) == M8;
    assert Steps(M0, Table, 8) == M8;
  }

  /** Having halted, the default program stays halted: further steps change nothing. */
  lemma StaysHalted(n: nat)
    ensures Steps(M8, Table, n) == M8
  {
    HaltedRunStaysPut(M8, Table, n);
  }
}
