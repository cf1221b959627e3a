/** The execution engine of src/pages/Simulator.tsx: the fields the page keeps in React state
    and the two handlers `initialize` and `step` that update them.

    `Machine` is the value of those fields and `Initialized`/`Stepped` say what one call of each
    handler makes of it; the class `Simulator` holds the same fields and its methods update them
    one at a time, as the handlers do, with postconditions tying the new fields to those
    functions. Every handler call is one atomic update: React's deferred setters read the
    values the fields had when the handler started, and so does the model. */
module Engine {
  import opened Wrappers
  import opened Parser

  /** The blank the engine uses for missing cells and tape growth. It is fixed: the blank that
      the parser reads from a `blank:` directive is never handed to the engine. */
  const Blank: string := "_"

  /** The final state name that halts the machine whatever the move. */
  const DoneState: string := "done"

  /** What the error banner reports. */
  datatype Failure =
    | NoTransitions
    | NoMatch(state: string, symbol: string)

  /** The fields `initialize` and `step` read and write. */
  datatype Machine = Machine(
    transitions: seq<Transition>,
    tape: seq<string>,
    head: nat,
    state: string,
    step: nat,
    isDone: bool,
    isRunning: bool,
    error: Option<Failure>)

  /** The head is on the tape whenever there is a program to run: `initialize` puts it on cell 0
      of a non-empty tape and every step keeps it there. */
  predicate HeadOnTape(m: Machine)
  {
    m.transitions != [] ==> m.head < |m.tape|
  }

  /** `tape[headPosition] || '_'`: a missing or empty cell reads as the blank. */
  function SymbolAt(tape: seq<string>, head: nat): (s: string)
    ensures s != ""
    ensures head < |tape| && tape[head] != "" ==> s == tape[head]
    ensures head >= |tape| || tape[head] == "" ==> s == Blank
  {
    if head < |tape| && tape[head] != "" then tape[head] else Blank
  }

  predicate Matches(t: Transition, state: string, symbol: string)
  {
    t.currentState == state && t.readSymbol == symbol
  }

  /** `transitions.find(...)`: the position of the first transition for `state` reading
      `symbol`, searching from `i`. */
  function FirstMatchFrom(ts: seq<Transition>, state: string, symbol: string, i: nat): (r: Option<nat>)
    requires i <= |ts|
    ensures r.Some? ==> i <= r.value < |ts| && Matches(ts[r.value], state, symbol)
    ensures r.Some? ==> forall k :: i <= k < r.value ==> !Matches(ts[k], state, symbol)
    ensures r.None? ==> forall k :: i <= k < |ts| ==> !Matches(ts[k], state, symbol)
    decreases |ts| - i
  {
    if i == |ts| then None
    else if Matches(ts[i], state, symbol) then Some(i)
    else FirstMatchFrom(ts, state, symbol, i + 1)
  }

  function FirstMatch(ts: seq<Transition>, state: string, symbol: string): (r: Option<nat>)
    ensures r.Some? ==> r.value < |ts| && Matches(ts[r.value], state, symbol)
    ensures r.Some? ==> forall k :: 0 <= k < r.value ==> !Matches(ts[k], state, symbol)
    ensures r.None? ==> forall k :: 0 <= k < |ts| ==> !Matches(ts[k], state, symbol)
  {
    FirstMatchFrom(ts, state, symbol, 0)
  }

  /** What `initialize` makes of the fields, given what the parser returned for the text. The
      step count, the halted flag and the error are reset first; a table without transitions
      then only sets the error, leaving program, tape, head and state as they were. */
  function Initialized(m: Machine, table: StateTable): Machine
  {
    if table.transitions == [] then
      m.(step := 0, isDone := false, error := Some(NoTransitions))
    else
      m.(transitions := table.transitions, tape := table.initialTape, head := 0,
         state := table.initialState, step := 0, isDone := false, error := None)
  }

  /** Whether a rule writes: an empty write symbol and the symbol `R` are never written. */
  predicate Writes(t: Transition)
  {
    t.writeSymbol != "" && t.writeSymbol != "R"
  }

  /** Whether a rule halts the machine: a move other than `L` or `R`, or the state `done`. */
  predicate Halts(t: Transition)
  {
    t.moveDirection == N || t.nextState == DoneState
  }

  /** The tape after running `t` with the head on cell `head`: the cell takes the write symbol
      when the rule writes, and a move right off the end adds one blank cell. */
  function TapeAfter(tape: seq<string>, head: nat, t: Transition): (r: seq<string>)
    requires head < |tape|
    ensures |r| == |tape| || |r| == |tape| + 1
    ensures forall k :: 0 <= k < |tape| && k != head ==> r[k] == tape[k]
    ensures |r| == |tape| + 1 ==> r[|tape|] == Blank
  {
    var written := if Writes(t) then tape[head := t.writeSymbol] else tape;
    if t.moveDirection == R && head + 1 >= |tape| then written + [Blank] else written
  }

  /** The head after running `t`: one cell left but not past cell 0, one cell right, or
      where it was. */
  function HeadAfter(head: nat, t: Transition): (r: nat)
    ensures r <= head + 1 && head <= r + 1
  {
    match t.moveDirection
    case L => if head == 0 then 0 else head - 1
    case R => head + 1
    case N => head
  }

  /** The fields after the machine runs the rule `t` found for the cell under its head. */
  function Applied(m: Machine, t: Transition): Machine
    requires m.head < |m.tape|
  {
    m.(tape := TapeAfter(m.tape, m.head, t), head := HeadAfter(m.head, t), state := t.nextState,
       step := m.step + 1, isDone := m.isDone || Halts(t), isRunning := m.isRunning && !Halts(t))
  }

  /** What `step` makes of the fields: without a program it initializes; once halted it does
      nothing; without a matching rule it reports the failure and stops running. */
  function Stepped(m: Machine, table: StateTable): Machine
    requires HeadOnTape(m)
  {
    if m.transitions == [] then Initialized(m, table)
    else if m.isDone then m
    else
      var symbol := SymbolAt(m.tape, m.head);
      match FirstMatch(m.transitions, m.state, symbol)
      case None => m.(error := Some(NoMatch(m.state, symbol)), isRunning := false)
      case Some(i) => Applied(m, m.transitions[i])
  }

  // ---------------------------------------------------------------------------------------
  // What initialize and step promise
  // ---------------------------------------------------------------------------------------

  /** A table with transitions starts the machine: the program, the parsed tape and start
      state, the head on cell 0, step 0, not halted, no error. */
  lemma InitializeStarts(m: Machine, table: StateTable)
    requires table.transitions != []
    ensures var m' := Initialized(m, table);
      && m'.transitions == table.transitions && m'.tape == table.initialTape && m'.head == 0
      && m'.state == table.initialState && m'.step == 0 && !m'.isDone && m'.error == None
      && m'.isRunning == m.isRunning
  {
  }

  /** A table without transitions sets the error and resets the step count and the halted flag,
      and leaves program, tape, head and state alone. */
  lemma InitializeWithoutTransitions(m: Machine, table: StateTable)
    requires table.transitions == []
    ensures var m' := Initialized(m, table);
      && m'.error == Some(NoTransitions) && m'.step == 0 && !m'.isDone
      && m'.transitions == m.transitions && m'.tape == m.tape && m'.head == m.head
      && m'.state == m.state && m'.isRunning == m.isRunning
  {
  }

  /** The parser never returns an empty tape, so a successful `initialize` puts the head on the
      tape, and a failed one leaves the head where it was. */
  lemma InitializeKeepsHeadOnTape(m: Machine, code: string)
    requires HeadOnTape(m)
    ensures HeadOnTape(Initialized(m, StateTableOf(code)))
  {
    var config := StructuredSyntax(code);
    assert |InitialTape(config.input)| >= 1;
  }

  /** Initializing twice is initializing once: `initialize` forgets everything the machine did
      since the last one. */
  lemma InitializeIdempotent(m: Machine, table: StateTable)
    ensures Initialized(Initialized(m, table), table) == Initialized(m, table)
  {
  }

  /** No step leaves the tape: the head stays on a cell. */
  lemma StepKeepsHeadOnTape(m: Machine, table: StateTable)
    requires HeadOnTape(m) && |table.initialTape| >= 1
    ensures HeadOnTape(Stepped(m, table))
  {
  }

  /** A step of a halted machine changes nothing. */
  lemma HaltedStaysPut(m: Machine, table: StateTable)
    requires HeadOnTape(m) && m.transitions != [] && m.isDone
    ensures Stepped(m, table) == m
  {
  }

  /** Without a rule for the state and the symbol under the head, a step changes tape, head,
      state and step count not at all; it reports the failure and stops running. */
  lemma NoMatchOnlyReports(m: Machine, table: StateTable)
    requires HeadOnTape(m) && m.transitions != [] && !m.isDone
    requires forall k :: 0 <= k < |m.transitions| ==> !Matches(m.transitions[k], m.state, SymbolAt(m.tape, m.head))
    ensures Stepped(m, table) == m.(error := Some(NoMatch(m.state, SymbolAt(m.tape, m.head))), isRunning := false)
  {
  }

  /** The rule a running machine applies is the first one for its state and the symbol under the
      head. */
  lemma StepUsesFirstRule(m: Machine, table: StateTable, i: nat)
    requires HeadOnTape(m) && m.transitions != [] && !m.isDone
    requires i < |m.transitions| && Matches(m.transitions[i], m.state, SymbolAt(m.tape, m.head))
    requires forall k :: 0 <= k < i ==> !Matches(m.transitions[k], m.state, SymbolAt(m.tape, m.head))
    ensures Stepped(m, table) == Applied(m, m.transitions[i])
  {
  }

  /** A successful step moves to the rule's next state and counts exactly one step; it reports
      no new error and keeps the program. */
  lemma StepAdvances(m: Machine, t: Transition)
    requires m.head < |m.tape|
    ensures var m' := Applied(m, t);
      m'.state == t.nextState && m'.step == m.step + 1 && m'.error == m.error
      && m'.transitions == m.transitions
  {
  }

  /** The cell under the head takes the write symbol unless that is empty or `R`; every other
      cell that was on the tape keeps its contents, and at most one blank cell is added. */
  lemma StepWritesOneCell(m: Machine, t: Transition)
    requires m.head < |m.tape|
    ensures var m' := Applied(m, t);
      && |m.tape| <= |m'.tape| <= |m.tape| + 1
      && m'.tape[m.head] == (if Writes(t) then t.writeSymbol else m.tape[m.head])
      && (forall k :: 0 <= k < |m.tape| && k != m.head ==> m'.tape[k] == m.tape[k])
      && (|m'.tape| == |m.tape| + 1 ==> m'.tape[|m.tape|] == Blank)
  {
  }

  /** A move to the left steps back one cell, but never past cell 0, and never changes the tape
      length. */
  lemma LeftMoveClamps(m: Machine, t: Transition)
    requires m.head < |m.tape| && t.moveDirection == L
    ensures var m' := Applied(m, t);
      m'.head == (if m.head >= 1 then m.head - 1 else 0) && |m'.tape| == |m.tape|
  {
  }

  /** A move to the right steps on one cell and appends exactly one blank cell when it walks off
      the end of the tape, and only then. */
  lemma RightMoveGrows(m: Machine, t: Transition)
    requires m.head < |m.tape| && t.moveDirection == R
    ensures var m' := Applied(m, t);
      && m'.head == m.head + 1
      && (m.head + 1 == |m.tape| <==> |m'.tape| == |m.tape| + 1)
      && (m.head + 1 < |m.tape| <==> |m'.tape| == |m.tape|)
  {
  }

  /** A rule with no move (`N`) leaves the head where it is, never grows the tape, and halts the
      machine. */
  lemma StayKeepsPlace(m: Machine, t: Transition)
    requires m.head < |m.tape| && t.moveDirection == N
    ensures var m' := Applied(m, t);
      m'.head == m.head && |m'.tape| == |m.tape| && m'.isDone && !m'.isRunning
  {
  }

  /** A step halts exactly on a move other than `L` or `R`, or on reaching `done`, and a halting
      step stops the run. Otherwise the halted and running flags stay as they were. */
  lemma StepHalts(m: Machine, t: Transition)
    requires m.head < |m.tape| && !m.isDone
    ensures var m' := Applied(m, t);
      && (m'.isDone <==> Halts(t))
      && (Halts(t) ==> !m'.isRunning)
      && (!Halts(t) ==> m'.isRunning == m.isRunning)
  {
  }

  /** `n` presses of the step button (or ticks of the run timer) in a row. */
  function Steps(m: Machine, table: StateTable, n: nat): (r: Machine)
    requires HeadOnTape(m) && |table.initialTape| >= 1
    ensures HeadOnTape(r)
    decreases n
  {
    if n == 0 then m
    else
      StepKeepsHeadOnTape(m, table);
      Steps(Stepped(m, table), table, n - 1)
  }

  /** Once halted, a machine stays as it is however long it runs. */
  lemma {:induction false} HaltedRunStaysPut(m: Machine, table: StateTable, n: nat)
    requires HeadOnTape(m) && |table.initialTape| >= 1 && m.transitions != [] && m.isDone
    ensures Steps(m, table, n) == m
    decreases n
  {
    if n > 0 {
      HaltedStaysPut(m, table);
      HaltedRunStaysPut(m, table, n - 1);
    }
  }

  /** The step count only grows, by at most one a step, until an `initialize` resets it. */
  lemma {:induction false} RunCountsSteps(m: Machine, table: StateTable, n: nat)
    requires HeadOnTape(m) && |table.initialTape| >= 1 && m.transitions != []
    ensures m.step <= Steps(m, table, n).step <= m.step + n
    decreases n
  {
    if n > 0 {
      var m' := Stepped(m, table);
      StepKeepsHeadOnTape(m, table);
      RunCountsSteps(m', table, n - 1);
    }
  }

  // ---------------------------------------------------------------------------------------
  // The page's fields and handlers
  // ---------------------------------------------------------------------------------------

  /** The rule table the page opens with: binary increment of 1011. */
  const DefaultExample: string :=
    "# Adds 1 to a binary number\ninput: \"1011\"\nblank: \"_\"\nstart state: right\ntable:\n"
    + "  # scan to the rightmost digit\n  right:\n    1: {R: right}\n    0: {R: right}\n    _: {L: carry}\n  \n"
    + "  # then carry the 1\n  carry:\n    1: {write: 0, L: carry}\n    0: {write: 1, L: done}\n    _: {write: 1, L: done}\n  \n"
    + "  # Done state (halts)\n  done:\n    1: {N: done}\n    0: {N: done}\n    _: {N: done}\n"

  /** The simulator page. The speed slider and the debug log are not modelled. */
  class Simulator {
    var stateTable: string
    var tape: seq<string>
    var headPosition: nat
    var currentState: string
    var isRunning: bool
    var transitions: seq<Transition>
    var currentStep: nat
    var errorMessage: Option<Failure>
    var isDone: bool

    function Snapshot(): Machine
      reads this
    {
      Machine(transitions, tape, headPosition, currentState, currentStep, isDone, isRunning, errorMessage)
    }

    predicate Valid()
      reads this
    {
      HeadOnTape(Snapshot())
    }

    /** The initial values of the page's state hooks. */
    constructor ()
      ensures Valid()
      ensures stateTable == DefaultExample
      ensures Snapshot() == Machine([], [], 0, "", 0, false, false, None)
    {
      stateTable := DefaultExample;
      tape := [];
      headPosition := 0;
      currentState := "";
      isRunning := false;
      transitions := [];
      currentStep := 0;
      errorMessage := None;
      isDone := false;
    }

    /** Editing the rule table changes only the text. */
    method SetStateTable(code: string)
      modifies this
      ensures stateTable == code && Snapshot() == old(Snapshot())
    {
      stateTable := code;
    }

    /** `initialize`: parse the rule table and start the machine on it. */
    method Initialize()
      requires Valid()
      modifies this
      ensures Valid()
      ensures stateTable == old(stateTable)
      ensures Snapshot() == Initialized(old(Snapshot()), StateTableOf(stateTable))
    {
      var parsed := ParseStateTable(stateTable);
      Start(parsed);
    }

    /** The rest of `initialize`, once the parser has returned. */
    method Start(parsed: StateTable)
      requires Valid() && |parsed.initialTape| >= 1
      modifies this
      ensures Valid()
      ensures stateTable == old(stateTable)
      ensures Snapshot() == Initialized(old(Snapshot()), parsed)
    {
      errorMessage := None;
      currentStep := 0;
      isDone := false;
      if |parsed.transitions| == 0 {
        errorMessage := Some(NoTransitions);
        return;
      }
      transitions := parsed.transitions;
      tape := parsed.initialTape;
      headPosition := 0;
      currentState := parsed.initialState;
    }

    /** `step`: run one rule of the machine. */
    method Step()
      requires Valid()
      modifies this
      ensures Valid()
      ensures stateTable == old(stateTable)
      ensures Snapshot() == Stepped(old(Snapshot()), StateTableOf(stateTable))
    {
      if |transitions| == 0 {
        Initialize();
        return;
      }
      if isDone {
        return;
      }
      var currentSymbol := SymbolAt(tape, headPosition);
      var found := FirstMatch(transitions, currentState, currentSymbol);
      if found.None? {
        errorMessage := Some(NoMatch(currentState, currentSymbol));
        isRunning := false;
        return;
      }
      Apply(transitions[found.value]);
    }

    /** The part of `step` that runs the rule found for the cell under the head. */
    method Apply(transition: Transition)
      requires headPosition < |tape|
      modifies this
      ensures stateTable == old(stateTable)
      ensures Snapshot() == Applied(old(Snapshot()), transition)
    {
      // The handler reads the tape as it was when the step began; `newTape` has its length.
      var newTape := tape;
      if transition.writeSymbol != "" && transition.writeSymbol != "R" {
        newTape := newTape[headPosition := transition.writeSymbol];
        tape := newTape;
      }
      currentState := transition.nextState;
      if transition.moveDirection == L {
        headPosition := if headPosition == 0 then 0 else headPosition - 1;
      } else if transition.moveDirection == R {
        if headPosition + 1 >= |newTape| {
          tape := newTape + [Blank];
        }
        headPosition := headPosition + 1;
      } else {
        isDone := true;
      }
      currentStep := currentStep + 1;
      if transition.moveDirection == N || transition.nextState == DoneState {
        isDone := true;
        isRunning := false;
      }
    }

    /** The reset button: initialize and stop the run. */
    method Reset()
      requires Valid()
      modifies this
      ensures Valid()
      ensures stateTable == old(stateTable)
      ensures Snapshot() == Initialized(old(Snapshot()), StateTableOf(stateTable)).(isRunning := false)
    {
      Initialize();
      isRunning := false;
    }

    /** The play/pause button, which is disabled once the machine has halted. */
    method ToggleRun()
      requires !isDone
      modifies this
      ensures stateTable == old(stateTable)
      ensures Snapshot() == old(Snapshot()).(isRunning := !old(isRunning))
    {
      isRunning := !isRunning;
    }
  }
}
