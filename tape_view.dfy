/** The tape window of src/components/simulator/TuringMachine.tsx: nine cells around the head,
    padded with blanks, and the head's offset inside them. */
module TapeView {

  /** How many cells the window shows. */
  const VisibleCells: nat := 9

  /** `Math.floor(visibleCells / 2)`: how many cells the window keeps left of the head. */
  const HalfVisible: nat := VisibleCells / 2

  /** The first tape cell shown: as many cells left of the head as fit, but never before cell 0. */
  function StartIndex(head: nat): (r: nat)
    ensures r <= head && head - r <= HalfVisible
  {
    if head >= HalfVisible then head - HalfVisible else 0
  }

  /** `Array.prototype.slice(from, to)` with both ends clamped to the length. */
  function Slice(tape: seq<string>, from: nat, to: nat): (r: seq<string>)
    requires from <= to
    ensures |r| <= to - from && (r != [] ==> from + |r| <= |tape|)
    ensures forall k :: 0 <= k < |r| ==> r[k] == tape[from + k]
    ensures from + |r| == to || from + |r| >= |tape|
  {
    var lo := if from <= |tape| then from else |tape|;
    var hi := if to <= |tape| then to else |tape|;
    tape[lo..hi]
  }

  /** What the cell at `k` of the window shows: the tape cell there, or a blank past the end. */
  function CellAt(tape: seq<string>, i: nat): string
  {
    if i < |tape| then tape[i] else "_"
  }

  /** `visibleTape`: the cells from `StartIndex(head)` on, padded with blanks to nine. */
  method VisibleTape(tape: seq<string>, head: nat) returns (visibleTape: seq<string>)
    ensures |visibleTape| == VisibleCells
    ensures forall k :: 0 <= k < VisibleCells ==> visibleTape[k] == CellAt(tape, StartIndex(head) + k)
  {
    var startIndex := StartIndex(head);
    visibleTape := Slice(tape, startIndex, startIndex + VisibleCells);
    while |visibleTape| < VisibleCells
      invariant |visibleTape| <= VisibleCells
      invariant forall k :: 0 <= k < |visibleTape| ==> visibleTape[k] == CellAt(tape, startIndex + k)
      invariant |visibleTape| < VisibleCells ==> startIndex + |visibleTape| >= |tape|
      decreases VisibleCells - |visibleTape|
    {
      visibleTape := visibleTape + ["_"];
    }
  }

  /** The head's position inside the window. */
  function AdjustedHead(head: nat): (offset: nat)
    ensures offset == if head < HalfVisible then head else HalfVisible
    ensures offset < VisibleCells
  {
    head - StartIndex(head)
  }

  /** The window shows the cell under the head at the head's offset: whatever the head reads,
      the arrow points at it. */
  lemma HeadCellShown(tape: seq<string>, head: nat)
    ensures CellAt(tape, StartIndex(head) + AdjustedHead(head)) == CellAt(tape, head)
  {
  }

  /** The window slides with the head: it starts at cell 0 while the head is on one of the first
      five cells, and from then on it keeps the head in its middle cell. */
  lemma WindowFollowsHead(head: nat)
    ensures head <= HalfVisible ==> StartIndex(head) == 0 && AdjustedHead(head) == head
    ensures head >= HalfVisible ==> StartIndex(head + 1) == StartIndex(head) + 1 && AdjustedHead(head) == HalfVisible
  {
  }

  /** A blank cell is drawn empty. */
  function DisplayCell(cell: string): (shown: string)
    ensures cell == "_" ==> shown == ""
    ensures cell != "_" ==> shown == cell
  {
    if cell == "_" then "" else cell
  }
}
