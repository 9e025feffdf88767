/** The drag controller of the pitch (frontend/src/components/Pitch.tsx): the
    `players` and `draggingId` state and the pointer-event handlers that update it.
    The cursor's position arrives already normalised to the board. */
module Pitch {
  import opened Wrappers
  import opened Board
  import PitchGeometry

  /** Whether a token other than the dragged one stands on the cell. */
  predicate Occupied(prev: seq<Token>, draggingId: string, square: int) {
    exists i :: 0 <= i < |prev| && prev[i].id != draggingId && prev[i].square == square
  }

  /** The state update of one pointer move: every token with the dragged id
      takes the target square unless another token already stands there. */
  function MoveResult(prev: seq<Token>, draggingId: string, square: int): seq<Token> {
    var occupied := Occupied(prev, draggingId, square);
    seq(|prev|, i requires 0 <= i < |prev| =>
      if prev[i].id == draggingId then prev[i].(square := if occupied then prev[i].square else square)
      else prev[i])
  }

  /** A move keeps the list's length and order and every field but the square,
      and touches only tokens with the dragged id. */
  lemma MoveKeepsOthers(prev: seq<Token>, d: string, square: int)
    ensures var r := MoveResult(prev, d, square);
            |r| == |prev|
            && (forall i :: 0 <= i < |prev| ==> r[i] == prev[i].(square := r[i].square))
            && (forall i :: 0 <= i < |prev| && prev[i].id != d ==> r[i] == prev[i])
  {
  }

  /** A target held by another token leaves the board as it was; a free target
      receives the dragged token. */
  lemma MoveOccupancy(prev: seq<Token>, d: string, square: int)
    ensures Occupied(prev, d, square) ==> MoveResult(prev, d, square) == prev
    ensures !Occupied(prev, d, square) ==>
              forall i :: 0 <= i < |prev| && prev[i].id == d ==> MoveResult(prev, d, square)[i].square == square
  {
    if Occupied(prev, d, square) {
      var r := MoveResult(prev, d, square);
      assert forall i :: 0 <= i < |prev| ==> r[i] == prev[i];
    }
  }

  /** With unique ids, a move keeps the tokens on pairwise distinct squares. */
  lemma {:induction false} MovePreservesDistinct(prev: seq<Token>, d: string, square: int)
    requires UniqueIds(prev) && DistinctSquares(prev)
    ensures UniqueIds(MoveResult(prev, d, square)) && DistinctSquares(MoveResult(prev, d, square))
  {
    var r := MoveResult(prev, d, square);
    forall i, j | 0 <= i < j < |r| ensures r[i].square != r[j].square {
      if !Occupied(prev, d, square) {
        if prev[i].id == d {
          assert !(prev[j].id != d && prev[j].square == square);
        } else if prev[j].id == d {
          assert !(prev[i].id != d && prev[i].square == square);
        }
      }
    }
  }

  /** The board after a whole drag: the moves of `squares`, in order. */
  function MoveAll(prev: seq<Token>, d: string, squares: seq<int>): seq<Token>
    decreases |squares|
  {
    if squares == [] then prev else MoveAll(MoveResult(prev, d, squares[0]), d, squares[1..])
  }

  /** A token that is not the one being dragged keeps its place through any
      sequence of moves; so a token that can never be picked up (a locked one,
      when the gate refuses it) never moves. */
  lemma {:induction false} MoveAllKeepsOthers(prev: seq<Token>, d: string, squares: seq<int>, i: nat)
    requires i < |prev| && prev[i].id != d
    ensures |MoveAll(prev, d, squares)| == |prev| && MoveAll(prev, d, squares)[i] == prev[i]
    decreases |squares|
  {
    if squares != [] {
      MoveKeepsOthers(prev, d, squares[0]);
      MoveAllKeepsOthers(MoveResult(prev, d, squares[0]), d, squares[1..], i);
    }
  }

  /** One mounted pitch. */
  class PitchBoard {
    const cols: int
    const rows: int
    var players: seq<Token>
    var draggingId: Option<string>

    /** `!draggingId` is true for null and for the empty id. */
    predicate Dragging()
      reads this
    {
      draggingId.Some? && draggingId.value != ""
    }

    /** Mount: the puzzle's grid size, or the default when it is missing or 0, the
        initial players, nothing dragged. */
    constructor (initialPlayers: seq<Token>, gridCols: Option<int>, gridRows: Option<int>)
      ensures cols == (if gridCols.Some? && gridCols.value != 0 then gridCols.value else PitchGeometry.GridCols)
      ensures rows == (if gridRows.Some? && gridRows.value != 0 then gridRows.value else PitchGeometry.GridRows)
      ensures players == initialPlayers && draggingId == None
    {
      cols := if gridCols.Some? && gridCols.value != 0 then gridCols.value else PitchGeometry.GridCols;
      rows := if gridRows.Some? && gridRows.value != 0 then gridRows.value else PitchGeometry.GridRows;
      players := initialPlayers;
      draggingId := None;
    }

    /** The effect that adopts a new `initialPlayers` prop. */
    method Receive(ps: seq<Token>)
      modifies this`players
      ensures players == ps
    {
      players := ps;
    }

    /** `onPointerDown`: the caller's gate may refuse; otherwise the pressed
        token becomes the dragged one, even while another drag is running. */
    method PointerDown(id: string, canDrag: Option<string -> bool>)
      modifies this`draggingId
      ensures canDrag.Some? && !canDrag.value(id) ==> draggingId == old(draggingId)
      ensures !(canDrag.Some? && !canDrag.value(id)) ==> draggingId == Some(id)
    {
      if canDrag.Some? && !canDrag.value(id) {
        return;
      }
      draggingId := Some(id);
    }

    /** `onPointerMove`: without a drag nothing happens; with one, the dragged
        token goes to the cell under the cursor unless it is occupied, and
        the new list is handed to `onPlayerMove`. */
    method PointerMove(normX: real, normY: real) returns (published: Option<seq<Token>>)
      modifies this`players
      ensures !Dragging() ==> players == old(players) && published == None
      ensures Dragging() ==>
                players == MoveResult(old(players), draggingId.value, PitchGeometry.PositionToSquare(normX, normY, cols, rows))
                && published == Some(players)
    {
      if !Dragging() {
        return None;
      }
      var square := PitchGeometry.PositionToSquare(normX, normY, cols, rows);
      players := MoveResult(players, draggingId.value, square);
      published := Some(players);
    }

    /** `onPointerUp`, also bound to pointer leave: the drag ends and the last
        accepted cells stay. */
    method PointerUp()
      modifies this`draggingId
      ensures draggingId == None
    {
      draggingId := None;
    }
  }
}
