/** The player tokens the front end keeps in its `players` state
    (`PlayerState` in Pitch.tsx, CreatePuzzle.tsx, Play.tsx and
    PuzzleSolver.tsx), and the queries over a board that those files share. */
module Board {
  import opened Wrappers
  import PitchGeometry

  /** One token; `displayLabel` is the source's `label`. `team` and `indicator` are optional in the source; `locked`
      is optional too, and an absent flag reads as false wherever it is read,
      so it is a plain boolean here. */
  datatype Token = Token(
    id: string,
    displayLabel: string,
    square: int,
    color: string,
    hasBall: bool,
    team: Option<string>,
    locked: bool,
    indicator: Option<string>)

  /** JavaScript truthiness of an optional string: null, undefined and "" are falsy. */
  predicate Truthy(s: Option<string>) {
    s.Some? && s.value != ""
  }

  /** The first token with the given id, as the source's array lookup by id. */
  function Find(ps: seq<Token>, id: string): (r: Option<Token>)
    ensures r.Some? <==> exists i :: 0 <= i < |ps| && ps[i].id == id
    ensures r.Some? ==> exists i :: 0 <= i < |ps| && ps[i] == r.value && r.value.id == id
                         && forall j :: 0 <= j < i ==> ps[j].id != id
  {
    if ps == [] then None
    else if ps[0].id == id then Some(ps[0])
    else
      var r := Find(ps[1..], id);
      assert forall i :: 0 < i < |ps| ==> ps[1..][i - 1] == ps[i];
      r
  }

  /** Whether some token stands on the given cell. */
  predicate SomeoneOn(ps: seq<Token>, square: int) {
    exists i :: 0 <= i < |ps| && ps[i].square == square
  }

  predicate UniqueIds(ps: seq<Token>) {
    forall i, j :: 0 <= i < j < |ps| ==> ps[i].id != ps[j].id
  }

  predicate DistinctSquares(ps: seq<Token>) {
    forall i, j :: 0 <= i < j < |ps| ==> ps[i].square != ps[j].square
  }

  /** With unique ids, `find` returns the token at the index holding that id. */
  lemma {:induction false} FindUnique(ps: seq<Token>, i: nat)
    requires UniqueIds(ps) && i < |ps|
    ensures Find(ps, ps[i].id) == Some(ps[i])
  {
    if i > 0 {
      assert ps[0].id != ps[i].id;
      FindUnique(ps[1..], i - 1);
    }
  }

  /** The lock gate both the editor's solution step and the solver hand to the
      pitch: a token may be dragged unless the first token with its id is locked.
      An unknown id may be dragged. */
  function DragAllowed(ps: seq<Token>, id: string): (allowed: bool)
    ensures Find(ps, id).None? ==> allowed
    ensures UniqueIds(ps) ==> (allowed <==> forall i :: 0 <= i < |ps| && ps[i].id == id ==> !ps[i].locked)
  {
    FindAllUnique(ps, id);
    match Find(ps, id)
    case None => true
    case Some(t) => !t.locked
  }

  lemma FindAllUnique(ps: seq<Token>, id: string)
    ensures UniqueIds(ps) ==> forall i :: 0 <= i < |ps| && ps[i].id == id ==> Find(ps, id) == Some(ps[i])
  {
    if UniqueIds(ps) {
      forall i | 0 <= i < |ps| && ps[i].id == id ensures Find(ps, id) == Some(ps[i]) {
        FindUnique(ps, i);
      }
    }
  }

  function Red(id: string, displayLabel: string, square: int, hasBall: bool): Token {
    Token(id, displayLabel, square, "#ff0000", hasBall, Some("A"), false, None)
  }

  function Blue(id: string, displayLabel: string, square: int): Token {
    Token(id, displayLabel, square, "#0000ff", false, Some("B"), false, None)
  }

  /** The layout both the editor and the playground start from. */
  const DefaultLayout: seq<Token> := [
    Red("A1", "1", 11, true), Red("A2", "2", 16, false),
    Red("A3", "3", 20, false), Red("A4", "4", 25, false),
    Blue("B1", "1", 53), Blue("B2", "2", 44),
    Blue("B3", "3", 48), Blue("B4", "4", 39)]

  /** The default layout has eight unlocked tokens with unique ids on distinct
      cells of the 7 by 9 board, and A1 is the only one with the ball. */
  lemma DefaultLayoutValid()
    ensures |DefaultLayout| == 8
    ensures UniqueIds(DefaultLayout) && DistinctSquares(DefaultLayout)
    ensures forall t :: t in DefaultLayout ==>
              1 <= t.square <= PitchGeometry.GridCols * PitchGeometry.GridRows && !t.locked
    ensures forall t :: t in DefaultLayout && t.hasBall ==> t.id == "A1"
    ensures Find(DefaultLayout, "A1").Some? && Find(DefaultLayout, "A1").value.hasBall
  {
    DefaultIdsUnique();
    DefaultSquaresDistinct();
    DefaultOnBoard();
    DefaultBallWithA1();
  }

  lemma DefaultIdsUnique()
    ensures UniqueIds(DefaultLayout)
  {
  }

  lemma DefaultSquaresDistinct()
    ensures DistinctSquares(DefaultLayout)
  {
  }

  lemma DefaultOnBoard()
    ensures forall t :: t in DefaultLayout ==>
              1 <= t.square <= PitchGeometry.GridCols * PitchGeometry.GridRows && !t.locked
  {
  }

  lemma DefaultBallWithA1()
    ensures forall t :: t in DefaultLayout && t.hasBall ==> t.id == "A1"
    ensures Find(DefaultLayout, "A1").Some? && Find(DefaultLayout, "A1").value.hasBall
  {
  }
}
