/** The playground (frontend/src/Play.tsx): the default layout, a ball that
    snaps to a player's cell when dropped on one, and a ball that follows
    the player who carries it off its cell. */
module Play {
  import opened Wrappers
  import opened Board
  import opened PitchGeometry

  /** The ball: its cell and its position in pitch units. */
  datatype Ball = Ball(square: int, x: real, y: real)

  /** The ball at kick-off, in the middle of the pitch. */
  const CenterBall: Ball := Ball(32, 35.5, 50.0)

  /** The kick-off position is the centre of cell 32, the middle cell of the
      7 by 9 board, and that point lies inside cell 32. */
  lemma CenterBallIsCellCentre()
    ensures CenterBall == Ball(32, CenterX(32), CenterY(32))
    ensures SquareCol(32) == GridCols / 2 && SquareRow(32) == GridRows / 2
    ensures PositionToSquare(CenterBall.x / PitchWidth, CenterBall.y / PitchHeight, GridCols, GridRows) == 32
  {
    CenterRoundTrip(32);
  }

  /** The ball placed at the centre of cell `s`. */
  function BallAt(s: int): Ball {
    Ball(s, CenterX(s), CenterY(s))
  }

  /** `handleBallMove`: snapped to the centre when a token stands on the cell,
      left where it was dropped otherwise. */
  function DroppedBall(players: seq<Token>, square: int, x: real, y: real): (b: Ball)
    ensures b.square == square
    ensures SomeoneOn(players, square) ==> b == BallAt(square)
    ensures !SomeoneOn(players, square) ==> b.x == x && b.y == y
  {
    if SomeoneOn(players, square) then BallAt(square) else Ball(square, x, y)
  }

  /** A snapped ball sits where the board maps back to its own cell. */
  lemma {:induction false} SnappedBallMapsToItsCell(players: seq<Token>, square: int, x: real, y: real)
    requires 1 <= square <= GridCols * GridRows
    requires SomeoneOn(players, square)
    ensures var b := DroppedBall(players, square, x, y);
            PositionToSquare(b.x / PitchWidth, b.y / PitchHeight, GridCols, GridRows) == b.square
  {
    CenterRoundTrip(square);
  }

  /** The test inside `handlePlayerMove`'s `forEach`: the previous token with
      this id stood on the ball's cell as it was before the move, and the
      token now stands elsewhere. */
  predicate Triggers(olds: seq<Token>, ball0: Ball, p: Token) {
    Find(olds, p.id).Some? && Find(olds, p.id).value.square == ball0.square && p.square != ball0.square
  }

  /** The ball after the `forEach` over `updated`: every call to
      `setBallPosition` in one handler is batched, so the last triggering
      token decides, and every test reads the ball as it was before. */
  function Follow(olds: seq<Token>, ball0: Ball, updated: seq<Token>): Ball
    decreases |updated|
  {
    if updated == [] then ball0
    else
      var p := updated[|updated| - 1];
      if Triggers(olds, ball0, p) then BallAt(p.square)
      else Follow(olds, ball0, updated[..|updated| - 1])
  }

  /** The ball stays unless some token triggers; otherwise it ends at the
      centre of the LAST triggering token's new cell. */
  lemma FollowExact(olds: seq<Token>, ball0: Ball, updated: seq<Token>)
    ensures (forall i :: 0 <= i < |updated| ==> !Triggers(olds, ball0, updated[i])) ==> Follow(olds, ball0, updated) == ball0
    ensures forall i :: 0 <= i < |updated| && Triggers(olds, ball0, updated[i])
              && (forall j :: i < j < |updated| ==> !Triggers(olds, ball0, updated[j]))
              ==> Follow(olds, ball0, updated) == BallAt(updated[i].square)
  {
    if forall i :: 0 <= i < |updated| ==> !Triggers(olds, ball0, updated[i]) {
      FollowNoTrigger(olds, ball0, updated);
    }
    forall i | 0 <= i < |updated| && Triggers(olds, ball0, updated[i])
               && (forall j :: i < j < |updated| ==> !Triggers(olds, ball0, updated[j]))
      ensures Follow(olds, ball0, updated) == BallAt(updated[i].square)
    {
      FollowLastTrigger(olds, ball0, updated, i);
    }
  }

  lemma {:induction false} FollowNoTrigger(olds: seq<Token>, ball0: Ball, updated: seq<Token>)
    requires forall i :: 0 <= i < |updated| ==> !Triggers(olds, ball0, updated[i])
    ensures Follow(olds, ball0, updated) == ball0
    decreases |updated|
  {
    if updated != [] {
      var front := updated[..|updated| - 1];
      assert forall i :: 0 <= i < |front| ==> front[i] == updated[i];
      FollowNoTrigger(olds, ball0, front);
    }
  }

  lemma {:induction false} FollowLastTrigger(olds: seq<Token>, ball0: Ball, updated: seq<Token>, i: int)
    requires 0 <= i < |updated| && Triggers(olds, ball0, updated[i])
    requires forall j :: i < j < |updated| ==> !Triggers(olds, ball0, updated[j])
    ensures Follow(olds, ball0, updated) == BallAt(updated[i].square)
    decreases |updated|
  {
    var n := |updated| - 1;
    if i < n {
      var front := updated[..n];
      assert !Triggers(olds, ball0, updated[n]);
      assert front[i] == updated[i];
      assert forall j :: i < j < n ==> front[j] == updated[j];
      FollowLastTrigger(olds, ball0, front, i);
    }
  }

  /** On a valid previous board (unique ids, one token per cell) and a
      report with unique ids, at most one token can trigger: the one that
      stood on the ball's cell. */
  lemma AtMostOneTrigger(olds: seq<Token>, ball0: Ball, updated: seq<Token>, i: int, j: int)
    requires UniqueIds(olds) && DistinctSquares(olds) && UniqueIds(updated)
    requires 0 <= i < |updated| && 0 <= j < |updated|
    requires Triggers(olds, ball0, updated[i]) && Triggers(olds, ball0, updated[j])
    ensures i == j
  {
    var a, b := Find(olds, updated[i].id).value, Find(olds, updated[j].id).value;
    var ka :| 0 <= ka < |olds| && olds[ka] == a;
    var kb :| 0 <= kb < |olds| && olds[kb] == b;
    assert olds[ka].square == olds[kb].square;
    assert ka == kb;
  }

  /** Hence on such boards the ball follows the one token that carried it
      away, and lands inside that token's new cell. */
  lemma BallFollowsCarrier(olds: seq<Token>, ball0: Ball, updated: seq<Token>, i: int)
    requires UniqueIds(olds) && DistinctSquares(olds) && UniqueIds(updated)
    requires 0 <= i < |updated| && Triggers(olds, ball0, updated[i])
    requires 1 <= updated[i].square <= GridCols * GridRows
    ensures Follow(olds, ball0, updated) == BallAt(updated[i].square)
    ensures var b := Follow(olds, ball0, updated);
            PositionToSquare(b.x / PitchWidth, b.y / PitchHeight, GridCols, GridRows) == updated[i].square
  {
    forall j | i < j < |updated| ensures !Triggers(olds, ball0, updated[j]) {
      if Triggers(olds, ball0, updated[j]) {
        AtMostOneTrigger(olds, ball0, updated, i, j);
      }
    }
    FollowExact(olds, ball0, updated);
    CenterRoundTrip(updated[i].square);
  }

  /** A ball on a cell nobody stood on never moves with a player. */
  lemma LooseBallStays(olds: seq<Token>, ball0: Ball, updated: seq<Token>)
    requires !SomeoneOn(olds, ball0.square)
    ensures Follow(olds, ball0, updated) == ball0
  {
    forall i | 0 <= i < |updated| ensures !Triggers(olds, ball0, updated[i]) {
      var r := Find(olds, updated[i].id);
      if r.Some? {
        var k :| 0 <= k < |olds| && olds[k] == r.value;
      }
    }
    FollowExact(olds, ball0, updated);
  }

  /** The playground's state. */
  class Playground {
    var players: seq<Token>
    var ball: Ball

    constructor ()
      ensures players == DefaultLayout && ball == CenterBall
    {
      players, ball := DefaultLayout, CenterBall;
    }

    /** `resetPlayers`. */
    method ResetPlayers()
      modifies this
      ensures players == DefaultLayout && ball == CenterBall
    {
      players, ball := DefaultLayout, CenterBall;
    }

    /** `handleBallMove`, with the cell the board computed for the drop. */
    method HandleBallMove(square: int, x: real, y: real)
      modifies this`ball
      ensures ball == DroppedBall(players, square, x, y)
    {
      if SomeoneOn(players, square) {
        ball := BallAt(square);
      } else {
        ball := Ball(square, x, y);
      }
    }

    /** `handlePlayerMove`: the board takes the report, and the ball is
        moved for every token that carried it off the ball's cell. */
    method HandlePlayerMove(updated: seq<Token>)
      modifies this
      ensures players == updated
      ensures ball == Follow(old(players), old(ball), updated)
    {
      var olds, ball0 := players, ball;
      players := updated;
      var i := 0;
      while i < |updated|
        invariant 0 <= i <= |updated|
        invariant players == updated
        invariant ball == Follow(olds, ball0, updated[..i])
      {
        var player := updated[i];
        var oldPlayer := Find(olds, player.id);
        assert updated[..i + 1][..i] == updated[..i];
        if oldPlayer.Some? && oldPlayer.value.square == ball0.square && player.square != ball0.square {
          ball := BallAt(player.square);
        }
        i := i + 1;
      }
      assert updated[..i] == updated;
    }
  }
}
