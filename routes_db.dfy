/** The rows the server's handlers read and write (app/db/models.py is not
    part of this model: its tables appear here as sequences of rows), the
    lookup of players by label, and the HTTP errors. */
module RoutesDb {
  import opened Wrappers
  import opened PyDict

  /** Every primary key is a UUID; here an opaque number. */
  type Uuid = nat

  datatype PuzzleRow = PuzzleRow(
    id: Uuid,
    title: string,
    description: Option<string>,
    teamName: string,
    hint: Option<string>,
    solutionAnswer: Option<string>,
    format: string,
    mode: string,
    teamAColor: string,
    teamBColor: string,
    ballCarrierId: Option<Uuid>)

  datatype PlayerRow = PlayerRow(id: Uuid, puzzleId: Uuid, team: string, playerLabel: string, indicator: Option<string>)

  datatype PositionRow = PositionRow(puzzleId: Uuid, playerId: Uuid, squareId: int, positionType: string)

  /** An `HTTPException`, or FastAPI's reply to an exception nobody catches (500). */
  datatype HttpError = HttpError(status: int, detail: string)

  const PuzzleNotFound: HttpError := HttpError(404, "Puzzle not found")
  const InternalError: HttpError := HttpError(500, "Internal Server Error")

  /** The first puzzle row with the given id. */
  function FindPuzzle(puzzles: seq<PuzzleRow>, id: Uuid): (r: Option<PuzzleRow>)
    ensures r.Some? <==> exists i :: 0 <= i < |puzzles| && puzzles[i].id == id
    ensures r.Some? ==> exists i :: 0 <= i < |puzzles| && puzzles[i] == r.value && r.value.id == id
                         && forall j :: 0 <= j < i ==> puzzles[j].id != id
  {
    if puzzles == [] then None
    else if puzzles[0].id == id then Some(puzzles[0])
    else
      var r := FindPuzzle(puzzles[1..], id);
      assert forall i :: 0 < i < |puzzles| ==> puzzles[1..][i - 1] == puzzles[i];
      r
  }

  /** The player rows of one puzzle, in table order. */
  function PlayersOf(players: seq<PlayerRow>, puzzleId: Uuid): (r: seq<PlayerRow>)
    ensures |r| <= |players|
  {
    if players == [] then []
    else (if players[0].puzzleId == puzzleId then [players[0]] else []) + PlayersOf(players[1..], puzzleId)
  }

  /** The positions of one puzzle with one `position_type`. */
  function PositionsOf(positions: seq<PositionRow>, puzzleId: Uuid, positionType: string): (r: seq<PositionRow>)
    ensures |r| <= |positions|
  {
    if positions == [] then []
    else
      (if positions[0].puzzleId == puzzleId && positions[0].positionType == positionType then [positions[0]] else [])
      + PositionsOf(positions[1..], puzzleId, positionType)
  }

  /** The queries keep exactly the rows of the puzzle (and type). */
  lemma {:induction false} PlayersOfExact(players: seq<PlayerRow>, puzzleId: Uuid)
    ensures forall p :: p in PlayersOf(players, puzzleId) <==> p in players && p.puzzleId == puzzleId
  {
    if players != [] {
      PlayersOfExact(players[1..], puzzleId);
      assert forall p :: p in players <==> p == players[0] || p in players[1..];
    }
  }

  lemma {:induction false} PositionsOfExact(positions: seq<PositionRow>, puzzleId: Uuid, positionType: string)
    ensures forall q :: q in PositionsOf(positions, puzzleId, positionType) <==>
              q in positions && q.puzzleId == puzzleId && q.positionType == positionType
  {
    if positions != [] {
      PositionsOfExact(positions[1..], puzzleId, positionType);
      assert forall q :: q in positions <==> q == positions[0] || q in positions[1..];
    }
  }

  function SquarePairs(rows: seq<PositionRow>): (r: seq<(Uuid, int)>)
    ensures |r| == |rows| && forall i :: 0 <= i < |rows| ==> r[i] == (rows[i].playerId, rows[i].squareId)
  {
    seq(|rows|, i requires 0 <= i < |rows| => (rows[i].playerId, rows[i].squareId))
  }

  /** Player id to cell, over position rows; a later row wins. */
  function SquareLookup(rows: seq<PositionRow>): Dict<Uuid, int> {
    FromPairs(SquarePairs(rows))
  }

  /** Label to player row; a later row wins. */
  function LabelLookup(players: seq<PlayerRow>): Dict<string, PlayerRow> {
    FromPairs(LabelPairs(players))
  }

  function LabelPairs(players: seq<PlayerRow>): (r: seq<(string, PlayerRow)>)
    ensures |r| == |players| && forall i :: 0 <= i < |players| ==> r[i] == (players[i].playerLabel, players[i])
  {
    seq(|players|, i requires 0 <= i < |players| => (players[i].playerLabel, players[i]))
  }

  /** The lookup knows exactly the players' labels; for a label it holds the
      last player that carries it. */
  lemma LabelLookupExact(players: seq<PlayerRow>, l: string)
    ensures Get(LabelLookup(players), l).Some? <==> exists i :: 0 <= i < |players| && players[i].playerLabel == l
    ensures Get(LabelLookup(players), l).Some? ==>
              exists i :: 0 <= i < |players| && players[i] == Get(LabelLookup(players), l).value && players[i].playerLabel == l
                          && forall j :: i < j < |players| ==> players[j].playerLabel != l
  {
    GetFromPairs(LabelPairs(players), l);
    var ps := LabelPairs(players);
    if Get(LabelLookup(players), l).Some? {
      var v := Get(LabelLookup(players), l).value;
      var i :| 0 <= i < |ps| && ps[i] == (l, v) && forall j :: i < j < |ps| ==> ps[j].0 != l;
      assert players[i] == v;
    }
  }

  /** The id the lookup holds for a label; both handlers reject unknown
      labels before they read it. */
  function IdOf(lookup: Dict<string, PlayerRow>, l: string): Uuid {
    match Get(lookup, l)
    case Some(p) => p.id
    case None => 0
  }

  /** With distinct labels, the lookup of the `k`-th label is the `k`-th player. */
  lemma LabelLookupUnique(players: seq<PlayerRow>, k: int)
    requires forall i, j :: 0 <= i < j < |players| ==> players[i].playerLabel != players[j].playerLabel
    requires 0 <= k < |players|
    ensures Get(LabelLookup(players), players[k].playerLabel) == Some(players[k])
  {
    LabelLookupExact(players, players[k].playerLabel);
  }
}
