/** `get_puzzle` (app/api/routes.py): the detail view of one puzzle, with
    its players filed under their teams. */
module RoutesDetail {
  import opened Wrappers
  import opened PyDict
  import opened RoutesDb

  /** One entry as the handler's loop builds it: `start_square` is the
      lookup's answer, which is None for a player without a start row. */
  datatype PlayerOut = PlayerOut(id: Uuid, playerLabel: string, startSquare: Option<int>, hasBall: bool, locked: bool, indicator: Option<string>)

  datatype TeamOut = TeamOut(color: string, players: seq<PlayerOut>)

  datatype GridOut = GridOut(rows: int, cols: int, totalSquares: int)

  datatype PuzzleDetail = PuzzleDetail(
    id: Uuid,
    title: string,
    description: Option<string>,
    teamName: string,
    hint: Option<string>,
    format: string,
    mode: string,
    grid: GridOut,
    teamA: TeamOut,
    teamB: TeamOut)

  /** The grid the detail view announces. */
  const DetailGrid: GridOut := GridOut(9, 7, 63)

  /** The ids of the players with a locked position. */
  function LockedIds(locked: seq<PositionRow>): (ids: set<Uuid>)
    ensures forall id :: id in ids <==> exists q :: q in locked && q.playerId == id
  {
    if locked == [] then {} else {locked[0].playerId} + LockedIds(locked[1..])
  }

  /** One entry of `teams[player.team]["players"]`. */
  function Project(puzzle: PuzzleRow, starts: Dict<Uuid, int>, locked: set<Uuid>, p: PlayerRow): PlayerOut {
    PlayerOut(p.id, p.playerLabel, Get(starts, p.id), Some(p.id) == puzzle.ballCarrierId, p.id in locked, p.indicator)
  }

  /** The players of `team`, projected, in query order. */
  function TeamList(puzzle: PuzzleRow, starts: Dict<Uuid, int>, locked: set<Uuid>, ps: seq<PlayerRow>, team: string): seq<PlayerOut>
    decreases |ps|
  {
    if ps == [] then []
    else
      var last := ps[|ps| - 1];
      TeamList(puzzle, starts, locked, ps[..|ps| - 1], team) + (if last.team == team then [Project(puzzle, starts, locked, last)] else [])
  }

  /** `teams[player.team]` raises `KeyError` for any other team. */
  predicate KnownTeams(ps: seq<PlayerRow>) {
    forall i :: 0 <= i < |ps| ==> ps[i].team == "A" || ps[i].team == "B"
  }

  /** The response model declares `start_square: int`, so FastAPI's
      validation of the returned value fails (a 500) unless every player of
      the puzzle has a start row. */
  predicate AllStarted(starts: Dict<Uuid, int>, ps: seq<PlayerRow>) {
    forall i :: 0 <= i < |ps| ==> Get(starts, ps[i].id).Some?
  }

  function DetailSpec(puzzles: seq<PuzzleRow>, players: seq<PlayerRow>, positions: seq<PositionRow>, puzzleId: Uuid): Result<PuzzleDetail, HttpError> {
    match FindPuzzle(puzzles, puzzleId)
    case None => Err(PuzzleNotFound)
    case Some(pz) =>
      var ps := PlayersOf(players, pz.id);
      var starts := SquareLookup(PositionsOf(positions, pz.id, "start"));
      var locked := LockedIds(PositionsOf(positions, pz.id, "locked"));
      if !KnownTeams(ps) || !AllStarted(starts, ps) then Err(InternalError)
      else Ok(PuzzleDetail(pz.id, pz.title, pz.description, pz.teamName, pz.hint, pz.format, pz.mode, DetailGrid,
                           TeamOut(pz.teamAColor, TeamList(pz, starts, locked, ps, "A")),
                           TeamOut(pz.teamBColor, TeamList(pz, starts, locked, ps, "B"))))
  }

  /** A team's list holds exactly the projections of that team's players,
      and the two lists of known teams share out all players. */
  lemma {:induction false} TeamListExact(puzzle: PuzzleRow, starts: Dict<Uuid, int>, locked: set<Uuid>, ps: seq<PlayerRow>, team: string)
    ensures forall o :: o in TeamList(puzzle, starts, locked, ps, team) <==>
              exists i :: 0 <= i < |ps| && ps[i].team == team && o == Project(puzzle, starts, locked, ps[i])
    ensures KnownTeams(ps) ==> |TeamList(puzzle, starts, locked, ps, "A")| + |TeamList(puzzle, starts, locked, ps, "B")| == |ps|
    decreases |ps|
  {
    if ps != [] {
      var front := ps[..|ps| - 1];
      TeamListExact(puzzle, starts, locked, front, team);
      assert forall i :: 0 <= i < |front| ==> front[i] == ps[i];
      if KnownTeams(ps) {
        assert KnownTeams(front);
      }
    }
  }

  /** Each player's entry: `has_ball` exactly for the ball carrier, `locked`
      exactly when a locked row names it, the start square of the last
      start row that names it, and its own id, label and indicator. */
  lemma ProjectExact(puzzle: PuzzleRow, starts: seq<PositionRow>, locked: seq<PositionRow>, p: PlayerRow)
    ensures var o := Project(puzzle, SquareLookup(starts), LockedIds(locked), p);
            o.id == p.id && o.playerLabel == p.playerLabel && o.indicator == p.indicator
            && (o.hasBall <==> puzzle.ballCarrierId == Some(p.id))
            && (o.locked <==> exists q :: q in locked && q.playerId == p.id)
            && o.startSquare == LastValue(SquarePairs(starts), p.id)
  {
    GetFromPairs(SquarePairs(starts), p.id);
  }

  /** No puzzle is a 404. A found puzzle is a 500 exactly when a player
      belongs to a team other than A or B or has no start row. Otherwise every
      player of the puzzle is filed under its own team with a start square. */
  lemma DetailOutcome(puzzles: seq<PuzzleRow>, players: seq<PlayerRow>, positions: seq<PositionRow>, puzzleId: Uuid)
    ensures FindPuzzle(puzzles, puzzleId).None? ==> DetailSpec(puzzles, players, positions, puzzleId) == Err(PuzzleNotFound)
    ensures FindPuzzle(puzzles, puzzleId).Some? ==>
              var ps := PlayersOf(players, puzzleId);
              var starts := SquareLookup(PositionsOf(positions, puzzleId, "start"));
              (DetailSpec(puzzles, players, positions, puzzleId).Ok? <==> KnownTeams(ps) && AllStarted(starts, ps))
              && (DetailSpec(puzzles, players, positions, puzzleId).Err? ==>
                    DetailSpec(puzzles, players, positions, puzzleId) == Err(InternalError))
    ensures var r := DetailSpec(puzzles, players, positions, puzzleId);
            r.Ok? ==>
              var ps := PlayersOf(players, puzzleId);
              r.value.id == puzzleId && r.value.grid == DetailGrid
              && |r.value.teamA.players| + |r.value.teamB.players| == |ps|
              && (forall o :: o in r.value.teamA.players ==> o.startSquare.Some? && exists p :: p in ps && p.team == "A" && o.id == p.id)
              && (forall o :: o in r.value.teamB.players ==> o.startSquare.Some? && exists p :: p in ps && p.team == "B" && o.id == p.id)
  {
    var r := DetailSpec(puzzles, players, positions, puzzleId);
    if r.Ok? {
      var pz := FindPuzzle(puzzles, puzzleId).value;
      var ps := PlayersOf(players, pz.id);
      var starts := SquareLookup(PositionsOf(positions, pz.id, "start"));
      var locked := LockedIds(PositionsOf(positions, pz.id, "locked"));
      TeamListExact(pz, starts, locked, ps, "A");
      TeamListExact(pz, starts, locked, ps, "B");
    }
  }

  /** With distinct ids, only one player, the ball carrier, has the ball. */
  lemma OneBallCarrier(puzzle: PuzzleRow, starts: Dict<Uuid, int>, locked: set<Uuid>, ps: seq<PlayerRow>, i: int, j: int)
    requires forall a, b :: 0 <= a < b < |ps| ==> ps[a].id != ps[b].id
    requires 0 <= i < |ps| && 0 <= j < |ps|
    requires Project(puzzle, starts, locked, ps[i]).hasBall && Project(puzzle, starts, locked, ps[j]).hasBall
    ensures i == j
  {
  }

  lemma TeamListSnoc(puzzle: PuzzleRow, starts: Dict<Uuid, int>, locked: set<Uuid>, ps: seq<PlayerRow>, team: string, i: int)
    requires 0 <= i < |ps|
    ensures TeamList(puzzle, starts, locked, ps[..i + 1], team) ==
              TeamList(puzzle, starts, locked, ps[..i], team) + (if ps[i].team == team then [Project(puzzle, starts, locked, ps[i])] else [])
  {
    assert ps[..i + 1][..i] == ps[..i];
  }

  /** The `for player in players` loop: it files each player under its team,
      and a player of an unknown team ends the handler with a 500. */
  method SplitTeams(pz: PuzzleRow, starts: Dict<Uuid, int>, locked: set<Uuid>, ps: seq<PlayerRow>)
    returns (r: Option<(seq<PlayerOut>, seq<PlayerOut>)>)
    ensures r.None? <==> !KnownTeams(ps)
    ensures r.Some? ==> r.value == (TeamList(pz, starts, locked, ps, "A"), TeamList(pz, starts, locked, ps, "B"))
  {
    var listA, listB := [], [];
    var i := 0;
    while i < |ps|
      invariant 0 <= i <= |ps|
      invariant forall k :: 0 <= k < i ==> ps[k].team == "A" || ps[k].team == "B"
      invariant listA == TeamList(pz, starts, locked, ps[..i], "A")
      invariant listB == TeamList(pz, starts, locked, ps[..i], "B")
    {
      var player := ps[i];
      TeamListSnoc(pz, starts, locked, ps, "A", i);
      TeamListSnoc(pz, starts, locked, ps, "B", i);
      var entry := Project(pz, starts, locked, player);
      if player.team == "A" {
        listA := listA + [entry];
      } else if player.team == "B" {
        listB := listB + [entry];
      } else {
        return None;
      }
      i := i + 1;
    }
    assert ps[..i] == ps;
    r := Some((listA, listB));
  }

  /** The handler. */
  method GetPuzzle(puzzles: seq<PuzzleRow>, players: seq<PlayerRow>, positions: seq<PositionRow>, puzzleId: Uuid)
    returns (r: Result<PuzzleDetail, HttpError>)
    ensures r == DetailSpec(puzzles, players, positions, puzzleId)
  {
    var found := FindPuzzle(puzzles, puzzleId);
    if found.None? {
      return Err(PuzzleNotFound);
    }
    var pz := found.value;
    var ps := PlayersOf(players, pz.id);
    var starts := SquareLookup(PositionsOf(positions, pz.id, "start"));
    var locked := LockedIds(PositionsOf(positions, pz.id, "locked"));
    var lists := SplitTeams(pz, starts, locked, ps);
    if lists.None? {
      return Err(InternalError);
    }
    if exists i :: 0 <= i < |ps| && Get(starts, ps[i].id).None? {
      return Err(InternalError);
    }
    r := Ok(PuzzleDetail(pz.id, pz.title, pz.description, pz.teamName, pz.hint, pz.format, pz.mode, DetailGrid,
                         TeamOut(pz.teamAColor, lists.value.0), TeamOut(pz.teamBColor, lists.value.1)));
  }
}
