/** `create_puzzle` (app/api/routes.py): the puzzle row, its eight players,
    the ball-carrier check and the three lists of positions. The fresh
    UUIDs the database would draw are given as parameters. An error means
    nothing is committed, so the error carries no rows. */
module RoutesCreate {
  import opened Wrappers
  import opened PyDict
  import opened Strings
  import opened Board
  import opened Schemas
  import opened RoutesDb

  /** What one successful call writes. */
  datatype Created = Created(puzzle: PuzzleRow, players: seq<PlayerRow>, positions: seq<PositionRow>)

  const DefaultLabels: seq<string> := ["A1", "A2", "A3", "A4", "B1", "B2", "B3", "B4"]

  function TeamLetter(k: int): string {
    if k < 4 then "A" else "B"
  }

  /** The `k`-th default player: four of team A, then four of team B. */
  function DefaultPlayer(puzzleId: Uuid, ids: seq<Uuid>, k: int): PlayerRow
    requires 0 <= k < |ids|
  {
    PlayerRow(ids[k], puzzleId, TeamLetter(k), TeamLetter(k) + [DigitChar(k % 4 + 1)], None)
  }

  function DefaultPlayers(puzzleId: Uuid, ids: seq<Uuid>): seq<PlayerRow>
    requires |ids| == 8
  {
    seq(8, k requires 0 <= k < 8 => DefaultPlayer(puzzleId, ids, k))
  }

  /** Exactly the labels A1 to A4 and B1 to B4, each filed under its own
      team letter, each with its own fresh id and no indicator. */
  lemma DefaultPlayersShape(puzzleId: Uuid, ids: seq<Uuid>)
    requires |ids| == 8
    ensures var ps := DefaultPlayers(puzzleId, ids);
            |ps| == 8
            && (forall k :: 0 <= k < 8 ==>
                  ps[k].playerLabel == DefaultLabels[k] && ps[k].team == DefaultLabels[k][..1]
                  && ps[k].id == ids[k] && ps[k].puzzleId == puzzleId && ps[k].indicator.None?)
            && (forall i, j :: 0 <= i < j < 8 ==> ps[i].playerLabel != ps[j].playerLabel)
  {
    var ps := DefaultPlayers(puzzleId, ids);
    forall k | 0 <= k < 8 ensures ps[k].playerLabel == DefaultLabels[k] && ps[k].team == DefaultLabels[k][..1] {
      assert ps[k] == DefaultPlayer(puzzleId, ids, k);
    }
  }

  /** The lookup over the new players knows exactly the eight labels, and
      finds the player made for each. */
  lemma DefaultLookup(puzzleId: Uuid, ids: seq<Uuid>, l: string)
    requires |ids| == 8
    ensures var r := Get(LabelLookup(DefaultPlayers(puzzleId, ids)), l);
            (r.Some? <==> l in DefaultLabels)
            && forall k :: 0 <= k < 8 && DefaultLabels[k] == l ==> r == Some(DefaultPlayers(puzzleId, ids)[k])
  {
    DefaultPlayersShape(puzzleId, ids);
    LabelLookupExact(DefaultPlayers(puzzleId, ids), l);
    forall k | 0 <= k < 8 && DefaultLabels[k] == l
      ensures Get(LabelLookup(DefaultPlayers(puzzleId, ids)), l) == Some(DefaultPlayers(puzzleId, ids)[k])
    {
      LabelLookupUnique(DefaultPlayers(puzzleId, ids), k);
    }
  }

  /** The index of the first position whose label the lookup does not know. */
  function FirstUnknown(lookup: Dict<string, PlayerRow>, items: seq<PositionInput>): (r: Option<nat>)
    ensures r.None? <==> forall k :: 0 <= k < |items| ==> Get(lookup, items[k].playerLabel).Some?
    ensures r.Some? ==> r.value < |items| && Get(lookup, items[r.value].playerLabel).None?
                        && forall k :: 0 <= k < r.value ==> Get(lookup, items[k].playerLabel).Some?
  {
    if items == [] then None
    else if Get(lookup, items[0].playerLabel).None? then Some(0)
    else
      var r := FirstUnknown(lookup, items[1..]);
      assert forall k :: 0 < k < |items| ==> items[1..][k - 1] == items[k];
      if r.None? then None else Some(r.value + 1)
  }

  /** The first unknown label of a concatenation is in its first part when
      there is one there, in its second part otherwise. */
  lemma {:induction false} FirstUnknownConcat(lookup: Dict<string, PlayerRow>, a: seq<PositionInput>, b: seq<PositionInput>)
    ensures FirstUnknown(lookup, a + b) ==
              if FirstUnknown(lookup, a).Some? then FirstUnknown(lookup, a)
              else if FirstUnknown(lookup, b).Some? then Some(|a| + FirstUnknown(lookup, b).value)
              else None
  {
    if a == [] {
      assert a + b == b;
    } else {
      assert (a + b)[0] == a[0];
      assert (a + b)[1..] == a[1..] + b;
      FirstUnknownConcat(lookup, a[1..], b);
    }
  }

  /** The rows `save_positions` adds for `items`. */
  function RowsOf(puzzleId: Uuid, lookup: Dict<string, PlayerRow>, items: seq<PositionInput>, positionType: string): (r: seq<PositionRow>)
    ensures |r| == |items|
  {
    seq(|items|, k requires 0 <= k < |items| =>
      PositionRow(puzzleId, IdOf(lookup, items[k].playerLabel), items[k].squareId, positionType))
  }

  /** The indicator a player ends with after the start positions: that of
      the last of its positions with a truthy indicator, else `current`. */
  function IndicatorAfter(items: seq<PositionInput>, l: string, current: Option<string>): Option<string>
    decreases |items|
  {
    if items == [] then current
    else
      var pos := items[|items| - 1];
      if pos.playerLabel == l && Truthy(pos.indicator) then pos.indicator
      else IndicatorAfter(items[..|items| - 1], l, current)
  }

  /** An indicator is only ever taken from a truthy indicator of a start
      position for that player; without one the player keeps its own. */
  lemma {:induction false} IndicatorAfterSource(items: seq<PositionInput>, l: string, current: Option<string>)
    ensures var r := IndicatorAfter(items, l, current);
            r == current || exists k :: 0 <= k < |items| && items[k].playerLabel == l && Truthy(items[k].indicator) && r == items[k].indicator
    ensures (forall k :: 0 <= k < |items| && items[k].playerLabel == l ==> !Truthy(items[k].indicator))
            ==> IndicatorAfter(items, l, current) == current
    decreases |items|
  {
    if items != [] {
      var front := items[..|items| - 1];
      IndicatorAfterSource(front, l, current);
      assert forall k :: 0 <= k < |front| ==> front[k] == items[k];
    }
  }

  /** The players after one batch of positions is saved: only start
      positions touch indicators. */
  function WithIndicators(ps: seq<PlayerRow>, items: seq<PositionInput>, positionType: string): (r: seq<PlayerRow>)
    ensures |r| == |ps|
  {
    if positionType != "start" then ps
    else seq(|ps|, i requires 0 <= i < |ps| => ps[i].(indicator := IndicatorAfter(items, ps[i].playerLabel, ps[i].indicator)))
  }

  /** The indicator of the player with the given label is replaced. */
  function SetIndicator(ps: seq<PlayerRow>, l: string, indicator: Option<string>): (r: seq<PlayerRow>)
    ensures |r| == |ps|
  {
    seq(|ps|, i requires 0 <= i < |ps| => if ps[i].playerLabel == l then ps[i].(indicator := indicator) else ps[i])
  }

  /** `save_positions`: the first unknown label is a 400 naming it;
      otherwise every position becomes a row and the players the new
      indicators. */
  function SaveSpec(puzzleId: Uuid, lookup: Dict<string, PlayerRow>, items: seq<PositionInput>, positionType: string,
                    ps: seq<PlayerRow>, rows: seq<PositionRow>): Result<(seq<PlayerRow>, seq<PositionRow>), HttpError>
  {
    match FirstUnknown(lookup, items)
    case Some(k) => Err(HttpError(400, "Invalid player " + items[k].playerLabel))
    case None => Ok((WithIndicators(ps, items, positionType), rows + RowsOf(puzzleId, lookup, items, positionType)))
  }

  lemma WithIndicatorsSnoc(ps: seq<PlayerRow>, items: seq<PositionInput>, positionType: string, i: int)
    requires 0 <= i < |items|
    ensures WithIndicators(ps, items[..i + 1], positionType) ==
              if positionType == "start" && Truthy(items[i].indicator)
              then SetIndicator(WithIndicators(ps, items[..i], positionType), items[i].playerLabel, items[i].indicator)
              else WithIndicators(ps, items[..i], positionType)
  {
    assert items[..i + 1][..i] == items[..i];
  }

  lemma RowsOfSnoc(puzzleId: Uuid, lookup: Dict<string, PlayerRow>, items: seq<PositionInput>, positionType: string, i: int)
    requires 0 <= i < |items|
    ensures RowsOf(puzzleId, lookup, items[..i + 1], positionType) ==
              RowsOf(puzzleId, lookup, items[..i], positionType)
              + [PositionRow(puzzleId, IdOf(lookup, items[i].playerLabel), items[i].squareId, positionType)]
  {
  }

  /** The `for pos in items` loop of `save_positions`. */
  method SavePositions(puzzleId: Uuid, lookup: Dict<string, PlayerRow>, items: seq<PositionInput>, positionType: string,
                       ps: seq<PlayerRow>, rows: seq<PositionRow>)
    returns (r: Result<(seq<PlayerRow>, seq<PositionRow>), HttpError>)
    ensures r == SaveSpec(puzzleId, lookup, items, positionType, ps, rows)
  {
    var players, written := ps, rows;
    var i := 0;
    while i < |items|
      invariant 0 <= i <= |items|
      invariant forall k :: 0 <= k < i ==> Get(lookup, items[k].playerLabel).Some?
      invariant players == WithIndicators(ps, items[..i], positionType)
      invariant written == rows + RowsOf(puzzleId, lookup, items[..i], positionType)
    {
      var pos := items[i];
      var player := Get(lookup, pos.playerLabel);
      if player.None? {
        assert FirstUnknown(lookup, items).Some?;
        return Err(HttpError(400, "Invalid player " + pos.playerLabel));
      }
      WithIndicatorsSnoc(ps, items, positionType, i);
      RowsOfSnoc(puzzleId, lookup, items, positionType, i);
      if positionType == "start" && Truthy(pos.indicator) {
        players := SetIndicator(players, pos.playerLabel, pos.indicator);
      }
      written := written + [PositionRow(puzzleId, player.value.id, pos.squareId, positionType)];
      i := i + 1;
    }
    assert items[..i] == items;
    return Ok((players, written));
  }

  function PuzzleRowOf(data: PuzzleCreate, puzzleId: Uuid, ballCarrierId: Uuid): PuzzleRow {
    PuzzleRow(puzzleId, data.title, data.description, data.teamName, data.hint, data.solutionAnswer,
              data.format, data.mode, data.teamAColor, data.teamBColor, Some(ballCarrierId))
  }

  /** The whole handler: players, ball carrier, then the start, solution
      and locked positions in that order, stopping at the first error. */
  function CreateSpec(data: PuzzleCreate, puzzleId: Uuid, ids: seq<Uuid>): Result<Created, HttpError>
    requires |ids| == 8
  {
    var players := DefaultPlayers(puzzleId, ids);
    var lookup := LabelLookup(players);
    match Get(lookup, data.ballCarrierLabel)
    case None => Err(HttpError(400, "Invalid ball carrier"))
    case Some(carrier) =>
      match SaveSpec(puzzleId, lookup, data.startingPositions, "start", players, [])
      case Err(e) => Err(e)
      case Ok((ps1, rows1)) =>
        match SaveSpec(puzzleId, lookup, data.solutionPositions, "solution", ps1, rows1)
        case Err(e) => Err(e)
        case Ok((ps2, rows2)) =>
          var saved := if |data.lockedPositions| > 0
                       then SaveSpec(puzzleId, lookup, data.lockedPositions, "locked", ps2, rows2)
                       else Ok((ps2, rows2));
          match saved
          case Err(e) => Err(e)
          case Ok((ps3, rows3)) => Ok(Created(PuzzleRowOf(data, puzzleId, carrier.id), ps3, rows3))
  }

  /** Every position the request names, in the order they are saved. */
  function AllPositions(data: PuzzleCreate): seq<PositionInput> {
    data.startingPositions + data.solutionPositions + data.lockedPositions
  }

  /** A ball carrier outside A1..B4 is a 400 before anything else; a
      puzzle is made only with a known carrier, whose fresh id it records. */
  lemma CreateBallCarrier(data: PuzzleCreate, puzzleId: Uuid, ids: seq<Uuid>)
    requires |ids| == 8
    ensures data.ballCarrierLabel !in DefaultLabels ==> CreateSpec(data, puzzleId, ids) == Err(HttpError(400, "Invalid ball carrier"))
    ensures CreateSpec(data, puzzleId, ids).Ok? ==>
              data.ballCarrierLabel in DefaultLabels
              && forall k :: 0 <= k < 8 && DefaultLabels[k] == data.ballCarrierLabel ==>
                   CreateSpec(data, puzzleId, ids).value.puzzle.ballCarrierId == Some(ids[k])
  {
    DefaultLookup(puzzleId, ids, data.ballCarrierLabel);
    DefaultPlayersShape(puzzleId, ids);
  }

  /** With a known carrier, the three saves fail exactly at the first
      unknown label of all positions in saving order. */
  lemma {:induction false} CreateFailsAtFirstUnknown(data: PuzzleCreate, puzzleId: Uuid, ids: seq<Uuid>)
    requires |ids| == 8
    requires Get(LabelLookup(DefaultPlayers(puzzleId, ids)), data.ballCarrierLabel).Some?
    ensures var r := CreateSpec(data, puzzleId, ids);
            var f := FirstUnknown(LabelLookup(DefaultPlayers(puzzleId, ids)), AllPositions(data));
            (r.Err? <==> f.Some?)
            && (r.Err? ==> r.error == HttpError(400, "Invalid player " + AllPositions(data)[f.value].playerLabel))
  {
    var lookup := LabelLookup(DefaultPlayers(puzzleId, ids));
    var s, t, u := data.startingPositions, data.solutionPositions, data.lockedPositions;
    FirstUnknownConcat(lookup, s, t);
    FirstUnknownConcat(lookup, s + t, u);
    var all := AllPositions(data);
    assert all == (s + t) + u;
    var fs, ft, fu := FirstUnknown(lookup, s), FirstUnknown(lookup, t), FirstUnknown(lookup, u);
    var players := DefaultPlayers(puzzleId, ids);
    if fs.Some? {
      assert all[fs.value] == s[fs.value];
      assert SaveSpec(puzzleId, lookup, s, "start", players, []).Err?;
    } else if ft.Some? {
      assert all[|s| + ft.value] == t[ft.value];
      var (ps1, rows1) := SaveSpec(puzzleId, lookup, s, "start", players, []).value;
      assert SaveSpec(puzzleId, lookup, t, "solution", ps1, rows1).Err?;
    } else if fu.Some? {
      assert all[|s| + |t| + fu.value] == u[fu.value];
      var (ps1, rows1) := SaveSpec(puzzleId, lookup, s, "start", players, []).value;
      var (ps2, rows2) := SaveSpec(puzzleId, lookup, t, "solution", ps1, rows1).value;
      assert SaveSpec(puzzleId, lookup, u, "locked", ps2, rows2).Err?;
    }
  }

  /** With a known carrier, the request fails exactly when some start,
      solution or locked position names a label outside A1..B4, and the
      400 names the first such label in saving order. */
  lemma CreateUnknownLabel(data: PuzzleCreate, puzzleId: Uuid, ids: seq<Uuid>)
    requires |ids| == 8 && data.ballCarrierLabel in DefaultLabels
    ensures var r := CreateSpec(data, puzzleId, ids);
            var all := AllPositions(data);
            (r.Err? <==> exists k :: 0 <= k < |all| && all[k].playerLabel !in DefaultLabels)
            && (r.Err? ==> exists k :: 0 <= k < |all| && all[k].playerLabel !in DefaultLabels
                             && (forall j :: 0 <= j < k ==> all[j].playerLabel in DefaultLabels)
                             && r.error == HttpError(400, "Invalid player " + all[k].playerLabel))
  {
    var lookup := LabelLookup(DefaultPlayers(puzzleId, ids));
    forall l ensures Get(lookup, l).Some? <==> l in DefaultLabels {
      DefaultLookup(puzzleId, ids, l);
    }
    CreateFailsAtFirstUnknown(data, puzzleId, ids);
  }

  /** A successful request writes the start, solution and locked rows in
      that order, each for the player its label names, and gives each
      player the indicator of its last truthy start position. */
  lemma CreateWrites(data: PuzzleCreate, puzzleId: Uuid, ids: seq<Uuid>)
    requires |ids| == 8
    ensures var r := CreateSpec(data, puzzleId, ids);
            var lookup := LabelLookup(DefaultPlayers(puzzleId, ids));
            r.Ok? ==>
              r.value.positions == RowsOf(puzzleId, lookup, data.startingPositions, "start")
                                   + RowsOf(puzzleId, lookup, data.solutionPositions, "solution")
                                   + RowsOf(puzzleId, lookup, data.lockedPositions, "locked")
              && |r.value.players| == 8
              && forall k :: 0 <= k < 8 ==>
                   r.value.players[k] == DefaultPlayers(puzzleId, ids)[k].(indicator := IndicatorAfter(data.startingPositions, DefaultLabels[k], None))
  {
    DefaultPlayersShape(puzzleId, ids);
    var lookup := LabelLookup(DefaultPlayers(puzzleId, ids));
    if |data.lockedPositions| == 0 {
      assert RowsOf(puzzleId, lookup, data.lockedPositions, "locked") == [];
    }
  }

  /** The handler with its loops. */
  method CreatePuzzle(data: PuzzleCreate, puzzleId: Uuid, ids: seq<Uuid>) returns (r: Result<Created, HttpError>)
    requires |ids| == 8
    ensures r == CreateSpec(data, puzzleId, ids)
  {
    var players: seq<PlayerRow> := [];
    var teams := ["A", "B"];
    var t := 0;
    while t < 2
      invariant 0 <= t <= 2
      invariant players == DefaultPlayers(puzzleId, ids)[..4 * t]
    {
      var i := 1;
      while i < 5
        invariant 1 <= i <= 5
        invariant players == DefaultPlayers(puzzleId, ids)[..4 * t + i - 1]
      {
        var k := 4 * t + i - 1;
        assert TeamLetter(k) == teams[t] && k % 4 + 1 == i;
        players := players + [PlayerRow(ids[k], puzzleId, teams[t], teams[t] + [DigitChar(i)], None)];
        assert DefaultPlayers(puzzleId, ids)[..k + 1] == DefaultPlayers(puzzleId, ids)[..k] + [DefaultPlayer(puzzleId, ids, k)];
        i := i + 1;
      }
      t := t + 1;
    }
    assert players == DefaultPlayers(puzzleId, ids);
    var lookup := LabelLookup(players);
    var carrier := Get(lookup, data.ballCarrierLabel);
    if carrier.None? {
      return Err(HttpError(400, "Invalid ball carrier"));
    }
    var saved := SavePositions(puzzleId, lookup, data.startingPositions, "start", players, []);
    if saved.Err? {
      return Err(saved.error);
    }
    saved := SavePositions(puzzleId, lookup, data.solutionPositions, "solution", saved.value.0, saved.value.1);
    if saved.Err? {
      return Err(saved.error);
    }
    if |data.lockedPositions| > 0 {
      saved := SavePositions(puzzleId, lookup, data.lockedPositions, "locked", saved.value.0, saved.value.1);
      if saved.Err? {
        return Err(saved.error);
      }
    }
    r := Ok(Created(PuzzleRowOf(data, puzzleId, carrier.value.id), saved.value.0, saved.value.1));
  }
}
