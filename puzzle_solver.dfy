/** The solver's front end (frontend/src/PuzzleSolver.tsx): the board built
    from the puzzle's detail view, the map of solution squares, the moved
    players it submits, the solution overlay and the drag gate. */
module PuzzleSolver {
  import opened Wrappers
  import opened Board
  import Schemas

  /** One player of the detail view as the front end receives it: `id` is the
      text of the server's player id, `locked` may be absent. */
  datatype DetailPlayer = DetailPlayer(id: string, playerLabel: string, startSquare: int, hasBall: bool, locked: Option<bool>)

  /** One entry of `data.teams`, in the order the object lists them. */
  datatype DetailTeam = DetailTeam(key: string, color: string, players: seq<DetailPlayer>)

  /** One row of the solution endpoint. */
  datatype SolutionRow = SolutionRow(playerLabel: string, squareId: int)

  /** Every team's players in team order, each with its team's colour. */
  function TeamPlayers(teams: seq<DetailTeam>): (r: seq<(string, DetailPlayer)>)
    ensures |teams| == 0 ==> r == []
  {
    if teams == [] then []
    else
      seq(|teams[0].players|, i requires 0 <= i < |teams[0].players| => (teams[0].color, teams[0].players[i]))
      + TeamPlayers(teams[1..])
  }

  /** The label without one leading team letter `A` or `B`. */
  function StripTeamLetter(s: string): (r: string)
    ensures |s| > 0 && (s[0] == 'A' || s[0] == 'B') ==> r == s[1..]
    ensures !(|s| > 0 && (s[0] == 'A' || s[0] == 'B')) ==> r == s
  {
    if |s| > 0 && (s[0] == 'A' || s[0] == 'B') then s[1..] else s
  }

  function ToToken(color: string, p: DetailPlayer): Token {
    Token(p.playerLabel, StripTeamLetter(p.playerLabel), p.startSquare, color, p.hasBall, None,
          p.locked == Some(true), None)
  }

  /** `initialPlayers` of `fetchPuzzle`. */
  function InitialPlayers(teams: seq<DetailTeam>): seq<Token> {
    var flat := TeamPlayers(teams);
    seq(|flat|, i requires 0 <= i < |flat| => ToToken(flat[i].0, flat[i].1))
  }

  /** Every token is keyed by the full label, shows it without its team
      letter, starts on its start square and is locked only when the server
      says so: an absent flag means unlocked. */
  lemma InitialPlayersShape(teams: seq<DetailTeam>)
    ensures var flat := TeamPlayers(teams);
            var r := InitialPlayers(teams);
            |r| == |flat|
            && forall i :: 0 <= i < |r| ==>
                 var p := flat[i].1;
                 r[i].id == p.playerLabel && r[i].displayLabel == StripTeamLetter(p.playerLabel)
                 && r[i].square == p.startSquare && r[i].hasBall == p.hasBall && r[i].color == flat[i].0
                 && (r[i].locked <==> p.locked == Some(true))
                 && (p.locked.None? ==> !r[i].locked)
  {
  }

  /** The labels of the front end carry the team letter once: "A1" shows as "1". */
  lemma StripTeamLetterExamples()
    ensures StripTeamLetter("A1") == "1" && StripTeamLetter("B4") == "4"
    ensures StripTeamLetter("AB1") == "B1" && StripTeamLetter("C1") == "C1" && StripTeamLetter("") == ""
  {
  }

  /** The map left by the `forEach` over the solution rows: a row whose
      label is some token's id writes that key, a later row overwrites. */
  function SolutionMapOf(players: seq<Token>, rows: seq<SolutionRow>): map<string, int>
    decreases |rows|
  {
    if rows == [] then map[]
    else
      var m := SolutionMapOf(players, rows[..|rows| - 1]);
      var row := rows[|rows| - 1];
      if Find(players, row.playerLabel).Some? then m[row.playerLabel := row.squareId] else m
  }

  /** The keys are the rows' labels that name a token; each value is the
      square of the last row for that label. */
  lemma SolutionMapExact(players: seq<Token>, rows: seq<SolutionRow>)
    ensures var m := SolutionMapOf(players, rows);
            (forall k :: k in m <==> Find(players, k).Some? && exists j :: 0 <= j < |rows| && rows[j].playerLabel == k)
            && (forall k :: k in m ==>
                  exists j :: 0 <= j < |rows| && rows[j] == SolutionRow(k, m[k])
                              && forall j' :: j < j' < |rows| ==> rows[j'].playerLabel != k)
  {
    SolutionMapKeys(players, rows);
    SolutionMapValues(players, rows);
  }

  lemma {:induction false} SolutionMapKeys(players: seq<Token>, rows: seq<SolutionRow>)
    ensures forall k :: k in SolutionMapOf(players, rows) <==>
              Find(players, k).Some? && exists j :: 0 <= j < |rows| && rows[j].playerLabel == k
    decreases |rows|
  {
    if rows != [] {
      var front := rows[..|rows| - 1];
      SolutionMapKeys(players, front);
      assert forall j :: 0 <= j < |front| ==> front[j] == rows[j];
    }
  }

  /** Row `j` is the last row for label `k`, and it carries square `v`. */
  predicate LastRowAt(rows: seq<SolutionRow>, k: string, v: int, j: int) {
    0 <= j < |rows| && rows[j] == SolutionRow(k, v)
    && forall j' :: j < j' < |rows| ==> rows[j'].playerLabel != k
  }

  lemma {:induction false} SolutionMapValues(players: seq<Token>, rows: seq<SolutionRow>)
    ensures forall k :: k in SolutionMapOf(players, rows) ==>
              exists j :: LastRowAt(rows, k, SolutionMapOf(players, rows)[k], j)
    decreases |rows|
  {
    if rows != [] {
      var front := rows[..|rows| - 1];
      var last := rows[|rows| - 1];
      SolutionMapValues(players, front);
      SolutionMapKeys(players, front);
      var m0 := SolutionMapOf(players, front);
      var m := SolutionMapOf(players, rows);
      forall k | k in m
        ensures exists j :: LastRowAt(rows, k, m[k], j)
      {
        if k == last.playerLabel && Find(players, k).Some? {
          assert LastRowAt(rows, k, m[k], |rows| - 1);
        } else {
          assert k in m0 && m[k] == m0[k];
          var j :| LastRowAt(front, k, m0[k], j);
          assert rows[j] == front[j];
          assert forall j' :: j < j' < |front| ==> rows[j'] == front[j'];
          assert LastRowAt(rows, k, m[k], j);
        }
      }
    }
  }

  /** The `forEach` loop itself. */
  method BuildSolutionMap(players: seq<Token>, rows: seq<SolutionRow>) returns (m: map<string, int>)
    ensures m == SolutionMapOf(players, rows)
  {
    m := map[];
    var i := 0;
    while i < |rows|
      invariant 0 <= i <= |rows|
      invariant m == SolutionMapOf(players, rows[..i])
    {
      var sol := rows[i];
      var player := Find(players, sol.playerLabel);
      assert rows[..i + 1][..i] == rows[..i];
      if player.Some? {
        m := m[player.value.id := sol.squareId];
      }
      i := i + 1;
    }
    assert rows[..i] == rows;
  }

  /** The start cell of the first player in any team with the given id. */
  function StartSquareOf(teams: seq<DetailTeam>, id: string): Option<int> {
    FirstStart(TeamPlayers(teams), id)
  }

  function FirstStart(flat: seq<(string, DetailPlayer)>, id: string): (r: Option<int>)
    ensures r.None? <==> forall j :: 0 <= j < |flat| ==> flat[j].1.id != id
    ensures r.Some? ==> exists j :: 0 <= j < |flat| && flat[j].1.id == id && flat[j].1.startSquare == r.value
  {
    if flat == [] then None
    else if flat[0].1.id == id then Some(flat[0].1.startSquare)
    else
      var r := FirstStart(flat[1..], id);
      assert forall j :: 0 < j < |flat| ==> flat[1..][j - 1] == flat[j];
      r
  }

  /** The filter's test: the token's square is not the start square found for its id. */
  predicate Kept(teams: seq<DetailTeam>, t: Token) {
    StartSquareOf(teams, t.id) != Some(t.square)
  }

  /** The filter over the tokens from index `from` on. */
  function KeptFrom(players: seq<Token>, teams: seq<DetailTeam>, from: nat): seq<Token>
    decreases |players| - from
  {
    if from >= |players| then []
    else (if Kept(teams, players[from]) then [players[from]] else []) + KeptFrom(players, teams, from + 1)
  }

  /** `movedPlayers`. */
  function MovedPlayers(players: seq<Token>, teams: seq<DetailTeam>): seq<Token> {
    KeptFrom(players, teams, 0)
  }

  /** The indices, from `from` on, of the kept tokens, in increasing order. */
  ghost function KeptIndicesFrom(players: seq<Token>, teams: seq<DetailTeam>, from: nat): seq<nat>
    decreases |players| - from
  {
    if from >= |players| then []
    else (if Kept(teams, players[from]) then [from] else []) + KeptIndicesFrom(players, teams, from + 1)
  }

  lemma {:induction false} KeptFromExact(players: seq<Token>, teams: seq<DetailTeam>, from: nat)
    ensures var idx := KeptIndicesFrom(players, teams, from);
            var r := KeptFrom(players, teams, from);
            |idx| == |r|
            && (forall k :: 0 <= k < |idx| ==> from <= idx[k] < |players| && r[k] == players[idx[k]])
            && (forall k, l :: 0 <= k < l < |idx| ==> idx[k] < idx[l])
            && (forall i :: from <= i < |players| ==> (Kept(teams, players[i]) <==> i in idx))
    decreases |players| - from
  {
    if from < |players| {
      KeptFromExact(players, teams, from + 1);
    }
  }

  /** A token is left out only when the first team player with an equal id
      starts on the token's square; the kept ones are submitted in board
      order, each once. */
  lemma MovedPlayersExact(players: seq<Token>, teams: seq<DetailTeam>)
    ensures var idx := KeptIndicesFrom(players, teams, 0);
            var r := MovedPlayers(players, teams);
            |idx| == |r|
            && (forall k :: 0 <= k < |idx| ==> idx[k] < |players| && r[k] == players[idx[k]])
            && (forall k, l :: 0 <= k < l < |idx| ==> idx[k] < idx[l])
            && (forall i :: 0 <= i < |players| ==> (StartSquareOf(teams, players[i].id) != Some(players[i].square) <==> i in idx))
    ensures forall t :: t in MovedPlayers(players, teams) <==> t in players && StartSquareOf(teams, t.id) != Some(t.square)
  {
    KeptFromExact(players, teams, 0);
    var r, idx := MovedPlayers(players, teams), KeptIndicesFrom(players, teams, 0);
    forall t | t in r ensures t in players && Kept(teams, t) {
      var k :| 0 <= k < |r| && r[k] == t;
      assert idx[k] in idx;
    }
    forall t | t in players && Kept(teams, t) ensures t in r {
      var i :| 0 <= i < |players| && players[i] == t;
      var k :| 0 <= k < |idx| && idx[k] == i;
      assert r[k] == t;
    }
  }

  /** A token whose id no team player has is always kept. */
  lemma UnknownIdKept(players: seq<Token>, teams: seq<DetailTeam>, t: Token)
    requires t in players
    requires forall j :: 0 <= j < |TeamPlayers(teams)| ==> TeamPlayers(teams)[j].1.id != t.id
    ensures t in MovedPlayers(players, teams)
  {
    MovedPlayersExact(players, teams);
  }

  /** The server's player ids are UUIDs and the tokens' ids are labels, so no
      team player's id equals a token's id, and every token is submitted. */
  lemma {:induction false} IdMismatchKeepsEveryone(players: seq<Token>, teams: seq<DetailTeam>)
    requires forall i, j :: 0 <= i < |players| && 0 <= j < |TeamPlayers(teams)| ==> TeamPlayers(teams)[j].1.id != players[i].id
    ensures MovedPlayers(players, teams) == players
  {
    KeptFromKeepsAll(players, teams, 0);
  }

  lemma {:induction false} KeptFromKeepsAll(players: seq<Token>, teams: seq<DetailTeam>, from: nat)
    requires forall i, j :: 0 <= i < |players| && 0 <= j < |TeamPlayers(teams)| ==> TeamPlayers(teams)[j].1.id != players[i].id
    ensures KeptFrom(players, teams, from) == if from <= |players| then players[from..] else []
    decreases |players| - from
  {
    if from < |players| {
      assert StartSquareOf(teams, players[from].id).None?;
      KeptFromKeepsAll(players, teams, from + 1);
      assert players[from..] == [players[from]] + players[from + 1..];
    }
  }

  /** `positions`: each kept token as (label, square), in order. */
  function Positions(moved: seq<Token>): (r: seq<Schemas.PositionSubmission>)
    ensures |r| == |moved|
    ensures forall i :: 0 <= i < |moved| ==> r[i].playerLabel == moved[i].id && r[i].squareId == moved[i].square
  {
    seq(|moved|, i requires 0 <= i < |moved| => Schemas.PositionSubmission(moved[i].id, moved[i].square))
  }

  /** The solution cell of a token, or its own cell when the entry is missing or 0. */
  function SolutionSquare(solution: map<string, int>, t: Token): int {
    if t.id in solution && solution[t.id] != 0 then solution[t.id] else t.square
  }

  /** `displayPlayers`. */
  function DisplayPlayers(showing: bool, players: seq<Token>, solution: map<string, int>): seq<Token> {
    if showing then seq(|players|, i requires 0 <= i < |players| => players[i].(square := SolutionSquare(solution, players[i])))
    else players
  }

  /** Hidden, the overlay is the board. Shown, it only replaces squares, and
      a square changes exactly to a token's non-zero solution square. */
  lemma DisplayPlayersEffect(showing: bool, players: seq<Token>, solution: map<string, int>)
    ensures !showing ==> DisplayPlayers(showing, players, solution) == players
    ensures var r := DisplayPlayers(showing, players, solution);
            |r| == |players|
            && forall i :: 0 <= i < |players| ==>
                 r[i] == players[i].(square := r[i].square)
                 && (showing && players[i].id in solution && solution[players[i].id] != 0 ==> r[i].square == solution[players[i].id])
                 && (r[i].square != players[i].square ==> showing && players[i].id in solution && r[i].square == solution[players[i].id])
  {
  }

  /** The solver's drag gate: nobody while the solution is shown, otherwise
      the lock gate. */
  function CanDrag(showing: bool, players: seq<Token>, id: string): (allowed: bool)
    ensures showing ==> !allowed
    ensures !showing && UniqueIds(players) ==> (allowed <==> forall i :: 0 <= i < |players| && players[i].id == id ==> !players[i].locked)
  {
    if showing then false else DragAllowed(players, id)
  }

  /** The solver's state. */
  class SolverView {
    var teams: seq<DetailTeam>
    var players: seq<Token>
    var showingSolution: bool
    var solutionPositions: map<string, int>

    constructor ()
      ensures teams == [] && players == [] && !showingSolution && solutionPositions == map[]
    {
      teams, players, showingSolution, solutionPositions := [], [], false, map[];
    }

    /** What `fetchPuzzle` does with the two responses; `solution` is None
        when the solution request fails, and the old map then stays. */
    method Load(teams': seq<DetailTeam>, solution: Option<seq<SolutionRow>>)
      modifies this`teams, this`players, this`solutionPositions
      ensures teams == teams' && players == InitialPlayers(teams')
      ensures solution.Some? ==> solutionPositions == SolutionMapOf(InitialPlayers(teams'), solution.value)
      ensures solution.None? ==> solutionPositions == old(solutionPositions)
    {
      teams := teams';
      var initial := InitialPlayers(teams');
      players := initial;
      if solution.Some? {
        solutionPositions := BuildSolutionMap(initial, solution.value);
      }
    }

    /** `resetPuzzle`: hide the solution and load again. */
    method ResetPuzzle(teams': seq<DetailTeam>, solution: Option<seq<SolutionRow>>)
      modifies this
      ensures !showingSolution
      ensures teams == teams' && players == InitialPlayers(teams')
      ensures solution.Some? ==> solutionPositions == SolutionMapOf(InitialPlayers(teams'), solution.value)
      ensures solution.None? ==> solutionPositions == old(solutionPositions)
    {
      showingSolution := false;
      Load(teams', solution);
    }

    /** `toggleSolution`: two toggles restore the flag. */
    method ToggleSolution()
      modifies this`showingSolution
      ensures showingSolution == !old(showingSolution)
    {
      showingSolution := !showingSolution;
    }

    /** `onPlayerMove`: the board's report is taken only while the solution is hidden. */
    method BoardMoved(updated: seq<Token>)
      modifies this`players
      ensures !showingSolution ==> players == updated
      ensures showingSolution ==> players == old(players)
    {
      if !showingSolution {
        players := updated;
      }
    }

    /** The body `submitSolution` posts. */
    function Submission(): seq<Schemas.PositionSubmission>
      reads this
    {
      Positions(MovedPlayers(players, teams))
    }

    function Display(): seq<Token>
      reads this
    {
      DisplayPlayers(showingSolution, players, solutionPositions)
    }

    function DragGate(): string -> bool
      reads this
    {
      var showing, ps := showingSolution, players;
      (id: string) => CanDrag(showing, ps, id)
    }
  }
}
