/** The puzzle editor (frontend/src/CreatePuzzle.tsx): its board, the
    baseline taken when the starting positions are saved, the lock and
    indicator toggles, and the payload that is sent to create the puzzle. */
module CreatePuzzle {
  import opened Wrappers
  import opened Board
  import Schemas
  import Strings

  datatype Step = Starting | Solution

  datatype Mode = Attacking | Defending {
    function Name(): string {
      match this
      case Attacking => "attacking"
      case Defending => "defending"
    }
  }

  datatype CreatedPuzzle = CreatedPuzzle(id: string, title: string, teamName: string)

  /** `togglePlayerLock`'s update. */
  function ToggleLock(ps: seq<Token>, id: string): seq<Token> {
    seq(|ps|, i requires 0 <= i < |ps| => if ps[i].id == id then ps[i].(locked := !ps[i].locked) else ps[i])
  }

  /** The toggle flips the flag of the tokens with that id and changes nothing else. */
  lemma ToggleLockEffect(ps: seq<Token>, id: string)
    ensures var r := ToggleLock(ps, id);
            |r| == |ps|
            && forall i :: 0 <= i < |ps| ==>
                 r[i] == ps[i].(locked := r[i].locked) && (r[i].locked <==> (ps[i].locked != (ps[i].id == id)))
  {
  }

  /** Toggling twice restores the board. */
  lemma ToggleLockTwice(ps: seq<Token>, id: string)
    ensures ToggleLock(ToggleLock(ps, id), id) == ps
  {
    var r := ToggleLock(ToggleLock(ps, id), id);
    assert forall i :: 0 <= i < |ps| ==> r[i] == ps[i];
  }

  /** The indicator cycle: none -> attack -> defend -> none; a falsy value
      (absent, null or "") counts as none, any other value goes to none. */
  function NextIndicator(ind: Option<string>): Option<string> {
    if !Truthy(ind) then Some("attack")
    else if ind == Some("attack") then Some("defend")
    else None
  }

  predicate KnownIndicator(ind: Option<string>) {
    ind == None || ind == Some("attack") || ind == Some("defend")
  }

  lemma NextIndicatorCycle(ind: Option<string>)
    ensures KnownIndicator(ind) ==> KnownIndicator(NextIndicator(ind))
    ensures KnownIndicator(ind) ==> NextIndicator(NextIndicator(NextIndicator(ind))) == ind
    ensures NextIndicator(None) == Some("attack") && NextIndicator(Some("")) == Some("attack")
    ensures NextIndicator(Some("attack")) == Some("defend") && NextIndicator(Some("defend")) == None
    ensures ind.Some? && ind.value != "" && ind.value != "attack" ==> NextIndicator(ind) == None
  {
  }

  /** `cyclePlayerIndicator`'s update. */
  function CycleIndicator(ps: seq<Token>, id: string): seq<Token> {
    seq(|ps|, i requires 0 <= i < |ps| =>
      if ps[i].id == id then ps[i].(indicator := NextIndicator(ps[i].indicator)) else ps[i])
  }

  /** Only the tokens with that id change, and only in their indicator. */
  lemma CycleIndicatorEffect(ps: seq<Token>, id: string)
    ensures var r := CycleIndicator(ps, id);
            |r| == |ps|
            && forall i :: 0 <= i < |ps| ==>
                 r[i] == ps[i].(indicator := r[i].indicator) && (ps[i].id != id ==> r[i] == ps[i])
  {
  }

  /** Three clicks bring back any indicator among none, attack and defend. */
  lemma {:induction false} CycleIndicatorThrice(ps: seq<Token>, id: string)
    requires forall i :: 0 <= i < |ps| && ps[i].id == id ==> KnownIndicator(ps[i].indicator)
    ensures CycleIndicator(CycleIndicator(CycleIndicator(ps, id), id), id) == ps
  {
    var r := CycleIndicator(CycleIndicator(CycleIndicator(ps, id), id), id);
    forall i | 0 <= i < |ps| ensures r[i] == ps[i] {
      NextIndicatorCycle(ps[i].indicator);
    }
  }

  /** A token of the current board that has a baseline entry with the same id
      on a different square. */
  predicate Moved(baseline: seq<Token>, t: Token) {
    Find(baseline, t.id).Some? && Find(baseline, t.id).value.square != t.square
  }

  function Entry(t: Token): Schemas.PositionInput {
    Schemas.PositionInput(t.id, t.square, None)
  }

  /** `solution_positions`: the moved tokens, in board order, at their current square. */
  function SolutionPositions(baseline: seq<Token>, current: seq<Token>): seq<Schemas.PositionInput> {
    SolutionFrom(baseline, current, 0)
  }

  /** The filter over the tokens from index `from` on. */
  function SolutionFrom(baseline: seq<Token>, current: seq<Token>, from: nat): seq<Schemas.PositionInput>
    decreases |current| - from
  {
    if from >= |current| then []
    else (if Moved(baseline, current[from]) then [Entry(current[from])] else []) + SolutionFrom(baseline, current, from + 1)
  }

  /** The indices, from `from` on, of the moved tokens, in increasing order. */
  ghost function MovedFrom(baseline: seq<Token>, current: seq<Token>, from: nat): seq<nat>
    decreases |current| - from
  {
    if from >= |current| then []
    else (if Moved(baseline, current[from]) then [from] else []) + MovedFrom(baseline, current, from + 1)
  }

  ghost function MovedIndices(baseline: seq<Token>, current: seq<Token>): seq<nat> {
    MovedFrom(baseline, current, 0)
  }

  lemma {:induction false} SolutionFromExact(baseline: seq<Token>, current: seq<Token>, from: nat)
    ensures var idx := MovedFrom(baseline, current, from);
            var r := SolutionFrom(baseline, current, from);
            |idx| == |r|
            && (forall k :: 0 <= k < |idx| ==> from <= idx[k] < |current| && r[k] == Entry(current[idx[k]]))
            && (forall k, l :: 0 <= k < l < |idx| ==> idx[k] < idx[l])
            && (forall i :: from <= i < |current| ==> (Moved(baseline, current[i]) <==> i in idx))
    decreases |current| - from
  {
    if from < |current| {
      SolutionFromExact(baseline, current, from + 1);
    }
  }

  /** The diff holds exactly the moved tokens, each at its current square,
      in the order of the board. */
  lemma SolutionPositionsExact(baseline: seq<Token>, current: seq<Token>)
    ensures var idx := MovedIndices(baseline, current);
            var r := SolutionPositions(baseline, current);
            |idx| == |r|
            && (forall k :: 0 <= k < |idx| ==> idx[k] < |current| && r[k] == Entry(current[idx[k]]))
            && (forall k, l :: 0 <= k < l < |idx| ==> idx[k] < idx[l])
            && (forall i :: 0 <= i < |current| ==> (Moved(baseline, current[i]) <==> i in idx))
  {
    SolutionFromExact(baseline, current, 0);
  }

  /** The indices, from `from` on, of the locked baseline tokens, in increasing order. */
  ghost function LockedIndicesFrom(baseline: seq<Token>, from: nat): seq<nat>
    decreases |baseline| - from
  {
    if from >= |baseline| then []
    else (if baseline[from].locked then [from] else []) + LockedIndicesFrom(baseline, from + 1)
  }

  /** The filter of `locked_positions` over the baseline from index `from` on. */
  function LockedFrom(baseline: seq<Token>, from: nat): (r: seq<Schemas.PositionInput>)
    ensures var idx := LockedIndicesFrom(baseline, from);
            |idx| == |r|
            && (forall k :: 0 <= k < |idx| ==> from <= idx[k] < |baseline| && r[k] == Entry(baseline[idx[k]]))
            && (forall k, l :: 0 <= k < l < |idx| ==> idx[k] < idx[l])
            && (forall i :: from <= i < |baseline| ==> (baseline[i].locked <==> i in idx))
    decreases |baseline| - from
  {
    if from >= |baseline| then []
    else (if baseline[from].locked then [Entry(baseline[from])] else []) + LockedFrom(baseline, from + 1)
  }

  /** `locked_positions`: one entry per locked baseline token, in baseline
      order, each at its baseline square, and nothing else. */
  function LockedPositions(baseline: seq<Token>): (r: seq<Schemas.PositionInput>)
    ensures var idx := LockedIndicesFrom(baseline, 0);
            |idx| == |r|
            && (forall k :: 0 <= k < |idx| ==> idx[k] < |baseline| && r[k] == Entry(baseline[idx[k]]))
            && (forall k, l :: 0 <= k < l < |idx| ==> idx[k] < idx[l])
            && (forall i :: 0 <= i < |baseline| ==> (baseline[i].locked <==> i in idx))
    ensures forall e :: e in r <==> exists i :: 0 <= i < |baseline| && baseline[i].locked && e == Entry(baseline[i])
  {
    var r := LockedFrom(baseline, 0);
    ghost var idx := LockedIndicesFrom(baseline, 0);
    assert forall e :: e in r ==> exists i :: 0 <= i < |baseline| && baseline[i].locked && e == Entry(baseline[i]) by {
      forall e | e in r ensures exists i :: 0 <= i < |baseline| && baseline[i].locked && e == Entry(baseline[i]) {
        var k :| 0 <= k < |r| && r[k] == e;
        assert idx[k] in idx;
      }
    }
    assert forall i :: 0 <= i < |baseline| && baseline[i].locked ==> Entry(baseline[i]) in r by {
      forall i | 0 <= i < |baseline| && baseline[i].locked ensures Entry(baseline[i]) in r {
        var k :| 0 <= k < |idx| && idx[k] == i;
        assert r[k] == Entry(baseline[i]);
      }
    }
    r
  }

  /** The first token marked as holding the ball. */
  function FindBall(ps: seq<Token>): (r: Option<Token>)
    ensures r.Some? <==> exists i :: 0 <= i < |ps| && ps[i].hasBall
    ensures r.Some? ==> exists i :: 0 <= i < |ps| && ps[i] == r.value && r.value.hasBall
                         && forall j :: 0 <= j < i ==> !ps[j].hasBall
  {
    if ps == [] then None
    else if ps[0].hasBall then Some(ps[0])
    else
      var r := FindBall(ps[1..]);
      assert forall i :: 0 < i < |ps| ==> ps[1..][i - 1] == ps[i];
      r
  }

  /** `ball_carrier_label`: the first ball holder of the baseline, else of the
      current board, else "A1" (also when the holder's id is empty). */
  function BallCarrierLabel(baseline: seq<Token>, current: seq<Token>): (carrier: string)
    ensures FindBall(baseline).Some? && FindBall(baseline).value.id != "" ==> carrier == FindBall(baseline).value.id
    ensures FindBall(baseline).None? && FindBall(current).Some? && FindBall(current).value.id != "" ==>
              carrier == FindBall(current).value.id
    ensures FindBall(baseline).None? && FindBall(current).None? ==> carrier == "A1"
    ensures carrier != ""
  {
    var carrier := if FindBall(baseline).Some? then FindBall(baseline) else FindBall(current);
    if carrier.Some? && carrier.value.id != "" then carrier.value.id else "A1"
  }

  datatype PlayerDecl = PlayerDecl(team: string, playerLabel: string)

  datatype Payload = Payload(
    title: string,
    description: string,
    teamName: string,
    hint: Option<string>,
    solutionAnswer: Option<string>,
    format: string,
    mode: string,
    teamAColor: string,
    teamBColor: string,
    players: seq<PlayerDecl>,
    startingPositions: seq<Schemas.PositionInput>,
    lockedPositions: seq<Schemas.PositionInput>,
    solutionPositions: seq<Schemas.PositionInput>,
    ballCarrierLabel: string)

  /** A form string, or nothing when it is empty (the empty string is falsy). */
  function NullIfEmpty(s: string): Option<string> {
    if s == "" then None else Some(s)
  }

  /** The `submitPayload` object. */
  function BuildPayload(title: string, description: string, teamName: string, hint: string, solutionAnswer: string,
                        mode: Mode, baseline: seq<Token>, current: seq<Token>): (p: Payload)
    ensures |p.players| == |p.startingPositions| == |baseline|
    ensures forall i :: 0 <= i < |baseline| ==>
              p.players[i].playerLabel == baseline[i].id
              && (p.players[i].team == "A" <==> Strings.StartsWith(baseline[i].id, "A"))
              && p.startingPositions[i].playerLabel == baseline[i].id
              && p.startingPositions[i].squareId == baseline[i].square
              && (p.startingPositions[i].indicator.Some? <==> Truthy(baseline[i].indicator))
    ensures p.format == "4v4" && p.mode == mode.Name()
    ensures p.hint.None? <==> hint == ""
  {
    Payload(title, description, teamName, NullIfEmpty(hint), NullIfEmpty(solutionAnswer), "4v4", mode.Name(),
            "#ff0000", "#0000ff",
            seq(|baseline|, i requires 0 <= i < |baseline| =>
              PlayerDecl(if Strings.StartsWith(baseline[i].id, "A") then "A" else "B", baseline[i].id)),
            seq(|baseline|, i requires 0 <= i < |baseline| =>
              Schemas.PositionInput(baseline[i].id, baseline[i].square,
                                    if Truthy(baseline[i].indicator) then baseline[i].indicator else None)),
            LockedPositions(baseline),
            SolutionPositions(baseline, current),
            BallCarrierLabel(baseline, current))
  }

  /** The square the last diff entry for `label` gives, if any. */
  function LastSquare(diff: seq<Schemas.PositionInput>, playerLabel: string): (r: Option<int>)
    ensures r.None? <==> forall k :: 0 <= k < |diff| ==> diff[k].playerLabel != playerLabel
    ensures r.Some? ==> exists k :: 0 <= k < |diff| && diff[k].playerLabel == playerLabel && diff[k].squareId == r.value
  {
    if diff == [] then None
    else if diff[|diff| - 1].playerLabel == playerLabel then Some(diff[|diff| - 1].squareId)
    else
      var r := LastSquare(diff[..|diff| - 1], playerLabel);
      assert forall k :: 0 <= k < |diff| - 1 ==> diff[..|diff| - 1][k] == diff[k];
      r
  }

  /** The baseline with the diff's squares written over it. */
  function ApplyDiff(baseline: seq<Token>, diff: seq<Schemas.PositionInput>): seq<Token> {
    seq(|baseline|, i requires 0 <= i < |baseline| =>
      baseline[i].(square := LastSquare(diff, baseline[i].id).GetOr(baseline[i].square)))
  }

  /** The diff is enough: written over the baseline it gives every token the
      square it has on the current board. */
  lemma {:induction false} DiffRoundTrip(baseline: seq<Token>, current: seq<Token>, i: nat, c: nat)
    requires UniqueIds(baseline) && UniqueIds(current)
    requires i < |baseline| && c < |current| && current[c].id == baseline[i].id
    ensures ApplyDiff(baseline, SolutionPositions(baseline, current))[i].square == current[c].square
  {
    var diff := SolutionPositions(baseline, current);
    var id := baseline[i].id;
    FindUnique(baseline, i);
    SolutionPositionsExact(baseline, current);
    var idx := MovedIndices(baseline, current);
    forall k | 0 <= k < |diff| && diff[k].playerLabel == id ensures diff[k].squareId == current[c].square {
      assert current[idx[k]].id == id;
    }
    if Moved(baseline, current[c]) {
      var k :| 0 <= k < |idx| && idx[k] == c;
      assert diff[k].playerLabel == id;
    }
  }

  /** The editor's state. */
  class PuzzleEditor {
    var title: string
    var description: string
    var teamName: string
    var hint: string
    var solutionAnswer: string
    var mode: Mode
    var step: Step
    var players: seq<Token>
    var startingPositions: seq<Token>
    var created: Option<CreatedPuzzle>

    /** The state after mounting, and after `resetForm`. */
    ghost predicate Fresh()
      reads this
    {
      title == "" && description == "" && teamName == "" && hint == "" && solutionAnswer == ""
      && mode == Attacking && step == Starting && players == DefaultLayout
      && startingPositions == [] && created == None
    }

    constructor ()
      ensures Fresh()
    {
      title, description, teamName, hint, solutionAnswer := "", "", "", "", "";
      mode, step := Attacking, Starting;
      players, startingPositions := DefaultLayout, [];
      created := None;
    }

    /** The form inputs (title, description, team, hint, answer, mode). */
    method EditDetails(title': string, description': string, teamName': string, hint': string,
                       solutionAnswer': string, mode': Mode)
      modifies this`title, this`description, this`teamName, this`hint, this`solutionAnswer, this`mode
      ensures title == title' && description == description' && teamName == teamName'
      ensures hint == hint' && solutionAnswer == solutionAnswer' && mode == mode'
    {
      title, description, teamName, hint, solutionAnswer, mode := title', description', teamName', hint', solutionAnswer', mode';
    }

    /** The board reports its new tokens and the editor keeps them. */
    method BoardMoved(updated: seq<Token>)
      modifies this`players
      ensures players == updated
    {
      players := updated;
    }

    method TogglePlayerLock(id: string)
      modifies this`players
      ensures players == ToggleLock(old(players), id)
    {
      players := ToggleLock(players, id);
    }

    method CyclePlayerIndicator(id: string)
      modifies this`players
      ensures players == CycleIndicator(old(players), id)
    {
      players := CycleIndicator(players, id);
    }

    /** `saveStartingPositions`: the baseline becomes a copy of the board. */
    method SaveStartingPositions()
      modifies this`startingPositions, this`step
      ensures startingPositions == players && step == Solution
    {
      startingPositions := players;
      step := Solution;
    }

    /** "Back to Starting Positions". */
    method BackToStartingPositions()
      modifies this`step
      ensures step == Starting
    {
      step := Starting;
    }

    /** The success branch of the submission: the created puzzle is shown. */
    method Created(id: string, title': string, teamName': string)
      modifies this`created
      ensures created == Some(CreatedPuzzle(id, title', teamName'))
    {
      created := Some(CreatedPuzzle(id, title', teamName'));
    }

    method ResetForm()
      modifies this
      ensures Fresh()
    {
      title, description, teamName, hint, solutionAnswer := "", "", "", "", "";
      mode, step := Attacking, Starting;
      players, startingPositions := DefaultLayout, [];
      created := None;
    }

    /** The payload `saveSolutionAndSubmit` sends. */
    function SubmitPayload(): Payload
      reads this
    {
      BuildPayload(title, description, teamName, hint, solutionAnswer, mode, startingPositions, players)
    }

    /** The gate handed to the pitch: none while setting the starting
        positions, the lock check while setting the solution. */
    function DragGate(): Option<string -> bool>
      reads this
    {
      var ps := players;
      if step == Starting then None else Some((id: string) => DragAllowed(ps, id))
    }
  }
}
