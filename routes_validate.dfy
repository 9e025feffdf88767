/** `validate_puzzle` (app/api/routes.py): a submission checked against the
    solution rows of a puzzle. The distance between two cells is
    the Manhattan distance of the 4v4 grid, which app/core/grid.py does not define;
    it is a parameter here. */
module RoutesValidate {
  import opened Wrappers
  import opened PyDict
  import opened Schemas
  import opened RoutesDb
  import opened RoutesFeedback

  const NotAllPositioned: string := "Not all players have been positioned."
  const Perfect: string := "Perfect! All players are in the correct positions."

  /** The index of the first submitted position whose label is unknown. */
  function FirstUnknownSubmission(lookup: Dict<string, PlayerRow>, sub: seq<PositionSubmission>): (r: Option<nat>)
    ensures r.None? <==> forall k :: 0 <= k < |sub| ==> Get(lookup, sub[k].playerLabel).Some?
    ensures r.Some? ==> r.value < |sub| && Get(lookup, sub[r.value].playerLabel).None?
                        && forall k :: 0 <= k < r.value ==> Get(lookup, sub[k].playerLabel).Some?
  {
    if sub == [] then None
    else if Get(lookup, sub[0].playerLabel).None? then Some(0)
    else
      var r := FirstUnknownSubmission(lookup, sub[1..]);
      assert forall k :: 0 < k < |sub| ==> sub[1..][k - 1] == sub[k];
      if r.None? then None else Some(r.value + 1)
  }

  function SubmittedPairs(lookup: Dict<string, PlayerRow>, sub: seq<PositionSubmission>): (r: seq<(Uuid, int)>)
    ensures |r| == |sub| && forall i :: 0 <= i < |sub| ==> r[i] == (IdOf(lookup, sub[i].playerLabel), sub[i].squareId)
  {
    seq(|sub|, i requires 0 <= i < |sub| => (IdOf(lookup, sub[i].playerLabel), sub[i].squareId))
  }

  /** Player id to submitted cell, in submission order; a later entry wins. */
  function SubmittedLookup(lookup: Dict<string, PlayerRow>, sub: seq<PositionSubmission>): Dict<Uuid, int> {
    FromPairs(SubmittedPairs(lookup, sub))
  }

  /** The first player row with the given id; None is the source's `StopIteration`. */
  function FirstWithId(ps: seq<PlayerRow>, id: Uuid): (r: Option<PlayerRow>)
    ensures r.Some? <==> exists i :: 0 <= i < |ps| && ps[i].id == id
    ensures r.Some? ==> exists i :: 0 <= i < |ps| && ps[i] == r.value && r.value.id == id
                         && forall j :: 0 <= j < i ==> ps[j].id != id
  {
    if ps == [] then None
    else if ps[0].id == id then Some(ps[0])
    else
      var r := FirstWithId(ps[1..], id);
      assert forall i :: 0 < i < |ps| ==> ps[1..][i - 1] == ps[i];
      r
  }

  function LabelOfId(ps: seq<PlayerRow>, id: Uuid): string {
    match FirstWithId(ps, id)
    case Some(p) => p.playerLabel
    case None => ""
  }

  /** One `PlayerFeedback` per solution entry, in the solution's key order. */
  function FeedbackList(ps: seq<PlayerRow>, solution: Dict<Uuid, int>, submitted: Dict<Uuid, int>,
                        distance: (int, int) -> int): (r: seq<PlayerFeedback>)
    ensures |r| == |solution|
  {
    seq(|solution|, i requires 0 <= i < |solution| =>
      var d := distance(Get(submitted, solution[i].0).GetOr(0), solution[i].1);
      PlayerFeedback(LabelOfId(ps, solution[i].0), d, d == 0))
  }

  predicate AllSubmitted(solution: Dict<Uuid, int>, submitted: Dict<Uuid, int>) {
    forall i :: 0 <= i < |solution| ==> Get(submitted, solution[i].0).Some?
  }

  predicate AllHavePlayers(ps: seq<PlayerRow>, solution: Dict<Uuid, int>) {
    forall i :: 0 <= i < |solution| ==> FirstWithId(ps, solution[i].0).Some?
  }

  predicate AllCorrect(fb: seq<PlayerFeedback>) {
    forall i :: 0 <= i < |fb| ==> fb[i].isCorrect
  }

  /** The handler's verdict on a submission that passed the label check. */
  function Verdict(pz: PuzzleRow, ps: seq<PlayerRow>, solution: Dict<Uuid, int>, submitted: Dict<Uuid, int>,
                   distance: (int, int) -> int): Result<PuzzleValidationResponse, HttpError>
  {
    if !AllSubmitted(solution, submitted) then
      Ok(ToValidationResponse(RawValidationResponse(false, None, Some(Some(NotAllPositioned)), None)))
    else if !AllHavePlayers(ps, solution) then Err(InternalError)
    else
      var fb := FeedbackList(ps, solution, submitted, distance);
      if AllCorrect(fb) then
        Ok(ToValidationResponse(RawValidationResponse(true, Some(pz.solutionAnswer), Some(Some(Perfect)), Some(fb))))
      else
        Ok(ToValidationResponse(RawValidationResponse(false, Some(None), Some(Some(FeedbackText(fb))), Some(fb))))
  }

  /** The whole handler. */
  function ValidateSpec(puzzles: seq<PuzzleRow>, players: seq<PlayerRow>, positions: seq<PositionRow>, puzzleId: Uuid,
                        sub: seq<PositionSubmission>, distance: (int, int) -> int): Result<PuzzleValidationResponse, HttpError>
  {
    match FindPuzzle(puzzles, puzzleId)
    case None => Err(PuzzleNotFound)
    case Some(pz) =>
      var ps := PlayersOf(players, pz.id);
      var lookup := LabelLookup(ps);
      match FirstUnknownSubmission(lookup, sub)
      case Some(k) => Err(HttpError(400, "Invalid player " + sub[k].playerLabel))
      case None =>
        Verdict(pz, ps, SquareLookup(PositionsOf(positions, pz.id, "solution")), SubmittedLookup(lookup, sub), distance)
  }

  predicate LabelKnown(ps: seq<PlayerRow>, l: string) {
    exists i :: 0 <= i < |ps| && ps[i].playerLabel == l
  }

  /** The lookup's first unknown submission is the first submission whose
      label no player carries. */
  lemma FirstUnknownIsUnlabelled(ps: seq<PlayerRow>, sub: seq<PositionSubmission>)
    ensures var f := FirstUnknownSubmission(LabelLookup(ps), sub);
            (f.None? <==> forall k :: 0 <= k < |sub| ==> LabelKnown(ps, sub[k].playerLabel))
            && (f.Some? ==> !LabelKnown(ps, sub[f.value].playerLabel)
                            && forall k :: 0 <= k < f.value ==> LabelKnown(ps, sub[k].playerLabel))
  {
    forall l ensures Get(LabelLookup(ps), l).Some? <==> LabelKnown(ps, l) {
      LabelLookupExact(ps, l);
    }
  }

  /** No puzzle is a 404. A submitted label that no player of the puzzle
      carries is a 400 naming the first such label, before any verdict and
      whatever the solution says. */
  lemma ValidateRejects(puzzles: seq<PuzzleRow>, players: seq<PlayerRow>, positions: seq<PositionRow>, puzzleId: Uuid,
                        sub: seq<PositionSubmission>, distance: (int, int) -> int, k: int)
    requires FindPuzzle(puzzles, puzzleId).Some?
    requires 0 <= k < |sub| && !LabelKnown(PlayersOf(players, puzzleId), sub[k].playerLabel)
    ensures var r := ValidateSpec(puzzles, players, positions, puzzleId, sub, distance);
            exists j :: 0 <= j <= k && !LabelKnown(PlayersOf(players, puzzleId), sub[j].playerLabel)
                        && (forall i :: 0 <= i < j ==> LabelKnown(PlayersOf(players, puzzleId), sub[i].playerLabel))
                        && r == Err(HttpError(400, "Invalid player " + sub[j].playerLabel))
  {
    FirstUnknownIsUnlabelled(PlayersOf(players, puzzleId), sub);
  }

  lemma NoPuzzle(puzzles: seq<PuzzleRow>, players: seq<PlayerRow>, positions: seq<PositionRow>, puzzleId: Uuid,
                 sub: seq<PositionSubmission>, distance: (int, int) -> int)
    requires forall i :: 0 <= i < |puzzles| ==> puzzles[i].id != puzzleId
    ensures ValidateSpec(puzzles, players, positions, puzzleId, sub, distance) == Err(PuzzleNotFound)
  {
  }

  /** When some solution player was not submitted the answer is wrong, with
      the fixed message, no answer text and no per-player feedback. */
  lemma MissingPlayer(pz: PuzzleRow, ps: seq<PlayerRow>, solution: Dict<Uuid, int>, submitted: Dict<Uuid, int>,
                      distance: (int, int) -> int, i: int)
    requires 0 <= i < |solution| && Get(submitted, solution[i].0).None?
    ensures Verdict(pz, ps, solution, submitted, distance)
            == Ok(PuzzleValidationResponse(false, None, Some(NotAllPositioned), []))
  {
  }

  /** Once every solution player is submitted (and, as the foreign keys
      promise, is a player of the puzzle), the answer is correct exactly
      when every solution player's distance is 0; there is one feedback
      entry per solution player with its label, its distance and whether it
      is 0; the answer text is returned only with a correct verdict, and a
      wrong one carries the composed message. */
  lemma GradedVerdict(pz: PuzzleRow, ps: seq<PlayerRow>, solution: Dict<Uuid, int>, submitted: Dict<Uuid, int>,
                      distance: (int, int) -> int)
    requires AllSubmitted(solution, submitted) && AllHavePlayers(ps, solution)
    ensures var r := Verdict(pz, ps, solution, submitted, distance);
            r.Ok?
            && (r.value.correct <==> forall i :: 0 <= i < |solution| ==> distance(Get(submitted, solution[i].0).value, solution[i].1) == 0)
            && |r.value.playerFeedback| == |solution|
            && (forall i :: 0 <= i < |solution| ==>
                  var d := distance(Get(submitted, solution[i].0).value, solution[i].1);
                  r.value.playerFeedback[i] == PlayerFeedback(FirstWithId(ps, solution[i].0).value.playerLabel, d, d == 0))
            && (r.value.correct ==> r.value.solutionAnswer == pz.solutionAnswer && r.value.feedback == Some(Perfect))
            && (!r.value.correct ==> r.value.solutionAnswer.None? && r.value.feedback == Some(FeedbackText(r.value.playerFeedback)))
  {
    var fb := FeedbackList(ps, solution, submitted, distance);
    forall i | 0 <= i < |solution|
      ensures var d := distance(Get(submitted, solution[i].0).value, solution[i].1);
              fb[i] == PlayerFeedback(FirstWithId(ps, solution[i].0).value.playerLabel, d, d == 0)
    {
      FeedbackEntry(ps, solution, submitted, distance, i);
    }
    if AllCorrect(fb) {
      assert Verdict(pz, ps, solution, submitted, distance)
             == Ok(PuzzleValidationResponse(true, pz.solutionAnswer, Some(Perfect), fb));
    } else {
      assert Verdict(pz, ps, solution, submitted, distance)
             == Ok(PuzzleValidationResponse(false, None, Some(FeedbackText(fb)), fb));
    }
  }

  /** The entry of a submitted solution player. */
  lemma FeedbackEntry(ps: seq<PlayerRow>, solution: Dict<Uuid, int>, submitted: Dict<Uuid, int>, distance: (int, int) -> int, i: int)
    requires 0 <= i < |solution| && Get(submitted, solution[i].0).Some?
    ensures var d := distance(Get(submitted, solution[i].0).value, solution[i].1);
            FeedbackList(ps, solution, submitted, distance)[i] == PlayerFeedback(LabelOfId(ps, solution[i].0), d, d == 0)
  {
    assert Get(submitted, solution[i].0).GetOr(0) == Get(submitted, solution[i].0).value;
  }

  /** A puzzle without solution rows accepts every submission whose labels
      are known. */
  lemma EmptySolutionCorrect(pz: PuzzleRow, ps: seq<PlayerRow>, submitted: Dict<Uuid, int>, distance: (int, int) -> int)
    ensures Verdict(pz, ps, [], submitted, distance) == Ok(PuzzleValidationResponse(true, pz.solutionAnswer, Some(Perfect), []))
  {
  }

  /** Submitted players that are not in the solution never matter: two
      submissions that agree on every solution player get the same verdict. */
  lemma ExtrasIgnored(pz: PuzzleRow, ps: seq<PlayerRow>, solution: Dict<Uuid, int>, submitted1: Dict<Uuid, int>,
                      submitted2: Dict<Uuid, int>, distance: (int, int) -> int)
    requires forall i :: 0 <= i < |solution| ==> Get(submitted1, solution[i].0) == Get(submitted2, solution[i].0)
    ensures Verdict(pz, ps, solution, submitted1, distance) == Verdict(pz, ps, solution, submitted2, distance)
  {
    assert FeedbackList(ps, solution, submitted1, distance) == FeedbackList(ps, solution, submitted2, distance);
  }

  /** A player submitted twice counts with the square of the later entry;
      the solution's player rows likewise keep their last square, and each
      solution player is graded once. */
  lemma LastEntryWins(lookup: Dict<string, PlayerRow>, sub: seq<PositionSubmission>, rows: seq<PositionRow>, id: Uuid)
    ensures Get(SubmittedLookup(lookup, sub), id) == LastValue(SubmittedPairs(lookup, sub), id)
    ensures Get(SquareLookup(rows), id) == LastValue(SquarePairs(rows), id)
    ensures UniqueKeys(SquareLookup(rows))
  {
    GetFromPairs(SubmittedPairs(lookup, sub), id);
    GetFromPairs(SquarePairs(rows), id);
    FromPairsUnique(SquarePairs(rows));
  }

  lemma FeedbackListSnoc(ps: seq<PlayerRow>, solution: Dict<Uuid, int>, submitted: Dict<Uuid, int>,
                         distance: (int, int) -> int, i: int)
    requires 0 <= i < |solution|
    ensures FeedbackList(ps, solution[..i + 1], submitted, distance)
            == FeedbackList(ps, solution[..i], submitted, distance) + [FeedbackList(ps, solution, submitted, distance)[i]]
  {
  }

  lemma AllCorrectSnoc(fb: seq<PlayerFeedback>, e: PlayerFeedback)
    ensures AllCorrect(fb + [e]) <==> AllCorrect(fb) && e.isCorrect
  {
    if AllCorrect(fb + [e]) {
      forall i | 0 <= i < |fb| ensures fb[i].isCorrect { assert (fb + [e])[i] == fb[i]; }
      assert (fb + [e])[|fb|] == e;
    }
  }

  /** The first submitted label without a player, if any. */
  method CheckLabels(lookup: Dict<string, PlayerRow>, sub: seq<PositionSubmission>) returns (bad: Option<nat>)
    ensures bad == FirstUnknownSubmission(lookup, sub)
  {
    var k := 0;
    while k < |sub|
      invariant 0 <= k <= |sub|
      invariant forall j :: 0 <= j < k ==> Get(lookup, sub[j].playerLabel).Some?
    {
      if Get(lookup, sub[k].playerLabel).None? {
        return Some(k);
      }
      k := k + 1;
    }
    return None;
  }

  /** Whether every solution player was submitted. */
  method CheckSubmitted(solution: Dict<Uuid, int>, submitted: Dict<Uuid, int>) returns (complete: bool)
    ensures complete == AllSubmitted(solution, submitted)
  {
    var n := 0;
    while n < |solution|
      invariant 0 <= n <= |solution|
      invariant forall j :: 0 <= j < n ==> Get(submitted, solution[j].0).Some?
    {
      if Get(submitted, solution[n].0).None? {
        return false;
      }
      n := n + 1;
    }
    return true;
  }

  /** The grading loop: `None` is the `StopIteration` of a solution row
      without its player. */
  method Grade(ps: seq<PlayerRow>, solution: Dict<Uuid, int>, submitted: Dict<Uuid, int>, distance: (int, int) -> int)
    returns (r: Option<(seq<PlayerFeedback>, bool)>)
    requires AllSubmitted(solution, submitted)
    ensures r.None? <==> !AllHavePlayers(ps, solution)
    ensures r.Some? ==> r.value.0 == FeedbackList(ps, solution, submitted, distance) && (r.value.1 <==> AllCorrect(r.value.0))
  {
    var feedbackList: seq<PlayerFeedback> := [];
    var allCorrect := true;
    var i := 0;
    while i < |solution|
      invariant 0 <= i <= |solution|
      invariant forall j :: 0 <= j < i ==> FirstWithId(ps, solution[j].0).Some?
      invariant feedbackList == FeedbackList(ps, solution[..i], submitted, distance)
      invariant allCorrect <==> AllCorrect(feedbackList)
    {
      var (playerId, correctSquare) := solution[i];
      var d := distance(Get(submitted, playerId).value, correctSquare);
      var isCorrect := d == 0;
      if !isCorrect {
        allCorrect := false;
      }
      var player := FirstWithId(ps, playerId);
      if player.None? {
        return None;
      }
      FeedbackListSnoc(ps, solution, submitted, distance, i);
      FeedbackEntry(ps, solution, submitted, distance, i);
      var entry := PlayerFeedback(player.value.playerLabel, d, isCorrect);
      assert LabelOfId(ps, playerId) == player.value.playerLabel;
      assert FeedbackList(ps, solution, submitted, distance)[i] == entry;
      AllCorrectSnoc(feedbackList, entry);
      feedbackList := feedbackList + [entry];
      i := i + 1;
    }
    assert solution[..i] == solution;
    return Some((feedbackList, allCorrect));
  }

  /** The handler. */
  method Validate(puzzles: seq<PuzzleRow>, players: seq<PlayerRow>, positions: seq<PositionRow>, puzzleId: Uuid,
                  sub: seq<PositionSubmission>, distance: (int, int) -> int)
    returns (r: Result<PuzzleValidationResponse, HttpError>)
    ensures r == ValidateSpec(puzzles, players, positions, puzzleId, sub, distance)
  {
    var found := FindPuzzle(puzzles, puzzleId);
    if found.None? {
      return Err(PuzzleNotFound);
    }
    var pz := found.value;
    var ps := PlayersOf(players, pz.id);
    var lookup := LabelLookup(ps);
    var solution := SquareLookup(PositionsOf(positions, pz.id, "solution"));
    var bad := CheckLabels(lookup, sub);
    if bad.Some? {
      return Err(HttpError(400, "Invalid player " + sub[bad.value].playerLabel));
    }
    var submitted := SubmittedLookup(lookup, sub);
    var complete := CheckSubmitted(solution, submitted);
    if !complete {
      return Ok(ToValidationResponse(RawValidationResponse(false, None, Some(Some(NotAllPositioned)), None)));
    }
    var graded := Grade(ps, solution, submitted, distance);
    if graded.None? {
      return Err(InternalError);
    }
    var (feedbackList, allCorrect) := graded.value;
    if allCorrect {
      return Ok(ToValidationResponse(RawValidationResponse(true, Some(pz.solutionAnswer), Some(Some(Perfect)), Some(feedbackList))));
    }
    var feedback := BuildFeedback(feedbackList);
    return Ok(ToValidationResponse(RawValidationResponse(false, Some(None), Some(Some(feedback)), Some(feedbackList))));
  }
}
