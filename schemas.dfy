/** The request and response schemas of the server (app/schemas/puzzle.py):
    field types, bounds and defaults. A raw body has an `Option` for every
    field that may be left out; a nullable field is an `Option` too, so a
    field that may be left out or be null is `Option<Option<..>>`. Parsing
    either yields the validated record or a validation error (HTTP 422). */
module Schemas {
  import opened Wrappers
  import PitchGeometry

  datatype SchemaError = ValidationError(field: string)

  datatype PositionInput = PositionInput(playerLabel: string, squareId: int, indicator: Option<string>)

  datatype PuzzleCreate = PuzzleCreate(
    title: string,
    description: Option<string>,
    teamName: string,
    hint: Option<string>,
    solutionAnswer: Option<string>,
    format: string,
    mode: string,
    teamAColor: string,
    teamBColor: string,
    ballCarrierLabel: string,
    startingPositions: seq<PositionInput>,
    solutionPositions: seq<PositionInput>,
    lockedPositions: seq<PositionInput>)

  datatype PositionSubmission = PositionSubmission(playerLabel: string, squareId: int)

  datatype PlayerFeedback = PlayerFeedback(playerLabel: string, distance: int, isCorrect: bool)

  datatype PuzzleValidationResponse = PuzzleValidationResponse(
    correct: bool,
    solutionAnswer: Option<string>,
    feedback: Option<string>,
    playerFeedback: seq<PlayerFeedback>)

  datatype RawPositionInput = RawPositionInput(playerLabel: string, squareId: int, indicator: Option<Option<string>>)

  datatype RawPuzzleCreate = RawPuzzleCreate(
    title: string,
    description: Option<Option<string>>,
    teamName: string,
    hint: Option<Option<string>>,
    solutionAnswer: Option<Option<string>>,
    format: string,
    mode: string,
    teamAColor: string,
    teamBColor: string,
    ballCarrierLabel: string,
    startingPositions: seq<RawPositionInput>,
    solutionPositions: seq<RawPositionInput>,
    lockedPositions: Option<seq<RawPositionInput>>)

  datatype RawValidationResponse = RawValidationResponse(
    correct: bool,
    solutionAnswer: Option<Option<string>>,
    feedback: Option<Option<string>>,
    playerFeedback: Option<seq<PlayerFeedback>>)

  /** A cell number the schema accepts: from 0 to 62 inclusive. */
  predicate SquareIdInRange(squareId: int) {
    0 <= squareId <= 62
  }

  /** A nullable field that may be left out: absent means None. */
  function OrNone(f: Option<Option<string>>): (r: Option<string>)
    ensures f.None? ==> r.None?
    ensures f.Some? ==> r == f.value
  {
    f.GetOr(None)
  }

  function ParsePositionInput(raw: RawPositionInput): (r: Result<PositionInput, SchemaError>)
    ensures r.Ok? <==> 0 <= raw.squareId <= 62
    ensures r.Ok? ==> r.value.playerLabel == raw.playerLabel && r.value.squareId == raw.squareId
    ensures r.Ok? && raw.indicator.None? ==> r.value.indicator.None?
  {
    if SquareIdInRange(raw.squareId) then Ok(PositionInput(raw.playerLabel, raw.squareId, OrNone(raw.indicator)))
    else Err(ValidationError("square_id"))
  }

  /** A list of positions is valid when every element is. */
  function ParsePositions(raws: seq<RawPositionInput>): (r: Result<seq<PositionInput>, SchemaError>)
    ensures r.Ok? <==> forall i :: 0 <= i < |raws| ==> SquareIdInRange(raws[i].squareId)
    ensures r.Ok? ==> |r.value| == |raws| && forall i :: 0 <= i < |raws| ==> ParsePositionInput(raws[i]) == Ok(r.value[i])
  {
    if raws == [] then Ok([])
    else
      match ParsePositionInput(raws[0])
      case Err(e) => Err(e)
      case Ok(p) =>
        match ParsePositions(raws[1..])
        case Err(e) => Err(e)
        case Ok(ps) => Ok([p] + ps)
  }

  predicate AllInRange(raws: seq<RawPositionInput>) {
    forall i :: 0 <= i < |raws| ==> SquareIdInRange(raws[i].squareId)
  }

  /** `PuzzleCreate`: `format` is the literal "4v4", `mode` one of two
      literals, every position in range; left-out optional fields are None
      and left-out locked positions are the empty list. */
  function ParsePuzzleCreate(raw: RawPuzzleCreate): (r: Result<PuzzleCreate, SchemaError>)
    ensures r.Ok? <==>
              raw.format == "4v4" && (raw.mode == "attacking" || raw.mode == "defending")
              && AllInRange(raw.startingPositions) && AllInRange(raw.solutionPositions)
              && (raw.lockedPositions.Some? ==> AllInRange(raw.lockedPositions.value))
    ensures r.Ok? ==>
              && (raw.description.None? ==> r.value.description.None?)
              && (raw.hint.None? ==> r.value.hint.None?)
              && (raw.solutionAnswer.None? ==> r.value.solutionAnswer.None?)
              && (raw.lockedPositions.None? ==> r.value.lockedPositions == [])
              && |r.value.startingPositions| == |raw.startingPositions|
              && |r.value.solutionPositions| == |raw.solutionPositions|
              && r.value.ballCarrierLabel == raw.ballCarrierLabel
  {
    if raw.format != "4v4" then Err(ValidationError("format"))
    else if raw.mode != "attacking" && raw.mode != "defending" then Err(ValidationError("mode"))
    else
      match (ParsePositions(raw.startingPositions), ParsePositions(raw.solutionPositions),
             ParsePositions(raw.lockedPositions.GetOr([])))
      case (Ok(starts), Ok(solutions), Ok(locked)) =>
        Ok(PuzzleCreate(raw.title, OrNone(raw.description), raw.teamName, OrNone(raw.hint),
                        OrNone(raw.solutionAnswer), raw.format, raw.mode, raw.teamAColor, raw.teamBColor,
                        raw.ballCarrierLabel, starts, solutions, locked))
      case _ => Err(ValidationError("positions"))
  }

  /** `PositionSubmission` puts no bound on `square_id`. */
  function ParseSubmission(playerLabel: string, squareId: int): (r: Result<PositionSubmission, SchemaError>)
    ensures r.Ok? && r.value.playerLabel == playerLabel && r.value.squareId == squareId
  {
    Ok(PositionSubmission(playerLabel, squareId))
  }

  /** `PuzzleValidationResponse`: left-out answer and feedback are None, left-out
      per-player feedback is the empty list. */
  function ToValidationResponse(raw: RawValidationResponse): (r: PuzzleValidationResponse)
    ensures r.correct == raw.correct
    ensures raw.solutionAnswer.None? ==> r.solutionAnswer.None?
    ensures raw.feedback.None? ==> r.feedback.None?
    ensures raw.playerFeedback.None? ==> r.playerFeedback == []
    ensures raw.playerFeedback.Some? ==> r.playerFeedback == raw.playerFeedback.value
  {
    PuzzleValidationResponse(raw.correct, OrNone(raw.solutionAnswer), OrNone(raw.feedback),
                             raw.playerFeedback.GetOr([]))
  }

  /** The pitch numbers its cells 1..63 while `PositionInput` accepts 0..62:
      they agree on 1..62 only. The bottom-right cell, which the pitch gives to
      a cursor at or past that corner, is refused by the server, and the
      server's 0 is no cell of the pitch. A submission, unbounded, takes both. */
  lemma PitchCellsAgainstSchema()
    ensures forall s :: 1 <= s <= PitchGeometry.GridCols * PitchGeometry.GridRows && SquareIdInRange(s) <==> 1 <= s <= 62
    ensures PitchGeometry.PositionToSquare(1.0, 1.0, PitchGeometry.GridCols, PitchGeometry.GridRows) == 63
    ensures !SquareIdInRange(63) && ParsePositionInput(RawPositionInput("B1", 63, None)).Err?
    ensures SquareIdInRange(0)
    ensures forall x: real, y: real :: PitchGeometry.PositionToSquare(x, y, PitchGeometry.GridCols, PitchGeometry.GridRows) != 0
    ensures ParseSubmission("B1", 63).Ok? && ParseSubmission("B1", 0).Ok?
  {
    assert PitchGeometry.AxisIndex(1.0, 7) == 6;
    assert PitchGeometry.AxisIndex(1.0, 9) == 8;
  }
}
