# Soccer puzzle coach: a verified model of the tactics board and the puzzle rules

The system is a small coaching application. A coach places four red and four blue players on a
7 by 9 grid of cells. The coach saves their starting cells, moves some players to a solution and
stores the result as a puzzle on a FastAPI server. A player of the team then loads the puzzle,
drags the tokens and submits the cells. The server grades the submission and writes a feedback
sentence. A separate playground lets anyone push the players and a ball around.

This project models, in Dafny:

- the board of the front end:
  - the cell arithmetic of the pitch (module `PitchGeometry`);
  - the tokens each screen keeps (`Board`);
  - the drag controller with its occupancy rule (`Pitch`, class `PitchBoard`);
- the puzzle editor (`CreatePuzzle`, class `PuzzleEditor`): the lock and indicator toggles, the
  saved baseline and the payload it posts;
- the solver screen (`PuzzleSolver`, class `SolverView`): the board it builds from the detail view,
  the solution map, the positions it submits, the solution overlay and the drag gate;
- the playground (`Play`, class `Playground`): a ball that snaps to a player and follows the
  player who carries it away;
- the server:
  - the request and response schemas (`Schemas`) and the grid configuration (`Grid`);
  - the three handlers that create a puzzle, show it and grade a submission (`RoutesCreate`,
    `RoutesDetail`, `RoutesValidate`), over tables given as sequences of rows (`RoutesDb`);
  - the wording of the verdict (`RoutesFeedback`);
  - the health endpoint with its masked database URL (`Health`).

Shared modules:

- `Wrappers`: `Option` and `Result`.
- `Strings`: Python and JavaScript string operations.
- `PyDict`: a Python dictionary as a list of pairs. Keys keep the place of their first
  insertion, and a later value for the same key wins.

Modelling choices:

- State that React components change becomes a class with `modifies` clauses.
- Pure expressions become functions.
- Every loop of the source becomes a `while` loop proved equal to a specification function.
  Examples include the solution map's `forEach`, the follow loop in the playground, the player
  loops of the three handlers and the grading loop.
- Database ids are natural numbers. The fresh UUIDs of a new puzzle are a parameter.
- The grid distance used for grading is a function parameter, because the grid class defines none.
- An exception nobody catches is a `500` error value. A raised `HTTPException` is an error value
  with its status and detail, and then nothing is committed.

Behaviour of the code that is easy to miss:

- The verdict ignores submitted players who are not in the solution. It is not an exact
  comparison of the two sets of players (`RoutesValidate.ExtrasIgnored`).
- The solver's "moved players" filter compares the server's UUID player id with the front end's
  label id. So it never finds a start cell and submits every token
  (`PuzzleSolver.IdMismatchKeepsEveryone`).
- The grid the server declares as the 4v4 default is 7 by 5 (35 cells).
  - The detail view announces 9 rows and 7 columns (63 cells), and the pitch draws 7 by 9
    (`Grid.Grid4v4Total`).
  - The schema accepts cells 0..62 while the pitch numbers them 1..63, so a player dropped on
    the bottom-right cell is refused (`Schemas.PitchCellsAgainstSchema`).

## Model

| member | source | states |
|---|---|---|
| PitchGeometry.AxisIndex | frontend/src/components/Pitch.tsx:30-37 | the index along one axis lies in 0..n-1; a coordinate at or before 0 gives 0, at or past 1 gives n-1, and in between it is the floor of coordinate times n |
| PitchGeometry.PositionToSquare | frontend/src/components/Pitch.tsx:24-40 | for a grid of at least one column and row every input maps to a cell in 1..cols*rows, whose zero-based remainder and quotient by cols are the column and row indices |
| PitchGeometry.JsRem | frontend/src/components/Pitch.tsx:43 | JavaScript's remainder by a positive divisor agrees with the mathematical one for non-negative operands and stays strictly between -b and b |
| PitchGeometry.CellDecomposes | frontend/src/components/Pitch.tsx:42-44 | every cell 1..63 has a column in 0..6 and a row in 0..8, and row*7+col+1 gives the cell back |
| PitchGeometry.CellComposes | frontend/src/components/Pitch.tsx:39-44 | every column and row in range names a cell in 1..63 that decomposes into that column and row |
| PitchGeometry.CenterRoundTrip | frontend/src/components/Pitch.tsx:42-53 | the centre of every cell, normalised by the 71 by 100 drawing space and fed back to the cell mapping, gives the same cell |
| PitchGeometry.CenterStable | frontend/src/components/Pitch.tsx:42-53 | so mapping a centre to its cell and back to a centre leaves it unchanged |
| Pitch.MoveKeepsOthers | frontend/src/components/Pitch.tsx:106-108 | a move keeps the length and order of the list, changes only the square, and only of tokens with the dragged id |
| Pitch.MoveOccupancy | frontend/src/components/Pitch.tsx:104-108 | a target cell held by another token leaves the board unchanged; a free target is taken by the dragged token |
| Pitch.MovePreservesDistinct | frontend/src/components/Pitch.tsx:104-108 | with unique ids, tokens on pairwise distinct cells stay on pairwise distinct cells after a move |
| Pitch.MoveAllKeepsOthers | frontend/src/components/Pitch.tsx:93-114 | through any sequence of moves, a token that is not the dragged one keeps its place and all its fields |
| Pitch.PitchBoard.constructor | frontend/src/components/Pitch.tsx:55-72 | the grid size is the puzzle's, falling back to 7 by 9 when absent or 0; the board holds the initial tokens and nothing is dragged |
| Pitch.PitchBoard.Receive | frontend/src/components/Pitch.tsx:74-78 | a new initial-players prop replaces the board |
| Pitch.PitchBoard.PointerDown | frontend/src/components/Pitch.tsx:80-85 | a refusing gate leaves the dragged id unchanged; otherwise the pressed token becomes the dragged one, even during another drag |
| Pitch.PitchBoard.PointerMove | frontend/src/components/Pitch.tsx:93-114 | without a drag nothing changes and nothing is reported; with one the board becomes the move to the cell under the cursor and is reported to the caller |
| Pitch.PitchBoard.PointerUp | frontend/src/components/Pitch.tsx:116-118 | the drag ends; the board is not touched |
| Board.Find | frontend/src/CreatePuzzle.tsx:456 | the lookup finds a token exactly when one has the id, and returns the first token of the list with that id |
| Board.FindUnique | frontend/src/PuzzleSolver.tsx:307 | with unique ids, the lookup of a token's id returns that token |
| Board.DragAllowed | frontend/src/CreatePuzzle.tsx:455-458 | an unknown id may be dragged; with unique ids, a token may be dragged exactly when it is not locked |
| Board.DefaultLayoutValid | frontend/src/CreatePuzzle.tsx:26-35 | the default layout has eight unlocked tokens with unique ids on distinct cells within 1..63, and only A1 has the ball |
| CreatePuzzle.ToggleLockEffect | frontend/src/CreatePuzzle.tsx:40-44 | the lock toggle flips the flag of exactly the tokens with that id and changes nothing else |
| CreatePuzzle.ToggleLockTwice | frontend/src/CreatePuzzle.tsx:40-44 | toggling twice restores the board |
| CreatePuzzle.NextIndicatorCycle | frontend/src/CreatePuzzle.tsx:49-57 | none or empty goes to attack, attack to defend, defend and any other value to none; three steps restore none, attack and defend |
| CreatePuzzle.CycleIndicatorEffect | frontend/src/CreatePuzzle.tsx:46-62 | only the tokens with that id change, and only in their indicator |
| CreatePuzzle.CycleIndicatorThrice | frontend/src/CreatePuzzle.tsx:46-62 | three clicks restore a board whose matching tokens show none, attack or defend |
| CreatePuzzle.SolutionFromExact | frontend/src/CreatePuzzle.tsx:98-103 | the filter from any index on lists exactly the moved tokens there, in increasing board order, each at its current square |
| CreatePuzzle.SolutionPositionsExact | frontend/src/CreatePuzzle.tsx:98-103 | the solution list holds exactly the tokens whose baseline entry with the same id stands on another square, in board order, each at its current square |
| CreatePuzzle.DiffRoundTrip | frontend/src/CreatePuzzle.tsx:98-103 | with unique ids, writing the solution list over the baseline gives every token its square on the current board |
| CreatePuzzle.LastSquare | frontend/src/CreatePuzzle.tsx:98-103 | the square of the last diff entry for a label, present exactly when some entry names it |
| CreatePuzzle.LockedPositions | frontend/src/CreatePuzzle.tsx:95-97 | the locked list has one entry per locked baseline token, in baseline order, each at its baseline square, and no other entry |
| CreatePuzzle.FindBall | frontend/src/CreatePuzzle.tsx:74 | the first token with the ball, present exactly when some token has it |
| CreatePuzzle.BallCarrierLabel | frontend/src/CreatePuzzle.tsx:74-104 | the first ball holder of the baseline, else of the current board, else "A1"; never empty |
| CreatePuzzle.BuildPayload | frontend/src/CreatePuzzle.tsx:74-105 | one player declaration and one start position per baseline token, with team A exactly for ids starting with A, the token's square, an indicator only when truthy; format "4v4", the chosen mode, and an empty hint sent as null |
| CreatePuzzle.PuzzleEditor.constructor | frontend/src/CreatePuzzle.tsx:16-37 | empty form, attacking mode, starting step, the default layout, no baseline and no created puzzle |
| CreatePuzzle.PuzzleEditor.EditDetails | frontend/src/CreatePuzzle.tsx:17-22 | the form fields take the entered values |
| CreatePuzzle.PuzzleEditor.BoardMoved | frontend/src/CreatePuzzle.tsx:303-307 | the board the pitch reports becomes the editor's board |
| CreatePuzzle.PuzzleEditor.TogglePlayerLock | frontend/src/CreatePuzzle.tsx:40-44 | the board becomes the lock toggle of the old board |
| CreatePuzzle.PuzzleEditor.CyclePlayerIndicator | frontend/src/CreatePuzzle.tsx:46-62 | the board becomes the indicator cycle of the old board |
| CreatePuzzle.PuzzleEditor.SaveStartingPositions | frontend/src/CreatePuzzle.tsx:64-67 | the baseline becomes a copy of the board and the step becomes the solution step |
| CreatePuzzle.PuzzleEditor.BackToStartingPositions | frontend/src/CreatePuzzle.tsx:464-465 | the step returns to the starting step |
| CreatePuzzle.PuzzleEditor.Created | frontend/src/CreatePuzzle.tsx:124 | the created puzzle records the returned id, title and team |
| CreatePuzzle.PuzzleEditor.ResetForm | frontend/src/CreatePuzzle.tsx:134-145 | every field returns to its state after mounting |
| PuzzleSolver.StripTeamLetter | frontend/src/PuzzleSolver.tsx:45 | one leading A or B is removed, and only that |
| PuzzleSolver.StripTeamLetterExamples | frontend/src/PuzzleSolver.tsx:45 | "A1" shows as "1", "B4" as "4", "AB1" as "B1"; "C1" and "" are unchanged |
| PuzzleSolver.InitialPlayersShape | frontend/src/PuzzleSolver.tsx:41-51 | one token per team player, keyed by the full label, shown without the team letter, on its start square with its team colour, locked only when the server says so (absent means unlocked) |
| PuzzleSolver.SolutionMapExact | frontend/src/PuzzleSolver.tsx:60-66 | the keys are exactly the row labels that name a token, and each value is the square of the last row for that label |
| PuzzleSolver.BuildSolutionMap | frontend/src/PuzzleSolver.tsx:60-66 | the loop builds that map |
| PuzzleSolver.FirstStart | frontend/src/PuzzleSolver.tsx:86-88 | the start square of the first team player with the id, absent exactly when none has it |
| PuzzleSolver.MovedPlayersExact | frontend/src/PuzzleSolver.tsx:85-90 | a token of the board is submitted exactly when the first team player with its id is missing or starts on another square; the submitted tokens appear once each, in board order |
| PuzzleSolver.UnknownIdKept | frontend/src/PuzzleSolver.tsx:85-90 | a token whose id no team player has is always submitted |
| PuzzleSolver.IdMismatchKeepsEveryone | frontend/src/PuzzleSolver.tsx:85-90 | when no team player's id equals a token id (UUIDs against labels), every token is submitted, in order |
| PuzzleSolver.Positions | frontend/src/PuzzleSolver.tsx:92-95 | one position per submitted token, in order, with its id as label and its square |
| PuzzleSolver.DisplayPlayersEffect | frontend/src/PuzzleSolver.tsx:122-127 | hidden, the overlay is the board; shown, only squares change, a non-zero solution square replaces the token's, and no other change happens |
| PuzzleSolver.CanDrag | frontend/src/PuzzleSolver.tsx:305-309 | nobody may be dragged while the solution shows; otherwise, with unique ids, exactly the unlocked tokens |
| PuzzleSolver.SolverView.constructor | frontend/src/PuzzleSolver.tsx:20-26 | no teams, no tokens, the solution hidden and an empty solution map |
| PuzzleSolver.SolverView.Load | frontend/src/PuzzleSolver.tsx:33-77 | the board is rebuilt from the teams; a solution response replaces the map, a failed one leaves it |
| PuzzleSolver.SolverView.ResetPuzzle | frontend/src/PuzzleSolver.tsx:116-120 | the solution is hidden and the puzzle loaded again |
| PuzzleSolver.SolverView.ToggleSolution | frontend/src/PuzzleSolver.tsx:112-114 | the overlay flag is negated |
| PuzzleSolver.SolverView.BoardMoved | frontend/src/PuzzleSolver.tsx:304 | the pitch's report is taken only while the solution is hidden |
| Play.CenterBallIsCellCentre | frontend/src/Play.tsx:29 | the kick-off ball is the centre of cell 32, the middle cell, and that point maps back to cell 32 |
| Play.DroppedBall | frontend/src/Play.tsx:37-58 | the ball always takes the given cell; it snaps to the cell's centre when a token stands there and keeps the drop point otherwise |
| Play.SnappedBallMapsToItsCell | frontend/src/Play.tsx:39-53 | a snapped ball lies at a point that maps back to its own cell |
| Play.FollowExact | frontend/src/Play.tsx:63-79 | without a triggering token the ball stays; otherwise it ends at the centre of the last triggering token's new cell |
| Play.AtMostOneTrigger | frontend/src/Play.tsx:63-79 | on a board with unique ids and distinct cells, at most one token of a report with unique ids triggers |
| Play.BallFollowsCarrier | frontend/src/Play.tsx:63-79 | so the ball follows the one token that carried it off and lands inside that token's new cell |
| Play.LooseBallStays | frontend/src/Play.tsx:63-79 | a ball on a cell nobody stood on does not move with the players |
| Play.Playground.constructor | frontend/src/Play.tsx:27-30 | the default layout and the kick-off ball |
| Play.Playground.ResetPlayers | frontend/src/Play.tsx:32-35 | the default layout and the kick-off ball again |
| Play.Playground.HandleBallMove | frontend/src/Play.tsx:37-58 | the ball becomes the dropped ball for the current board |
| Play.Playground.HandlePlayerMove | frontend/src/Play.tsx:60-80 | the board becomes the report, and the ball follows as specified against the old board and the old ball |
| Grid.GridConfig.Total | app/core/grid.py:8-10 | the total is non-negative for non-negative sizes, and at least each side for positive ones |
| Grid.Grid4v4Total | app/core/grid.py:5-12 | the default grid is 7 by 5, 35 cells, not the 63 of a 7 by 9 board |
| Schemas.OrNone | app/schemas/puzzle.py:8 | a left-out nullable field is None; a given one is kept |
| Schemas.ParsePositionInput | app/schemas/puzzle.py:5-8 | a position is accepted exactly when its cell is in 0..62, keeping label and cell; a left-out indicator is None |
| Schemas.ParsePositions | app/schemas/puzzle.py:25-27 | a list is accepted exactly when every element is, element by element |
| Schemas.ParsePuzzleCreate | app/schemas/puzzle.py:10-27 | accepted exactly when the format is "4v4", the mode one of the two literals and every position in range; left-out description, hint and answer are None and left-out locked positions empty |
| Schemas.ParseSubmission | app/schemas/puzzle.py:70-72 | a submitted position is accepted with any cell |
| Schemas.ToValidationResponse | app/schemas/puzzle.py:82-86 | left-out answer and feedback are None, left-out per-player feedback is empty |
| Schemas.PitchCellsAgainstSchema | app/schemas/puzzle.py:7 | the pitch's cells and the schema's range share only 1..62: the corner cell 63 is refused and 0 is no pitch cell, while submissions take both |
| RoutesDb.FindPuzzle | app/api/routes.py:117-122 | a puzzle is found exactly when one has the id, and it is the first row with that id |
| RoutesDb.PlayersOfExact | app/api/routes.py:125-127 | the player query keeps exactly the players of the puzzle |
| RoutesDb.PositionsOfExact | app/api/routes.py:130-133 | the position query keeps exactly the rows of the puzzle and type |
| RoutesDb.LabelLookupExact | app/api/routes.py:57 | the label lookup knows exactly the players' labels and holds the last player with each |
| RoutesDb.LabelLookupUnique | app/api/routes.py:57 | with distinct labels, each label finds its own player |
| RoutesCreate.DefaultPlayersShape | app/api/routes.py:44-53 | exactly the labels A1..A4 and B1..B4, each under its own team letter, with its own fresh id and no indicator |
| RoutesCreate.DefaultLookup | app/api/routes.py:57 | the lookup over the new players knows exactly the eight labels and finds the player made for each |
| RoutesCreate.FirstUnknown | app/api/routes.py:72-77 | the index of the first position whose label is unknown, absent exactly when all are known |
| RoutesCreate.FirstUnknownConcat | app/api/routes.py:89-92 | the first unknown label of consecutive batches is in the first batch that has one |
| RoutesCreate.IndicatorAfterSource | app/api/routes.py:78-80 | a player's indicator is only ever taken from a truthy indicator of its own start position; without one it keeps its own |
| RoutesCreate.SavePositions | app/api/routes.py:71-87 | the loop fails with a 400 naming the first unknown label, or adds one row per position and the start indicators |
| RoutesCreate.CreateBallCarrier | app/api/routes.py:59-68 | a ball carrier outside A1..B4 is a 400 before anything else; a created puzzle records the fresh id of its carrier |
| RoutesCreate.CreateFailsAtFirstUnknown | app/api/routes.py:89-92 | with a known carrier, the request fails exactly at the first unknown label of all positions in saving order |
| RoutesCreate.CreateUnknownLabel | app/api/routes.py:71-92 | with a known carrier, the request fails exactly when some position names a label outside A1..B4, with a 400 naming the first such label |
| RoutesCreate.CreateWrites | app/api/routes.py:78-92 | a created puzzle has the start, solution and locked rows in that order and eight players carrying their start indicators |
| RoutesCreate.CreatePuzzle | app/api/routes.py:22-97 | the handler with its player loops and saves gives the specified result |
| RoutesDetail.LockedIds | app/api/routes.py:146 | an id is locked exactly when some locked row names it |
| RoutesDetail.ProjectExact | app/api/routes.py:159-167 | each entry has the ball exactly for the carrier, is locked exactly when a locked row names it, has the start square of the last start row for it and keeps id, label and indicator |
| RoutesDetail.TeamListExact | app/api/routes.py:148-167 | a team's list holds exactly the projections of that team's players, and with known teams the two lists share all players |
| RoutesDetail.DetailOutcome | app/api/routes.py:112-183 | no puzzle is a 404; a found puzzle is a 500 exactly when a player is of a team other than A or B or has no start row (the response model demands an integer start square); a success carries the puzzle's id and the 9 by 7 grid of 63 cells, team A's list holds only team-A players of the puzzle and team B's only team-B players, each with a start square, and together the lists have one entry per player of the puzzle |
| RoutesDetail.OneBallCarrier | app/api/routes.py:164 | with distinct player ids, at most one player has the ball |
| RoutesDetail.GetPuzzle | app/api/routes.py:112-183 | the handler with its player loop and the response validation gives the specified result: a 500 for a player of another team or without a start row |
| RoutesValidate.FirstUnknownSubmission | app/api/routes.py:253-258 | the index of the first submitted label the lookup does not know, absent exactly when all are known |
| RoutesValidate.FirstUnknownIsUnlabelled | app/api/routes.py:253-258 | that is the first submitted label no player of the puzzle carries |
| RoutesValidate.ValidateRejects | app/api/routes.py:253-258 | a label no player carries is a 400 naming the first such label, whatever the solution says |
| RoutesValidate.NoPuzzle | app/api/routes.py:227-232 | an unknown puzzle is a 404 |
| RoutesValidate.LastEntryWins | app/api/routes.py:261-264 | a player submitted twice counts with the later square; the solution keeps each player once, with its last square |
| RoutesValidate.MissingPlayer | app/api/routes.py:266-269 | a solution player missing from the submission makes the verdict wrong, with the fixed message, no answer and no per-player feedback |
| RoutesValidate.FirstWithId | app/api/routes.py:284 | the first player row with the id, absent exactly when none has it |
| RoutesValidate.FeedbackEntry | app/api/routes.py:275-290 | the entry of a submitted solution player carries its label, its distance, and whether the distance is 0 |
| RoutesValidate.GradedVerdict | app/api/routes.py:271-299 | the verdict is correct exactly when every solution player is at distance 0; one entry per solution player; the answer text only with a correct verdict, and a wrong one carries the composed message |
| RoutesValidate.EmptySolutionCorrect | app/api/routes.py:271-299 | a puzzle without solution rows accepts every submission with known labels |
| RoutesValidate.ExtrasIgnored | app/api/routes.py:266-299 | two submissions that agree on the solution players get the same verdict |
| RoutesValidate.CheckLabels | app/api/routes.py:253-258 | the loop finds the first unknown label |
| RoutesValidate.CheckSubmitted | app/api/routes.py:266-269 | the loop decides whether every solution player was submitted |
| RoutesValidate.Grade | app/api/routes.py:271-290 | the grading loop fails exactly when a solution player has no player row, and otherwise gives the feedback list and whether all entries are correct |
| RoutesValidate.Validate | app/api/routes.py:222-341 | the handler gives the specified result |
| RoutesFeedback.TeamColor | app/api/routes.py:309 | "Red" exactly for labels starting with A, "Blue" otherwise |
| RoutesFeedback.PlayerNumber | app/api/routes.py:310 | every A and B is removed from the label, and no other character |
| RoutesFeedback.SquareWord | app/api/routes.py:311 | "square" exactly for distance 1, "squares" otherwise |
| RoutesFeedback.Select | app/api/routes.py:302-303 | the entries with the wanted correctness, no more than the whole list |
| RoutesFeedback.PhraseExample | app/api/routes.py:314-318 | one red player two cells off reads "Red Player 1 is 2 squares" |
| RoutesFeedback.PhraseEndsInWord | app/api/routes.py:318 | a phrase ends with "square" or "squares" |
| RoutesFeedback.SingleIncorrectDoubledSuffix | app/api/routes.py:307-312 | as written, a single incorrect player's message ends with the suffix twice |
| RoutesFeedback.DoubledSuffixExample | app/api/routes.py:307-334 | as written, one red player two cells off gives the doubled suffix; the corrected message has it once |
| RoutesFeedback.ComposeShape | app/api/routes.py:320-334 | the message is the correct players' text (when there are both kinds), then the joined parts and the closing |
| RoutesFeedback.FeedbackTextShape | app/api/routes.py:332-334 | the corrected message is its body followed by the suffix and a full stop |
| RoutesFeedback.FeedbackBodyEnd | app/api/routes.py:314-318 | with at least one incorrect player, the body ends in the last phrase's unit word |
| RoutesFeedback.FeedbackSuffixOnce | app/api/routes.py:332-334 | the corrected message ends with the suffix and a full stop, and never with the suffix twice |
| RoutesFeedback.CorrectTextExamples | app/api/routes.py:327-330 | one correct player reads "X is correct", three read "X, Y and Z are correct" |
| RoutesFeedback.FeedbackExample | app/api/routes.py:320-332 | one correct and two wrong players, one a single cell off, give "Red Player 1 is correct, but Blue Player 2 is 1 square, and Red Player 3 is 3 squares from the ideal solution." |
| RoutesFeedback.BuildFeedback | app/api/routes.py:302-334 | the loops over incorrect and correct players build the corrected message |
| Health.Mask | app/main.py:23-27 | an unset URL or one without an @ passes through unchanged |
| Health.MaskShape | app/main.py:24-25 | a masked URL is the scheme before the first colon (a prefix of the URL without colon or @), then ":****@", then the text between the first and second @ |
| Health.Preview | app/main.py:31 | at most 53 characters: the masked value when it has at most 50, else its first 50 and "..." |
| Health.HealthCheck | app/main.py:18-32 | the status is "ok", the URL counts as set exactly when present and not the literal "NOT_SET", and an absent URL previews as "NOT_SET" |
| Health.HealthMasksCredentials | app/main.py:21-31 | a short URL with credentials is reported set and previewed as scheme, ":****@" and host |

## Left out

- Network and browser I/O is not modelled: the fetch calls, alerts, console output, sharing and the
  clipboard. A response of the server is a parameter of the state change it causes.
- Rendering is not modelled: the SVG and JSX markup, styles, the hint toggle, and the DOM measurement
  that turns a pointer event into normalised coordinates. The pitch receives normalised coordinates.
- Centres of cells are exact reals, not IEEE doubles.
- The database is sequences of rows. Sessions, flush, commit, rollback and cascades are not modelled.
  app/db/models.py and app/db/session.py are not part of this model.
- Three endpoints are not modelled: the solution endpoint (`get_puzzle_solution`), the listing
  (`list_puzzles`) and the deletion (`delete_puzzle`). They are plain queries outside the puzzle
  rules. The solver receives the solution endpoint's rows as a parameter.
- RoutesValidate.Validate: the grid distance is a parameter. The 4v4 grid object defines no
  distance method, so the code as written would fail with a 500 as soon as a solution entry is graded.
- RoutesCreate.CreatePuzzle: the fresh UUIDs of the puzzle and its players are parameters, so
  their uniqueness is not modelled.
- Board.Token: the optional `locked` flag is a plain boolean. Every reader treats an absent flag as
  false, so the difference is not observable.
- PuzzleSolver.SolverView.ResetPuzzle: the refetch is modelled as the new responses it receives,
  without the loading flag or the order in which the two responses arrive.
- Pitch.PitchBoard.constructor: the fallback that builds the tokens from the puzzle's teams when no
  initial players are given is not modelled. Every screen in this model passes initial players.
- Play.Playground.HandleBallMove: the pitch component declares no ball props, so nothing in the
  source calls this handler. It is modelled as an operation on its own.
- Concurrent pointers, the submitting and loading flags, and the created-puzzle screen are not
  modelled.
- RoutesValidate.Validate: with exactly one incorrect player, the handler is modelled with the
  corrected feedback message (`RoutesFeedback.FeedbackText`), in which " from the ideal solution"
  appears once. The code as written repeats it (see Findings). The as-written text is
  `RoutesFeedback.FeedbackAsWritten`, but the handler does not use it.
- RoutesValidate.GradedVerdict: a wrong verdict carries the corrected message for the same
  reason. For exactly one incorrect player, the code's message ends with the suffix twice.
- RoutesDetail.GetPuzzle: assumes the players table's `indicator` column is mapped on the ORM
  class. The column is added by a migration, but the `Player` class in app/db/models.py declares no
  such attribute. Reading `player.indicator` at app/api/routes.py:166 would then fail with a 500 for
  every puzzle.
- RoutesCreate.CreateWrites: records the indicator set at app/api/routes.py:80 on the player
  rows as if the `indicator` column were mapped. With the ORM class as written it would not be stored.
- Health.HealthCheck: the environment variable is a parameter. The CORS setup is not modelled.

## Findings

| source | as written | input that shows it | evidently intended | confidence | as-written member | corrected member |
|---|---|---|---|---|---|---|
| app/api/routes.py:312 | with exactly one incorrect player, the phrase already ends in " from the ideal solution", and the message at lines 332 and 334 appends it again | one player, red number 1, two cells off, gives "Red Player 1 is 2 squares from the ideal solution from the ideal solution." | the suffix appears once, as it does for two or more incorrect players | not executed | RoutesFeedback.FeedbackAsWritten (RoutesFeedback.SingleIncorrectDoubledSuffix, RoutesFeedback.DoubledSuffixExample) | RoutesFeedback.FeedbackText (RoutesFeedback.FeedbackSuffixOnce, RoutesFeedback.BuildFeedback) |
