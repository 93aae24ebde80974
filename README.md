# Chess engine core (Unity chess game with an automated Black player)

This project models the core of a small Unity chess game in Dafny and proves
properties of that model. The core has three parts:

- **Move generation.** `Chessman` and its plate-spawning routines. A sliding
  ray serves the queen, rook and bishop. The knight and the king go through
  the single-target rule. The pawn has its step, its double step and its
  diagonal captures. Every spawned move plate becomes a `Candidate(x, y, attack)`.
- **Game manager.** `GameManager` holds the 8×8 `positions` grid, the player
  to move, the game-over flag and the winner. Its operations are `Start`'s
  setup loop, the grid accessors, `Winner`, `NextTurn` and
  `MovePiece`/`MovePieceCoroutine`. The coroutine is treated as one atomic
  move application.
- **Automated opponent.** `ChessAI` has the material table and scores every
  Black move plate. A quiet move scores a random draw from 1 to 9. The AI then
  plays a highest-scoring move.

The project has six files:

- `board.dfy` (module `Board`): pieces, plates and the grid as a value.
- `moves.dfy` (module `Moves`): the generation rules as pure functions, with
  their exact characterisations.
- `setup.dfy` (module `Setup`): the starting position and `Start`'s placement
  loop round by round.
- `scoring.dfy` (module `Scoring`): values, scores, the AI's list of scored
  moves and what a best entry is.
- `turns.dfy` (module `Turns`): the game state as a value, with move
  application, `NextTurn` and the AI's reply.
- `engine.dfy` (module `Engine`): the three classes, built as imperative Dafny.
  - `positions` is an `array2<Chessman?>`.
  - The piece fields `xBoard`, `yBoard` and `hasMoved` are updated in place.
  - `LineMovePlate` is a `while` loop.
  - `MakeAIMove` collects moves in a loop over the squares and an inner loop
    over the plates.
  - Each method is proved against the value model. For example:
    - `ApplyMove` ends in `Apply(old state)`;
    - `LineMovePlate` returns `Ray(...)`;
    - `CollectMoves` returns `AIMoves(board, jitter)`.

The game manager keeps an invariant, `Valid()`, which ties the array to a
ghost value `board` and to the ghost set `pieces` of pieces on the grid. It
requires all of the following:

- the grid and the value board show the same side, kind and moved flag on
  every square;
- every piece on the grid records its own square;
- an unmoved piece stands where it was created;
- a pawn was created on its side's pawn rank.

The random neutral value is an input, `jitter: nat -> Draw`, where `Draw` is
1..9. The entry at position `k` of the AI's list uses draw `k`.

## Model

| member | source | states |
|---|---|---|
| Board.EmptyBoard | Assets/Scripts/GameManager.cs:12 | defines the fresh 8×8 grid and states that it is empty on every square |
| Board.Put | Assets/Scripts/GameManager.cs:71-75 | storing into one cell sets that cell and leaves every other cell as it was |
| Moves.RayStep | Assets/Scripts/Chessman.cs:194-199 | through an empty on-board square the ray emits a quiet plate there and continues from the next square |
| Moves.RayEnd | Assets/Scripts/Chessman.cs:201-205 | on an off-board or occupied square the ray ends with one attack plate if an opponent stands there, and nothing otherwise |
| Moves.RayLandable | Assets/Scripts/Chessman.cs:186-206 | every plate of a ray is on the board; quiet plates are on empty squares and attack plates on opponents |
| Moves.EmptyRunExact | Assets/Scripts/Chessman.cs:194-199 | the run of squares the loop walks is exactly the maximal run of consecutive on-board empty squares from the first step |
| Moves.RayQuietRun | Assets/Scripts/Chessman.cs:194-199 | the ray starts with one quiet plate per square of that run, in walking order |
| Moves.RayStop | Assets/Scripts/Chessman.cs:201-205 | after the run the ray holds at most one more plate, an attack on the stopping square, present exactly when an opponent stands there; nothing lies beyond it |
| Moves.QueenIsRookAndBishop | Assets/Scripts/Chessman.cs:107-139 | the queen's plates are exactly the rook's plus the bishop's from the same square, as a multiset |
| Moves.Point | Assets/Scripts/Chessman.cs:222-238 | the single-target rule yields at most one plate |
| Moves.PointExact | Assets/Scripts/Chessman.cs:222-238 | the rule yields a plate exactly on its target when the target is on the board and empty (quiet) or holds an opponent (attack) |
| Moves.KnightMovesExact | Assets/Scripts/Chessman.cs:209-219 | a plate is a knight plate iff its offset is (±1,±2) or (±2,±1) and the target is landable |
| Moves.KingMovesExact | Assets/Scripts/Chessman.cs:241-251 | a plate is a king plate iff it is one of the 8 unit neighbours and the target is landable |
| Moves.AvailableMovesLandable | Assets/Scripts/Chessman.cs:103-147 | every generated plate of every kind is on the board, quiet plates on empty squares, attack plates on opponents |
| Moves.PawnMovesExact | Assets/Scripts/Chessman.cs:140-183 | a pawn's plates are exactly the empty step ahead, the double step when unmoved with both squares empty (from any rank), and diagonal attacks on opponents when the square ahead is on the board |
| Moves.MovedPawnSingleStep | Assets/Scripts/Chessman.cs:162-168 | a pawn that has moved has no quiet plate other than its single step |
| Setup.InitialBoard | Assets/Scripts/GameManager.cs:24-36 | defines the starting position; its properties are in InitialSides, InitialKings, InitialPieceCount and StartLoopBuildsInitialBoard |
| Setup.LayoutPlaced | Assets/Scripts/GameManager.cs:39-43 | after n rounds of the placement loop exactly the squares reached so far hold their starting piece |
| Setup.LayoutComplete | Assets/Scripts/GameManager.cs:39-43 | after all 16 rounds every square holds its starting occupant |
| Setup.StartLoopBuildsInitialBoard | Assets/Scripts/GameManager.cs:21-44 | the placement loop builds exactly the standard starting position |
| Setup.StartSquareFree | Assets/Scripts/GameManager.cs:39-43 | each round stores its pieces on squares still empty, so no piece is overwritten |
| Setup.InitialFileCount | Assets/Scripts/GameManager.cs:24-36 | each file of the starting position holds 4 pieces |
| Setup.InitialPieceCount | Assets/Scripts/GameManager.cs:24-36 | the starting position holds 32 pieces |
| Setup.InitialSides | Assets/Scripts/GameManager.cs:24-36 | exactly ranks 0, 1, 6 and 7 are occupied, White on 0–1 and Black on 6–7, pawns on 1 and 6, all unmoved |
| Setup.InitialKings | Assets/Scripts/GameManager.cs:24-36 | each side's only king starts on file 4 of its back rank |
| Setup.InitialPawnsHome | Assets/Scripts/GameManager.cs:31-36 | in the starting position every pawn is on its side's pawn rank |
| Scoring.PieceValue | Assets/Scripts/ChessAI.cs:15-40 | every piece is worth at least 10, and exactly the king is worth 1000 |
| Scoring.KingOutweighsAll | Assets/Scripts/ChessAI.cs:19-36 | every other piece is worth more than 900 less than the king |
| Scoring.TargetValue | Assets/Scripts/ChessAI.cs:43-57 | the target value is 0 exactly on an empty square and at least 10 on an occupied one |
| Scoring.Score | Assets/Scripts/ChessAI.cs:108-126 | a score is at least 1; it is at most 9 exactly on an empty target, where it is the random draw |
| Scoring.ScoreSeparatesCaptures | Assets/Scripts/ChessAI.cs:117-123 | for a generated plate the score is at least 10 exactly when it is an attack, and then it is the captured piece's value |
| Scoring.Tag | Assets/Scripts/ChessAI.cs:74-79 | defines how each plate of a piece becomes a move from that piece's square, in plate order; the property is in BlackMovesExact |
| Scoring.Squares | Assets/Scripts/ChessAI.cs:62-65 | the AI visits all 64 squares |
| Scoring.SquareMovesExact | Assets/Scripts/ChessAI.cs:65-72 | the moves collected from a square are exactly the plates of a Black piece standing there |
| Scoring.BlackMovesExact | Assets/Scripts/ChessAI.cs:62-82 | a move is collected iff a Black piece stands on its origin and generates its plate |
| Scoring.BlackMovesOnBoard | Assets/Scripts/ChessAI.cs:65-82 | every collected move is a Black move whose plate is on the board |
| Scoring.Evaluate | Assets/Scripts/ChessAI.cs:74-80 | one scored entry per move, in order, each naming its move |
| Scoring.AIMoves | Assets/Scripts/ChessAI.cs:60-82 | the scored list has one entry per collected move, each a Black move with an on-board plate |
| Scoring.BestExists | Assets/Scripts/ChessAI.cs:85-99 | a non-empty list has a highest-scoring entry |
| Scoring.BestIsCapture | Assets/Scripts/ChessAI.cs:89-99 | a best entry is a capture exactly when Black has some capture |
| Scoring.CapturesScoreHigh | Assets/Scripts/ChessAI.cs:108-126 | in the scored list an entry scores at least 10 iff it is a capture, and a capture scores the captured piece's value |
| Scoring.KingCapturePreferred | Assets/Scripts/ChessAI.cs:89-104 | when Black can take a king, the move played takes a king |
| Turns.Initial | Assets/Scripts/GameManager.cs:16-18 | the game starts with White to move, not over and with no winner |
| Turns.Apply | Assets/Scripts/GameManager.cs:143-186 | move application keeps the grid 8×8 and never changes the player to move |
| Turns.NextTurn | Assets/Scripts/GameManager.cs:96-109 | defines the turn change: once the game is over the turn stays, otherwise it passes to the other player, and the grid and the status are kept; properties over a move are in GameOverIsFinal and TurnsAlternate |
| Turns.AfterReply | Assets/Scripts/ChessAI.cs:99-104 | the AI's reply leaves a well-formed grid |
| Turns.Handed | Assets/Scripts/GameManager.cs:96-109 | the hand-over, including the AI's reply, leaves a well-formed grid |
| Turns.Play | Assets/Scripts/GameManager.cs:137-193 | a whole MovePiece call leaves a well-formed grid |
| Turns.ApplyCells | Assets/Scripts/GameManager.cs:174-186 | an on-board move empties the origin, puts the mover with its moved flag on the destination and changes no other square; an off-board move changes only the mover's flag |
| Turns.OffBoardKeepsStatus | Assets/Scripts/GameManager.cs:151-155 | an off-board destination changes neither the turn nor the game status |
| Turns.KingCaptureEndsGame | Assets/Scripts/GameManager.cs:158-172 | the game ends iff it was over or the move is an attack on a king, and the winner is the king's opponent |
| Turns.GameOverIsFinal | Assets/Scripts/GameManager.cs:96-98 | once the game is over it stays over and the player to move never changes |
| Turns.TurnsAlternate | Assets/Scripts/GameManager.cs:96-109 | while the game runs, Black's move hands the turn to White and White's move is answered by the AI, after which White moves again unless the AI had no move |
| Turns.NoReplyStallsBlack | Assets/Scripts/ChessAI.cs:85 | when Black has no move, the state stays as it is with Black to move |
| Turns.ApplyKeepsPawnsHome | Assets/Scripts/GameManager.cs:148 | since every move sets the moved flag, an unmoved pawn is still on its pawn rank after any move |
| Engine.Chessman.constructor | Assets/Scripts/GameManager.cs:59-68 | Create followed by Activate gives a piece of the given side and kind on (x, y) that has not moved |
| Engine.Chessman.OnMouseUp | Assets/Scripts/Chessman.cs:24-35 | plates are produced iff the game is not over and it is the piece's player's turn, and they are the piece's plates |
| Engine.Chessman.GetAvailableMoves | Assets/Scripts/Chessman.cs:103-147 | the routine of the piece's kind produces exactly AvailableMoves for its square |
| Engine.Chessman.PawnMovePlate | Assets/Scripts/Chessman.cs:150-183 | the pawn routine produces exactly PawnMoves from the square ahead |
| Engine.Chessman.LineMovePlate | Assets/Scripts/Chessman.cs:186-206 | the loop produces exactly the ray in direction (dx, dy) from the piece's square |
| Engine.Chessman.LMovePlate | Assets/Scripts/Chessman.cs:209-219 | the knight routine produces exactly KnightMoves |
| Engine.Chessman.PointMovePlate | Assets/Scripts/Chessman.cs:222-238 | the single-target routine produces exactly Point for its square |
| Engine.Chessman.SurroundMovePlate | Assets/Scripts/Chessman.cs:241-251 | the king routine produces exactly KingMoves |
| Engine.GameManager.ValidPawnsHome | Assets/Scripts/GameManager.cs:143-148 | in every valid state each unmoved pawn is on its side's pawn rank |
| Engine.GameManager.constructor | Assets/Scripts/GameManager.cs:21-44 | Start yields a valid grid holding the standard position, with White to move and the game running |
| Engine.GameManager.CreateRoster | Assets/Scripts/GameManager.cs:24-36 | each creation list holds 16 distinct fresh pieces, in the listed kinds and squares, unmoved |
| Engine.GameManager.PlaceAll | Assets/Scripts/GameManager.cs:39-43 | the placement loop leaves the grid valid and equal to the layout after all rounds |
| Engine.GameManager.PlaceRound | Assets/Scripts/GameManager.cs:41-42 | one round stores Black's and White's entry i and advances the layout by one round |
| Engine.GameManager.PositionOnBoard | Assets/Scripts/GameManager.cs:90-93 | true iff 0 ≤ x < 8 and 0 ≤ y < 8 |
| Engine.GameManager.GetPosition | Assets/Scripts/GameManager.cs:84-87 | the grid cell is null iff the value board is empty there, and otherwise shows the same side and kind |
| Engine.GameManager.SetPosition | Assets/Scripts/GameManager.cs:71-75 | the piece is stored on the square its coordinates name, and the grid stays valid |
| Engine.GameManager.SetPositionEmpty | Assets/Scripts/GameManager.cs:78-81 | the square is emptied, its piece leaves the grid and the grid stays valid |
| Engine.GameManager.Winner | Assets/Scripts/GameManager.cs:124-134 | the game is over with the given winner; nothing else changes |
| Engine.GameManager.ApplyMove | Assets/Scripts/GameManager.cs:143-186 | the coroutine body up to the wait takes the state to Apply of the old state and keeps the grid valid; the moved piece stays on the grid with its moved flag set, and its coordinates become the destination when that is on the board and stay unchanged otherwise |
| Engine.GameManager.MarkMoved | Assets/Scripts/GameManager.cs:148 | the moved flag is set in place and the board shows it |
| Engine.GameManager.Relocate | Assets/Scripts/GameManager.cs:174-186 | the origin is emptied and the piece is stored on the destination with its new coordinates |
| Engine.GameManager.NextTurn | Assets/Scripts/GameManager.cs:96-109 | the state becomes Handed of the old state, with the AI's choice valid when it runs |
| Engine.GameManager.MovePiece | Assets/Scripts/GameManager.cs:137-193 | a whole MovePiece call takes the state to Play of the old state; for an off-board destination the piece keeps its coordinates, stays on the grid and is marked as moved |
| Engine.ChessAI.EvaluatePieceValue | Assets/Scripts/ChessAI.cs:43-57 | returns the target value of the square |
| Engine.ChessAI.EvaluateMove | Assets/Scripts/ChessAI.cs:108-126 | returns the move with its score under the given draw |
| Engine.ChessAI.CollectMoves | Assets/Scripts/ChessAI.cs:62-82 | the nested loops build exactly the scored list AIMoves |
| Engine.ChessAI.CollectSquare | Assets/Scripts/ChessAI.cs:65-82 | one square's visit extends the list by that square's scored moves |
| Engine.ChessAI.ScorePlates | Assets/Scripts/ChessAI.cs:74-80 | the inner loop appends one scored entry per plate |
| Engine.ChessAI.PickBest | Assets/Scripts/ChessAI.cs:89-99 | the returned position holds a highest score of the list |
| Engine.ChessAI.MakeAIMove | Assets/Scripts/ChessAI.cs:60-105 | with no moves nothing changes; otherwise a best entry is played, and the state becomes AfterReply of the old state |

## Left out

- Floating-point world coordinates, sprites and plate spawning are left out
  (`SetCoords`, `MovePlateSpawn`, `MovePlateAttackSpawn`,
  `ConvertToUnityCoord`). Plates are returned as a sequence of candidates.
- `MovePlate.cs` is not part of this model. Its `matrixX`/`matrixY`/`attack`
  fields are the `Candidate` datatype.
- The `Instantiate`/`Destroy`/`Find*WithTag` plumbing is left out,
  `DestroyMovePlates` included. In the model:
  - the pieces the AI enumerates are those on the grid;
  - they are visited file by file and within a file rank by rank, because
    Unity's tag search gives no order;
  - a piece's plates are what its generator returns.
- Coroutine timing (`StartCoroutine`, the 0.3 s wait) is left out. Move
  application and the following `NextTurn` happen at once.
- `Update`'s scene reload, the winner and restart UI text, and
  `Debug.LogError` are not modelled. `Winner` keeps the winning side in the
  field `winner`.
- The unused `moveHistory`/`MoveRecord` is left out.
- The `playerWhite`/`playerBlack` arrays are not kept after `Start`. The code
  never reads them again and never updates them on capture. The ghost set
  `pieces` holds the pieces on the grid.
- `Random.Range(1, 10)` is an input `jitter`. The entry at position `k` of the
  AI's list gets draw `k`; the draw is used only when the target is empty.
- Engine.ChessAI.PickBest returns a position holding a highest score. It does
  not say which one among equal scores, because `List.Sort` is not stable and
  so fixes no tie order.
- Engine.ChessAI.MakeAIMove requires Black to be the player to move. That is
  the only state `NextTurn` calls it in.
- Engine.GameManager.SetPosition requires a piece that is not on the grid yet
  and whose square matches the invariant. In the program only `Start` calls
  `SetPosition`; the move coroutine writes the grid directly
  (GameManager.cs:175 and :186) and `SetPositionEmpty` has no caller. In the
  model `Start` and `Relocate`, the model's grid update for a move, are its
  callers, and both meet this.
- Scoring.PieceValue has no default case returning 0. The piece kind has
  exactly six values, so that branch cannot be reached.
- A destroyed piece and a piece overwritten by a non-attack move onto an
  occupied square both simply leave the grid (`pieces`). The model does not
  keep the objects Unity keeps alive.
- Turns.Apply and Engine.GameManager.ApplyMove do not model an attack whose
  destination is the mover's own square: there the model leaves the mover on
  that square, while the program destroys the mover and then stores the
  destroyed object back on the grid. No move generator produces such a plate,
  since every plate lies at a non-zero offset from the piece.
- Check, checkmate, stalemate, castling, en passant and promotion are not
  implemented by the program and are not modelled.
- Some members are decompositions of one source routine into smaller proof
  steps:
  - the placement loop of `Start` into `PlaceAll` and `PlaceRound`;
  - the coroutine's steps into `MarkMoved` and `Relocate`;
  - `MakeAIMove`'s loops into `CollectMoves`, `CollectSquare` and `ScorePlates`.

The model follows the code where a plain-language description of the program
differs from it:

- A capture does not remove the victim from its side's roster array.
- Ties among equal scores are broken by an unstable sort, not by first
  occurrence.
- The pawn's double step is allowed from any rank as long as the pawn has not
  moved.
