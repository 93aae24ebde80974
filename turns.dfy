/** The game manager's state as a value, and what one move does to it: the
    move application of MovePieceCoroutine, the hand-over of NextTurn and the
    reply of the automated Black player. The GameManager class is proved
    against these functions. */
module Turns {
  import opened Board
  import opened Moves
  import opened Setup
  import opened Scoring

  /** The grid, the player to move, the game-over flag and the declared winner. */
  datatype State = State(board: Board, current: Side, gameOver: bool, winner: Option<Side>)

  /** The state Start leaves: the standard position, White to move, game running. */
  function Initial(): (s: State)
    ensures WellFormed(s.board) && s.current == White && !s.gameOver && s.winner.None?
  {
    State(InitialBoard(), White, false, None)
  }

  /** The piece captured by a move to (tx, ty): the occupant, if the move is an attack. */
  function Victim(s: State, tx: int, ty: int, isAttack: bool): Option<Piece>
    requires WellFormed(s.board) && OnBoard(tx, ty)
  {
    if isAttack then s.board[tx][ty] else None
  }

  predicate IsKing(v: Option<Piece>)
  {
    v.Some? && v.value.kind == King
  }

  /** Move application for the piece on (fx, fy) and destination (tx, ty): the
      piece is marked as moved in every case; an off-board destination stops
      there; otherwise a captured king ends the game in favour of the other
      side, the origin is cleared and the piece is stored on the destination. */
  function Apply(s: State, fx: int, fy: int, tx: int, ty: int, isAttack: bool): (t: State)
    requires WellFormed(s.board) && OnBoard(fx, fy) && s.board[fx][fy].Some?
    ensures WellFormed(t.board) && t.current == s.current
  {
    var p := s.board[fx][fy].value.(moved := true);
    if !OnBoard(tx, ty) then s.(board := Put(s.board, fx, fy, Some(p)))
    else
      var v := Victim(s, tx, ty, isAttack);
      State(Put(Put(s.board, fx, fy, None), tx, ty, Some(p)), s.current,
            s.gameOver || IsKing(v),
            if IsKing(v) then Some(Other(v.value.side)) else s.winner)
  }

  /** NextTurn without the AI's reply: nothing once the game is over, otherwise
      the other player is to move. */
  function NextTurn(s: State): (t: State)
    ensures t.board == s.board && t.gameOver == s.gameOver && t.winner == s.winner
    ensures t.current == (if s.gameOver then s.current else Other(s.current))
  {
    if s.gameOver then s else s.(current := Other(s.current))
  }

  /** NextTurn runs the AI exactly when the game goes on and White has moved. */
  predicate AIRuns(s: State)
  {
    !s.gameOver && s.current == White
  }

  /** The AI's choice: no move when Black has none, otherwise the position of a
      best-scoring entry of its move list. */
  ghost predicate ValidReply(b: Board, jitter: Jitter, reply: Option<nat>)
    requires WellFormed(b)
  {
    match reply
    case None => |AIMoves(b, jitter)| == 0
    case Some(i) => IsBest(AIMoves(b, jitter), i)
  }

  /** The state after the AI plays entry i of its list from state s (Black to
      move): the move is applied and, as the game manager's NextTurn does after
      every move of Black, the turn goes back to White unless the game is over. */
  ghost function AfterReply(s: State, jitter: Jitter, reply: Option<nat>): (t: State)
    requires WellFormed(s.board) && ValidReply(s.board, jitter, reply)
    ensures WellFormed(t.board)
  {
    match reply
    case None => s
    case Some(i) =>
      var m := AIMoves(s.board, jitter)[i].move;
      var c := m.plate;
      NextTurn(Apply(s, m.fromX, m.fromY, c.x, c.y, c.attack))
  }

  /** NextTurn as a whole, the AI's reply included when it runs. */
  ghost function Handed(s: State, jitter: Jitter, reply: Option<nat>): (t: State)
    requires WellFormed(s.board) && (AIRuns(s) ==> ValidReply(s.board, jitter, reply))
    ensures WellFormed(t.board)
  {
    if AIRuns(s) then AfterReply(NextTurn(s), jitter, reply) else NextTurn(s)
  }

  /** A whole call of MovePiece: move application, then, if the destination was
      on the board, NextTurn. */
  ghost function Play(s: State, fx: int, fy: int, tx: int, ty: int, isAttack: bool,
                      jitter: Jitter, reply: Option<nat>): (t: State)
    requires WellFormed(s.board) && OnBoard(fx, fy) && s.board[fx][fy].Some?
    requires var a := Apply(s, fx, fy, tx, ty, isAttack);
      OnBoard(tx, ty) && AIRuns(a) ==> ValidReply(a.board, jitter, reply)
    ensures WellFormed(t.board)
  {
    var a := Apply(s, fx, fy, tx, ty, isAttack);
    if !OnBoard(tx, ty) then a else Handed(a, jitter, reply)
  }

  /** Move application changes exactly the two squares of the move: the origin
      is emptied, the destination holds the mover with its moved flag set. An
      off-board destination changes only the mover's flag. */
  lemma ApplyCells(s: State, fx: int, fy: int, tx: int, ty: int, isAttack: bool, x: int, y: int)
    requires WellFormed(s.board) && OnBoard(fx, fy) && s.board[fx][fy].Some? && OnBoard(x, y)
    ensures var t, p := Apply(s, fx, fy, tx, ty, isAttack), s.board[fx][fy].value;
      && (OnBoard(tx, ty) && x == tx && y == ty ==> t.board[x][y] == Some(p.(moved := true)))
      && (OnBoard(tx, ty) && (x, y) == (fx, fy) && (x, y) != (tx, ty) ==> t.board[x][y].None?)
      && (!OnBoard(tx, ty) && (x, y) == (fx, fy) ==> t.board[x][y] == Some(p.(moved := true)))
      && ((x, y) != (fx, fy) && (x, y) != (tx, ty) ==> t.board[x][y] == s.board[x][y])
  {
  }

  /** Off-board destinations change neither the turn nor the game status. */
  lemma OffBoardKeepsStatus(s: State, fx: int, fy: int, tx: int, ty: int, isAttack: bool)
    requires WellFormed(s.board) && OnBoard(fx, fy) && s.board[fx][fy].Some? && !OnBoard(tx, ty)
    ensures var t := Apply(s, fx, fy, tx, ty, isAttack);
      t.current == s.current && t.gameOver == s.gameOver && t.winner == s.winner
  {
  }

  /** The game ends on a move exactly when it was over already or the move is an
      attack on a king; the winner is then the side that does not own that king. */
  lemma KingCaptureEndsGame(s: State, fx: int, fy: int, tx: int, ty: int, isAttack: bool)
    requires WellFormed(s.board) && OnBoard(fx, fy) && s.board[fx][fy].Some? && OnBoard(tx, ty)
    ensures var t := Apply(s, fx, fy, tx, ty, isAttack);
      && (t.gameOver <==> s.gameOver || (isAttack && IsKing(s.board[tx][ty])))
      && (isAttack && IsKing(s.board[tx][ty]) ==> t.winner == Some(Other(s.board[tx][ty].value.side)))
  {
  }

  /** Once the game is over no move changes the player to move, and the game stays over. */
  lemma GameOverIsFinal(s: State, fx: int, fy: int, tx: int, ty: int, isAttack: bool,
                        jitter: Jitter, reply: Option<nat>)
    requires WellFormed(s.board) && OnBoard(fx, fy) && s.board[fx][fy].Some? && s.gameOver
    ensures var t := Play(s, fx, fy, tx, ty, isAttack, jitter, reply);
      t.gameOver && t.current == s.current
  {
  }

  /** While the game goes on, a move of Black onto the board hands the turn to
      White, and a move of White is followed by the AI, after which White is to
      move again unless the AI found no move (Black keeps the turn) or ended
      the game. */
  lemma TurnsAlternate(s: State, fx: int, fy: int, tx: int, ty: int, isAttack: bool,
                       jitter: Jitter, reply: Option<nat>)
    requires WellFormed(s.board) && OnBoard(fx, fy) && s.board[fx][fy].Some? && OnBoard(tx, ty)
    requires var a := Apply(s, fx, fy, tx, ty, isAttack);
      AIRuns(a) ==> ValidReply(a.board, jitter, reply)
    ensures var a, t := Apply(s, fx, fy, tx, ty, isAttack), Play(s, fx, fy, tx, ty, isAttack, jitter, reply);
      && (!a.gameOver && s.current == Black ==> t.current == White)
      && (!a.gameOver && s.current == White && reply.None? ==> t.current == Black)
      && (!t.gameOver && s.current == White ==> t.current == (if reply.None? then Black else White))
  {
  }

  /** Black keeps the turn for good when the AI finds no move: the state after
      the hand-over is left as it is. */
  lemma NoReplyStallsBlack(s: State, jitter: Jitter)
    requires WellFormed(s.board) && AIRuns(s) && |AIMoves(s.board, jitter)| == 0
    ensures Handed(s, jitter, None) == s.(current := Black)
  {
  }

  /** Every unmoved pawn stands on its side's pawn rank after any move. */
  lemma ApplyKeepsPawnsHome(s: State, fx: int, fy: int, tx: int, ty: int, isAttack: bool)
    requires WellFormed(s.board) && OnBoard(fx, fy) && s.board[fx][fy].Some?
    requires PawnsHome(s.board)
    ensures PawnsHome(Apply(s, fx, fy, tx, ty, isAttack).board)
  {
    var t := Apply(s, fx, fy, tx, ty, isAttack);
    forall x, y | OnBoard(x, y) && t.board[x][y].Some? && t.board[x][y].value.kind == Pawn
                   && !t.board[x][y].value.moved
      ensures y == PawnRank(t.board[x][y].value.side)
    {
      ApplyCells(s, fx, fy, tx, ty, isAttack, x, y);
    }
  }
}
