/** The three components of the game as objects: a Chessman spawns the move
    plates of its piece, the GameManager owns the grid and the turn, and the
    ChessAI plays Black. Their methods change state in place and are proved
    against the value model of the Moves, Scoring and Turns modules. */
module Engine {
  import opened Board
  import opened Moves
  import opened Setup
  import opened Scoring
  import opened Turns

  /** A piece on the board. Its owner and type are fixed when it is created;
      its square and its moved flag change as it moves. */
  class Chessman {
    const side: Side
    const kind: Kind
    var xBoard: int
    var yBoard: int
    var hasMoved: bool
    /** The square the piece was created on. */
    ghost const startX: int
    ghost const startY: int

    /** Create followed by Activate: a piece on (x, y) that has not moved. */
    constructor (side: Side, kind: Kind, x: int, y: int)
      ensures this.side == side && this.kind == kind
      ensures xBoard == x && yBoard == y && !hasMoved
      ensures startX == x && startY == y
    {
      this.side, this.kind := side, kind;
      xBoard, yBoard, hasMoved := x, y, false;
      startX, startY := x, y;
    }

    /** This is entry i of side s's creation list in Start, as created: on its
        starting square and not moved. */
    ghost predicate CreatedAs(s: Side, i: int)
      requires 0 <= i < 16
      reads this
    {
      && side == s && kind == StartKind(i)
      && xBoard == StartFile(i) && yBoard == StartRank(s, i) && !hasMoved
      && startX == StartFile(i) && startY == StartRank(s, i)
    }

    /** What the grid shows of this piece. */
    function View(): Piece
      reads this
    {
      Piece(side, kind, hasMoved)
    }

    /** Selecting the piece: the plates are shown only while the game goes on
        and it is this piece's player's turn. */
    method OnMouseUp(gm: GameManager) returns (plates: Option<seq<Candidate>>)
      requires gm.Synced()
      ensures plates.Some? <==> !gm.gameOver && gm.currentPlayer == side
      ensures plates.Some? ==> plates.value == AvailableMoves(gm.board, View(), xBoard, yBoard)
    {
      if !gm.gameOver && gm.currentPlayer == side {
        var p := GetAvailableMoves(gm);
        plates := Some(p);
      } else {
        plates := None;
      }
    }

    /** The plates of this piece, generated by the routine of its kind. */
    method GetAvailableMoves(gm: GameManager) returns (plates: seq<Candidate>)
      requires gm.Synced()
      ensures plates == AvailableMoves(gm.board, View(), xBoard, yBoard)
    {
      match kind
      case Queen =>
        var r1 := LineMovePlate(gm, 1, 0);
        var r2 := LineMovePlate(gm, 0, 1);
        var r3 := LineMovePlate(gm, 1, 1);
        var r4 := LineMovePlate(gm, -1, 0);
        var r5 := LineMovePlate(gm, 0, -1);
        var r6 := LineMovePlate(gm, -1, -1);
        var r7 := LineMovePlate(gm, -1, 1);
        var r8 := LineMovePlate(gm, 1, -1);
        plates := r1 + r2 + r3 + r4 + r5 + r6 + r7 + r8;
        assert plates == QueenMoves(gm.board, side, xBoard, yBoard);
      case Knight =>
        plates := LMovePlate(gm);
      case Bishop =>
        var r1 := LineMovePlate(gm, 1, 1);
        var r2 := LineMovePlate(gm, 1, -1);
        var r3 := LineMovePlate(gm, -1, 1);
        var r4 := LineMovePlate(gm, -1, -1);
        plates := r1 + r2 + r3 + r4;
        assert plates == BishopMoves(gm.board, side, xBoard, yBoard);
      case King =>
        plates := SurroundMovePlate(gm);
      case Rook =>
        var r1 := LineMovePlate(gm, 1, 0);
        var r2 := LineMovePlate(gm, 0, 1);
        var r3 := LineMovePlate(gm, -1, 0);
        var r4 := LineMovePlate(gm, 0, -1);
        plates := r1 + r2 + r3 + r4;
        assert plates == RookMoves(gm.board, side, xBoard, yBoard);
      case Pawn =>
        if side == Black {
          plates := PawnMovePlate(gm, xBoard, yBoard - 1);
        } else {
          plates := PawnMovePlate(gm, xBoard, yBoard + 1);
        }
    }

    /** The pawn's plates, given the square (x, y) one step ahead of it. */
    method PawnMovePlate(gm: GameManager, x: int, y: int) returns (plates: seq<Candidate>)
      requires gm.Synced()
      ensures plates == PawnMoves(gm.board, side, hasMoved, x, y)
    {
      ghost var b: Board := gm.board;
      plates := [];
      if gm.PositionOnBoard(x, y) {
        if gm.GetPosition(x, y) == null {
          plates := plates + [Candidate(x, y, false)];
          if !hasMoved {
            var yDoubleMove := if side == White then y + 1 else y - 1;
            if gm.PositionOnBoard(x, yDoubleMove) && gm.GetPosition(x, yDoubleMove) == null {
              plates := plates + [Candidate(x, yDoubleMove, false)];
            }
          }
        }
        ghost var steps := plates;
        assert steps == if b[x][y].None? then [Candidate(x, y, false)]
          + (if !hasMoved && IsEmpty(b, x, y + Forward(side)) then [Candidate(x, y + Forward(side), false)] else [])
          else [];
        if gm.PositionOnBoard(x + 1, y) && gm.GetPosition(x + 1, y) != null
           && gm.GetPosition(x + 1, y).side != side {
          plates := plates + [Candidate(x + 1, y, true)];
        }
        ghost var right := plates;
        assert right == steps + if IsEnemy(b, side, x + 1, y) then [Candidate(x + 1, y, true)] else [];
        if gm.PositionOnBoard(x - 1, y) && gm.GetPosition(x - 1, y) != null
           && gm.GetPosition(x - 1, y).side != side {
          plates := plates + [Candidate(x - 1, y, true)];
        }
        assert plates == right + if IsEnemy(b, side, x - 1, y) then [Candidate(x - 1, y, true)] else [];
      }
    }

    /** One sliding ray from the piece's square in direction (dx, dy). */
    method LineMovePlate(gm: GameManager, dx: int, dy: int) returns (plates: seq<Candidate>)
      requires gm.Synced() && IsStep(dx, dy)
      ensures plates == Ray(gm.board, side, xBoard + dx, yBoard + dy, dx, dy)
    {
      ghost var b: Board := gm.board;
      assert WellFormed(b);
      var x := xBoard + dx;
      var y := yBoard + dy;
      ghost var ray := Ray(b, side, x, y, dx, dy);
      plates := [];
      while gm.PositionOnBoard(x, y) && gm.GetPosition(x, y) == null
        invariant plates + Ray(b, side, x, y, dx, dy) == ray
        decreases Reach(x, y, dx, dy)
      {
        assert IsEmpty(b, x, y);
        RayStep(b, side, x, y, dx, dy, plates);
        ReachStep(x, y, dx, dy);
        plates := plates + [Candidate(x, y, false)];
        x := x + dx;
        y := y + dy;
      }
      RayEnd(b, side, x, y, dx, dy, plates);
      if gm.PositionOnBoard(x, y) && gm.GetPosition(x, y).side != side {
        plates := plates + [Candidate(x, y, true)];
      }
    }

    /** The knight's eight jumps. */
    method LMovePlate(gm: GameManager) returns (plates: seq<Candidate>)
      requires gm.Synced()
      ensures plates == KnightMoves(gm.board, side, xBoard, yBoard)
    {
      ghost var b: Board := gm.board;
      var p1 := PointMovePlate(gm, xBoard + 1, yBoard + 2);
      assert p1 == Point(b, side, xBoard + 1, yBoard + 2);
      var p2 := PointMovePlate(gm, xBoard - 1, yBoard + 2);
      assert p2 == Point(b, side, xBoard - 1, yBoard + 2);
      var p3 := PointMovePlate(gm, xBoard + 2, yBoard + 1);
      assert p3 == Point(b, side, xBoard + 2, yBoard + 1);
      var p4 := PointMovePlate(gm, xBoard + 2, yBoard - 1);
      assert p4 == Point(b, side, xBoard + 2, yBoard - 1);
      var p5 := PointMovePlate(gm, xBoard + 1, yBoard - 2);
      assert p5 == Point(b, side, xBoard + 1, yBoard - 2);
      var p6 := PointMovePlate(gm, xBoard - 1, yBoard - 2);
      assert p6 == Point(b, side, xBoard - 1, yBoard - 2);
      var p7 := PointMovePlate(gm, xBoard - 2, yBoard + 1);
      assert p7 == Point(b, side, xBoard - 2, yBoard + 1);
      var p8 := PointMovePlate(gm, xBoard - 2, yBoard - 1);
      assert p8 == Point(b, side, xBoard - 2, yBoard - 1);
      plates := p1 + p2 + p3 + p4 + p5 + p6 + p7 + p8;
    }

    /** The single-target rule for square (x, y). */
    method PointMovePlate(gm: GameManager, x: int, y: int) returns (plates: seq<Candidate>)
      requires gm.Synced()
      ensures plates == Point(gm.board, side, x, y)
    {
      plates := [];
      if gm.PositionOnBoard(x, y) {
        var cp := gm.GetPosition(x, y);
        if cp == null {
          plates := [Candidate(x, y, false)];
        } else if cp.side != side {
          plates := [Candidate(x, y, true)];
        }
      }
    }

    /** The king's eight neighbouring squares. */
    method SurroundMovePlate(gm: GameManager) returns (plates: seq<Candidate>)
      requires gm.Synced()
      ensures plates == KingMoves(gm.board, side, xBoard, yBoard)
    {
      ghost var b: Board := gm.board;
      var p1 := PointMovePlate(gm, xBoard, yBoard + 1);
      assert p1 == Point(b, side, xBoard, yBoard + 1);
      var p2 := PointMovePlate(gm, xBoard, yBoard - 1);
      assert p2 == Point(b, side, xBoard, yBoard - 1);
      var p3 := PointMovePlate(gm, xBoard - 1, yBoard + 0);
      assert p3 == Point(b, side, xBoard - 1, yBoard);
      var p4 := PointMovePlate(gm, xBoard - 1, yBoard - 1);
      assert p4 == Point(b, side, xBoard - 1, yBoard - 1);
      var p5 := PointMovePlate(gm, xBoard - 1, yBoard + 1);
      assert p5 == Point(b, side, xBoard - 1, yBoard + 1);
      var p6 := PointMovePlate(gm, xBoard + 1, yBoard + 0);
      assert p6 == Point(b, side, xBoard + 1, yBoard);
      var p7 := PointMovePlate(gm, xBoard + 1, yBoard - 1);
      assert p7 == Point(b, side, xBoard + 1, yBoard - 1);
      var p8 := PointMovePlate(gm, xBoard + 1, yBoard + 1);
      assert p8 == Point(b, side, xBoard + 1, yBoard + 1);
      plates := p1 + p2 + p3 + p4 + p5 + p6 + p7 + p8;
    }
  }

  /** The grid is 8 by 8 and agrees with board on which squares are occupied,
      by which side and by what kind of piece. */
  ghost predicate GridSynced(grid: array2<Chessman?>, board: Board)
    reads grid
  {
    && grid.Length0 == Size && grid.Length1 == Size
    && WellFormed(board)
    && forall x, y {:trigger grid[x, y]} :: OnBoard(x, y) ==>
         && (grid[x, y] == null <==> board[x][y].None?)
         && (grid[x, y] != null ==>
               board[x][y].value.side == grid[x, y].side && board[x][y].value.kind == grid[x, y].kind)
  }

  /** The grid agrees with board and with the set of pieces on it: board shows
      each piece with its moved flag, each piece records its own square, an
      unmoved piece stands where it was created, and a pawn was created on its
      side's pawn rank. */
  ghost predicate GridValid(grid: array2<Chessman?>, board: Board, pieces: set<Chessman>)
    reads grid, pieces
  {
    && GridSynced(grid, board)
    && (forall x, y {:trigger grid[x, y]} :: OnBoard(x, y) && grid[x, y] != null ==> grid[x, y] in pieces)
    && (forall x, y {:trigger grid[x, y]} :: OnBoard(x, y) && grid[x, y] != null ==>
          board[x][y] == Some(grid[x, y].View()) && grid[x, y].xBoard == x && grid[x, y].yBoard == y)
    && (forall c :: c in pieces ==> OnBoard(c.xBoard, c.yBoard) && grid[c.xBoard, c.yBoard] == c)
    && (forall x, y {:trigger grid[x, y]} :: OnBoard(x, y) && grid[x, y] != null ==>
          && (grid[x, y].hasMoved || (x == grid[x, y].startX && y == grid[x, y].startY))
          && (grid[x, y].kind == Pawn ==> grid[x, y].startY == PawnRank(grid[x, y].side)))
  }

  /** The grid of pieces, the player to move and the game-over flag. */
  class GameManager {
    const positions: array2<Chessman?>
    const ai: ChessAI
    var currentPlayer: Side
    var gameOver: bool
    /** The side named in the winner banner, once there is one. */
    var winner: Option<Side>
    /** The grid as a value. */
    ghost var board: Board
    /** The pieces on the grid. */
    ghost var pieces: set<Chessman>

    /** The grid is 8 by 8 and agrees with the value board on which squares
        are occupied, by which side and by what kind of piece. */
    ghost predicate Synced()
      reads this, positions
    {
      GridSynced(positions, board)
    }

    /** Besides, the value board shows each piece as it is, every piece on the
        grid knows its own square, an unmoved piece stands where it was
        created, and a pawn was created on its side's pawn rank. */
    ghost predicate Valid()
      reads this, positions, pieces
    {
      GridValid(positions, board, pieces)
    }

    /** The state as a value. */
    ghost function Abstract(): State
      reads this
    {
      State(board, currentPlayer, gameOver, winner)
    }

    /** In every valid state an unmoved pawn is still on its pawn rank. */
    lemma ValidPawnsHome()
      requires Valid()
      ensures PawnsHome(board)
    {
      forall x, y | OnBoard(x, y) && board[x][y].Some? && board[x][y].value.kind == Pawn
                    && !board[x][y].value.moved
        ensures y == PawnRank(board[x][y].value.side)
      {
        var c := positions[x, y];
        assert c in pieces;
      }
    }

    /** Start: both sides are created and placed, Black's entry i and then
        White's entry i in round i, giving the standard position with White to move. */
    constructor ()
      ensures Valid() && Abstract() == Initial()
      ensures fresh(positions) && fresh(ai)
    {
      positions := new Chessman?[Size, Size]((x, y) => null);
      ai := new ChessAI();
      currentPlayer, gameOver, winner := White, false, None;
      board := EmptyBoard();
      pieces := {};
      new;
      var playerWhite := CreateRoster(White);
      var playerBlack := CreateRoster(Black);
      PlaceAll(playerBlack, playerWhite);
      StartLoopBuildsInitialBoard(|playerBlack|);
    }

    /** Start's placement loop over the two creation lists, round by round. */
    method PlaceAll(playerBlack: seq<Chessman>, playerWhite: seq<Chessman>)
      requires Valid() && board == Layout(0) && pieces == {}
      requires |playerBlack| == 16 && |playerWhite| == 16
      requires forall j :: 0 <= j < 16 ==> playerBlack[j].CreatedAs(Black, j) && playerWhite[j].CreatedAs(White, j)
      requires forall j, k :: 0 <= j < k < 16 ==> playerBlack[j] != playerBlack[k] && playerWhite[j] != playerWhite[k]
      requires forall j, k :: 0 <= j < 16 && 0 <= k < 16 ==> playerBlack[j] != playerWhite[k]
      modifies this, positions
      ensures Valid() && board == Layout(|playerBlack|)
      ensures currentPlayer == old(currentPlayer) && gameOver == old(gameOver) && winner == old(winner)
    {
      var i := 0;
      while i < |playerBlack|
        invariant 0 <= i <= 16
        invariant Valid() && board == Layout(i)
        invariant currentPlayer == old(currentPlayer) && gameOver == old(gameOver) && winner == old(winner)
        invariant forall j :: i <= j < 16 ==> playerBlack[j] !in pieces && playerWhite[j] !in pieces
      {
        ghost var placed := {playerBlack[i], playerWhite[i]};
        PlaceRound(playerBlack[i], playerWhite[i], i);
        forall j | i < j < 16
          ensures playerBlack[j] !in placed && playerWhite[j] !in placed
        {
        }
        i := i + 1;
      }
    }

    /** Round i of Start's placement loop: SetPosition of Black's entry i, then
        of White's entry i, both onto squares still empty. */
    method PlaceRound(black: Chessman, white: Chessman, ghost i: int)
      requires 0 <= i < 16 && Valid() && board == Layout(i)
      requires black !in pieces && white !in pieces && black != white
      requires black.CreatedAs(Black, i) && white.CreatedAs(White, i)
      modifies this, positions
      ensures Valid() && board == Layout(i + 1) && pieces <= old(pieces) + {black, white}
      ensures currentPlayer == old(currentPlayer) && gameOver == old(gameOver) && winner == old(winner)
    {
      ghost var before := pieces;
      SetPosition(black);
      ghost var between := pieces;
      assert between <= before + {black};
      SetPosition(white);
      assert pieces <= between + {white};
      assert black.View() == Piece(Black, StartKind(i), false) && white.View() == Piece(White, StartKind(i), false);
    }

    /** The sixteen pieces of side s in creation order: back row from file 0 to
        7, then the pawns from file 0 to 7. */
    static method CreateRoster(s: Side) returns (roster: seq<Chessman>)
      ensures |roster| == 16
      ensures forall j :: 0 <= j < 16 ==> fresh(roster[j])
      ensures forall j, k :: 0 <= j < k < 16 ==> roster[j] != roster[k]
      ensures forall j :: 0 <= j < 16 ==> roster[j].CreatedAs(s, j)
    {
      roster := [];
      var j := 0;
      while j < 16
        invariant 0 <= j <= 16 && |roster| == j
        invariant forall k :: 0 <= k < j ==> fresh(roster[k])
        invariant forall k, l :: 0 <= k < l < j ==> roster[k] != roster[l]
        invariant forall k :: 0 <= k < j ==> roster[k].CreatedAs(s, k)
      {
        var c := new Chessman(s, StartKind(j), StartFile(j), StartRank(s, j));
        roster := roster + [c];
        j := j + 1;
      }
    }

    /** Whether (x, y) lies inside the grid. */
    function PositionOnBoard(x: int, y: int): (r: bool)
      requires positions.Length0 == Size && positions.Length1 == Size
      ensures r <==> OnBoard(x, y)
    {
      !(x < 0 || y < 0 || x >= positions.Length0 || y >= positions.Length1)
    }

    /** The piece on (x, y), or null. */
    function GetPosition(x: int, y: int): (r: Chessman?)
      requires Synced() && OnBoard(x, y)
      reads this, positions
      ensures r == null <==> board[x][y].None?
      ensures r != null ==> board[x][y].value.side == r.side && board[x][y].value.kind == r.kind
    {
      positions[x, y]
    }

    /** Stores a piece that is not on the grid on the square its coordinates name; a
        piece already there leaves the grid. */
    method SetPosition(c: Chessman)
      requires Valid() && c !in pieces && OnBoard(c.xBoard, c.yBoard)
      requires c.hasMoved || (c.xBoard == c.startX && c.yBoard == c.startY)
      requires c.kind == Pawn ==> c.startY == PawnRank(c.side)
      modifies this, positions
      ensures Valid()
      ensures board == Put(old(board), c.xBoard, c.yBoard, Some(c.View()))
      ensures var o := old(positions[c.xBoard, c.yBoard]);
        pieces == (if o == null then old(pieces) else old(pieces) - {o}) + {c}
      ensures currentPlayer == old(currentPlayer) && gameOver == old(gameOver) && winner == old(winner)
    {
      var o := positions[c.xBoard, c.yBoard];
      positions[c.xBoard, c.yBoard] := c;
      board := Put(board, c.xBoard, c.yBoard, Some(c.View()));
      pieces := (if o == null then pieces else pieces - {o}) + {c};
    }

    /** Empties square (x, y); the piece that stood there leaves the grid. */
    method SetPositionEmpty(x: int, y: int)
      requires Valid() && OnBoard(x, y)
      modifies this, positions
      ensures Valid()
      ensures board == Put(old(board), x, y, None)
      ensures var o := old(positions[x, y]);
        pieces == if o == null then old(pieces) else old(pieces) - {o}
      ensures currentPlayer == old(currentPlayer) && gameOver == old(gameOver) && winner == old(winner)
    {
      var o := positions[x, y];
      positions[x, y] := null;
      board := Put(board, x, y, None);
      if o != null {
        pieces := pieces - {o};
      }
      forall i, j | OnBoard(i, j) && (i, j) != (x, y)
        ensures positions[i, j] == old(positions[i, j]) && board[i][j] == old(board)[i][j]
      {
      }
      forall c | c in pieces
        ensures (c.xBoard, c.yBoard) != (x, y) && positions[c.xBoard, c.yBoard] == c
      {
        assert c in old(pieces) && c != o;
      }
    }

    /** Ends the game with the given winner. */
    method Winner(playerWinner: Side)
      modifies this
      ensures gameOver && winner == Some(playerWinner)
      ensures board == old(board) && pieces == old(pieces) && currentPlayer == old(currentPlayer)
    {
      gameOver := true;
      winner := Some(playerWinner);
    }

    /** The body of MovePieceCoroutine up to the wait: the piece is marked as
        moved; an off-board destination ends the call there; otherwise a
        captured king ends the game, the captured piece leaves the grid, the
        origin is emptied and the piece is stored on the destination. */
    method ApplyMove(piece: Chessman, tx: int, ty: int, isAttack: bool) returns (onBoard: bool)
      requires Valid() && piece in pieces
      modifies this, positions, piece
      ensures Valid() && pieces <= old(pieces)
      ensures onBoard <==> OnBoard(tx, ty)
      ensures piece in pieces && piece.hasMoved
      ensures onBoard ==> piece.xBoard == tx && piece.yBoard == ty
      ensures !onBoard ==> piece.xBoard == old(piece.xBoard) && piece.yBoard == old(piece.yBoard)
      ensures old(board)[old(piece.xBoard)][old(piece.yBoard)].Some?
      ensures Abstract() == Apply(old(Abstract()), old(piece.xBoard), old(piece.yBoard), tx, ty, isAttack)
    {
      ghost var s := Abstract();
      var oldX, oldY := piece.xBoard, piece.yBoard;
      ghost var p := piece.View().(moved := true);
      assert s.board[oldX][oldY] == Some(piece.View());
      MarkMoved(piece);
      assert piece.View() == p;
      if tx < 0 || tx >= Size || ty < 0 || ty >= Size {
        assert Abstract() == s.(board := Put(s.board, oldX, oldY, Some(p)));
        return false;
      }
      ghost var v := Victim(s, tx, ty, isAttack);
      if isAttack {
        var pieceAtDestination := GetPosition(tx, ty);
        if pieceAtDestination != null {
          if pieceAtDestination.kind == King && pieceAtDestination.side == White {
            Winner(Black);
          }
          if pieceAtDestination.kind == King && pieceAtDestination.side == Black {
            Winner(White);
          }
        }
      }
      assert gameOver == (s.gameOver || IsKing(v));
      assert winner == if IsKing(v) then Some(Other(v.value.side)) else s.winner;
      Relocate(piece, tx, ty);
      PutTwice(s.board, oldX, oldY, Some(p), None);
      onBoard := true;
    }

    /** Sets the piece's moved flag, which the value board shows at once. */
    method MarkMoved(piece: Chessman)
      requires Valid() && piece in pieces
      modifies this, piece
      ensures Valid() && pieces == old(pieces)
      ensures piece.xBoard == old(piece.xBoard) && piece.yBoard == old(piece.yBoard) && piece.hasMoved
      ensures board == Put(old(board), piece.xBoard, piece.yBoard, Some(old(piece.View()).(moved := true)))
      ensures currentPlayer == old(currentPlayer) && gameOver == old(gameOver) && winner == old(winner)
    {
      piece.hasMoved := true;
      board := Put(board, piece.xBoard, piece.yBoard, Some(piece.View()));
    }

    /** Empties the piece's square and stores it on (tx, ty); whatever stood
        there leaves the grid. */
    method Relocate(piece: Chessman, tx: int, ty: int)
      requires Valid() && piece in pieces && OnBoard(tx, ty) && piece.hasMoved
      modifies this, positions, piece
      ensures Valid() && pieces <= old(pieces) && piece in pieces
      ensures piece.xBoard == tx && piece.yBoard == ty && piece.hasMoved == old(piece.hasMoved)
      ensures board == Put(Put(old(board), old(piece.xBoard), old(piece.yBoard), None), tx, ty, Some(piece.View()))
      ensures currentPlayer == old(currentPlayer) && gameOver == old(gameOver) && winner == old(winner)
    {
      var oldX, oldY := piece.xBoard, piece.yBoard;
      SetPositionEmpty(oldX, oldY);
      piece.xBoard := tx;
      piece.yBoard := ty;
      SetPosition(piece);
    }

    /** NextTurn: nothing once the game is over; after White, Black is to move
        and the AI plays at once; after Black, White is to move. */
    method NextTurn(jitter: Jitter) returns (ghost reply: Option<nat>)
      requires Valid()
      modifies this, positions, pieces
      decreases if currentPlayer == White then 3 else 0
      ensures Valid() && pieces <= old(pieces)
      ensures AIRuns(old(Abstract())) ==> ValidReply(old(board), jitter, reply)
      ensures !AIRuns(old(Abstract())) ==> reply.None?
      ensures Abstract() == Handed(old(Abstract()), jitter, reply)
    {
      if gameOver {
        return None;
      }
      if currentPlayer == White {
        currentPlayer := Black;
        reply := ai.MakeAIMove(this, jitter);
      } else {
        currentPlayer := White;
        reply := None;
      }
    }

    /** MovePiece with its coroutine run to the end at once: move application,
        then NextTurn unless the destination was off the board. The ghost reply
        reports the AI's choice when NextTurn runs it. */
    method MovePiece(piece: Chessman, tx: int, ty: int, isAttack: bool, jitter: Jitter)
      returns (ghost reply: Option<nat>)
      requires Valid() && piece in pieces
      modifies this, positions, pieces
      decreases if currentPlayer == White then 4 else 1
      ensures Valid() && pieces <= old(pieces)
      ensures old(board)[old(piece.xBoard)][old(piece.yBoard)].Some?
      ensures !OnBoard(tx, ty) ==>
        piece in pieces && piece.hasMoved && piece.xBoard == old(piece.xBoard) && piece.yBoard == old(piece.yBoard)
      ensures var a := Apply(old(Abstract()), old(piece.xBoard), old(piece.yBoard), tx, ty, isAttack);
        OnBoard(tx, ty) && AIRuns(a) ==> ValidReply(a.board, jitter, reply)
      ensures Abstract() == Play(old(Abstract()), old(piece.xBoard), old(piece.yBoard), tx, ty, isAttack, jitter, reply)
    {
      var onBoard := ApplyMove(piece, tx, ty, isAttack);
      if onBoard {
        reply := NextTurn(jitter);
      } else {
        reply := None;
      }
    }
  }

  /** The automated Black player. */
  class ChessAI {
    constructor ()
    {
    }

    /** The material value of the piece on (x, y), 0 if the square is empty. */
    method EvaluatePieceValue(gm: GameManager, x: int, y: int) returns (value: int)
      requires gm.Synced() && OnBoard(x, y)
      ensures value == TargetValue(gm.board, x, y)
    {
      value := 0;
      var targetPiece := gm.GetPosition(x, y);
      if targetPiece != null {
        value := PieceValue(targetPiece.kind);
      }
    }

    /** The scored entry of move m, using draw as the random neutral value. */
    method EvaluateMove(gm: GameManager, m: Move, draw: Draw) returns (info: MoveInfo)
      requires gm.Synced() && OnBoard(m.plate.x, m.plate.y)
      ensures info == MoveInfo(m, Score(gm.board, m.plate, draw))
    {
      var value := EvaluatePieceValue(gm, m.plate.x, m.plate.y);
      if value == 0 {
        value := draw;
      }
      info := MoveInfo(m, value);
    }

    /** The scored moves of every Black piece, visiting the grid file by file. */
    method CollectMoves(gm: GameManager, jitter: Jitter) returns (moveInfos: seq<MoveInfo>)
      requires gm.Valid()
      ensures moveInfos == AIMoves(gm.board, jitter)
    {
      ghost var b := gm.board;
      ghost var moves: seq<Move> := [];
      moveInfos := [];
      var k := 0;
      while k < Size * Size
        invariant 0 <= k <= Size * Size
        invariant moves == Flatten(Squares(b)[..k])
        invariant PlatesOnBoard(moves) && moveInfos == Evaluate(b, moves, jitter)
      {
        FlattenSnoc(Squares(b), k);
        moves, moveInfos := CollectSquare(gm, jitter, k, moves, moveInfos);
        k := k + 1;
      }
      assert Squares(b)[..k] == Squares(b);
    }

    /** The square visited k-th (file k / 8, rank k % 8): if a Black piece
        stands there, each of its plates is scored and appended. */
    method CollectSquare(gm: GameManager, jitter: Jitter, k: int,
                         ghost moves: seq<Move>, moveInfos: seq<MoveInfo>)
      returns (ghost moves': seq<Move>, moveInfos': seq<MoveInfo>)
      requires gm.Valid() && 0 <= k < Size * Size
      requires PlatesOnBoard(moves) && moveInfos == Evaluate(gm.board, moves, jitter)
      ensures moves' == moves + Squares(gm.board)[k]
      ensures PlatesOnBoard(moves') && moveInfos' == Evaluate(gm.board, moves', jitter)
    {
      ghost var b: Board := gm.board;
      var x, y := k / Size, k % Size;
      var piece := gm.GetPosition(x, y);
      if piece != null && piece.side == Black {
        var movePlates := piece.GetAvailableMoves(gm);
        assert movePlates == AvailableMoves(b, b[x][y].value, x, y);
        forall c | c in movePlates
          ensures OnBoard(c.x, c.y)
        {
          AvailableMovesLandable(b, b[x][y].value, x, y, c);
        }
        moves', moveInfos' := ScorePlates(gm, jitter, x, y, movePlates, moves, moveInfos);
      } else {
        moves', moveInfos' := moves, moveInfos;
      }
    }

    /** The innermost loop: each plate of the piece on (x, y) is scored with
        the next draw and appended. */
    method ScorePlates(gm: GameManager, jitter: Jitter, x: int, y: int, movePlates: seq<Candidate>,
                       ghost moves: seq<Move>, moveInfos: seq<MoveInfo>)
      returns (ghost moves': seq<Move>, moveInfos': seq<MoveInfo>)
      requires gm.Synced() && OnBoard(x, y)
      requires forall c :: c in movePlates ==> OnBoard(c.x, c.y)
      requires PlatesOnBoard(moves) && moveInfos == Evaluate(gm.board, moves, jitter)
      ensures moves' == moves + Tag(x, y, movePlates)
      ensures PlatesOnBoard(moves') && moveInfos' == Evaluate(gm.board, moves', jitter)
    {
      ghost var b := gm.board;
      moves', moveInfos' := moves, moveInfos;
      var j := 0;
      while j < |movePlates|
        invariant 0 <= j <= |movePlates|
        invariant moves' == moves + Tag(x, y, movePlates[..j])
        invariant PlatesOnBoard(moves') && moveInfos' == Evaluate(b, moves', jitter)
      {
        var m := Move(x, y, movePlates[j]);
        var moveInfo := EvaluateMove(gm, m, jitter(|moveInfos'|));
        EvaluateSnoc(b, moves', m, jitter);
        moveInfos' := moveInfos' + [moveInfo];
        assert Tag(x, y, movePlates[..j + 1]) == Tag(x, y, movePlates[..j]) + [m];
        moves' := moves' + [m];
        j := j + 1;
      }
      assert movePlates[..j] == movePlates;
    }

    /** The position of a highest-scoring entry: what sorting the list by
        descending score and taking its first entry yields. */
    method PickBest(moveInfos: seq<MoveInfo>) returns (best: nat)
      requires |moveInfos| > 0
      ensures IsBest(moveInfos, best)
    {
      best := 0;
      var i := 1;
      while i < |moveInfos|
        invariant 1 <= i <= |moveInfos| && best < i
        invariant forall j :: 0 <= j < i ==> moveInfos[j].value <= moveInfos[best].value
      {
        if moveInfos[i].value > moveInfos[best].value {
          best := i;
        }
        i := i + 1;
      }
    }

    /** MakeAIMove: collect and score Black's moves; with none, do nothing;
        otherwise play a best one through the game manager. */
    method MakeAIMove(gm: GameManager, jitter: Jitter) returns (ghost reply: Option<nat>)
      requires gm.Valid() && gm.currentPlayer == Black
      modifies gm, gm.positions, gm.pieces
      decreases 2
      ensures gm.Valid() && gm.pieces <= old(gm.pieces)
      ensures ValidReply(old(gm.board), jitter, reply)
      ensures gm.Abstract() == AfterReply(old(gm.Abstract()), jitter, reply)
    {
      var moveInfos := CollectMoves(gm, jitter);
      if |moveInfos| == 0 {
        return None;
      }
      var best := PickBest(moveInfos);
      var m := moveInfos[best].move;
      var pieceToMove := gm.GetPosition(m.fromX, m.fromY);
      var _ := gm.MovePiece(pieceToMove, m.plate.x, m.plate.y, m.plate.attack, jitter);
      reply := Some(best);
    }
  }
}
