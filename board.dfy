/** Values of the chess engine: sides, piece kinds, move plates and the 8x8 grid
    of optional pieces that the game manager keeps. */
module Board {

  datatype Option<T> = None | Some(value: T)

  /** The two players (a piece's `player` string and its `isWhite` flag). */
  datatype Side = White | Black

  /** The piece type, which the source reads off the piece's name. */
  datatype Kind = Pawn | Knight | Bishop | Rook | Queen | King

  /** What the grid shows of a piece: its owner, its type and its `hasMoved` flag. */
  datatype Piece = Piece(side: Side, kind: Kind, moved: bool)

  /** A move plate: the destination square and whether it is an attack plate. */
  datatype Candidate = Candidate(x: int, y: int, attack: bool)

  /** Files and ranks of the `positions` array. */
  const Size := 8

  /** board[x][y] is the occupant of file x, rank y. */
  type Board = seq<seq<Option<Piece>>>

  predicate WellFormed(b: Board)
  {
    |b| == Size && forall x :: 0 <= x < Size ==> |b[x]| == Size
  }

  predicate OnBoard(x: int, y: int)
  {
    0 <= x < Size && 0 <= y < Size
  }

  function Other(s: Side): Side
  {
    if s == White then Black else White
  }

  /** The rank step of a pawn: up the board for White, down for Black. */
  function Forward(s: Side): int
  {
    if s == White then 1 else -1
  }

  predicate IsEmpty(b: Board, x: int, y: int)
    requires WellFormed(b)
  {
    OnBoard(x, y) && b[x][y].None?
  }

  /** The square is on the board and holds a piece of the other player. */
  predicate IsEnemy(b: Board, side: Side, x: int, y: int)
    requires WellFormed(b)
  {
    OnBoard(x, y) && b[x][y].Some? && b[x][y].value.side != side
  }

  /** A plate agrees with the square it names: a quiet plate stands on an empty
      square, an attack plate on a piece of the other player. */
  predicate Landable(b: Board, side: Side, c: Candidate)
    requires WellFormed(b)
  {
    if c.attack then IsEnemy(b, side, c.x, c.y) else IsEmpty(b, c.x, c.y)
  }

  function EmptyBoard(): (b: Board)
    ensures WellFormed(b)
    ensures forall x, y {:trigger b[x][y]} :: OnBoard(x, y) ==> b[x][y].None?
  {
    seq(Size, x => seq(Size, y => None))
  }

  /** Two grids that agree on every square are the same grid. */
  lemma SameCells(a: Board, b: Board)
    requires WellFormed(a) && WellFormed(b)
    requires forall x, y :: OnBoard(x, y) ==> a[x][y] == b[x][y]
    ensures a == b
  {
    forall x | 0 <= x < Size
      ensures a[x] == b[x]
    {
      assert forall y :: 0 <= y < Size ==> a[x][y] == b[x][y];
    }
  }

  /** The grid with one cell replaced. */
  function Put(b: Board, x: int, y: int, v: Option<Piece>): (r: Board)
    requires WellFormed(b) && OnBoard(x, y)
    ensures WellFormed(r)
    ensures r[x][y] == v
    ensures forall i, j {:trigger r[i][j]} :: OnBoard(i, j) && (i != x || j != y) ==> r[i][j] == b[i][j]
  {
    b[x := b[x][y := v]]
  }

  /** Storing twice on the same square keeps only the second value. */
  lemma PutTwice(b: Board, x: int, y: int, v: Option<Piece>, w: Option<Piece>)
    requires WellFormed(b) && OnBoard(x, y)
    ensures Put(Put(b, x, y, v), x, y, w) == Put(b, x, y, w)
  {
    SameCells(Put(Put(b, x, y, v), x, y, w), Put(b, x, y, w));
  }
}
