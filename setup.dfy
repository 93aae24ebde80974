/** The starting position that the game manager's Start builds: the creation
    table of each side, the grid after each round of its placement loop, and
    what the finished position holds. */
module Setup {
  import opened Board

  /** File order of the back rank: rook, knight, bishop, queen, king, bishop, knight, rook. */
  function BackRank(x: int): Kind
    requires 0 <= x < Size
  {
    [Rook, Knight, Bishop, Queen, King, Bishop, Knight, Rook][x]
  }

  /** The rank of a side's back row. */
  function HomeRank(s: Side): int
  {
    if s == White then 0 else 7
  }

  /** The rank a side's pawns start on. */
  function PawnRank(s: Side): int
  {
    if s == White then 1 else 6
  }

  /** The standard starting occupant of square (x, y). */
  function StartSquare(x: int, y: int): Option<Piece>
    requires OnBoard(x, y)
  {
    if y == HomeRank(White) then Some(Piece(White, BackRank(x), false))
    else if y == PawnRank(White) then Some(Piece(White, Pawn, false))
    else if y == PawnRank(Black) then Some(Piece(Black, Pawn, false))
    else if y == HomeRank(Black) then Some(Piece(Black, BackRank(x), false))
    else None
  }

  function InitialBoard(): (b: Board)
    ensures WellFormed(b)
    ensures forall x, y :: OnBoard(x, y) ==> b[x][y] == StartSquare(x, y)
  {
    seq(Size, x requires 0 <= x < Size =>
      seq(Size, y requires 0 <= y < Size => StartSquare(x, y)))
  }

  /** Entry i (0 to 15) of a side's creation list in Start: the back row from
      file 0 to 7, then the pawns from file 0 to 7. */
  function StartKind(i: int): Kind
    requires 0 <= i < 16
  {
    if i < 8 then BackRank(i) else Pawn
  }

  function StartFile(i: int): int
    requires 0 <= i < 16
  {
    if i < 8 then i else i - 8
  }

  function StartRank(s: Side, i: int): int
    requires 0 <= i < 16
  {
    if i < 8 then HomeRank(s) else PawnRank(s)
  }

  /** The grid after n rounds of Start's placement loop, each of which stores
      entry i of Black's list and then entry i of White's. */
  function Layout(n: nat): (b: Board)
    requires n <= 16
    ensures WellFormed(b)
  {
    if n == 0 then EmptyBoard()
    else
      var i := n - 1;
      var b := Put(Layout(i), StartFile(i), StartRank(Black, i), Some(Piece(Black, StartKind(i), false)));
      Put(b, StartFile(i), StartRank(White, i), Some(Piece(White, StartKind(i), false)))
  }

  /** Whether the first n rounds of the placement loop have reached square (x, y). */
  predicate Placed(n: nat, x: int, y: int)
  {
    ((y == 0 || y == 7) && x < n) || ((y == 1 || y == 6) && x + 8 < n)
  }

  /** After n rounds exactly the squares reached so far hold their starting piece. */
  lemma {:induction false} LayoutPlaced(n: nat, x: int, y: int)
    requires n <= 16 && OnBoard(x, y)
    ensures Layout(n)[x][y] == if Placed(n, x, y) then StartSquare(x, y) else None
  {
    if n > 0 {
      LayoutPlaced(n - 1, x, y);
    }
  }

  /** After all sixteen rounds every square holds its starting occupant. The
      round count is a parameter fixed to 16 rather than the literal, so that
      the verifier does not unroll Layout sixteen times. */
  lemma LayoutComplete(n: nat, x: int, y: int)
    requires n == 16 && OnBoard(x, y)
    ensures Layout(n)[x][y] == StartSquare(x, y)
  {
    LayoutPlaced(n, x, y);
  }

  /** The sixteen rounds of the placement loop build the standard position
      (n is pinned to 16 for the same reason as in LayoutComplete). */
  lemma StartLoopBuildsInitialBoard(n: nat)
    requires n == 16
    ensures Layout(n) == InitialBoard()
  {
    forall x, y | OnBoard(x, y)
      ensures Layout(n)[x][y] == InitialBoard()[x][y]
    {
      LayoutComplete(n, x, y);
    }
    SameCells(Layout(n), InitialBoard());
  }

  /** The square entry i of either side is stored on is still empty when the
      loop reaches it, so no piece is stored over another. */
  lemma StartSquareFree(i: int, s: Side)
    requires 0 <= i < 16
    ensures Layout(i)[StartFile(i)][StartRank(s, i)].None?
  {
    var x, y := StartFile(i), StartRank(s, i);
    assert !Placed(i, x, y);
    LayoutPlaced(i, x, y);
  }

  /** Number of occupied cells of col from index k on. */
  function CountFrom(col: seq<Option<Piece>>, k: nat): nat
    decreases |col| - k
  {
    if k >= |col| then 0 else (if col[k].Some? then 1 else 0) + CountFrom(col, k + 1)
  }

  /** Number of pieces on files k and above. */
  function CountFiles(b: Board, k: nat): nat
    decreases |b| - k
  {
    if k >= |b| then 0 else CountFrom(b[k], 0) + CountFiles(b, k + 1)
  }

  function PieceCount(b: Board): nat
  {
    CountFiles(b, 0)
  }

  lemma InitialFileCount(x: int)
    requires 0 <= x < Size
    ensures CountFrom(InitialBoard()[x], 0) == 4
  {
    var col := InitialBoard()[x];
    assert CountFrom(col, 8) == 0;
    assert CountFrom(col, 7) == 1;
    assert CountFrom(col, 6) == 2;
    assert CountFrom(col, 5) == 2;
    assert CountFrom(col, 4) == 2;
    assert CountFrom(col, 3) == 2;
    assert CountFrom(col, 2) == 2;
    assert CountFrom(col, 1) == 3;
  }

  /** Start puts 32 pieces on the board. */
  lemma {:induction false} InitialPieceCount()
    ensures PieceCount(InitialBoard()) == 32
  {
    var b := InitialBoard();
    var k := Size;
    while k > 0
      invariant 0 <= k <= Size
      invariant CountFiles(b, k) == 4 * (Size - k)
    {
      k := k - 1;
      InitialFileCount(k);
    }
  }

  /** In the starting position White fills ranks 0 and 1, Black ranks 6 and 7,
      and the ranks between are empty. */
  lemma InitialSides(x: int, y: int)
    requires OnBoard(x, y)
    ensures InitialBoard()[x][y].Some? <==> y <= 1 || y >= 6
    ensures InitialBoard()[x][y].Some? ==>
      (InitialBoard()[x][y].value.side == White <==> y <= 1) && !InitialBoard()[x][y].value.moved
    ensures y == 1 || y == 6 ==> InitialBoard()[x][y].value.kind == Pawn
  {
  }

  /** Each side starts with exactly one king, on file 4 of its back row. */
  lemma InitialKings(x: int, y: int, s: Side)
    requires OnBoard(x, y)
    ensures InitialBoard()[x][y] == Some(Piece(s, King, false)) <==> x == 4 && y == HomeRank(s)
  {
  }

  /** Every pawn that has not moved stands on its side's pawn rank. */
  ghost predicate PawnsHome(b: Board)
    requires WellFormed(b)
  {
    forall x, y :: OnBoard(x, y) && b[x][y].Some? && b[x][y].value.kind == Pawn && !b[x][y].value.moved
      ==> y == PawnRank(b[x][y].value.side)
  }

  lemma InitialPawnsHome()
    ensures PawnsHome(InitialBoard())
  {
  }
}
