/** Move generation: the move plates a piece spawns when it is selected, as pure
    functions of the grid, the piece and its square, with the properties that
    the sliding rays, the single-target rule and the pawn rule promise. */
module Moves {
  import opened Board

  /** A ray direction: one of the eight unit steps. */
  predicate IsStep(dx: int, dy: int)
  {
    -1 <= dx <= 1 && -1 <= dy <= 1 && (dx != 0 || dy != 0)
  }

  /** The coordinate i unit steps d along from z (d is -1, 0 or 1). */
  function Ahead(z: int, d: int, i: int): int
  {
    if d > 0 then z + i else if d < 0 then z - i else z
  }

  lemma AheadNext(z: int, d: int, i: int)
    requires -1 <= d <= 1
    ensures Ahead(z + d, d, i - 1) == Ahead(z, d, i)
  {
  }

  /** Bounds the steps a ray can still take from (x, y) before it leaves the board. */
  function Reach(x: int, y: int, dx: int, dy: int): nat
  {
    if !OnBoard(x, y) then 0
    else
      (if dx > 0 then Size - x else if dx < 0 then x + 1 else 0)
      + (if dy > 0 then Size - y else if dy < 0 then y + 1 else 0)
  }

  /** A unit step from a square on the board brings the ray closer to the edge. */
  lemma ReachStep(x: int, y: int, dx: int, dy: int)
    requires IsStep(dx, dy) && OnBoard(x, y)
    ensures Reach(x + dx, y + dy, dx, dy) < Reach(x, y, dx, dy)
  {
  }

  /** The plates of one sliding ray whose first square is (x, y): a quiet plate on
      each empty square, then an attack plate on the blocking square if it holds
      a piece of the other player. */
  function Ray(b: Board, side: Side, x: int, y: int, dx: int, dy: int): (r: seq<Candidate>)
    requires WellFormed(b) && IsStep(dx, dy)
    decreases Reach(x, y, dx, dy)
  {
    if !OnBoard(x, y) then []
    else if b[x][y].None? then [Candidate(x, y, false)] + Ray(b, side, x + dx, y + dy, dx, dy)
    else if b[x][y].value.side != side then [Candidate(x, y, true)]
    else []
  }

  /** Through an empty square the ray goes on: its quiet plate, then the ray
      from the next square. */
  lemma RayStep(b: Board, side: Side, x: int, y: int, dx: int, dy: int, prefix: seq<Candidate>)
    requires WellFormed(b) && IsStep(dx, dy) && IsEmpty(b, x, y)
    ensures prefix + Ray(b, side, x, y, dx, dy)
         == (prefix + [Candidate(x, y, false)]) + Ray(b, side, x + dx, y + dy, dx, dy)
  {
    var rest := Ray(b, side, x + dx, y + dy, dx, dy);
    assert Ray(b, side, x, y, dx, dy) == [Candidate(x, y, false)] + rest;
    assert prefix + ([Candidate(x, y, false)] + rest) == (prefix + [Candidate(x, y, false)]) + rest;
  }

  /** On a square that is off the board or occupied the ray ends: an attack
      plate if an opponent stands there, nothing otherwise. */
  lemma RayEnd(b: Board, side: Side, x: int, y: int, dx: int, dy: int, prefix: seq<Candidate>)
    requires WellFormed(b) && IsStep(dx, dy) && !IsEmpty(b, x, y)
    ensures prefix + Ray(b, side, x, y, dx, dy)
         == if IsEnemy(b, side, x, y) then prefix + [Candidate(x, y, true)] else prefix
  {
    assert Ray(b, side, x, y, dx, dy) == if IsEnemy(b, side, x, y) then [Candidate(x, y, true)] else [];
    assert prefix + [] == prefix;
  }

  /** Every plate of a ray is landable. */
  lemma {:induction false} RayLandable(b: Board, side: Side, x: int, y: int, dx: int, dy: int, c: Candidate)
    requires WellFormed(b) && IsStep(dx, dy) && c in Ray(b, side, x, y, dx, dy)
    ensures Landable(b, side, c)
    decreases Reach(x, y, dx, dy)
  {
    if OnBoard(x, y) && b[x][y].None? && c != Candidate(x, y, false) {
      RayLandable(b, side, x + dx, y + dy, dx, dy, c);
    }
  }

  /** How many consecutive squares from (x, y) along (dx, dy) are on the board and empty. */
  function EmptyRun(b: Board, x: int, y: int, dx: int, dy: int): nat
    requires WellFormed(b) && IsStep(dx, dy)
    decreases Reach(x, y, dx, dy)
  {
    if IsEmpty(b, x, y) then 1 + EmptyRun(b, x + dx, y + dy, dx, dy) else 0
  }

  /** The run is as long as it can be: its squares are on the board and empty,
      and the square after it is off the board or occupied. */
  lemma {:induction false} EmptyRunExact(b: Board, x: int, y: int, dx: int, dy: int)
    requires WellFormed(b) && IsStep(dx, dy)
    ensures var n := EmptyRun(b, x, y, dx, dy);
      && (forall i :: 0 <= i < n ==> IsEmpty(b, Ahead(x, dx, i), Ahead(y, dy, i)))
      && !IsEmpty(b, Ahead(x, dx, n), Ahead(y, dy, n))
    decreases EmptyRun(b, x, y, dx, dy)
  {
    var n := EmptyRun(b, x, y, dx, dy);
    if IsEmpty(b, x, y) {
      EmptyRunExact(b, x + dx, y + dy, dx, dy);
      forall i | 1 <= i < n
        ensures IsEmpty(b, Ahead(x, dx, i), Ahead(y, dy, i))
      {
        AheadNext(x, dx, i);
        AheadNext(y, dy, i);
      }
      AheadNext(x, dx, n);
      AheadNext(y, dy, n);
    }
  }

  /** The ray begins with one quiet plate on each square of the empty run, in order. */
  lemma {:induction false} RayQuietRun(b: Board, side: Side, x: int, y: int, dx: int, dy: int)
    requires WellFormed(b) && IsStep(dx, dy)
    ensures var r, n := Ray(b, side, x, y, dx, dy), EmptyRun(b, x, y, dx, dy);
      n <= |r| && forall i :: 0 <= i < n ==> r[i] == Candidate(Ahead(x, dx, i), Ahead(y, dy, i), false)
    decreases EmptyRun(b, x, y, dx, dy)
  {
    if IsEmpty(b, x, y) {
      var r, n := Ray(b, side, x, y, dx, dy), EmptyRun(b, x, y, dx, dy);
      var r', n' := Ray(b, side, x + dx, y + dy, dx, dy), EmptyRun(b, x + dx, y + dy, dx, dy);
      RayQuietRun(b, side, x + dx, y + dy, dx, dy);
      assert r == [Candidate(x, y, false)] + r' && n == n' + 1;
      assert r[0] == Candidate(Ahead(x, dx, 0), Ahead(y, dy, 0), false);
      forall i | 1 <= i < n
        ensures r[i] == Candidate(Ahead(x, dx, i), Ahead(y, dy, i), false)
      {
        assert r[i] == r'[i - 1];
        AheadNext(x, dx, i);
        AheadNext(y, dy, i);
      }
    }
  }

  /** After the empty run the ray holds at most one more plate: an attack plate on
      the square that stops the run, present exactly when that square holds an
      opponent. Nothing lies beyond it. */
  lemma {:induction false} RayStop(b: Board, side: Side, x: int, y: int, dx: int, dy: int)
    requires WellFormed(b) && IsStep(dx, dy)
    ensures var r, n := Ray(b, side, x, y, dx, dy), EmptyRun(b, x, y, dx, dy);
      && |r| <= n + 1
      && (|r| == n + 1 <==> IsEnemy(b, side, Ahead(x, dx, n), Ahead(y, dy, n)))
      && (|r| == n + 1 ==> r[n] == Candidate(Ahead(x, dx, n), Ahead(y, dy, n), true))
    decreases EmptyRun(b, x, y, dx, dy)
  {
    var r, n := Ray(b, side, x, y, dx, dy), EmptyRun(b, x, y, dx, dy);
    if IsEmpty(b, x, y) {
      var r', n' := Ray(b, side, x + dx, y + dy, dx, dy), EmptyRun(b, x + dx, y + dy, dx, dy);
      RayStop(b, side, x + dx, y + dy, dx, dy);
      assert r == [Candidate(x, y, false)] + r' && n == n' + 1;
      AheadNext(x, dx, n);
      AheadNext(y, dy, n);
      var sx, sy := Ahead(x, dx, n), Ahead(y, dy, n);
      assert sx == Ahead(x + dx, dx, n') && sy == Ahead(y + dy, dy, n');
      assert |r| == n + 1 <==> |r'| == n' + 1;
      if |r| == n + 1 {
        assert r[n] == r'[n'];
      }
    } else {
      assert n == 0 && Ahead(x, dx, 0) == x && Ahead(y, dy, 0) == y;
    }
  }

  function RookMoves(b: Board, side: Side, x: int, y: int): (r: seq<Candidate>)
    requires WellFormed(b)
  {
    Ray(b, side, x + 1, y, 1, 0) + Ray(b, side, x, y + 1, 0, 1)
    + Ray(b, side, x - 1, y, -1, 0) + Ray(b, side, x, y - 1, 0, -1)
  }

  function BishopMoves(b: Board, side: Side, x: int, y: int): (r: seq<Candidate>)
    requires WellFormed(b)
  {
    Ray(b, side, x + 1, y + 1, 1, 1) + Ray(b, side, x + 1, y - 1, 1, -1)
    + Ray(b, side, x - 1, y + 1, -1, 1) + Ray(b, side, x - 1, y - 1, -1, -1)
  }

  function QueenMoves(b: Board, side: Side, x: int, y: int): (r: seq<Candidate>)
    requires WellFormed(b)
  {
    Ray(b, side, x + 1, y, 1, 0) + Ray(b, side, x, y + 1, 0, 1)
    + Ray(b, side, x + 1, y + 1, 1, 1) + Ray(b, side, x - 1, y, -1, 0)
    + Ray(b, side, x, y - 1, 0, -1) + Ray(b, side, x - 1, y - 1, -1, -1)
    + Ray(b, side, x - 1, y + 1, -1, 1) + Ray(b, side, x + 1, y - 1, 1, -1)
  }

  /** The queen's plates are the rook's and the bishop's from the same square,
      each exactly once. */
  lemma QueenIsRookAndBishop(b: Board, side: Side, x: int, y: int)
    requires WellFormed(b)
    ensures multiset(QueenMoves(b, side, x, y))
         == multiset(RookMoves(b, side, x, y)) + multiset(BishopMoves(b, side, x, y))
  {
  }

  /** The single-target rule: the one plate that (x, y) admits, if any. */
  function Point(b: Board, side: Side, x: int, y: int): (r: seq<Candidate>)
    requires WellFormed(b)
    ensures |r| <= 1
  {
    if !OnBoard(x, y) then []
    else if b[x][y].None? then [Candidate(x, y, false)]
    else if b[x][y].value.side != side then [Candidate(x, y, true)]
    else []
  }

  /** Nothing off the board, a quiet plate on an empty square, an attack plate
      on an opponent's piece, nothing on a friendly piece. */
  lemma PointExact(b: Board, side: Side, x: int, y: int, c: Candidate)
    requires WellFormed(b)
    ensures c in Point(b, side, x, y) <==> c.x == x && c.y == y && Landable(b, side, c)
  {
  }

  function KnightMoves(b: Board, side: Side, x: int, y: int): (r: seq<Candidate>)
    requires WellFormed(b)
  {
    Point(b, side, x + 1, y + 2) + Point(b, side, x - 1, y + 2)
    + Point(b, side, x + 2, y + 1) + Point(b, side, x + 2, y - 1)
    + Point(b, side, x + 1, y - 2) + Point(b, side, x - 1, y - 2)
    + Point(b, side, x - 2, y + 1) + Point(b, side, x - 2, y - 1)
  }

  function KingMoves(b: Board, side: Side, x: int, y: int): (r: seq<Candidate>)
    requires WellFormed(b)
  {
    Point(b, side, x, y + 1) + Point(b, side, x, y - 1)
    + Point(b, side, x - 1, y) + Point(b, side, x - 1, y - 1)
    + Point(b, side, x - 1, y + 1) + Point(b, side, x + 1, y)
    + Point(b, side, x + 1, y - 1) + Point(b, side, x + 1, y + 1)
  }

  function Abs(z: int): nat
  {
    if z < 0 then -z else z
  }

  predicate IsKnightJump(dx: int, dy: int)
  {
    (Abs(dx) == 1 && Abs(dy) == 2) || (Abs(dx) == 2 && Abs(dy) == 1)
  }

  predicate IsKingStep(dx: int, dy: int)
  {
    Abs(dx) <= 1 && Abs(dy) <= 1 && (dx != 0 || dy != 0)
  }

  /** A knight's plates are exactly the landable plates a knight's jump away. */
  lemma KnightMovesExact(b: Board, side: Side, x: int, y: int, c: Candidate)
    requires WellFormed(b)
    ensures c in KnightMoves(b, side, x, y) <==> IsKnightJump(c.x - x, c.y - y) && Landable(b, side, c)
  {
    PointExact(b, side, x + 1, y + 2, c);
    PointExact(b, side, x - 1, y + 2, c);
    PointExact(b, side, x + 2, y + 1, c);
    PointExact(b, side, x + 2, y - 1, c);
    PointExact(b, side, x + 1, y - 2, c);
    PointExact(b, side, x - 1, y - 2, c);
    PointExact(b, side, x - 2, y + 1, c);
    PointExact(b, side, x - 2, y - 1, c);
  }

  /** A king's plates are exactly the landable plates on the eight neighbouring squares. */
  lemma KingMovesExact(b: Board, side: Side, x: int, y: int, c: Candidate)
    requires WellFormed(b)
    ensures c in KingMoves(b, side, x, y) <==> IsKingStep(c.x - x, c.y - y) && Landable(b, side, c)
  {
    PointExact(b, side, x, y + 1, c);
    PointExact(b, side, x, y - 1, c);
    PointExact(b, side, x - 1, y, c);
    PointExact(b, side, x - 1, y - 1, c);
    PointExact(b, side, x - 1, y + 1, c);
    PointExact(b, side, x + 1, y, c);
    PointExact(b, side, x + 1, y - 1, c);
    PointExact(b, side, x + 1, y + 1, c);
  }

  /** The pawn rule, given the square (x, y) one step ahead of the pawn: one quiet
      step onto an empty square, a second one if the pawn has never moved, and
      attack plates on the two diagonal squares beside (x, y). */
  function PawnMoves(b: Board, side: Side, moved: bool, x: int, y: int): (r: seq<Candidate>)
    requires WellFormed(b)
  {
    if !OnBoard(x, y) then []
    else
      var y2 := y + Forward(side);
      (if b[x][y].None? then
         [Candidate(x, y, false)]
         + (if !moved && IsEmpty(b, x, y2) then [Candidate(x, y2, false)] else [])
       else [])
      + (if IsEnemy(b, side, x + 1, y) then [Candidate(x + 1, y, true)] else [])
      + (if IsEnemy(b, side, x - 1, y) then [Candidate(x - 1, y, true)] else [])
  }

  /** GetAvailableMoves: the plates of piece p standing on (x, y). Every plate is on
      the board, quiet plates stand on empty squares and attack plates on pieces
      of the other player. */
  function AvailableMoves(b: Board, p: Piece, x: int, y: int): (r: seq<Candidate>)
    requires WellFormed(b)
  {
    match p.kind
    case Queen => QueenMoves(b, p.side, x, y)
    case Knight => KnightMoves(b, p.side, x, y)
    case Bishop => BishopMoves(b, p.side, x, y)
    case King => KingMoves(b, p.side, x, y)
    case Rook => RookMoves(b, p.side, x, y)
    case Pawn => PawnMoves(b, p.side, p.moved, x, y + Forward(p.side))
  }

  /** Every generated plate is landable: on the board, quiet on an empty
      square, an attack on a piece of the other player. */
  lemma AvailableMovesLandable(b: Board, p: Piece, x: int, y: int, c: Candidate)
    requires WellFormed(b) && c in AvailableMoves(b, p, x, y)
    ensures Landable(b, p.side, c)
  {
    var s := p.side;
    match p.kind
    case Queen =>
      if c in Ray(b, s, x + 1, y, 1, 0) { RayLandable(b, s, x + 1, y, 1, 0, c); }
      else if c in Ray(b, s, x, y + 1, 0, 1) { RayLandable(b, s, x, y + 1, 0, 1, c); }
      else if c in Ray(b, s, x + 1, y + 1, 1, 1) { RayLandable(b, s, x + 1, y + 1, 1, 1, c); }
      else if c in Ray(b, s, x - 1, y, -1, 0) { RayLandable(b, s, x - 1, y, -1, 0, c); }
      else if c in Ray(b, s, x, y - 1, 0, -1) { RayLandable(b, s, x, y - 1, 0, -1, c); }
      else if c in Ray(b, s, x - 1, y - 1, -1, -1) { RayLandable(b, s, x - 1, y - 1, -1, -1, c); }
      else if c in Ray(b, s, x - 1, y + 1, -1, 1) { RayLandable(b, s, x - 1, y + 1, -1, 1, c); }
      else { RayLandable(b, s, x + 1, y - 1, 1, -1, c); }
    case Rook =>
      if c in Ray(b, s, x + 1, y, 1, 0) { RayLandable(b, s, x + 1, y, 1, 0, c); }
      else if c in Ray(b, s, x, y + 1, 0, 1) { RayLandable(b, s, x, y + 1, 0, 1, c); }
      else if c in Ray(b, s, x - 1, y, -1, 0) { RayLandable(b, s, x - 1, y, -1, 0, c); }
      else { RayLandable(b, s, x, y - 1, 0, -1, c); }
    case Bishop =>
      if c in Ray(b, s, x + 1, y + 1, 1, 1) { RayLandable(b, s, x + 1, y + 1, 1, 1, c); }
      else if c in Ray(b, s, x + 1, y - 1, 1, -1) { RayLandable(b, s, x + 1, y - 1, 1, -1, c); }
      else if c in Ray(b, s, x - 1, y + 1, -1, 1) { RayLandable(b, s, x - 1, y + 1, -1, 1, c); }
      else { RayLandable(b, s, x - 1, y - 1, -1, -1, c); }
    case Knight => KnightMovesExact(b, s, x, y, c);
    case King => KingMovesExact(b, s, x, y, c);
    case Pawn => PawnMovesExact(b, p, x, y, c);
  }

  /** The pawn's plates, square by square: the step ahead if it is empty; the
      double step if the pawn has not moved and both squares are empty, whatever
      rank it stands on; a diagonal square ahead only as an attack, only if it
      holds an opponent and the square ahead is on the board. */
  lemma PawnMovesExact(b: Board, p: Piece, x: int, y: int, c: Candidate)
    requires WellFormed(b) && p.kind == Pawn
    ensures var f := Forward(p.side);
      c in AvailableMoves(b, p, x, y) <==>
        || (c == Candidate(x, y + f, false) && IsEmpty(b, x, y + f))
        || (c == Candidate(x, y + 2 * f, false) && !p.moved
            && IsEmpty(b, x, y + f) && IsEmpty(b, x, y + 2 * f))
        || (c.attack && c.y == y + f && Abs(c.x - x) == 1
            && OnBoard(x, y + f) && IsEnemy(b, p.side, c.x, c.y))
  {
  }

  /** A pawn that has moved has at most its single step as a quiet plate. */
  lemma MovedPawnSingleStep(b: Board, p: Piece, x: int, y: int, c: Candidate)
    requires WellFormed(b) && p.kind == Pawn && p.moved
    requires c in AvailableMoves(b, p, x, y) && !c.attack
    ensures c == Candidate(x, y + Forward(p.side), false)
  {
    PawnMovesExact(b, p, x, y, c);
  }
}
