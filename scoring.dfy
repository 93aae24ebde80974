/** The automated opponent's arithmetic: the material table, the score of one
    move plate, the list of scored moves it collects for Black, and what it
    means for a move to be a best one. */
module Scoring {
  import opened Board
  import opened Moves

  /** One draw of the random neutral value: Random.Range(1, 10) excludes its
      upper bound, so a draw is an integer from 1 to 9. */
  type Draw = d: int | 1 <= d <= 9 witness 1

  /** The random draws of one AI turn; the move at position k of the list is
      given draw k. */
  type Jitter = nat -> Draw

  /** Material value of a piece kind. */
  function PieceValue(k: Kind): (v: int)
    ensures 10 <= v
    ensures v == 1000 <==> k == King
  {
    match k
    case Queen => 90
    case Rook => 50
    case Bishop => 30
    case Knight => 30
    case Pawn => 10
    case King => 1000
  }

  /** Every piece other than the king is worth less than the king. */
  lemma KingOutweighsAll(k: Kind)
    requires k != King
    ensures PieceValue(k) < PieceValue(King) - 900
  {
  }

  /** The value of whatever stands on square (x, y): the occupant's material
      value, or 0 for an empty square. */
  function TargetValue(b: Board, x: int, y: int): (v: int)
    requires WellFormed(b) && OnBoard(x, y)
    ensures v == 0 <==> b[x][y].None?
    ensures b[x][y].Some? ==> 10 <= v
  {
    if b[x][y].Some? then PieceValue(b[x][y].value.kind) else 0
  }

  /** The score of a plate: the value of its target square when that is not 0,
      otherwise the random draw. */
  function Score(b: Board, c: Candidate, draw: Draw): (v: int)
    requires WellFormed(b) && OnBoard(c.x, c.y)
    ensures 1 <= v
    ensures v <= 9 <==> b[c.x][c.y].None?
    ensures b[c.x][c.y].None? ==> v == draw
  {
    var value := TargetValue(b, c.x, c.y);
    if value == 0 then draw else value
  }

  /** Scores of captures and of quiet moves never overlap: for a plate the
      generator can produce, the score is at least 10 exactly when it is an
      attack plate. */
  lemma ScoreSeparatesCaptures(b: Board, side: Side, c: Candidate, draw: Draw)
    requires WellFormed(b) && Landable(b, side, c)
    ensures c.attack <==> Score(b, c, draw) >= 10
    ensures c.attack ==> Score(b, c, draw) == PieceValue(b[c.x][c.y].value.kind)
  {
  }

  /** A candidate move: the square of the piece that makes it and its plate. */
  datatype Move = Move(fromX: int, fromY: int, plate: Candidate)

  /** An entry of the AI's move list: the move and its score. */
  datatype MoveInfo = MoveInfo(move: Move, value: int)

  /** The plates cs of the piece on (x, y), as moves. */
  function Tag(x: int, y: int, cs: seq<Candidate>): (r: seq<Move>)
    ensures |r| == |cs|
    ensures forall j :: 0 <= j < |r| ==> r[j] == Move(x, y, cs[j])
  {
    seq(|cs|, j requires 0 <= j < |cs| => Move(x, y, cs[j]))
  }

  /** A move made by a Black piece that stands on its square, with a plate that
      piece generates. */
  ghost predicate BlackMove(b: Board, m: Move)
    requires WellFormed(b)
  {
    && OnBoard(m.fromX, m.fromY)
    && b[m.fromX][m.fromY].Some?
    && b[m.fromX][m.fromY].value.side == Black
    && m.plate in AvailableMoves(b, b[m.fromX][m.fromY].value, m.fromX, m.fromY)
  }

  /** The moves of the piece on (x, y) if it is Black; nothing otherwise. */
  function SquareMoves(b: Board, x: int, y: int): seq<Move>
    requires WellFormed(b) && OnBoard(x, y)
  {
    match b[x][y]
    case None => []
    case Some(p) => if p.side == Black then Tag(x, y, AvailableMoves(b, p, x, y)) else []
  }

  /** The square the AI visits q-th: file by file, and within a file rank by rank. */
  function FileOf(q: int): int { q / 8 }
  function RankOf(q: int): int { q % 8 }

  /** The moves of each of the 64 squares, in visiting order. */
  function Squares(b: Board): (ss: seq<seq<Move>>)
    requires WellFormed(b)
    ensures |ss| == Size * Size
  {
    seq(Size * Size, q requires 0 <= q < Size * Size => SquareMoves(b, FileOf(q), RankOf(q)))
  }

  /** The lists of ss one after another. */
  function Flatten(ss: seq<seq<Move>>): seq<Move>
  {
    if |ss| == 0 then [] else Flatten(ss[..|ss| - 1]) + ss[|ss| - 1]
  }

  /** Flattening one more list appends it. */
  lemma FlattenSnoc(ss: seq<seq<Move>>, k: int)
    requires 0 <= k < |ss|
    ensures Flatten(ss[..k + 1]) == Flatten(ss[..k]) + ss[k]
  {
    assert ss[..k + 1][..k] == ss[..k];
  }

  /** A flattened move comes from one of the lists. */
  lemma {:induction false} FlattenSound(ss: seq<seq<Move>>, m: Move)
    requires m in Flatten(ss)
    ensures exists q :: 0 <= q < |ss| && m in ss[q]
  {
    var init := ss[..|ss| - 1];
    if m in Flatten(init) {
      FlattenSound(init, m);
      var q :| 0 <= q < |init| && m in init[q];
      assert ss[q] == init[q];
    }
  }

  /** Every move of every list is flattened. */
  lemma {:induction false} FlattenComplete(ss: seq<seq<Move>>, q: int, m: Move)
    requires 0 <= q < |ss| && m in ss[q]
    ensures m in Flatten(ss)
  {
    if q < |ss| - 1 {
      var init := ss[..|ss| - 1];
      assert init[q] == ss[q];
      FlattenComplete(init, q, m);
    }
  }

  /** Every move of Black: the moves of all 64 squares. */
  function BlackMoves(b: Board): seq<Move>
    requires WellFormed(b)
  {
    Flatten(Squares(b))
  }

  /** The moves listed for square (x, y) are exactly the plates of the Black
      piece standing there. */
  lemma SquareMovesExact(b: Board, x: int, y: int, c: Candidate)
    requires WellFormed(b) && OnBoard(x, y)
    ensures Move(x, y, c) in SquareMoves(b, x, y) <==> BlackMove(b, Move(x, y, c))
  {
    var ms := SquareMoves(b, x, y);
    if b[x][y].Some? && b[x][y].value.side == Black {
      var cs := AvailableMoves(b, b[x][y].value, x, y);
      assert ms == Tag(x, y, cs);
      if c in cs {
        var j :| 0 <= j < |cs| && cs[j] == c;
        assert ms[j] == Move(x, y, c);
      }
    }
  }

  /** Every move listed for a square starts on that square. */
  lemma SquareMovesFrom(b: Board, x: int, y: int, m: Move)
    requires WellFormed(b) && OnBoard(x, y) && m in SquareMoves(b, x, y)
    ensures m.fromX == x && m.fromY == y
  {
    var ms := SquareMoves(b, x, y);
    var j :| 0 <= j < |ms| && ms[j] == m;
  }

  /** The AI collects exactly the moves of Black: every one it collects is a
      plate of a Black piece, and every plate of every Black piece is collected. */
  lemma BlackMovesExact(b: Board, m: Move)
    requires WellFormed(b)
    ensures m in BlackMoves(b) <==> BlackMove(b, m)
  {
    var ss := Squares(b);
    if m in BlackMoves(b) {
      FlattenSound(ss, m);
      var q :| 0 <= q < |ss| && m in ss[q];
      var x, y := FileOf(q), RankOf(q);
      SquareMovesFrom(b, x, y, m);
      SquareMovesExact(b, x, y, m.plate);
    }
    if BlackMove(b, m) {
      var q := m.fromX * 8 + m.fromY;
      assert FileOf(q) == m.fromX && RankOf(q) == m.fromY;
      SquareMovesExact(b, m.fromX, m.fromY, m.plate);
      FlattenComplete(ss, q, m);
    }
  }

  /** Every plate of the list lies on the board. */
  ghost predicate PlatesOnBoard(ms: seq<Move>)
  {
    forall m :: m in ms ==> OnBoard(m.plate.x, m.plate.y)
  }

  /** The scored move list: the move at position k gets its score with draw k. */
  function Evaluate(b: Board, ms: seq<Move>, jitter: Jitter): (r: seq<MoveInfo>)
    requires WellFormed(b) && PlatesOnBoard(ms)
    ensures |r| == |ms|
    ensures forall k :: 0 <= k < |r| ==> r[k].move == ms[k]
  {
    seq(|ms|, k requires 0 <= k < |ms| => MoveInfo(ms[k], Score(b, ms[k].plate, jitter(k))))
  }

  /** Every move of Black is a move of a Black piece, onto the board. */
  lemma BlackMovesOnBoard(b: Board)
    requires WellFormed(b)
    ensures forall m :: m in BlackMoves(b) ==> BlackMove(b, m)
    ensures PlatesOnBoard(BlackMoves(b))
  {
    forall m | m in BlackMoves(b)
      ensures BlackMove(b, m) && OnBoard(m.plate.x, m.plate.y)
    {
      BlackMovesExact(b, m);
      AvailableMovesLandable(b, b[m.fromX][m.fromY].value, m.fromX, m.fromY, m.plate);
    }
  }

  /** The scored moves of Black in grid b. */
  function AIMoves(b: Board, jitter: Jitter): (r: seq<MoveInfo>)
    requires WellFormed(b)
    ensures |r| == |BlackMoves(b)|
    ensures forall k :: 0 <= k < |r| ==> BlackMove(b, r[k].move)
    ensures forall k :: 0 <= k < |r| ==> OnBoard(r[k].move.plate.x, r[k].move.plate.y)
  {
    BlackMovesOnBoard(b);
    Evaluate(b, BlackMoves(b), jitter)
  }

  /** Scoring one more move appends its entry, scored with the next draw. */
  lemma EvaluateSnoc(b: Board, ms: seq<Move>, m: Move, jitter: Jitter)
    requires WellFormed(b) && PlatesOnBoard(ms + [m])
    ensures PlatesOnBoard(ms)
    ensures Evaluate(b, ms + [m], jitter)
         == Evaluate(b, ms, jitter) + [MoveInfo(m, Score(b, m.plate, jitter(|ms|)))]
  {
    assert forall n :: n in ms ==> n in ms + [m];
  }

  /** Position i of the list holds a highest score. */
  predicate IsBest(infos: seq<MoveInfo>, i: int)
  {
    0 <= i < |infos| && forall j :: 0 <= j < |infos| ==> infos[j].value <= infos[i].value
  }

  /** A non-empty list has a best entry. */
  lemma {:induction false} BestExists(infos: seq<MoveInfo>)
    requires |infos| > 0
    ensures exists i :: IsBest(infos, i)
  {
    if |infos| > 1 {
      var rest := infos[1..];
      BestExists(rest);
      var i :| IsBest(rest, i);
      if infos[0].value >= rest[i].value {
        assert IsBest(infos, 0);
      } else {
        assert IsBest(infos, i + 1);
      }
    } else {
      assert IsBest(infos, 0);
    }
  }

  /** A best move of Black is a capture exactly when Black has a capture at all. */
  lemma BestIsCapture(b: Board, jitter: Jitter, i: int)
    requires WellFormed(b)
    requires IsBest(AIMoves(b, jitter), i)
    ensures var infos := AIMoves(b, jitter);
      infos[i].move.plate.attack <==> exists j :: 0 <= j < |infos| && infos[j].move.plate.attack
  {
    var infos := AIMoves(b, jitter);
    if j :| 0 <= j < |infos| && infos[j].move.plate.attack {
      CapturesScoreHigh(b, jitter, j);
      CapturesScoreHigh(b, jitter, i);
    }
  }

  /** In the scored list an entry scores at least 10 exactly when it is a
      capture, and then its score is the captured piece's value. */
  lemma CapturesScoreHigh(b: Board, jitter: Jitter, j: int)
    requires WellFormed(b) && 0 <= j < |AIMoves(b, jitter)|
    ensures var e := AIMoves(b, jitter)[j]; var c := e.move.plate;
      && (c.attack <==> e.value >= 10)
      && (c.attack ==> b[c.x][c.y].Some? && e.value == PieceValue(b[c.x][c.y].value.kind))
  {
    var e := AIMoves(b, jitter)[j];
    var ms := BlackMoves(b);
    BlackMovesOnBoard(b);
    assert e == Evaluate(b, ms, jitter)[j];
    assert e.value == Score(b, e.move.plate, jitter(j));
    var p := b[e.move.fromX][e.move.fromY].value;
    AvailableMovesLandable(b, p, e.move.fromX, e.move.fromY, e.move.plate);
    ScoreSeparatesCaptures(b, p.side, e.move.plate, jitter(j));
  }

  /** Plate c is an attack on a king. */
  predicate TakesKing(b: Board, c: Candidate)
    requires WellFormed(b) && OnBoard(c.x, c.y)
  {
    c.attack && b[c.x][c.y].Some? && b[c.x][c.y].value.kind == King
  }

  /** When Black can take the white king, a best move takes a king. */
  lemma KingCapturePreferred(b: Board, jitter: Jitter, i: int, j: int)
    requires WellFormed(b)
    requires IsBest(AIMoves(b, jitter), i) && 0 <= j < |AIMoves(b, jitter)|
    requires TakesKing(b, AIMoves(b, jitter)[j].move.plate)
    ensures TakesKing(b, AIMoves(b, jitter)[i].move.plate)
  {
    var infos := AIMoves(b, jitter);
    CapturesScoreHigh(b, jitter, j);
    CapturesScoreHigh(b, jitter, i);
    var c := infos[i].move.plate;
    if c.attack && b[c.x][c.y].value.kind != King {
      KingOutweighsAll(b[c.x][c.y].value.kind);
    }
  }
}
