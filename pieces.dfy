/** Piece encoding and the geometry of the bordered 10x12 board.

    A square index addresses a cell of a 10-wide, 12-high grid.  Rows 2..9 and
    columns 1..8 are the playable 8x8 area; every other cell is a sentinel.
    Row 2 is rank 8 and row 9 is rank 1; column 1 is file a and column 8 is
    file h. */
module Pieces {

  const PAWN: int := 1
  const KNIGHT: int := 2
  const BISHOP: int := 3
  const ROOK: int := 4
  const QUEEN: int := 5
  const KING: int := 6

  /** Material value per piece type; index 0 stands for "no piece". */
  const PIECE_VALUES: seq<int> := [0, 1, 3, 3, 5, 9, 10]

  /** All piece types, in ascending order. */
  const PIECES: seq<int> := [PAWN, KNIGHT, BISHOP, ROOK, QUEEN, KING]

  const P: int := PAWN
  const N: int := KNIGHT
  const B: int := BISHOP
  const R: int := ROOK
  const Q: int := QUEEN
  const K: int := KING

  const KNIGHT_DIRECTIONS: seq<int> := [21, 19, 12, 8, -12, -21, -19, -8]
  const KING_DIRECTIONS: seq<int> := [1, 10, -1, -10, 9, 11, -9, -11]

  const WIDTH: int := 10
  const CELL_COUNT: int := 120

  function Row(i: int): int { i / WIDTH }
  function Col(i: int): int { i % WIDTH }

  /** The square reached from row 0, column 0 by `dr` rows and `dc` columns. */
  function Offset(dr: int, dc: int): int { WIDTH * dr + dc }

  /** The cell at row `row` and column `col` of the grid. */
  lemma CellAt(row: int, col: int)
    requires 0 <= col < WIDTH
    ensures Row(WIDTH * row + col) == row && Col(WIDTH * row + col) == col
  {
  }

  /** A cell of the playable 8x8 area. */
  predicate OnBoard(i: int) {
    0 <= i < CELL_COUNT && 2 <= Row(i) <= 9 && 1 <= Col(i) <= 8
  }

  /** A cell of the bordered grid outside the playable area. */
  predicate IsSentinelCell(i: int) {
    0 <= i < CELL_COUNT && !OnBoard(i)
  }

  /** Chess coordinates of a playable square: file 0..7 is a..h, rank 0..7 is 1..8. */
  function FileOf(i: int): int { Col(i) - 1 }
  function RankOf(i: int): int { 9 - Row(i) }

  function Abs(x: int): nat { if x < 0 then -x else x }

  predicate IsKnightJump(from: int, to: int) {
    var df, dr := Abs(FileOf(to) - FileOf(from)), Abs(RankOf(to) - RankOf(from));
    (df == 1 && dr == 2) || (df == 2 && dr == 1)
  }

  predicate IsKingStep(from: int, to: int) {
    var df, dr := Abs(FileOf(to) - FileOf(from)), Abs(RankOf(to) - RankOf(from));
    df <= 1 && dr <= 1 && from != to
  }

  /** The piece types are the integers 1..6, in the order pawn < knight < ... < king. */
  lemma PieceTypesAreOneToSix()
    ensures PAWN == 1 && KING == 6
    ensures PAWN < KNIGHT < BISHOP < ROOK < QUEEN < KING
  {
  }

  /** `PIECE_VALUES[t]` is the material value of piece type `t`; no piece is worth 0. */
  lemma PieceValuesByType()
    ensures |PIECE_VALUES| == KING + 1
    ensures PIECE_VALUES[0] == 0
    ensures PIECE_VALUES[PAWN] == 1 && PIECE_VALUES[KNIGHT] == 3 && PIECE_VALUES[BISHOP] == 3
    ensures PIECE_VALUES[ROOK] == 5 && PIECE_VALUES[QUEEN] == 9 && PIECE_VALUES[KING] == 10
    ensures forall t :: PAWN <= t < KING ==> PIECE_VALUES[t] < PIECE_VALUES[KING]
  {
  }

  /** `PIECES` lists every piece type exactly once, ascending; the one-letter aliases are the types. */
  lemma PiecesEnumeratesTypes()
    ensures |PIECES| == 6
    ensures forall i :: 0 <= i < |PIECES| ==> PIECES[i] == i + 1
    ensures forall t :: t in PIECES <==> PAWN <= t <= KING
    ensures P == PAWN && N == KNIGHT && B == BISHOP && R == ROOK && Q == QUEEN && K == KING
  {
  }

  /** Eight distinct knight offsets, closed under negation, and exactly the
      offsets of one column and two rows or two columns and one row. */
  lemma KnightDirectionsShape()
    ensures |KNIGHT_DIRECTIONS| == 8
    ensures forall i, j :: 0 <= i < j < 8 ==> KNIGHT_DIRECTIONS[i] != KNIGHT_DIRECTIONS[j]
    ensures forall d :: d in KNIGHT_DIRECTIONS ==> -d in KNIGHT_DIRECTIONS
    ensures forall dr, dc ::
      ((Abs(dr) == 1 && Abs(dc) == 2) || (Abs(dr) == 2 && Abs(dc) == 1)) ==> Offset(dr, dc) in KNIGHT_DIRECTIONS
  {
  }

  /** Eight distinct king offsets, closed under negation: exactly the eight neighbours. */
  lemma KingDirectionsShape()
    ensures |KING_DIRECTIONS| == 8
    ensures forall i, j :: 0 <= i < j < 8 ==> KING_DIRECTIONS[i] != KING_DIRECTIONS[j]
    ensures forall d :: d in KING_DIRECTIONS ==> -d in KING_DIRECTIONS
    ensures forall dr, dc ::
      Abs(dr) <= 1 && Abs(dc) <= 1 && (dr, dc) != (0, 0) ==> Offset(dr, dc) in KING_DIRECTIONS
  {
  }

  /** A step of at most two rows and two columns (not two of each) from a
      playable square stays inside the grid; it lands on a playable square
      exactly when the row and column it aims at are playable, and then on
      that very row and column: nothing wraps around an edge. */
  lemma {:induction false} StepGeometry(s: int, dr: int, dc: int)
    requires OnBoard(s)
    requires Abs(dr) <= 2 && Abs(dc) <= 2 && !(Abs(dr) == 2 && Abs(dc) == 2)
    ensures 0 <= s + Offset(dr, dc) < CELL_COUNT
    ensures OnBoard(s + Offset(dr, dc)) <==> 2 <= Row(s) + dr <= 9 && 1 <= Col(s) + dc <= 8
    ensures OnBoard(s + Offset(dr, dc)) ==>
      Row(s + Offset(dr, dc)) == Row(s) + dr && Col(s + Offset(dr, dc)) == Col(s) + dc
  {
    var r, c := Row(s), Col(s);
    var t := s + Offset(dr, dc);
    assert s == WIDTH * r + c;
    assert t == WIDTH * (r + dr) + (c + dc);
    if 0 <= c + dc <= 9 {
      assert Row(t) == r + dr && Col(t) == c + dc;
    } else if c + dc < 0 {
      assert t == WIDTH * (r + dr - 1) + (c + dc + WIDTH);
      assert Col(t) == c + dc + WIDTH;
    } else {
      assert t == WIDTH * (r + dr + 1) + (c + dc - WIDTH);
      assert Col(t) == c + dc - WIDTH;
    }
  }

  /** From every playable square, every knight offset stays in the grid and
      lands either on a sentinel cell or on a square a knight's jump away;
      conversely every knight's jump between playable squares is one of the offsets. */
  lemma KnightMovesStayOnGrid()
    ensures forall s, k :: OnBoard(s) && 0 <= k < 8 ==>
      var t := s + KNIGHT_DIRECTIONS[k];
      0 <= t < CELL_COUNT && (IsSentinelCell(t) || IsKnightJump(s, t))
    ensures forall s, t :: OnBoard(s) && OnBoard(t) && IsKnightJump(s, t) ==> t - s in KNIGHT_DIRECTIONS
  {
    forall s, k | OnBoard(s) && 0 <= k < 8
      ensures var t := s + KNIGHT_DIRECTIONS[k];
        0 <= t < CELL_COUNT && (IsSentinelCell(t) || IsKnightJump(s, t))
    {
      var (dr, dc) := KnightRowCol(k);
      StepGeometry(s, dr, dc);
    }
    forall s, t | OnBoard(s) && OnBoard(t) && IsKnightJump(s, t)
      ensures t - s in KNIGHT_DIRECTIONS
    {
      var dr, dc := Row(t) - Row(s), Col(t) - Col(s);
      assert t - s == Offset(dr, dc);
      KnightDirectionsShape();
    }
  }

  /** From every playable square, every king offset stays in the grid and
      lands either on a sentinel cell or on a neighbouring square; conversely
      every neighbour of a playable square is reached by one of the offsets. */
  lemma KingMovesStayOnGrid()
    ensures forall s, k :: OnBoard(s) && 0 <= k < 8 ==>
      var t := s + KING_DIRECTIONS[k];
      0 <= t < CELL_COUNT && (IsSentinelCell(t) || IsKingStep(s, t))
    ensures forall s, t :: OnBoard(s) && OnBoard(t) && IsKingStep(s, t) ==> t - s in KING_DIRECTIONS
  {
    forall s, k | OnBoard(s) && 0 <= k < 8
      ensures var t := s + KING_DIRECTIONS[k];
        0 <= t < CELL_COUNT && (IsSentinelCell(t) || IsKingStep(s, t))
    {
      var (dr, dc) := KingRowCol(k);
      StepGeometry(s, dr, dc);
    }
    forall s, t | OnBoard(s) && OnBoard(t) && IsKingStep(s, t)
      ensures t - s in KING_DIRECTIONS
    {
      var dr, dc := Row(t) - Row(s), Col(t) - Col(s);
      assert t - s == Offset(dr, dc);
      KingDirectionsShape();
    }
  }

  /** The row and column steps that make up the `k`-th knight offset. */
  function KnightRowCol(k: int): (rc: (int, int))
    requires 0 <= k < 8
    ensures Offset(rc.0, rc.1) == KNIGHT_DIRECTIONS[k]
    ensures (Abs(rc.0) == 2 && Abs(rc.1) == 1) || (Abs(rc.0) == 1 && Abs(rc.1) == 2)
  {
    [(2, 1), (2, -1), (1, 2), (1, -2), (-1, -2), (-2, -1), (-2, 1), (-1, 2)][k]
  }

  /** The row and column steps that make up the `k`-th king offset. */
  function KingRowCol(k: int): (rc: (int, int))
    requires 0 <= k < 8
    ensures Offset(rc.0, rc.1) == KING_DIRECTIONS[k]
    ensures Abs(rc.0) <= 1 && Abs(rc.1) <= 1 && rc != (0, 0)
  {
    [(0, 1), (1, 0), (0, -1), (-1, 0), (1, -1), (1, 1), (-1, 1), (-1, -1)][k]
  }
}
