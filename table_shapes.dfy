/** How the sizes of the Zobrist tables match the positions of the board
    model: the piece/square table has one entry per piece value and playable
    square, the en-passant table one per slot and the castling table one per
    state-flags mask. The tables themselves know nothing of the board; this
    module relates the two. */
module TableShapes {
  import opened Pieces
  import opened Board
  import opened Zobrist

  /** The playable squares, rank 8 first and file a first within a rank. */
  function PlayableSquares(): (squares: seq<int>)
    ensures |squares| == 8 * 8
  {
    seq(64, k requires 0 <= k < 64 => WIDTH * (k / 8 + 2) + k % 8 + 1)
  }

  /** The piece values, from the black king to the white king. */
  function PieceValues(): (values: seq<int>)
    ensures |values| == 2 * KING + 1
  {
    seq(2 * KING + 1, k requires 0 <= k < 2 * KING + 1 => k - KING)
  }

  /** No element occurs twice. */
  predicate Distinct(s: seq<int>) {
    forall j, k :: 0 <= j < k < |s| ==> s[j] != s[k]
  }

  /** A list without repetitions has as many distinct elements as entries. */
  lemma {:induction false} DistinctCount(s: seq<int>)
    requires Distinct(s)
    ensures |set x | x in s| == |s|
  {
    if |s| > 0 {
      var init := s[..|s| - 1];
      DistinctCount(init);
      assert (set x | x in s) == (set x | x in init) + {s[|s| - 1]};
      assert s[|s| - 1] !in (set x | x in init);
    }
  }

  /** `PlayableSquares` lists each playable square exactly once and nothing else. */
  lemma PlayableSquaresExact()
    ensures Distinct(PlayableSquares())
    ensures forall i :: OnBoard(i) <==> i in PlayableSquares()
  {
    var squares := PlayableSquares();
    forall i | OnBoard(i) ensures i in squares {
      var k := 8 * (Row(i) - 2) + Col(i) - 1;
      assert squares[k] == i;
    }
  }

  /** `PieceValues` lists each piece value exactly once and nothing else. */
  lemma PieceValuesExact()
    ensures Distinct(PieceValues())
    ensures forall v :: IsPieceValue(v) <==> v in PieceValues()
  {
    var values := PieceValues();
    forall v | IsPieceValue(v) ensures v in values {
      assert values[v + KING] == v;
    }
  }

  /** The playable squares of the 120-cell grid. */
  ghost function PlayableSet(): set<int> {
    set i | 0 <= i < CELL_COUNT && OnBoard(i)
  }

  /** The piece values, as a set; the bound only makes the comprehension finite. */
  ghost function PieceValueSet(): set<int> {
    set v | -KING <= v <= KING && IsPieceValue(v)
  }

  /** There are 64 playable squares and 13 piece values, so the piece/square
      table has exactly one entry per pair of a piece value and a square. */
  lemma PieceTableShape()
    ensures |PlayableSet()| == 64 && |PieceValueSet()| == 13
    ensures PIECE_RNG_COUNT == |PieceValueSet()| * |PlayableSet()|
  {
    PlayableSquaresExact();
    DistinctCount(PlayableSquares());
    assert PlayableSet() == (set x | x in PlayableSquares());
    PieceValuesExact();
    DistinctCount(PieceValues());
    assert PieceValueSet() == (set x | x in PieceValues());
  }

  /** The state-flags mask recording which kings and rooks have moved. */
  function MovedMask(wk: bool, wlr: bool, wrr: bool, bk: bool, blr: bool, brr: bool): int {
    (if wk then WHITE_KING_MOVED else 0) + (if wlr then WHITE_LEFT_ROOK_MOVED else 0) +
    (if wrr then WHITE_RIGHT_ROOK_MOVED else 0) + (if bk then BLACK_KING_MOVED else 0) +
    (if blr then BLACK_LEFT_ROOK_MOVED else 0) + (if brr then BLACK_RIGHT_ROOK_MOVED else 0)
  }

  /** Any combination of the six "moved" bits indexes the castling table and
      keeps each bit readable on its own. */
  lemma MovedMaskIndexesCastling(wk: bool, wlr: bool, wrr: bool, bk: bool, blr: bool, brr: bool)
    ensures 0 <= MovedMask(wk, wlr, wrr, bk, blr, brr) < CASTLING_RNG_COUNT
    ensures var mask := MovedMask(wk, wlr, wrr, bk, blr, brr);
      && IsSet(mask, WHITE_KING_MOVED) == wk && IsSet(mask, WHITE_LEFT_ROOK_MOVED) == wlr
      && IsSet(mask, WHITE_RIGHT_ROOK_MOVED) == wrr && IsSet(mask, BLACK_KING_MOVED) == bk
      && IsSet(mask, BLACK_LEFT_ROOK_MOVED) == blr && IsSet(mask, BLACK_RIGHT_ROOK_MOVED) == brr
  {
  }

  /** Every state-flags value of a well-formed position indexes the castling
      table, and every en-passant slot indexes the en-passant table. */
  lemma TablesCoverPositions(p: Position)
    requires WellFormed(p)
    ensures 0 <= p.stateFlags < CASTLING_RNG_COUNT
    ensures p.enPassant.EnPassantSlot? ==> p.enPassant.slot < EN_PASSANT_RNG_COUNT
  {
  }
}
