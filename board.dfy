/** The mutable position: a bordered grid of 120 cells plus the move clocks,
    the castling state flags and the en-passant target, together with the two
    mutations the FEN exporter's scenarios drive (marking an en-passant
    opportunity and applying an encoded pawn double push). */
module Board {
  import opened Pieces

  /** Value of a sentinel cell (`__`): outside the piece domain -6..6. */
  const BORDER: int := 7

  /** The six "moved" bits of the state flags; a set bit voids a castling right. */
  const WHITE_KING_MOVED: int := 1
  const WHITE_LEFT_ROOK_MOVED: int := 2
  const WHITE_RIGHT_ROOK_MOVED: int := 4
  const BLACK_KING_MOVED: int := 8
  const BLACK_LEFT_ROOK_MOVED: int := 16
  const BLACK_RIGHT_ROOK_MOVED: int := 32

  /** Number of distinct state-flag masks (six bits). */
  const FLAG_MASKS: int := 64

  /** First pawn start square of each side: black pawns start on 31..38 (rank 7),
      white pawns on 81..88 (rank 2). */
  const BLACK_PAWNS_BASE: int := 31
  const WHITE_PAWNS_BASE: int := 81

  /** Number of en-passant slots: one per file and side. */
  const EN_PASSANT_SLOTS: int := 16

  /** Whether bit `bit` (a power of two) is set in the non-negative mask `flags`. */
  predicate IsSet(flags: int, bit: int)
    requires bit > 0
  {
    (flags / bit) % 2 == 1
  }

  /** The en-passant state: no opportunity, or the slot of the pawn that just
      advanced two ranks (0..7 for black files a..h, 8..15 for white files a..h). */
  datatype EnPassant = NoEnPassant | EnPassantSlot(slot: nat)

  /** A snapshot of every observable field of a board. */
  datatype Position = Position(
    cells: seq<int>,
    halfMoveClock: int,
    halfMoveCount: int,
    stateFlags: int,
    enPassant: EnPassant)

  predicate IsPieceValue(v: int) { -KING <= v <= KING }

  /** The board invariant: 120 cells, sentinels exactly outside the playable
      area, piece values inside it, non-negative clocks, a six-bit flag mask and
      an en-passant slot below 16. */
  predicate WellFormed(p: Position) {
    && |p.cells| == CELL_COUNT
    && (forall i :: 0 <= i < CELL_COUNT ==>
          if OnBoard(i) then IsPieceValue(p.cells[i]) else p.cells[i] == BORDER)
    && p.halfMoveClock >= 0
    && p.halfMoveCount >= 0
    && 0 <= p.stateFlags < FLAG_MASKS
    && (p.enPassant.EnPassantSlot? ==> p.enPassant.slot < EN_PASSANT_SLOTS)
  }

  /** The position described by the 123 constructor values: 120 cells, then the
      half-move clock, the half-move count and the state flags. */
  function FromItems(items: seq<int>): (p: Position)
    requires |items| == CELL_COUNT + 3
    ensures p.cells == items[..CELL_COUNT] && p.enPassant == NoEnPassant
    ensures p.halfMoveClock == items[120] && p.halfMoveCount == items[121] && p.stateFlags == items[122]
  {
    Position(items[..CELL_COUNT], items[CELL_COUNT], items[CELL_COUNT + 1], items[CELL_COUNT + 2], NoEnPassant)
  }

  /** White is to move when an even number of half moves has been played. */
  predicate WhiteToMove(p: Position) { p.halfMoveCount % 2 == 0 }

  /** The start square of a pawn that may advance two ranks. */
  predicate IsPawnStart(square: int) {
    BLACK_PAWNS_BASE <= square < BLACK_PAWNS_BASE + 8 || WHITE_PAWNS_BASE <= square < WHITE_PAWNS_BASE + 8
  }

  /** The en-passant slot of a pawn start square. */
  function SlotOf(start: int): (slot: nat)
    requires IsPawnStart(start)
    ensures slot < EN_PASSANT_SLOTS
    ensures slot % 8 == FileOf(start)
    ensures slot < 8 <==> start < WHITE_PAWNS_BASE
  {
    if start >= WHITE_PAWNS_BASE then start - WHITE_PAWNS_BASE + 8 else start - BLACK_PAWNS_BASE
  }

  /** The square a slot's pawn passed over: rank 6 for black slots, rank 3 for white ones. */
  function TargetOf(slot: nat): (square: int)
    requires slot < EN_PASSANT_SLOTS
    ensures OnBoard(square)
    ensures FileOf(square) == slot % 8
    ensures RankOf(square) == if slot < 8 then 5 else 2
  {
    if slot < 8 then BLACK_PAWNS_BASE + WIDTH + slot else WHITE_PAWNS_BASE - WIDTH + slot - 8
  }

  /** The square directly ahead of a pawn start square, seen from the pawn's side. */
  function Ahead(start: int): int
    requires IsPawnStart(start)
  {
    if start >= WHITE_PAWNS_BASE then start - WIDTH else start + WIDTH
  }

  /** The square two ranks ahead of a pawn start square: where a double push ends. */
  function TwoAhead(start: int): int
    requires IsPawnStart(start)
  {
    if start >= WHITE_PAWNS_BASE then start - 2 * WIDTH else start + 2 * WIDTH
  }

  /** The recorded target is always the square one rank ahead of the pushing
      pawn's start square, and distinct start squares get distinct slots. */
  lemma {:induction false} TargetIsSquareAhead(start: int)
    requires IsPawnStart(start)
    ensures TargetOf(SlotOf(start)) == Ahead(start)
    ensures forall other :: IsPawnStart(other) && SlotOf(other) == SlotOf(start) ==> other == start
  {
  }

  /** The position after `setEnPassantPossible(start)`: only the en-passant field changes. */
  function WithEnPassant(p: Position, start: int): (q: Position)
    requires IsPawnStart(start)
    ensures q.cells == p.cells && q.halfMoveClock == p.halfMoveClock
    ensures q.halfMoveCount == p.halfMoveCount && q.stateFlags == p.stateFlags
    ensures q.enPassant.EnPassantSlot? && q.enPassant.slot < EN_PASSANT_SLOTS
    ensures TargetOf(q.enPassant.slot) == Ahead(start)
  {
    TargetIsSquareAhead(start);
    p.(enPassant := EnPassantSlot(SlotOf(start)))
  }

  // ----- Encoded moves -----

  /** The packer's outcome: the move, or a field that does not fit its bit width. */
  datatype Encoded = Encoded(move: nat) | EncodingRangeError

  /** Packs a piece type (3 bits), a start square (7 bits) and an end square (7 bits). */
  function EncodeMove(piece: int, start: int, end: int): (e: Encoded)
    ensures e.Encoded? <==> 0 <= piece < 8 && 0 <= start < 128 && 0 <= end < 128
  {
    if 0 <= piece < 8 && 0 <= start < 128 && 0 <= end < 128
    then Encoded(piece + 8 * start + 1024 * end)
    else EncodingRangeError
  }

  /** Unpacks a move into its piece type, start square and end square. */
  function DecodeMove(move: nat): (fields: (int, int, int))
    ensures 0 <= fields.0 < 8 && 0 <= fields.1 < 128 && 0 <= fields.2 < 128
  {
    (move % 8, (move / 8) % 128, (move / 1024) % 128)
  }

  /** Unpacking recovers exactly what was packed. */
  lemma {:induction false} DecodeEncode(piece: int, start: int, end: int)
    requires 0 <= piece < 8 && 0 <= start < 128 && 0 <= end < 128
    ensures EncodeMove(piece, start, end).Encoded?
    ensures DecodeMove(EncodeMove(piece, start, end).move) == (piece, start, end)
  {
    var m := piece + 8 * start + 1024 * end;
    assert m == piece + 8 * (start + 128 * end);
    assert m % 8 == piece && m / 8 == start + 128 * end;
    assert m / 1024 == (m / 8) / 128 == end;
  }

  /** Every 17-bit code is the packing of what it unpacks to, so packing is a
      bijection between the in-range moves and the codes below 2^17. */
  lemma {:induction false} EncodeDecode(move: nat)
    requires move < 131072
    ensures var (piece, start, end) := DecodeMove(move);
      EncodeMove(piece, start, end) == Encoded(move)
  {
    var (piece, start, end) := DecodeMove(move);
    assert move == piece + 8 * (move / 8);
    assert move / 8 == start + 128 * (move / 1024);
    assert move / 1024 == end;
  }

  /** Packing is injective: distinct moves get distinct codes. */
  lemma {:induction false} EncodeInjective(p1: int, s1: int, e1: int, p2: int, s2: int, e2: int)
    requires EncodeMove(p1, s1, e1).Encoded? && EncodeMove(p2, s2, e2).Encoded?
    requires EncodeMove(p1, s1, e1) == EncodeMove(p2, s2, e2)
    ensures p1 == p2 && s1 == s2 && e1 == e2
  {
    DecodeEncode(p1, s1, e1);
    DecodeEncode(p2, s2, e2);
  }

  /** A pawn double push of the side to move from its start square onto an
      empty square two ranks ahead. */
  predicate IsDoublePush(p: Position, piece: int, start: int, end: int)
    requires WellFormed(p)
  {
    && piece == PAWN
    && IsPawnStart(start)
    && end == TwoAhead(start)
    && 0 <= end < CELL_COUNT
    && p.cells[start] == (if WhiteToMove(p) then PAWN else -PAWN)
    && (start >= WHITE_PAWNS_BASE <==> WhiteToMove(p))
    && p.cells[end] == 0
  }

  /** A double push moves a pawn of the side to move straight up its file by
      two ranks: from rank 2 to rank 4 for White, from rank 7 to rank 5 for Black. */
  lemma DoublePushGeometry(p: Position, piece: int, start: int, end: int)
    requires WellFormed(p) && IsDoublePush(p, piece, start, end)
    ensures OnBoard(start) && OnBoard(end) && FileOf(end) == FileOf(start)
    ensures WhiteToMove(p) ==> RankOf(start) == 1 && RankOf(end) == 3
    ensures !WhiteToMove(p) ==> RankOf(start) == 6 && RankOf(end) == 4
  {
  }

  /** The position after a pawn double push: the pawn moves, its start square
      empties, the clock resets (pawn move), the half-move count advances, the
      castling flags stay and the en-passant target is the square passed over. */
  function DoublePush(p: Position, start: int, end: int): (q: Position)
    requires WellFormed(p) && IsDoublePush(p, PAWN, start, end)
    ensures WellFormed(q)
  {
    var q := Position(p.cells[start := 0][end := p.cells[start]], 0, p.halfMoveCount + 1, p.stateFlags,
                      EnPassantSlot(SlotOf(start)));
    assert forall i :: 0 <= i < CELL_COUNT ==> q.cells[i] == if i == end then p.cells[start] else if i == start then 0 else p.cells[i];
    q
  }

  /** What a double push does to each field of the position. */
  lemma {:induction false} DoublePushEffect(p: Position, start: int, end: int)
    requires WellFormed(p) && IsDoublePush(p, PAWN, start, end)
    ensures var q := DoublePush(p, start, end);
      && q.cells[end] == p.cells[start] && q.cells[start] == 0
      && (forall i :: 0 <= i < CELL_COUNT && i != start && i != end ==> q.cells[i] == p.cells[i])
      && WhiteToMove(q) == !WhiteToMove(p)
      && q.halfMoveClock == 0
      && q.halfMoveCount / 2 + 1 == (if WhiteToMove(p) then p.halfMoveCount / 2 + 1 else p.halfMoveCount / 2 + 2)
      && q.stateFlags == p.stateFlags
      && q.enPassant.EnPassantSlot? && q.enPassant.slot < EN_PASSANT_SLOTS
      && TargetOf(q.enPassant.slot) == Ahead(start)
  {
    TargetIsSquareAhead(start);
  }

  /** The board object: a 120-cell array and the metadata fields, updated in place. */
  class Board {
    var squares: array<int>
    var halfMoveClock: int
    var halfMoveCount: int
    var stateFlags: int
    var enPassant: EnPassant

    /** The observable state of the board as a value. */
    function State(): Position
      reads this, squares
    {
      Position(squares[..], halfMoveClock, halfMoveCount, stateFlags, enPassant)
    }

    ghost predicate Valid()
      reads this, squares
    {
      WellFormed(State())
    }

    /** Builds a board from 120 cells followed by the half-move clock, the
        half-move count and the state flags; no en-passant opportunity. */
    constructor (items: seq<int>)
      requires |items| == CELL_COUNT + 3 && WellFormed(FromItems(items))
      ensures Valid() && fresh(squares)
      ensures State() == FromItems(items)
    {
      squares := new int[CELL_COUNT](i requires 0 <= i < CELL_COUNT => items[i]);
      halfMoveClock := items[CELL_COUNT];
      halfMoveCount := items[CELL_COUNT + 1];
      stateFlags := items[CELL_COUNT + 2];
      enPassant := NoEnPassant;
      new;
      assert squares[..] == items[..CELL_COUNT];
    }

    /** Records that the pawn that started on `start` has just advanced two ranks. */
    method SetEnPassantPossible(start: int)
      requires Valid() && IsPawnStart(start)
      modifies this
      ensures Valid() && squares == old(squares)
      ensures State() == WithEnPassant(old(State()), start)
    {
      enPassant := EnPassantSlot(SlotOf(start));
    }

    /** Applies an encoded pawn double push of the side to move. */
    method PerformEncodedMove(move: nat)
      requires Valid()
      requires var (piece, start, end) := DecodeMove(move); IsDoublePush(State(), piece, start, end)
      modifies this, squares
      ensures Valid() && squares == old(squares)
      ensures var (_, start, end) := DecodeMove(move); State() == DoublePush(old(State()), start, end)
    {
      var (_, start, end) := DecodeMove(move);
      var pawn := squares[start];
      squares[start] := 0;
      squares[end] := pawn;
      halfMoveClock := 0;
      halfMoveCount := halfMoveCount + 1;
      SetEnPassantPossible(start);
    }
  }
}
