/** Export of a board position as a Forsyth-Edwards Notation record (section
    16.1 of the PGN Standard): six fields separated by single spaces, namely
    piece placement, active colour, castling availability, en-passant target,
    half-move clock and full-move number.

    What each field means is stated in module FenRead, which reads every
    field back and proves that the reader recovers the board data. */
module Fen {
  import opened Pieces
  import opened Board

  // ----- Characters -----

  function DigitChar(n: int): char
    requires 0 <= n <= 9
  {
    ('0' as int + n) as char
  }

  predicate IsDigit(c: char) { '0' <= c <= '9' }

  function DigitValue(c: char): int
    requires IsDigit(c)
  {
    c as int - '0' as int
  }

  /** The letter of a piece: upper case for white (positive), lower case for black (negative). */
  function PieceLetter(v: int): char
    requires v != 0 && IsPieceValue(v)
  {
    if v > 0 then "PNBRQK"[v - 1] else "pnbrqk"[-v - 1]
  }

  predicate IsPieceLetter(c: char) {
    c == 'P' || c == 'N' || c == 'B' || c == 'R' || c == 'Q' || c == 'K' ||
    c == 'p' || c == 'n' || c == 'b' || c == 'r' || c == 'q' || c == 'k'
  }

  /** The parts written one after another with `sep` between neighbours. */
  function Join(parts: seq<string>, sep: char): string
    requires |parts| > 0
  {
    if |parts| == 1 then parts[0] else Join(parts[..|parts| - 1], sep) + [sep] + parts[|parts| - 1]
  }

  /** A join of two or more parts opens with the first part and a separator. */
  lemma {:induction false} JoinBegins(parts: seq<string>, sep: char)
    requires |parts| > 1
    ensures parts[0] + [sep] <= Join(parts, sep)
    decreases |parts|
  {
    var init := parts[..|parts| - 1];
    if |parts| > 2 {
      JoinBegins(init, sep);
    }
    assert init[0] == parts[0];
  }

  // ----- Piece placement -----

  /** The cells of the grid hold piece values on every playable square. */
  predicate PlayableCells(cells: seq<int>) {
    |cells| == CELL_COUNT && forall i :: 0 <= i < CELL_COUNT && OnBoard(i) ==> IsPieceValue(cells[i])
  }

  /** Eight piece values: the squares of one rank, files a..h (written out
      square by square, so that a literal rank is checked without a quantifier). */
  predicate IsRank(rank: seq<int>) {
    && |rank| == 8
    && IsPieceValue(rank[0]) && IsPieceValue(rank[1]) && IsPieceValue(rank[2]) && IsPieceValue(rank[3])
    && IsPieceValue(rank[4]) && IsPieceValue(rank[5]) && IsPieceValue(rank[6]) && IsPieceValue(rank[7])
  }

  /** Every square of a rank holds a piece value. */
  lemma RankSquares(rank: seq<int>)
    requires IsRank(rank)
    ensures forall c :: 0 <= c < 8 ==> IsPieceValue(rank[c])
  {
  }

  /** The playable cells of grid row `row` (columns 1..8). */
  function GridRow(cells: seq<int>, row: int): (rank: seq<int>)
    requires PlayableCells(cells) && 2 <= row <= 9
    ensures IsRank(rank)
    ensures forall c :: 0 <= c < 8 ==> rank[c] == cells[WIDTH * row + 1 + c]
  {
    assert forall i :: WIDTH * row + 1 <= i < WIDTH * row + 9 ==> OnBoard(i);
    cells[WIDTH * row + 1 .. WIDTH * row + 9]
  }

  /** Writing one playable cell changes only the rank of that cell's row, and
      in that rank only the file of that cell. */
  lemma {:induction false} GridRowUpdate(cells: seq<int>, i: int, v: int, row: int)
    requires PlayableCells(cells) && OnBoard(i) && IsPieceValue(v) && 2 <= row <= 9
    ensures PlayableCells(cells[i := v])
    ensures GridRow(cells[i := v], row) ==
      if Row(i) == row then GridRow(cells, row)[Col(i) - 1 := v] else GridRow(cells, row)
  {
    var after := cells[i := v];
    assert PlayableCells(after);
    assert i == WIDTH * Row(i) + 1 + (Col(i) - 1);
    forall c | 0 <= c < 8
      ensures GridRow(after, row)[c] == if Row(i) == row && c == Col(i) - 1 then v else GridRow(cells, row)[c]
    {
      var j := WIDTH * row + 1 + c;
      assert j == i <==> Row(i) == row && c == Col(i) - 1;
    }
  }

  /** The digit for `run` pending empty squares, or nothing when there are none. */
  function EmptyRun(run: nat): string
    requires run <= 8
  {
    if run == 0 then "" else [DigitChar(run)]
  }

  /** The text of a rank from index `col` on, with `run` empty squares to the
      left of `col` not yet written. */
  function RankFrom(rank: seq<int>, col: nat, run: nat): string
    requires IsRank(rank) && col <= 8 && run <= col
    decreases 8 - col
  {
    if col == 8 then EmptyRun(run)
    else if rank[col] == 0 then RankFrom(rank, col + 1, run + 1)
    else EmptyRun(run) + [PieceLetter(rank[col])] + RankFrom(rank, col + 1, 0)
  }

  /** The text of one rank: each piece as its letter, each maximal run of empty squares as one digit. */
  function RankText(rank: seq<int>): (text: string)
    requires IsRank(rank)
    ensures 1 <= |text| <= 8
  {
    RankFromLength(rank, 0, 0);
    RankFrom(rank, 0, 0)
  }

  /** The text of a rank from file `col` on has at most one character per
      remaining square, plus one for a pending run. */
  lemma {:induction false} RankFromLength(rank: seq<int>, col: nat, run: nat)
    requires IsRank(rank) && col <= 8 && run <= col
    ensures run > 0 || col < 8 ==> |RankFrom(rank, col, run)| >= 1
    ensures |RankFrom(rank, col, run)| <= (if run > 0 then 1 else 0) + 8 - col
    decreases 8 - col
  {
    if col < 8 {
      if rank[col] == 0 {
        RankFromLength(rank, col + 1, run + 1);
      } else {
        RankFromLength(rank, col + 1, 0);
      }
    }
  }

  /** The texts of the eight ranks, rank 8 (grid row 2) first. */
  function RankTexts(cells: seq<int>): (texts: seq<string>)
    requires PlayableCells(cells)
    ensures |texts| == 8
  {
    seq(8, k requires 0 <= k < 8 => RankText(GridRow(cells, k + 2)))
  }

  /** The piece-placement field: the rank texts, rank 8 to rank 1, separated by '/'. */
  function Placement(cells: seq<int>): string
    requires PlayableCells(cells)
  {
    Join(RankTexts(cells), '/')
  }

  // ----- Active colour -----

  function ActiveColor(p: Position): (color: string)
    ensures color == "w" || color == "b"
    ensures color == "w" <==> p.halfMoveCount % 2 == 0
  {
    if WhiteToMove(p) then "w" else "b"
  }

  // ----- Castling availability -----

  predicate WhiteKingside(flags: int) { !IsSet(flags, WHITE_KING_MOVED) && !IsSet(flags, WHITE_RIGHT_ROOK_MOVED) }
  predicate WhiteQueenside(flags: int) { !IsSet(flags, WHITE_KING_MOVED) && !IsSet(flags, WHITE_LEFT_ROOK_MOVED) }
  predicate BlackKingside(flags: int) { !IsSet(flags, BLACK_KING_MOVED) && !IsSet(flags, BLACK_RIGHT_ROOK_MOVED) }
  predicate BlackQueenside(flags: int) { !IsSet(flags, BLACK_KING_MOVED) && !IsSet(flags, BLACK_LEFT_ROOK_MOVED) }

  function CastlingField(flags: int): (field: string)
    ensures 1 <= |field| <= 4
  {
    var rights :=
      (if WhiteKingside(flags) then "K" else "") + (if WhiteQueenside(flags) then "Q" else "") +
      (if BlackKingside(flags) then "k" else "") + (if BlackQueenside(flags) then "q" else "");
    if rights == "" then "-" else rights
  }

  // ----- En-passant target -----

  /** Algebraic name of a playable square: file letter then rank digit. */
  function SquareName(square: int): string
    requires OnBoard(square)
  {
    ["abcdefgh"[FileOf(square)], "12345678"[RankOf(square)]]
  }

  function EnPassantField(ep: EnPassant): (field: string)
    requires ep.EnPassantSlot? ==> ep.slot < EN_PASSANT_SLOTS
    ensures field == "-" <==> ep.NoEnPassant?
    ensures |field| == if ep.NoEnPassant? then 1 else 2
  {
    match ep
    case NoEnPassant => "-"
    case EnPassantSlot(slot) => SquareName(TargetOf(slot))
  }

  // ----- Numbers -----

  /** Decimal digits of a natural number, most significant first, no leading zero. */
  function Decimal(n: nat): (digits: string)
    ensures |digits| >= 1 && forall i :: 0 <= i < |digits| ==> IsDigit(digits[i])
    ensures digits[0] == '0' ==> n == 0
    decreases n
  {
    if n < 10 then [DigitChar(n)] else Decimal(n / 10) + [DigitChar(n % 10)]
  }

  // ----- The record -----

  /** The six fields of the record, in order. */
  function Fields(p: Position): (fields: seq<string>)
    requires WellFormed(p)
    ensures |fields| == 6
  {
    [Placement(p.cells), ActiveColor(p), CastlingField(p.stateFlags), EnPassantField(p.enPassant),
     Decimal(p.halfMoveClock), Decimal(p.halfMoveCount / 2 + 1)]
  }

  /** A join of two or more parts closes with a separator and the last part. */
  lemma JoinEnds(parts: seq<string>, sep: char)
    requires |parts| > 1
    ensures var joined, last := Join(parts, sep), parts[|parts| - 1];
      |last| < |joined| && joined[|joined| - |last| - 1..] == [sep] + last
  {
    var head := Join(parts[..|parts| - 1], sep);
    var last := parts[|parts| - 1];
    assert Join(parts, sep) == head + ([sep] + last);
  }

  /** The six-field FEN record of a position: it opens with the placement
      field, set off by a space. */
  function ToFEN(p: Position): (record: string)
    requires WellFormed(p)
    ensures Placement(p.cells) + " " <= record
  {
    var fields := Fields(p);
    JoinBegins(fields, ' ');
    Join(fields, ' ')
  }

  /** The record closes with the full-move number, set off by a space. */
  lemma ToFENEndsWithFullMove(p: Position)
    requires WellFormed(p)
    ensures var record, full := ToFEN(p), Decimal(p.halfMoveCount / 2 + 1);
      |full| < |record| && record[|record| - |full| - 1..] == " " + full
  {
    JoinEnds(Fields(p), ' ');
  }
}
