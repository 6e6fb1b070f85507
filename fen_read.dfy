/** Readers for the fields of a FEN record, one per field of the exporter in
    module Fen. Each reader undoes its field: the lemmas below prove that
    reading back what the exporter wrote recovers the board data, which is
    what the six fields of section 16.1.3 of the PGN Standard mean. The last
    lemma puts them together: two positions with the same record agree on
    every square, both move counters, the castling rights and the en-passant
    target. */
module FenRead {
  import opened Pieces
  import opened Board
  import opened Fen

  // ----- Separators -----

  /** The index of the last `sep` in `s`. */
  function LastSep(s: string, sep: char): (i: nat)
    requires sep in s
    ensures i < |s| && s[i] == sep
    ensures forall j :: i < j < |s| ==> s[j] != sep
    decreases |s|
  {
    var last := |s| - 1;
    if s[last] == sep then last
    else
      assert s == s[..last] + [s[last]];
      LastSep(s[..last], sep)
  }

  /** The text cut at every `sep`: the pieces between separators, in order. */
  function Split(s: string, sep: char): (parts: seq<string>)
    ensures |parts| > 0
    decreases |s|
  {
    if sep !in s then [s]
    else
      var i := LastSep(s, sep);
      Split(s[..i], sep) + [s[i + 1..]]
  }

  /** Cutting a joined text at its separators gives back the parts, provided
      no part contains the separator. */
  lemma {:induction false} SplitJoin(parts: seq<string>, sep: char)
    requires |parts| > 0 && forall k :: 0 <= k < |parts| ==> sep !in parts[k]
    ensures Split(Join(parts, sep), sep) == parts
    decreases |parts|
  {
    if |parts| > 1 {
      var init := parts[..|parts| - 1];
      var a := Join(init, sep);
      var b := parts[|parts| - 1];
      var s := a + [sep] + b;
      assert s[|a|] == sep;
      forall j | |a| < j < |s| ensures s[j] != sep {
        assert s[j] == b[j - |a| - 1];
      }
      var i := LastSep(s, sep);
      assert i == |a|;
      assert s[..i] == a && s[i + 1..] == b;
      SplitJoin(init, sep);
      assert init + [b] == parts;
    }
  }

  /** A character that is neither the separator nor in any part is not in the joined text. */
  lemma {:induction false} JoinAvoids(parts: seq<string>, sep: char, c: char)
    requires |parts| > 0 && c != sep && forall k :: 0 <= k < |parts| ==> c !in parts[k]
    ensures c !in Join(parts, sep)
    decreases |parts|
  {
    if |parts| > 1 {
      JoinAvoids(parts[..|parts| - 1], sep, c);
    }
  }

  // ----- Piece placement -----

  /** The characters a rank text is written in: a run length 1..8 or a piece letter. */
  predicate IsRankChar(c: char) { '1' <= c <= '8' || IsPieceLetter(c) }

  predicate IsRankChars(text: string) { forall i :: 0 <= i < |text| ==> IsRankChar(text[i]) }

  /** The piece value a letter stands for: upper case white, lower case black. */
  function LetterValue(c: char): (v: int)
    requires IsPieceLetter(c)
    ensures v != 0 && IsPieceValue(v)
  {
    if c == 'P' then P else if c == 'N' then N else if c == 'B' then B
    else if c == 'R' then R else if c == 'Q' then Q else if c == 'K' then K
    else if c == 'p' then -P else if c == 'n' then -N else if c == 'b' then -B
    else if c == 'r' then -R else if c == 'q' then -Q else -K
  }

  /** The squares one character of a rank text stands for. */
  function SquaresOf(c: char): (squares: seq<int>)
    requires IsRankChar(c)
  {
    if IsPieceLetter(c) then [LetterValue(c)] else seq(DigitValue(c), _ => 0)
  }

  /** The squares of a rank text, files a..h. */
  function Expand(text: string): (rank: seq<int>)
    requires IsRankChars(text)
    decreases |text|
  {
    if text == [] then [] else SquaresOf(text[0]) + Expand(text[1..])
  }

  lemma {:induction false} ExpandAppend(a: string, b: string)
    requires IsRankChars(a) && IsRankChars(b)
    ensures IsRankChars(a + b) && Expand(a + b) == Expand(a) + Expand(b)
    decreases |a|
  {
    forall i | 0 <= i < |a + b| ensures IsRankChar((a + b)[i]) {
      if i >= |a| { assert (a + b)[i] == b[i - |a|]; }
    }
    if a == [] {
      assert a + b == b;
    } else {
      assert (a + b)[0] == a[0] && (a + b)[1..] == a[1..] + b;
      ExpandAppend(a[1..], b);
    }
  }

  /** A digit reads back as its value. */
  lemma DigitReadBack(n: int)
    requires 0 <= n <= 9
    ensures IsDigit(DigitChar(n)) && !IsPieceLetter(DigitChar(n)) && DigitValue(DigitChar(n)) == n
  {
  }

  /** A piece letter reads back as its piece value. */
  lemma LetterReadBack(v: int)
    requires v != 0 && IsPieceValue(v)
    ensures IsPieceLetter(PieceLetter(v)) && LetterValue(PieceLetter(v)) == v
  {
    if v > 0 {
      assert PieceLetter(v) == "PNBRQK"[v - 1];
    } else {
      assert PieceLetter(v) == "pnbrqk"[-v - 1];
    }
  }

  /** The digit for `run` pending empty squares expands to `run` empty squares. */
  lemma EmptyRunReadBack(run: nat)
    requires run <= 8
    ensures IsRankChars(EmptyRun(run)) && Expand(EmptyRun(run)) == seq(run, _ => 0)
  {
    if run > 0 {
      DigitReadBack(run);
      var text := EmptyRun(run);
      assert text[1..] == [];
      assert Expand(text) == SquaresOf(text[0]) + Expand([]);
    }
  }

  /** The letter of a piece expands to that piece. */
  lemma PieceTextReadBack(v: int)
    requires v != 0 && IsPieceValue(v)
    ensures IsRankChars([PieceLetter(v)]) && Expand([PieceLetter(v)]) == [v]
  {
    LetterReadBack(v);
    var text := [PieceLetter(v)];
    assert text[1..] == [];
    assert Expand(text) == SquaresOf(text[0]) + Expand([]);
  }

  /** The text of a rank from `col` on, with `run` empty squares pending,
      expands to the squares from `col - run` on. */
  lemma {:induction false} ExpandRankFrom(rank: seq<int>, col: nat, run: nat)
    requires IsRank(rank) && col <= 8 && run <= col
    requires forall k :: col - run <= k < col ==> rank[k] == 0
    ensures IsRankChars(RankFrom(rank, col, run))
    ensures Expand(RankFrom(rank, col, run)) == rank[col - run..]
    decreases 8 - col
  {
    if col == 8 {
      EmptyRunReadBack(run);
      assert rank[col - run..] == seq(run, _ => 0);
    } else if rank[col] == 0 {
      ExpandRankFrom(rank, col + 1, run + 1);
    } else {
      ExpandRankFrom(rank, col + 1, 0);
      ExpandPieceStep(rank, col, run);
    }
  }

  /** One step of the above at a piece: the pending digit, the letter, then the rest. */
  lemma ExpandPieceStep(rank: seq<int>, col: nat, run: nat)
    requires IsRank(rank) && col < 8 && run <= col && rank[col] != 0
    requires forall k :: col - run <= k < col ==> rank[k] == 0
    requires IsRankChars(RankFrom(rank, col + 1, 0)) && Expand(RankFrom(rank, col + 1, 0)) == rank[col + 1..]
    ensures IsRankChars(RankFrom(rank, col, run))
    ensures Expand(RankFrom(rank, col, run)) == rank[col - run..]
  {
    RankSquares(rank);
    var pending := EmptyRun(run);
    var letter := [PieceLetter(rank[col])];
    var rest := RankFrom(rank, col + 1, 0);
    assert RankFrom(rank, col, run) == pending + letter + rest;
    EmptyRunReadBack(run);
    PieceTextReadBack(rank[col]);
    ExpandAppend(pending, letter);
    ExpandAppend(pending + letter, rest);
    assert rank[col - run..col] == seq(run, _ => 0);
    SliceAt(rank, col - run, col);
  }

  lemma SliceAt(s: seq<int>, from: int, at: int)
    requires 0 <= from <= at < |s|
    ensures s[from..] == s[from..at] + [s[at]] + s[at + 1..]
  {
  }

  /** No two digits stand side by side, so every maximal run of empty squares
      is written as a single digit. */
  predicate RunsMerged(text: string) {
    forall i :: 0 <= i < |text| - 1 ==> !(IsDigit(text[i]) && IsDigit(text[i + 1]))
  }

  /** The text of a rank from any file on never writes two digits in a row. */
  lemma {:induction false} RankFromRunsMerged(rank: seq<int>, col: nat, run: nat)
    requires IsRank(rank) && col <= 8 && run <= col
    ensures RunsMerged(RankFrom(rank, col, run))
    decreases 8 - col
  {
    if col == 8 {
    } else if rank[col] == 0 {
      RankFromRunsMerged(rank, col + 1, run + 1);
    } else {
      RankFromRunsMerged(rank, col + 1, 0);
      RankSquares(rank);
      LetterReadBack(rank[col]);
      LetterSeparates(EmptyRun(run), PieceLetter(rank[col]), RankFrom(rank, col + 1, 0));
    }
  }

  /** A letter between at most one digit and a text with merged runs keeps the runs merged. */
  lemma LetterSeparates(pending: string, letter: char, rest: string)
    requires |pending| <= 1 && IsPieceLetter(letter) && RunsMerged(rest)
    ensures RunsMerged(pending + [letter] + rest)
  {
    var text := pending + [letter] + rest;
    forall i | 0 <= i < |text| - 1 ensures !(IsDigit(text[i]) && IsDigit(text[i + 1])) {
      if i + 1 == |pending| {
        assert text[i + 1] == letter;
      } else if i == |pending| {
        assert text[i] == letter;
      } else {
        assert text[i] == rest[i - |pending| - 1] && text[i + 1] == rest[i - |pending|];
      }
    }
  }

  /** A rank text accounts for exactly the eight squares of its rank, and it
      is the canonical text for them: runs of empty squares are merged into
      one digit 1..8, so no two digits are adjacent. */
  lemma RankTextReadBack(rank: seq<int>)
    requires IsRank(rank)
    ensures IsRankChars(RankText(rank)) && Expand(RankText(rank)) == rank
    ensures RunsMerged(RankText(rank))
  {
    ExpandRankFrom(rank, 0, 0);
    RankFromRunsMerged(rank, 0, 0);
  }

  /** The placement field cuts at '/' into the eight rank texts, and each
      expands to the squares of its grid row: rank 8 (row 2) first. */
  lemma PlacementReadBack(cells: seq<int>)
    requires PlayableCells(cells)
    ensures Split(Placement(cells), '/') == RankTexts(cells)
    ensures forall k :: 0 <= k < 8 ==>
      IsRankChars(RankTexts(cells)[k]) && Expand(RankTexts(cells)[k]) == GridRow(cells, k + 2)
  {
    var texts := RankTexts(cells);
    forall k | 0 <= k < 8
      ensures '/' !in texts[k] && ' ' !in texts[k]
      ensures IsRankChars(texts[k]) && Expand(texts[k]) == GridRow(cells, k + 2)
    {
      RankTextReadBack(GridRow(cells, k + 2));
    }
    SplitJoin(texts, '/');
  }

  // ----- Active colour and full-move number -----

  /** The decimal value of a digit string, most significant first. */
  function ReadDecimal(s: string): int
    decreases |s|
  {
    if s == [] then 0 else 10 * ReadDecimal(s[..|s| - 1]) + (s[|s| - 1] as int - '0' as int)
  }

  /** `Decimal` writes digits only, without a leading zero, and reads back as its number. */
  lemma {:induction false} DecimalReadBack(n: nat)
    ensures var s := Decimal(n);
      && |s| > 0 && (forall i :: 0 <= i < |s| ==> IsDigit(s[i]))
      && (s[0] == '0' ==> n == 0)
      && ReadDecimal(s) == n
    decreases n
  {
    DigitReadBack(n % 10);
    if n >= 10 {
      DecimalReadBack(n / 10);
      var s := Decimal(n);
      assert s[..|s| - 1] == Decimal(n / 10);
    }
  }

  /** The half-move count recovered from the active colour and the full-move number. */
  function ReadMoveCount(active: string, fullMove: string): int {
    2 * (ReadDecimal(fullMove) - 1) + (if active == "b" then 1 else 0)
  }

  /** The active colour is "w" exactly when the half-move count is even, and
      with the full-move number it determines the half-move count. */
  lemma MoveCountReadBack(p: Position)
    requires p.halfMoveCount >= 0
    ensures ActiveColor(p) == "w" <==> p.halfMoveCount % 2 == 0
    ensures ReadMoveCount(ActiveColor(p), Decimal(p.halfMoveCount / 2 + 1)) == p.halfMoveCount
  {
    DecimalReadBack(p.halfMoveCount / 2 + 1);
  }

  // ----- Castling availability -----

  /** Which of K, Q, k, q a castling field lists. */
  datatype Rights = Rights(whiteKingside: bool, whiteQueenside: bool, blackKingside: bool, blackQueenside: bool)

  function ReadCastling(field: string): Rights {
    Rights('K' in field, 'Q' in field, 'k' in field, 'q' in field)
  }

  /** Position of a castling letter in the order K, Q, k, q. */
  function CastlingOrder(c: char): int {
    if c == 'K' then 0 else if c == 'Q' then 1 else if c == 'k' then 2 else 3
  }

  /** Each castling letter appears exactly when that right remains, the
      letters come in the order KQkq, and the field is "-" exactly when no
      right remains. */
  lemma CastlingReadBack(flags: int)
    ensures var field := CastlingField(flags);
      && ReadCastling(field) ==
         Rights(WhiteKingside(flags), WhiteQueenside(flags), BlackKingside(flags), BlackQueenside(flags))
      && (field == "-" <==>
          !WhiteKingside(flags) && !WhiteQueenside(flags) && !BlackKingside(flags) && !BlackQueenside(flags))
      && (field != "-" ==> forall i, j :: 0 <= i < j < |field| ==> CastlingOrder(field[i]) < CastlingOrder(field[j]))
      && ' ' !in field
  {
    RightsText(
      if WhiteKingside(flags) then "K" else "", if WhiteQueenside(flags) then "Q" else "",
      if BlackKingside(flags) then "k" else "", if BlackQueenside(flags) then "q" else "");
  }

  /** The letters of the remaining rights, written one after another: each
      letter is there exactly when its right is, and nothing else is. */
  lemma RightsText(k: string, q: string, bk: string, bq: string)
    requires k == "K" || k == ""
    requires q == "Q" || q == ""
    requires bk == "k" || bk == ""
    requires bq == "q" || bq == ""
    ensures var s := k + q + bk + bq;
      && ('K' in s <==> k != "") && ('Q' in s <==> q != "") && ('k' in s <==> bk != "") && ('q' in s <==> bq != "")
      && (s == "" <==> k == "" && q == "" && bk == "" && bq == "")
      && '-' !in s && ' ' !in s
      && forall i, j :: 0 <= i < j < |s| ==> CastlingOrder(s[i]) < CastlingOrder(s[j])
  {
    var s := k + q + bk + bq;
    forall i | 0 <= i < |s|
      ensures s[i] == if i < |k| then 'K' else if i < |k + q| then 'Q' else if i < |k + q + bk| then 'k' else 'q'
    {
    }
  }

  // ----- En-passant target -----

  /** The square an en-passant field names, if it names one. */
  datatype Target = NoTarget | Target(square: int)

  /** The grid index of a square named by file letter and rank digit. */
  function ReadEnPassant(field: string): Target {
    if |field| == 2 && 'a' <= field[0] <= 'h' && '1' <= field[1] <= '8'
    then Target(WIDTH * (9 - (field[1] as int - '1' as int)) + (field[0] as int - 'a' as int) + 1)
    else NoTarget
  }

  /** The name of a playable square reads back as that square. */
  lemma SquareNameReadBack(square: int)
    requires OnBoard(square)
    ensures ReadEnPassant(SquareName(square)) == Target(square)
  {
    var f, r := FileOf(square), RankOf(square);
    assert "abcdefgh"[f] as int == 'a' as int + f;
    assert "12345678"[r] as int == '1' as int + r;
  }

  /** The en-passant field is "-" without a target and otherwise names the
      target square; distinct slots name distinct squares. */
  lemma EnPassantReadBack(ep: EnPassant)
    requires ep.EnPassantSlot? ==> ep.slot < EN_PASSANT_SLOTS
    ensures ReadEnPassant(EnPassantField(ep)) == match ep
      case NoEnPassant => NoTarget
      case EnPassantSlot(slot) => Target(TargetOf(slot))
  {
    if ep.EnPassantSlot? {
      SquareNameReadBack(TargetOf(ep.slot));
    }
  }

  lemma TargetInjective(s: nat, t: nat)
    requires s < EN_PASSANT_SLOTS && t < EN_PASSANT_SLOTS && TargetOf(s) == TargetOf(t)
    ensures s == t
  {
  }

  // ----- The record -----

  /** The placement field has no space: it is written in rank characters and '/'. */
  lemma PlacementHasNoSpace(cells: seq<int>)
    requires PlayableCells(cells)
    ensures ' ' !in Placement(cells)
  {
    var texts := RankTexts(cells);
    forall k | 0 <= k < 8 ensures ' ' !in texts[k] {
      RankTextHasNoSpace(GridRow(cells, k + 2));
    }
    JoinAvoids(texts, '/', ' ');
  }

  lemma RankTextHasNoSpace(rank: seq<int>)
    requires IsRank(rank)
    ensures ' ' !in RankText(rank)
  {
    ExpandRankFrom(rank, 0, 0);
  }

  lemma DecimalHasNoSpace(n: nat)
    ensures ' ' !in Decimal(n)
  {
    DecimalReadBack(n);
  }

  lemma EnPassantHasNoSpace(ep: EnPassant)
    requires ep.EnPassantSlot? ==> ep.slot < EN_PASSANT_SLOTS
    ensures ' ' !in EnPassantField(ep)
  {
    if ep.EnPassantSlot? {
      var name := SquareName(TargetOf(ep.slot));
      assert 'a' <= name[0] <= 'h' && '1' <= name[1] <= '8';
    }
  }

  /** The record cuts at ' ' into its six fields. */
  lemma RecordReadBack(p: Position)
    requires WellFormed(p)
    ensures Split(ToFEN(p), ' ') == Fields(p)
  {
    var fields := Fields(p);
    PlacementHasNoSpace(p.cells);
    CastlingReadBack(p.stateFlags);
    EnPassantHasNoSpace(p.enPassant);
    DecimalHasNoSpace(p.halfMoveClock);
    DecimalHasNoSpace(p.halfMoveCount / 2 + 1);
    assert forall k :: 0 <= k < 6 ==> ' ' !in fields[k];
    SplitJoin(fields, ' ');
  }

  /** Two positions with the same record agree on every playable square, on
      the half-move clock and count, on the castling rights and on the
      en-passant target. */
  lemma ExportDeterminesPosition(p: Position, q: Position)
    requires WellFormed(p) && WellFormed(q) && ToFEN(p) == ToFEN(q)
    ensures forall row :: 2 <= row <= 9 ==> GridRow(p.cells, row) == GridRow(q.cells, row)
    ensures p.halfMoveClock == q.halfMoveClock && p.halfMoveCount == q.halfMoveCount
    ensures WhiteKingside(p.stateFlags) == WhiteKingside(q.stateFlags)
    ensures WhiteQueenside(p.stateFlags) == WhiteQueenside(q.stateFlags)
    ensures BlackKingside(p.stateFlags) == BlackKingside(q.stateFlags)
    ensures BlackQueenside(p.stateFlags) == BlackQueenside(q.stateFlags)
    ensures p.enPassant == q.enPassant
  {
    SameFields(p, q);
    FieldsDeterminePosition(p, q);
  }

  lemma FieldsDeterminePosition(p: Position, q: Position)
    requires WellFormed(p) && WellFormed(q) && Fields(p) == Fields(q)
    ensures forall row :: 2 <= row <= 9 ==> GridRow(p.cells, row) == GridRow(q.cells, row)
    ensures p.halfMoveClock == q.halfMoveClock && p.halfMoveCount == q.halfMoveCount
    ensures WhiteKingside(p.stateFlags) == WhiteKingside(q.stateFlags)
    ensures WhiteQueenside(p.stateFlags) == WhiteQueenside(q.stateFlags)
    ensures BlackKingside(p.stateFlags) == BlackKingside(q.stateFlags)
    ensures BlackQueenside(p.stateFlags) == BlackQueenside(q.stateFlags)
    ensures p.enPassant == q.enPassant
  {
    SamePlacement(p.cells, q.cells);
    DecimalReadBack(p.halfMoveClock);
    DecimalReadBack(q.halfMoveClock);
    MoveCountReadBack(p);
    MoveCountReadBack(q);
    CastlingReadBack(p.stateFlags);
    CastlingReadBack(q.stateFlags);
    SameEnPassant(p.enPassant, q.enPassant);
  }

  lemma SameFields(p: Position, q: Position)
    requires WellFormed(p) && WellFormed(q) && ToFEN(p) == ToFEN(q)
    ensures Fields(p) == Fields(q)
  {
    RecordReadBack(p);
    RecordReadBack(q);
  }

  lemma SamePlacement(a: seq<int>, b: seq<int>)
    requires PlayableCells(a) && PlayableCells(b) && Placement(a) == Placement(b)
    ensures forall row :: 2 <= row <= 9 ==> GridRow(a, row) == GridRow(b, row)
  {
    PlacementReadBack(a);
    PlacementReadBack(b);
    forall row | 2 <= row <= 9 ensures GridRow(a, row) == GridRow(b, row) {
      assert RankTexts(a)[row - 2] == RankTexts(b)[row - 2];
    }
  }

  lemma SameEnPassant(e: EnPassant, f: EnPassant)
    requires e.EnPassantSlot? ==> e.slot < EN_PASSANT_SLOTS
    requires f.EnPassantSlot? ==> f.slot < EN_PASSANT_SLOTS
    requires EnPassantField(e) == EnPassantField(f)
    ensures e == f
  {
    EnPassantReadBack(e);
    EnPassantReadBack(f);
    if e.EnPassantSlot? && f.EnPassantSlot? {
      TargetInjective(e.slot, f.slot);
    }
  }
}
