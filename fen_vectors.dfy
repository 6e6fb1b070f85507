module FenVectors {
  import opened Pieces
  import opened Board
  import opened Fen

  /** The sentinel value, written `__` in the 120-cell board literals. */
  const XX: int := BORDER

  /** The 123 constructor values of a board whose ranks 8..1 are `ranks`:
      sentinels outside the playable area, rank `k` on grid row `k + 2`, then
      the half-move clock, the half-move count and the state flags. */
  function Bordered(ranks: seq<seq<int>>, clock: int, count: int, flags: int): (items: seq<int>)
    requires |ranks| == 8 && forall k :: 0 <= k < 8 ==> |ranks[k]| == 8
    ensures |items| == CELL_COUNT + 3
  {
    seq(CELL_COUNT + 3, i requires 0 <= i < CELL_COUNT + 3 =>
      if i == CELL_COUNT then clock
      else if i == CELL_COUNT + 1 then count
      else if i == CELL_COUNT + 2 then flags
      else if OnBoard(i) then ranks[Row(i) - 2][Col(i) - 1]
      else XX)
  }

  /** The board built from `Bordered(ranks, ...)` satisfies the board
      invariant and its grid rows 2..9 read back as `ranks`. */
  lemma BorderedLayout(ranks: seq<seq<int>>, clock: int, count: int, flags: int)
    requires |ranks| == 8 && forall k :: 0 <= k < 8 ==> |ranks[k]| == 8 && IsRank(ranks[k])
    requires clock >= 0 && count >= 0 && 0 <= flags < FLAG_MASKS
    ensures var p := FromItems(Bordered(ranks, clock, count, flags));
      && WellFormed(p)
      && (forall row :: 2 <= row <= 9 ==> GridRow(p.cells, row) == ranks[row - 2])
  {
    BorderedWellFormed(ranks, clock, count, flags);
    forall row | 2 <= row <= 9
      ensures GridRow(Bordered(ranks, clock, count, flags)[..CELL_COUNT], row) == ranks[row - 2]
    {
      BorderedRow(ranks, clock, count, flags, row);
    }
  }

  lemma BorderedRow(ranks: seq<seq<int>>, clock: int, count: int, flags: int, row: int)
    requires |ranks| == 8 && forall k :: 0 <= k < 8 ==> |ranks[k]| == 8 && IsRank(ranks[k])
    requires clock >= 0 && count >= 0 && 0 <= flags < FLAG_MASKS
    requires 2 <= row <= 9
    ensures PlayableCells(Bordered(ranks, clock, count, flags)[..CELL_COUNT])
    ensures GridRow(Bordered(ranks, clock, count, flags)[..CELL_COUNT], row) == ranks[row - 2]
  {
    BorderedWellFormed(ranks, clock, count, flags);
    var items := Bordered(ranks, clock, count, flags);
    var cells := items[..CELL_COUNT];
    assert PlayableCells(cells);
    forall c | 0 <= c < 8 ensures GridRow(cells, row)[c] == ranks[row - 2][c] {
      BorderedCell(ranks, clock, count, flags, row, c);
    }
  }

  lemma BorderedCell(ranks: seq<seq<int>>, clock: int, count: int, flags: int, row: int, c: int)
    requires |ranks| == 8 && forall k :: 0 <= k < 8 ==> |ranks[k]| == 8
    requires 2 <= row <= 9 && 0 <= c < 8
    ensures Bordered(ranks, clock, count, flags)[WIDTH * row + 1 + c] == ranks[row - 2][c]
  {
    var j := WIDTH * row + 1 + c;
    CellAt(row, c + 1);
    assert OnBoard(j) && j < CELL_COUNT;
  }

  lemma BorderedWellFormed(ranks: seq<seq<int>>, clock: int, count: int, flags: int)
    requires |ranks| == 8 && forall k :: 0 <= k < 8 ==> |ranks[k]| == 8 && IsRank(ranks[k])
    requires clock >= 0 && count >= 0 && 0 <= flags < FLAG_MASKS
    ensures WellFormed(FromItems(Bordered(ranks, clock, count, flags)))
  {
    forall k | 0 <= k < 8 ensures forall c :: 0 <= c < 8 ==> IsPieceValue(ranks[k][c]) {
      RankSquares(ranks[k]);
    }
  }

  /** The placement field of a position whose ranks 8..1 read `texts`. */
  lemma PlacementOfRanks(p: Position, texts: seq<string>, placement: string)
    requires WellFormed(p)
    requires |texts| == 8 && forall k :: 0 <= k < 8 ==> RankText(GridRow(p.cells, k + 2)) == texts[k]
    requires placement == Slashed(texts)
    ensures Placement(p.cells) == placement
  {
    RankTextsAre(p.cells, texts);
    JoinEight(texts, '/', placement);
  }

  lemma RankTextsAre(cells: seq<int>, texts: seq<string>)
    requires PlayableCells(cells)
    requires |texts| == 8 && forall k :: 0 <= k < 8 ==> RankText(GridRow(cells, k + 2)) == texts[k]
    ensures RankTexts(cells) == texts
  {
    forall k | 0 <= k < 8 ensures RankTexts(cells)[k] == texts[k] {
      assert RankTexts(cells)[k] == RankText(GridRow(cells, k + 2));
    }
  }

  /** The record of a position whose placement field is `placement`. */
  lemma RecordOfFields(p: Position, placement: string, fen: string)
    requires WellFormed(p) && Placement(p.cells) == placement
    requires fen == Record(placement, ActiveColor(p), CastlingField(p.stateFlags), EnPassantField(p.enPassant),
                           Decimal(p.halfMoveClock), Decimal(p.halfMoveCount / 2 + 1))
    ensures ToFEN(p) == fen
  {
    JoinSix(Fields(p), ' ', fen);
  }

  /** Joining one more part appends the separator and that part. */
  lemma JoinStep(parts: seq<string>, sep: char, n: nat)
    requires 0 < n < |parts|
    ensures Join(parts[..n + 1], sep) == Join(parts[..n], sep) + [sep] + parts[n]
  {
    assert parts[..n + 1][..n] == parts[..n];
  }

  lemma JoinSix(parts: seq<string>, sep: char, joined: string)
    requires |parts| == 6
    requires joined == parts[0] + [sep] + parts[1] + [sep] + parts[2] + [sep] + parts[3] + [sep] + parts[4] + [sep] + parts[5]
    ensures Join(parts, sep) == joined
  {
    assert Join(parts[..1], sep) == parts[0];
    JoinStep(parts, sep, 1);
    JoinStep(parts, sep, 2);
    JoinStep(parts, sep, 3);
    JoinStep(parts, sep, 4);
    JoinStep(parts, sep, 5);
    assert parts[..6] == parts;
  }

  lemma JoinEight(parts: seq<string>, sep: char, joined: string)
    requires |parts| == 8
    requires joined == parts[0] + [sep] + parts[1] + [sep] + parts[2] + [sep] + parts[3] + [sep] + parts[4] + [sep] + parts[5] + [sep] + parts[6] + [sep] + parts[7]
    ensures Join(parts, sep) == joined
  {
    JoinSix(parts[..6], sep, parts[0] + [sep] + parts[1] + [sep] + parts[2] + [sep] + parts[3] + [sep] + parts[4] + [sep] + parts[5]);
    JoinStep(parts, sep, 6);
    JoinStep(parts, sep, 7);
    assert parts[..8] == parts;
  }

  /** The eight rank texts, rank 8 first, separated by '/'. */
  function Slashed(texts: seq<string>): string
    requires |texts| == 8
  {
    texts[0] + "/" + texts[1] + "/" + texts[2] + "/" + texts[3] + "/" +
    texts[4] + "/" + texts[5] + "/" + texts[6] + "/" + texts[7]
  }

  /** A record text from its six fields. */
  function Record(placement: string, active: string, castling: string, ep: string, clock: string, full: string): string
  {
    placement + " " + active + " " + castling + " " + ep + " " + clock + " " + full
  }

  /** The record of a board whose ranks 8..1 are `ranks`, each reading as the
      matching entry of `texts`. */
  lemma FenOfBoard(p: Position, ranks: seq<seq<int>>, texts: seq<string>, placement: string, fen: string)
    requires WellFormed(p) && |ranks| == 8 && |texts| == 8
    requires forall row :: 2 <= row <= 9 ==> GridRow(p.cells, row) == ranks[row - 2]
    requires IsRank(ranks[0]) && RankText(ranks[0]) == texts[0] && IsRank(ranks[1]) && RankText(ranks[1]) == texts[1]
    requires IsRank(ranks[2]) && RankText(ranks[2]) == texts[2] && IsRank(ranks[3]) && RankText(ranks[3]) == texts[3]
    requires IsRank(ranks[4]) && RankText(ranks[4]) == texts[4] && IsRank(ranks[5]) && RankText(ranks[5]) == texts[5]
    requires IsRank(ranks[6]) && RankText(ranks[6]) == texts[6] && IsRank(ranks[7]) && RankText(ranks[7]) == texts[7]
    requires Slashed(texts) == placement
    requires fen == Record(placement, ActiveColor(p), CastlingField(p.stateFlags), EnPassantField(p.enPassant),
                           Decimal(p.halfMoveClock), Decimal(p.halfMoveCount / 2 + 1))
    ensures ToFEN(p) == fen
  {
    forall k | 0 <= k < 8 ensures RankText(GridRow(p.cells, k + 2)) == texts[k] {
      assert GridRow(p.cells, k + 2) == ranks[k];
      if k < 4 {
        assert k == 0 || k == 1 || k == 2 || k == 3;
      } else {
        assert k == 4 || k == 5 || k == 6 || k == 7;
      }
    }
    PlacementOfRanks(p, texts, placement);
    RecordOfFields(p, placement, fen);
  }

  /** The placement text splits at the '/' between rank 5 and rank 4. */
  lemma SlashedHalves(t: seq<string>)
    requires |t| == 8
    ensures Slashed(t) == (t[0] + "/" + t[1] + "/" + t[2] + "/" + t[3]) + "/" + (t[4] + "/" + t[5] + "/" + t[6] + "/" + t[7])
  {
  }

  // ----- The board layouts of the exporter's examples -----

  const START_RANKS: seq<seq<int>> := [
    [-R, -N, -B, -Q, -K, -B, -N, -R],
    [-P, -P, -P, -P, -P, -P, -P, -P],
    [ 0,  0,  0,  0,  0,  0,  0,  0],
    [ 0,  0,  0,  0,  0,  0,  0,  0],
    [ 0,  0,  0,  0,  0,  0,  0,  0],
    [ 0,  0,  0,  0,  0,  0,  0,  0],
    [ P,  P,  P,  P,  P,  P,  P,  P],
    [ R,  N,  B,  Q,  K,  B,  N,  R]
  ]
  const START_TEXTS: seq<string> := ["rnbqkbnr", "pppppppp", "8", "8", "8", "8", "PPPPPPPP", "RNBQKBNR"]
  const START_PLACEMENT: string := "rnbqkbnr/pppppppp/8/8/8/8/PPPPPPPP/RNBQKBNR"

  lemma StartText8()
    ensures IsRank(START_RANKS[0]) && RankText(START_RANKS[0]) == START_TEXTS[0]
  {
  }

  lemma StartText7()
    ensures IsRank(START_RANKS[1]) && RankText(START_RANKS[1]) == START_TEXTS[1]
  {
  }

  lemma StartText6()
    ensures IsRank(START_RANKS[2]) && RankText(START_RANKS[2]) == START_TEXTS[2]
  {
  }

  lemma StartText5()
    ensures IsRank(START_RANKS[3]) && RankText(START_RANKS[3]) == START_TEXTS[3]
  {
  }

  lemma StartText4()
    ensures IsRank(START_RANKS[4]) && RankText(START_RANKS[4]) == START_TEXTS[4]
  {
  }

  lemma StartText3()
    ensures IsRank(START_RANKS[5]) && RankText(START_RANKS[5]) == START_TEXTS[5]
  {
  }

  lemma StartText2()
    ensures IsRank(START_RANKS[6]) && RankText(START_RANKS[6]) == START_TEXTS[6]
  {
  }

  lemma StartText1()
    ensures IsRank(START_RANKS[7]) && RankText(START_RANKS[7]) == START_TEXTS[7]
  {
  }

  lemma StartUpperPlacement()
    ensures START_TEXTS[0] + "/" + START_TEXTS[1] + "/" + START_TEXTS[2] + "/" + START_TEXTS[3] == "rnbqkbnr/pppppppp/8/8"
  {
    assert START_TEXTS[0] + "/" + START_TEXTS[1] + "/" + START_TEXTS[2] + "/" + START_TEXTS[3] == "rnbqkbnr" + "/" + "pppppppp" + "/" + "8" + "/" + "8";
    assert "rnbqkbnr" + "/" == "rnbqkbnr/";
    assert "rnbqkbnr/" + "pppppppp" == "rnbqkbnr/pppppppp";
    assert "rnbqkbnr/pppppppp" + "/" == "rnbqkbnr/pppppppp/";
    assert "rnbqkbnr/pppppppp/" + "8" == "rnbqkbnr/pppppppp/8";
    assert "rnbqkbnr/pppppppp/8" + "/" == "rnbqkbnr/pppppppp/8/";
    assert "rnbqkbnr/pppppppp/8/" + "8" == "rnbqkbnr/pppppppp/8/8";
  }

  lemma StartLowerPlacement()
    ensures START_TEXTS[4] + "/" + START_TEXTS[5] + "/" + START_TEXTS[6] + "/" + START_TEXTS[7] == "8/8/PPPPPPPP/RNBQKBNR"
  {
    assert START_TEXTS[4] + "/" + START_TEXTS[5] + "/" + START_TEXTS[6] + "/" + START_TEXTS[7] == "8" + "/" + "8" + "/" + "PPPPPPPP" + "/" + "RNBQKBNR";
    assert "8" + "/" == "8/";
    assert "8/" + "8" == "8/8";
    assert "8/8" + "/" == "8/8/";
    assert "8/8/" + "PPPPPPPP" == "8/8/PPPPPPPP";
    assert "8/8/PPPPPPPP" + "/" == "8/8/PPPPPPPP/";
    assert "8/8/PPPPPPPP/" + "RNBQKBNR" == "8/8/PPPPPPPP/RNBQKBNR";
  }

  lemma StartHalvesPlacement()
    ensures "rnbqkbnr/pppppppp/8/8" + "/" + "8/8/PPPPPPPP/RNBQKBNR" == START_PLACEMENT
  {
  }

  lemma StartPlacement()
    ensures Slashed(START_TEXTS) == START_PLACEMENT
  {
    StartUpperPlacement();
    StartLowerPlacement();
    StartHalvesPlacement();
    SlashedHalves(START_TEXTS);
  }

  const TEST_RANKS: seq<seq<int>> := [
    [-R,  0,  0,  0, -K,  0,  0, -R],
    [-P,  0, -P, -P, -Q, -P, -B,  0],
    [-B, -N,  0,  0, -P, -N, -P,  0],
    [ 0,  0,  0,  P,  N,  0,  0,  0],
    [ 0, -P,  0,  0,  P,  0,  0,  0],
    [ 0,  0,  N,  0,  0,  Q,  0, -P],
    [ P,  P,  P,  B,  B,  P,  P,  P],
    [ R,  0,  0,  0,  K,  0,  0,  R]
  ]
  const TEST_TEXTS: seq<string> := ["r3k2r", "p1ppqpb1", "bn2pnp1", "3PN3", "1p2P3", "2N2Q1p", "PPPBBPPP", "R3K2R"]
  const TEST_PLACEMENT: string := "r3k2r/p1ppqpb1/bn2pnp1/3PN3/1p2P3/2N2Q1p/PPPBBPPP/R3K2R"

  lemma TestText8()
    ensures IsRank(TEST_RANKS[0]) && RankText(TEST_RANKS[0]) == TEST_TEXTS[0]
  {
  }

  lemma TestText7()
    ensures IsRank(TEST_RANKS[1]) && RankText(TEST_RANKS[1]) == TEST_TEXTS[1]
  {
  }

  lemma TestText6()
    ensures IsRank(TEST_RANKS[2]) && RankText(TEST_RANKS[2]) == TEST_TEXTS[2]
  {
  }

  lemma TestText5()
    ensures IsRank(TEST_RANKS[3]) && RankText(TEST_RANKS[3]) == TEST_TEXTS[3]
  {
  }

  lemma TestText4()
    ensures IsRank(TEST_RANKS[4]) && RankText(TEST_RANKS[4]) == TEST_TEXTS[4]
  {
  }

  lemma TestText3()
    ensures IsRank(TEST_RANKS[5]) && RankText(TEST_RANKS[5]) == TEST_TEXTS[5]
  {
  }

  lemma TestText2()
    ensures IsRank(TEST_RANKS[6]) && RankText(TEST_RANKS[6]) == TEST_TEXTS[6]
  {
  }

  lemma TestText1()
    ensures IsRank(TEST_RANKS[7]) && RankText(TEST_RANKS[7]) == TEST_TEXTS[7]
  {
  }

  lemma TestUpperPlacement()
    ensures TEST_TEXTS[0] + "/" + TEST_TEXTS[1] + "/" + TEST_TEXTS[2] + "/" + TEST_TEXTS[3] == "r3k2r/p1ppqpb1/bn2pnp1/3PN3"
  {
    assert TEST_TEXTS[0] + "/" + TEST_TEXTS[1] + "/" + TEST_TEXTS[2] + "/" + TEST_TEXTS[3] == "r3k2r" + "/" + "p1ppqpb1" + "/" + "bn2pnp1" + "/" + "3PN3";
    assert "r3k2r" + "/" == "r3k2r/";
    assert "r3k2r/" + "p1ppqpb1" == "r3k2r/p1ppqpb1";
    assert "r3k2r/p1ppqpb1" + "/" == "r3k2r/p1ppqpb1/";
    assert "r3k2r/p1ppqpb1/" + "bn2pnp1" == "r3k2r/p1ppqpb1/bn2pnp1";
    assert "r3k2r/p1ppqpb1/bn2pnp1" + "/" == "r3k2r/p1ppqpb1/bn2pnp1/";
    assert "r3k2r/p1ppqpb1/bn2pnp1/" + "3PN3" == "r3k2r/p1ppqpb1/bn2pnp1/3PN3";
  }

  lemma TestLowerPlacement()
    ensures TEST_TEXTS[4] + "/" + TEST_TEXTS[5] + "/" + TEST_TEXTS[6] + "/" + TEST_TEXTS[7] == "1p2P3/2N2Q1p/PPPBBPPP/R3K2R"
  {
    assert TEST_TEXTS[4] + "/" + TEST_TEXTS[5] + "/" + TEST_TEXTS[6] + "/" + TEST_TEXTS[7] == "1p2P3" + "/" + "2N2Q1p" + "/" + "PPPBBPPP" + "/" + "R3K2R";
    assert "1p2P3" + "/" == "1p2P3/";
    assert "1p2P3/" + "2N2Q1p" == "1p2P3/2N2Q1p";
    assert "1p2P3/2N2Q1p" + "/" == "1p2P3/2N2Q1p/";
    assert "1p2P3/2N2Q1p/" + "PPPBBPPP" == "1p2P3/2N2Q1p/PPPBBPPP";
    assert "1p2P3/2N2Q1p/PPPBBPPP" + "/" == "1p2P3/2N2Q1p/PPPBBPPP/";
    assert "1p2P3/2N2Q1p/PPPBBPPP/" + "R3K2R" == "1p2P3/2N2Q1p/PPPBBPPP/R3K2R";
  }

  lemma TestHalvesPlacement()
    ensures "r3k2r/p1ppqpb1/bn2pnp1/3PN3" + "/" + "1p2P3/2N2Q1p/PPPBBPPP/R3K2R" == TEST_PLACEMENT
  {
  }

  lemma TestPlacement()
    ensures Slashed(TEST_TEXTS) == TEST_PLACEMENT
  {
    TestUpperPlacement();
    TestLowerPlacement();
    TestHalvesPlacement();
    SlashedHalves(TEST_TEXTS);
  }

  const NO_CASTLING_RANKS: seq<seq<int>> := [
    [-R,  0,  0,  0,  0, -K,  0, -R],
    [-P,  0, -P, -P, -Q, -P, -B,  0],
    [-B, -N,  0,  0, -P, -N, -P,  0],
    [ 0,  0,  0,  P,  N,  0,  0,  0],
    [ 0, -P,  0,  0,  P,  0,  0,  0],
    [ 0,  0,  N,  0,  0,  Q,  0, -P],
    [ P,  P,  P,  B,  B,  P,  P,  P],
    [ R,  0,  0,  0,  0,  K,  0,  R]
  ]
  const NO_CASTLING_TEXTS: seq<string> := ["r4k1r", "p1ppqpb1", "bn2pnp1", "3PN3", "1p2P3", "2N2Q1p", "PPPBBPPP", "R4K1R"]
  const NO_CASTLING_PLACEMENT: string := "r4k1r/p1ppqpb1/bn2pnp1/3PN3/1p2P3/2N2Q1p/PPPBBPPP/R4K1R"

  lemma NoCastlingText8()
    ensures IsRank(NO_CASTLING_RANKS[0]) && RankText(NO_CASTLING_RANKS[0]) == NO_CASTLING_TEXTS[0]
  {
  }

  lemma NoCastlingText7()
    ensures IsRank(NO_CASTLING_RANKS[1]) && RankText(NO_CASTLING_RANKS[1]) == NO_CASTLING_TEXTS[1]
  {
  }

  lemma NoCastlingText6()
    ensures IsRank(NO_CASTLING_RANKS[2]) && RankText(NO_CASTLING_RANKS[2]) == NO_CASTLING_TEXTS[2]
  {
  }

  lemma NoCastlingText5()
    ensures IsRank(NO_CASTLING_RANKS[3]) && RankText(NO_CASTLING_RANKS[3]) == NO_CASTLING_TEXTS[3]
  {
  }

  lemma NoCastlingText4()
    ensures IsRank(NO_CASTLING_RANKS[4]) && RankText(NO_CASTLING_RANKS[4]) == NO_CASTLING_TEXTS[4]
  {
  }

  lemma NoCastlingText3()
    ensures IsRank(NO_CASTLING_RANKS[5]) && RankText(NO_CASTLING_RANKS[5]) == NO_CASTLING_TEXTS[5]
  {
  }

  lemma NoCastlingText2()
    ensures IsRank(NO_CASTLING_RANKS[6]) && RankText(NO_CASTLING_RANKS[6]) == NO_CASTLING_TEXTS[6]
  {
  }

  lemma NoCastlingText1()
    ensures IsRank(NO_CASTLING_RANKS[7]) && RankText(NO_CASTLING_RANKS[7]) == NO_CASTLING_TEXTS[7]
  {
  }

  lemma NoCastlingUpperPlacement()
    ensures NO_CASTLING_TEXTS[0] + "/" + NO_CASTLING_TEXTS[1] + "/" + NO_CASTLING_TEXTS[2] + "/" + NO_CASTLING_TEXTS[3] == "r4k1r/p1ppqpb1/bn2pnp1/3PN3"
  {
    assert NO_CASTLING_TEXTS[0] + "/" + NO_CASTLING_TEXTS[1] + "/" + NO_CASTLING_TEXTS[2] + "/" + NO_CASTLING_TEXTS[3] == "r4k1r" + "/" + "p1ppqpb1" + "/" + "bn2pnp1" + "/" + "3PN3";
    assert "r4k1r" + "/" == "r4k1r/";
    assert "r4k1r/" + "p1ppqpb1" == "r4k1r/p1ppqpb1";
    assert "r4k1r/p1ppqpb1" + "/" == "r4k1r/p1ppqpb1/";
    assert "r4k1r/p1ppqpb1/" + "bn2pnp1" == "r4k1r/p1ppqpb1/bn2pnp1";
    assert "r4k1r/p1ppqpb1/bn2pnp1" + "/" == "r4k1r/p1ppqpb1/bn2pnp1/";
    assert "r4k1r/p1ppqpb1/bn2pnp1/" + "3PN3" == "r4k1r/p1ppqpb1/bn2pnp1/3PN3";
  }

  lemma NoCastlingLowerPlacement()
    ensures NO_CASTLING_TEXTS[4] + "/" + NO_CASTLING_TEXTS[5] + "/" + NO_CASTLING_TEXTS[6] + "/" + NO_CASTLING_TEXTS[7] == "1p2P3/2N2Q1p/PPPBBPPP/R4K1R"
  {
    assert NO_CASTLING_TEXTS[4] + "/" + NO_CASTLING_TEXTS[5] + "/" + NO_CASTLING_TEXTS[6] + "/" + NO_CASTLING_TEXTS[7] == "1p2P3" + "/" + "2N2Q1p" + "/" + "PPPBBPPP" + "/" + "R4K1R";
    assert "1p2P3" + "/" == "1p2P3/";
    assert "1p2P3/" + "2N2Q1p" == "1p2P3/2N2Q1p";
    assert "1p2P3/2N2Q1p" + "/" == "1p2P3/2N2Q1p/";
    assert "1p2P3/2N2Q1p/" + "PPPBBPPP" == "1p2P3/2N2Q1p/PPPBBPPP";
    assert "1p2P3/2N2Q1p/PPPBBPPP" + "/" == "1p2P3/2N2Q1p/PPPBBPPP/";
    assert "1p2P3/2N2Q1p/PPPBBPPP/" + "R4K1R" == "1p2P3/2N2Q1p/PPPBBPPP/R4K1R";
  }

  lemma NoCastlingHalvesPlacement()
    ensures "r4k1r/p1ppqpb1/bn2pnp1/3PN3" + "/" + "1p2P3/2N2Q1p/PPPBBPPP/R4K1R" == NO_CASTLING_PLACEMENT
  {
  }

  lemma NoCastlingPlacement()
    ensures Slashed(NO_CASTLING_TEXTS) == NO_CASTLING_PLACEMENT
  {
    NoCastlingUpperPlacement();
    NoCastlingLowerPlacement();
    NoCastlingHalvesPlacement();
    SlashedHalves(NO_CASTLING_TEXTS);
  }

  const WHITE_CASTLING_RANKS: seq<seq<int>> := [
    [-R,  0,  0,  0,  0, -K,  0, -R],
    [-P,  0, -P, -P, -Q, -P, -B,  0],
    [-B, -N,  0,  0, -P, -N, -P,  0],
    [ 0,  0,  0,  P,  N,  0,  0,  0],
    [ 0, -P,  0,  0,  P,  0,  0,  0],
    [ 0,  0,  N,  0,  0,  Q,  0, -P],
    [ P,  P,  P,  B,  B,  P,  P,  P],
    [ R,  0,  0,  0,  K,  0,  0,  R]
  ]
  const WHITE_CASTLING_TEXTS: seq<string> := ["r4k1r", "p1ppqpb1", "bn2pnp1", "3PN3", "1p2P3", "2N2Q1p", "PPPBBPPP", "R3K2R"]
  const WHITE_CASTLING_PLACEMENT: string := "r4k1r/p1ppqpb1/bn2pnp1/3PN3/1p2P3/2N2Q1p/PPPBBPPP/R3K2R"

  lemma WhiteCastlingText8()
    ensures IsRank(WHITE_CASTLING_RANKS[0]) && RankText(WHITE_CASTLING_RANKS[0]) == WHITE_CASTLING_TEXTS[0]
  {
  }

  lemma WhiteCastlingText7()
    ensures IsRank(WHITE_CASTLING_RANKS[1]) && RankText(WHITE_CASTLING_RANKS[1]) == WHITE_CASTLING_TEXTS[1]
  {
  }

  lemma WhiteCastlingText6()
    ensures IsRank(WHITE_CASTLING_RANKS[2]) && RankText(WHITE_CASTLING_RANKS[2]) == WHITE_CASTLING_TEXTS[2]
  {
  }

  lemma WhiteCastlingText5()
    ensures IsRank(WHITE_CASTLING_RANKS[3]) && RankText(WHITE_CASTLING_RANKS[3]) == WHITE_CASTLING_TEXTS[3]
  {
  }

  lemma WhiteCastlingText4()
    ensures IsRank(WHITE_CASTLING_RANKS[4]) && RankText(WHITE_CASTLING_RANKS[4]) == WHITE_CASTLING_TEXTS[4]
  {
  }

  lemma WhiteCastlingText3()
    ensures IsRank(WHITE_CASTLING_RANKS[5]) && RankText(WHITE_CASTLING_RANKS[5]) == WHITE_CASTLING_TEXTS[5]
  {
  }

  lemma WhiteCastlingText2()
    ensures IsRank(WHITE_CASTLING_RANKS[6]) && RankText(WHITE_CASTLING_RANKS[6]) == WHITE_CASTLING_TEXTS[6]
  {
  }

  lemma WhiteCastlingText1()
    ensures IsRank(WHITE_CASTLING_RANKS[7]) && RankText(WHITE_CASTLING_RANKS[7]) == WHITE_CASTLING_TEXTS[7]
  {
  }

  lemma WhiteCastlingUpperPlacement()
    ensures WHITE_CASTLING_TEXTS[0] + "/" + WHITE_CASTLING_TEXTS[1] + "/" + WHITE_CASTLING_TEXTS[2] + "/" + WHITE_CASTLING_TEXTS[3] == "r4k1r/p1ppqpb1/bn2pnp1/3PN3"
  {
    assert WHITE_CASTLING_TEXTS[0] + "/" + WHITE_CASTLING_TEXTS[1] + "/" + WHITE_CASTLING_TEXTS[2] + "/" + WHITE_CASTLING_TEXTS[3] == "r4k1r" + "/" + "p1ppqpb1" + "/" + "bn2pnp1" + "/" + "3PN3";
    assert "r4k1r" + "/" == "r4k1r/";
    assert "r4k1r/" + "p1ppqpb1" == "r4k1r/p1ppqpb1";
    assert "r4k1r/p1ppqpb1" + "/" == "r4k1r/p1ppqpb1/";
    assert "r4k1r/p1ppqpb1/" + "bn2pnp1" == "r4k1r/p1ppqpb1/bn2pnp1";
    assert "r4k1r/p1ppqpb1/bn2pnp1" + "/" == "r4k1r/p1ppqpb1/bn2pnp1/";
    assert "r4k1r/p1ppqpb1/bn2pnp1/" + "3PN3" == "r4k1r/p1ppqpb1/bn2pnp1/3PN3";
  }

  lemma WhiteCastlingLowerPlacement()
    ensures WHITE_CASTLING_TEXTS[4] + "/" + WHITE_CASTLING_TEXTS[5] + "/" + WHITE_CASTLING_TEXTS[6] + "/" + WHITE_CASTLING_TEXTS[7] == "1p2P3/2N2Q1p/PPPBBPPP/R3K2R"
  {
    assert WHITE_CASTLING_TEXTS[4] + "/" + WHITE_CASTLING_TEXTS[5] + "/" + WHITE_CASTLING_TEXTS[6] + "/" + WHITE_CASTLING_TEXTS[7] == "1p2P3" + "/" + "2N2Q1p" + "/" + "PPPBBPPP" + "/" + "R3K2R";
    assert "1p2P3" + "/" == "1p2P3/";
    assert "1p2P3/" + "2N2Q1p" == "1p2P3/2N2Q1p";
    assert "1p2P3/2N2Q1p" + "/" == "1p2P3/2N2Q1p/";
    assert "1p2P3/2N2Q1p/" + "PPPBBPPP" == "1p2P3/2N2Q1p/PPPBBPPP";
    assert "1p2P3/2N2Q1p/PPPBBPPP" + "/" == "1p2P3/2N2Q1p/PPPBBPPP/";
    assert "1p2P3/2N2Q1p/PPPBBPPP/" + "R3K2R" == "1p2P3/2N2Q1p/PPPBBPPP/R3K2R";
  }

  lemma WhiteCastlingHalvesPlacement()
    ensures "r4k1r/p1ppqpb1/bn2pnp1/3PN3" + "/" + "1p2P3/2N2Q1p/PPPBBPPP/R3K2R" == WHITE_CASTLING_PLACEMENT
  {
  }

  lemma WhiteCastlingPlacement()
    ensures Slashed(WHITE_CASTLING_TEXTS) == WHITE_CASTLING_PLACEMENT
  {
    WhiteCastlingUpperPlacement();
    WhiteCastlingLowerPlacement();
    WhiteCastlingHalvesPlacement();
    SlashedHalves(WHITE_CASTLING_TEXTS);
  }

  const BLACK_CASTLING_RANKS: seq<seq<int>> := [
    [-R,  0,  0,  0, -K,  0,  0, -R],
    [-P,  0, -P, -P, -Q, -P, -B,  0],
    [-B, -N,  0,  0, -P, -N, -P,  0],
    [ 0,  0,  0,  P,  N,  0,  0,  0],
    [ 0, -P,  0,  0,  P,  0,  0,  0],
    [ 0,  0,  N,  0,  0,  Q,  0, -P],
    [ P,  P,  P,  B,  B,  P,  P,  P],
    [ R,  0,  0,  0,  0,  K,  0,  R]
  ]
  const BLACK_CASTLING_TEXTS: seq<string> := ["r3k2r", "p1ppqpb1", "bn2pnp1", "3PN3", "1p2P3", "2N2Q1p", "PPPBBPPP", "R4K1R"]
  const BLACK_CASTLING_PLACEMENT: string := "r3k2r/p1ppqpb1/bn2pnp1/3PN3/1p2P3/2N2Q1p/PPPBBPPP/R4K1R"

  lemma BlackCastlingText8()
    ensures IsRank(BLACK_CASTLING_RANKS[0]) && RankText(BLACK_CASTLING_RANKS[0]) == BLACK_CASTLING_TEXTS[0]
  {
  }

  lemma BlackCastlingText7()
    ensures IsRank(BLACK_CASTLING_RANKS[1]) && RankText(BLACK_CASTLING_RANKS[1]) == BLACK_CASTLING_TEXTS[1]
  {
  }

  lemma BlackCastlingText6()
    ensures IsRank(BLACK_CASTLING_RANKS[2]) && RankText(BLACK_CASTLING_RANKS[2]) == BLACK_CASTLING_TEXTS[2]
  {
  }

  lemma BlackCastlingText5()
    ensures IsRank(BLACK_CASTLING_RANKS[3]) && RankText(BLACK_CASTLING_RANKS[3]) == BLACK_CASTLING_TEXTS[3]
  {
  }

  lemma BlackCastlingText4()
    ensures IsRank(BLACK_CASTLING_RANKS[4]) && RankText(BLACK_CASTLING_RANKS[4]) == BLACK_CASTLING_TEXTS[4]
  {
  }

  lemma BlackCastlingText3()
    ensures IsRank(BLACK_CASTLING_RANKS[5]) && RankText(BLACK_CASTLING_RANKS[5]) == BLACK_CASTLING_TEXTS[5]
  {
  }

  lemma BlackCastlingText2()
    ensures IsRank(BLACK_CASTLING_RANKS[6]) && RankText(BLACK_CASTLING_RANKS[6]) == BLACK_CASTLING_TEXTS[6]
  {
  }

  lemma BlackCastlingText1()
    ensures IsRank(BLACK_CASTLING_RANKS[7]) && RankText(BLACK_CASTLING_RANKS[7]) == BLACK_CASTLING_TEXTS[7]
  {
  }

  lemma BlackCastlingUpperPlacement()
    ensures BLACK_CASTLING_TEXTS[0] + "/" + BLACK_CASTLING_TEXTS[1] + "/" + BLACK_CASTLING_TEXTS[2] + "/" + BLACK_CASTLING_TEXTS[3] == "r3k2r/p1ppqpb1/bn2pnp1/3PN3"
  {
    assert BLACK_CASTLING_TEXTS[0] + "/" + BLACK_CASTLING_TEXTS[1] + "/" + BLACK_CASTLING_TEXTS[2] + "/" + BLACK_CASTLING_TEXTS[3] == "r3k2r" + "/" + "p1ppqpb1" + "/" + "bn2pnp1" + "/" + "3PN3";
    assert "r3k2r" + "/" == "r3k2r/";
    assert "r3k2r/" + "p1ppqpb1" == "r3k2r/p1ppqpb1";
    assert "r3k2r/p1ppqpb1" + "/" == "r3k2r/p1ppqpb1/";
    assert "r3k2r/p1ppqpb1/" + "bn2pnp1" == "r3k2r/p1ppqpb1/bn2pnp1";
    assert "r3k2r/p1ppqpb1/bn2pnp1" + "/" == "r3k2r/p1ppqpb1/bn2pnp1/";
    assert "r3k2r/p1ppqpb1/bn2pnp1/" + "3PN3" == "r3k2r/p1ppqpb1/bn2pnp1/3PN3";
  }

  lemma BlackCastlingLowerPlacement()
    ensures BLACK_CASTLING_TEXTS[4] + "/" + BLACK_CASTLING_TEXTS[5] + "/" + BLACK_CASTLING_TEXTS[6] + "/" + BLACK_CASTLING_TEXTS[7] == "1p2P3/2N2Q1p/PPPBBPPP/R4K1R"
  {
    assert BLACK_CASTLING_TEXTS[4] + "/" + BLACK_CASTLING_TEXTS[5] + "/" + BLACK_CASTLING_TEXTS[6] + "/" + BLACK_CASTLING_TEXTS[7] == "1p2P3" + "/" + "2N2Q1p" + "/" + "PPPBBPPP" + "/" + "R4K1R";
    assert "1p2P3" + "/" == "1p2P3/";
    assert "1p2P3/" + "2N2Q1p" == "1p2P3/2N2Q1p";
    assert "1p2P3/2N2Q1p" + "/" == "1p2P3/2N2Q1p/";
    assert "1p2P3/2N2Q1p/" + "PPPBBPPP" == "1p2P3/2N2Q1p/PPPBBPPP";
    assert "1p2P3/2N2Q1p/PPPBBPPP" + "/" == "1p2P3/2N2Q1p/PPPBBPPP/";
    assert "1p2P3/2N2Q1p/PPPBBPPP/" + "R4K1R" == "1p2P3/2N2Q1p/PPPBBPPP/R4K1R";
  }

  lemma BlackCastlingHalvesPlacement()
    ensures "r3k2r/p1ppqpb1/bn2pnp1/3PN3" + "/" + "1p2P3/2N2Q1p/PPPBBPPP/R4K1R" == BLACK_CASTLING_PLACEMENT
  {
  }

  lemma BlackCastlingPlacement()
    ensures Slashed(BLACK_CASTLING_TEXTS) == BLACK_CASTLING_PLACEMENT
  {
    BlackCastlingUpperPlacement();
    BlackCastlingLowerPlacement();
    BlackCastlingHalvesPlacement();
    SlashedHalves(BLACK_CASTLING_TEXTS);
  }

  const KING_SIDE_RANKS: seq<seq<int>> := [
    [ 0, -R,  0,  0, -K,  0,  0, -R],
    [-P,  0, -P, -P, -Q, -P, -B,  0],
    [-B, -N,  0,  0, -P, -N, -P,  0],
    [ 0,  0,  0,  P,  N,  0,  0,  0],
    [ 0, -P,  0,  0,  P,  0,  0,  0],
    [ 0,  0,  N,  0,  0,  Q,  0, -P],
    [ P,  P,  P,  B,  B,  P,  P,  P],
    [ 0,  R,  0,  0,  K,  0,  0,  R]
  ]
  const KING_SIDE_TEXTS: seq<string> := ["1r2k2r", "p1ppqpb1", "bn2pnp1", "3PN3", "1p2P3", "2N2Q1p", "PPPBBPPP", "1R2K2R"]
  const KING_SIDE_PLACEMENT: string := "1r2k2r/p1ppqpb1/bn2pnp1/3PN3/1p2P3/2N2Q1p/PPPBBPPP/1R2K2R"

  lemma KingSideText8()
    ensures IsRank(KING_SIDE_RANKS[0]) && RankText(KING_SIDE_RANKS[0]) == KING_SIDE_TEXTS[0]
  {
  }

  lemma KingSideText7()
    ensures IsRank(KING_SIDE_RANKS[1]) && RankText(KING_SIDE_RANKS[1]) == KING_SIDE_TEXTS[1]
  {
  }

  lemma KingSideText6()
    ensures IsRank(KING_SIDE_RANKS[2]) && RankText(KING_SIDE_RANKS[2]) == KING_SIDE_TEXTS[2]
  {
  }

  lemma KingSideText5()
    ensures IsRank(KING_SIDE_RANKS[3]) && RankText(KING_SIDE_RANKS[3]) == KING_SIDE_TEXTS[3]
  {
  }

  lemma KingSideText4()
    ensures IsRank(KING_SIDE_RANKS[4]) && RankText(KING_SIDE_RANKS[4]) == KING_SIDE_TEXTS[4]
  {
  }

  lemma KingSideText3()
    ensures IsRank(KING_SIDE_RANKS[5]) && RankText(KING_SIDE_RANKS[5]) == KING_SIDE_TEXTS[5]
  {
  }

  lemma KingSideText2()
    ensures IsRank(KING_SIDE_RANKS[6]) && RankText(KING_SIDE_RANKS[6]) == KING_SIDE_TEXTS[6]
  {
  }

  lemma KingSideText1()
    ensures IsRank(KING_SIDE_RANKS[7]) && RankText(KING_SIDE_RANKS[7]) == KING_SIDE_TEXTS[7]
  {
  }

  lemma KingSideUpperPlacement()
    ensures KING_SIDE_TEXTS[0] + "/" + KING_SIDE_TEXTS[1] + "/" + KING_SIDE_TEXTS[2] + "/" + KING_SIDE_TEXTS[3] == "1r2k2r/p1ppqpb1/bn2pnp1/3PN3"
  {
    assert KING_SIDE_TEXTS[0] + "/" + KING_SIDE_TEXTS[1] + "/" + KING_SIDE_TEXTS[2] + "/" + KING_SIDE_TEXTS[3] == "1r2k2r" + "/" + "p1ppqpb1" + "/" + "bn2pnp1" + "/" + "3PN3";
    assert "1r2k2r" + "/" == "1r2k2r/";
    assert "1r2k2r/" + "p1ppqpb1" == "1r2k2r/p1ppqpb1";
    assert "1r2k2r/p1ppqpb1" + "/" == "1r2k2r/p1ppqpb1/";
    assert "1r2k2r/p1ppqpb1/" + "bn2pnp1" == "1r2k2r/p1ppqpb1/bn2pnp1";
    assert "1r2k2r/p1ppqpb1/bn2pnp1" + "/" == "1r2k2r/p1ppqpb1/bn2pnp1/";
    assert "1r2k2r/p1ppqpb1/bn2pnp1/" + "3PN3" == "1r2k2r/p1ppqpb1/bn2pnp1/3PN3";
  }

  lemma KingSideLowerPlacement()
    ensures KING_SIDE_TEXTS[4] + "/" + KING_SIDE_TEXTS[5] + "/" + KING_SIDE_TEXTS[6] + "/" + KING_SIDE_TEXTS[7] == "1p2P3/2N2Q1p/PPPBBPPP/1R2K2R"
  {
    assert KING_SIDE_TEXTS[4] + "/" + KING_SIDE_TEXTS[5] + "/" + KING_SIDE_TEXTS[6] + "/" + KING_SIDE_TEXTS[7] == "1p2P3" + "/" + "2N2Q1p" + "/" + "PPPBBPPP" + "/" + "1R2K2R";
    assert "1p2P3" + "/" == "1p2P3/";
    assert "1p2P3/" + "2N2Q1p" == "1p2P3/2N2Q1p";
    assert "1p2P3/2N2Q1p" + "/" == "1p2P3/2N2Q1p/";
    assert "1p2P3/2N2Q1p/" + "PPPBBPPP" == "1p2P3/2N2Q1p/PPPBBPPP";
    assert "1p2P3/2N2Q1p/PPPBBPPP" + "/" == "1p2P3/2N2Q1p/PPPBBPPP/";
    assert "1p2P3/2N2Q1p/PPPBBPPP/" + "1R2K2R" == "1p2P3/2N2Q1p/PPPBBPPP/1R2K2R";
  }

  lemma KingSideHalvesPlacement()
    ensures "1r2k2r/p1ppqpb1/bn2pnp1/3PN3" + "/" + "1p2P3/2N2Q1p/PPPBBPPP/1R2K2R" == KING_SIDE_PLACEMENT
  {
  }

  lemma KingSidePlacement()
    ensures Slashed(KING_SIDE_TEXTS) == KING_SIDE_PLACEMENT
  {
    KingSideUpperPlacement();
    KingSideLowerPlacement();
    KingSideHalvesPlacement();
    SlashedHalves(KING_SIDE_TEXTS);
  }

  const QUEEN_SIDE_RANKS: seq<seq<int>> := [
    [-R,  0,  0,  0, -K,  0, -R,  0],
    [-P,  0, -P, -P, -Q, -P, -B,  0],
    [-B, -N,  0,  0, -P, -N, -P,  0],
    [ 0,  0,  0,  P,  N,  0,  0,  0],
    [ 0, -P,  0,  0,  P,  0,  0,  0],
    [ 0,  0,  N,  0,  0,  Q,  0, -P],
    [ P,  P,  P,  B,  B,  P,  P,  P],
    [ R,  0,  0,  0,  K,  0,  R,  0]
  ]
  const QUEEN_SIDE_TEXTS: seq<string> := ["r3k1r1", "p1ppqpb1", "bn2pnp1", "3PN3", "1p2P3", "2N2Q1p", "PPPBBPPP", "R3K1R1"]
  const QUEEN_SIDE_PLACEMENT: string := "r3k1r1/p1ppqpb1/bn2pnp1/3PN3/1p2P3/2N2Q1p/PPPBBPPP/R3K1R1"

  lemma QueenSideText8()
    ensures IsRank(QUEEN_SIDE_RANKS[0]) && RankText(QUEEN_SIDE_RANKS[0]) == QUEEN_SIDE_TEXTS[0]
  {
  }

  lemma QueenSideText7()
    ensures IsRank(QUEEN_SIDE_RANKS[1]) && RankText(QUEEN_SIDE_RANKS[1]) == QUEEN_SIDE_TEXTS[1]
  {
  }

  lemma QueenSideText6()
    ensures IsRank(QUEEN_SIDE_RANKS[2]) && RankText(QUEEN_SIDE_RANKS[2]) == QUEEN_SIDE_TEXTS[2]
  {
  }

  lemma QueenSideText5()
    ensures IsRank(QUEEN_SIDE_RANKS[3]) && RankText(QUEEN_SIDE_RANKS[3]) == QUEEN_SIDE_TEXTS[3]
  {
  }

  lemma QueenSideText4()
    ensures IsRank(QUEEN_SIDE_RANKS[4]) && RankText(QUEEN_SIDE_RANKS[4]) == QUEEN_SIDE_TEXTS[4]
  {
  }

  lemma QueenSideText3()
    ensures IsRank(QUEEN_SIDE_RANKS[5]) && RankText(QUEEN_SIDE_RANKS[5]) == QUEEN_SIDE_TEXTS[5]
  {
  }

  lemma QueenSideText2()
    ensures IsRank(QUEEN_SIDE_RANKS[6]) && RankText(QUEEN_SIDE_RANKS[6]) == QUEEN_SIDE_TEXTS[6]
  {
  }

  lemma QueenSideText1()
    ensures IsRank(QUEEN_SIDE_RANKS[7]) && RankText(QUEEN_SIDE_RANKS[7]) == QUEEN_SIDE_TEXTS[7]
  {
  }

  lemma QueenSideUpperPlacement()
    ensures QUEEN_SIDE_TEXTS[0] + "/" + QUEEN_SIDE_TEXTS[1] + "/" + QUEEN_SIDE_TEXTS[2] + "/" + QUEEN_SIDE_TEXTS[3] == "r3k1r1/p1ppqpb1/bn2pnp1/3PN3"
  {
    assert QUEEN_SIDE_TEXTS[0] + "/" + QUEEN_SIDE_TEXTS[1] + "/" + QUEEN_SIDE_TEXTS[2] + "/" + QUEEN_SIDE_TEXTS[3] == "r3k1r1" + "/" + "p1ppqpb1" + "/" + "bn2pnp1" + "/" + "3PN3";
    assert "r3k1r1" + "/" == "r3k1r1/";
    assert "r3k1r1/" + "p1ppqpb1" == "r3k1r1/p1ppqpb1";
    assert "r3k1r1/p1ppqpb1" + "/" == "r3k1r1/p1ppqpb1/";
    assert "r3k1r1/p1ppqpb1/" + "bn2pnp1" == "r3k1r1/p1ppqpb1/bn2pnp1";
    assert "r3k1r1/p1ppqpb1/bn2pnp1" + "/" == "r3k1r1/p1ppqpb1/bn2pnp1/";
    assert "r3k1r1/p1ppqpb1/bn2pnp1/" + "3PN3" == "r3k1r1/p1ppqpb1/bn2pnp1/3PN3";
  }

  lemma QueenSideLowerPlacement()
    ensures QUEEN_SIDE_TEXTS[4] + "/" + QUEEN_SIDE_TEXTS[5] + "/" + QUEEN_SIDE_TEXTS[6] + "/" + QUEEN_SIDE_TEXTS[7] == "1p2P3/2N2Q1p/PPPBBPPP/R3K1R1"
  {
    assert QUEEN_SIDE_TEXTS[4] + "/" + QUEEN_SIDE_TEXTS[5] + "/" + QUEEN_SIDE_TEXTS[6] + "/" + QUEEN_SIDE_TEXTS[7] == "1p2P3" + "/" + "2N2Q1p" + "/" + "PPPBBPPP" + "/" + "R3K1R1";
    assert "1p2P3" + "/" == "1p2P3/";
    assert "1p2P3/" + "2N2Q1p" == "1p2P3/2N2Q1p";
    assert "1p2P3/2N2Q1p" + "/" == "1p2P3/2N2Q1p/";
    assert "1p2P3/2N2Q1p/" + "PPPBBPPP" == "1p2P3/2N2Q1p/PPPBBPPP";
    assert "1p2P3/2N2Q1p/PPPBBPPP" + "/" == "1p2P3/2N2Q1p/PPPBBPPP/";
    assert "1p2P3/2N2Q1p/PPPBBPPP/" + "R3K1R1" == "1p2P3/2N2Q1p/PPPBBPPP/R3K1R1";
  }

  lemma QueenSideHalvesPlacement()
    ensures "r3k1r1/p1ppqpb1/bn2pnp1/3PN3" + "/" + "1p2P3/2N2Q1p/PPPBBPPP/R3K1R1" == QUEEN_SIDE_PLACEMENT
  {
  }

  lemma QueenSidePlacement()
    ensures Slashed(QUEEN_SIDE_TEXTS) == QUEEN_SIDE_PLACEMENT
  {
    QueenSideUpperPlacement();
    QueenSideLowerPlacement();
    QueenSideHalvesPlacement();
    SlashedHalves(QUEEN_SIDE_TEXTS);
  }

  const BLACK_EN_PASSANT_RANKS: seq<seq<int>> := [
    [-R, -N, -B, -Q, -K, -B, -N, -R],
    [-P,  0, -P, -P, -P, -P, -P, -P],
    [ 0,  0,  0,  0,  0,  0,  0,  0],
    [ 0,  0,  0,  0,  0,  0,  0,  0],
    [ P, -P,  0,  0,  0,  0,  0,  0],
    [ 0,  0,  0,  0,  0,  0,  0,  0],
    [ 0,  P,  P,  P,  P,  P,  P,  P],
    [ R,  N,  B,  Q,  K,  B,  N,  R]
  ]
  const BLACK_EN_PASSANT_TEXTS: seq<string> := ["rnbqkbnr", "p1pppppp", "8", "8", "Pp6", "8", "1PPPPPPP", "RNBQKBNR"]
  const BLACK_EN_PASSANT_PLACEMENT: string := "rnbqkbnr/p1pppppp/8/8/Pp6/8/1PPPPPPP/RNBQKBNR"

  lemma BlackEnPassantText8()
    ensures IsRank(BLACK_EN_PASSANT_RANKS[0]) && RankText(BLACK_EN_PASSANT_RANKS[0]) == BLACK_EN_PASSANT_TEXTS[0]
  {
  }

  lemma BlackEnPassantText7()
    ensures IsRank(BLACK_EN_PASSANT_RANKS[1]) && RankText(BLACK_EN_PASSANT_RANKS[1]) == BLACK_EN_PASSANT_TEXTS[1]
  {
  }

  lemma BlackEnPassantText6()
    ensures IsRank(BLACK_EN_PASSANT_RANKS[2]) && RankText(BLACK_EN_PASSANT_RANKS[2]) == BLACK_EN_PASSANT_TEXTS[2]
  {
  }

  lemma BlackEnPassantText5()
    ensures IsRank(BLACK_EN_PASSANT_RANKS[3]) && RankText(BLACK_EN_PASSANT_RANKS[3]) == BLACK_EN_PASSANT_TEXTS[3]
  {
  }

  lemma BlackEnPassantText4()
    ensures IsRank(BLACK_EN_PASSANT_RANKS[4]) && RankText(BLACK_EN_PASSANT_RANKS[4]) == BLACK_EN_PASSANT_TEXTS[4]
  {
  }

  lemma BlackEnPassantText3()
    ensures IsRank(BLACK_EN_PASSANT_RANKS[5]) && RankText(BLACK_EN_PASSANT_RANKS[5]) == BLACK_EN_PASSANT_TEXTS[5]
  {
  }

  lemma BlackEnPassantText2()
    ensures IsRank(BLACK_EN_PASSANT_RANKS[6]) && RankText(BLACK_EN_PASSANT_RANKS[6]) == BLACK_EN_PASSANT_TEXTS[6]
  {
  }

  lemma BlackEnPassantText1()
    ensures IsRank(BLACK_EN_PASSANT_RANKS[7]) && RankText(BLACK_EN_PASSANT_RANKS[7]) == BLACK_EN_PASSANT_TEXTS[7]
  {
  }

  lemma BlackEnPassantUpperPlacement()
    ensures BLACK_EN_PASSANT_TEXTS[0] + "/" + BLACK_EN_PASSANT_TEXTS[1] + "/" + BLACK_EN_PASSANT_TEXTS[2] + "/" + BLACK_EN_PASSANT_TEXTS[3] == "rnbqkbnr/p1pppppp/8/8"
  {
    assert BLACK_EN_PASSANT_TEXTS[0] + "/" + BLACK_EN_PASSANT_TEXTS[1] + "/" + BLACK_EN_PASSANT_TEXTS[2] + "/" + BLACK_EN_PASSANT_TEXTS[3] == "rnbqkbnr" + "/" + "p1pppppp" + "/" + "8" + "/" + "8";
    assert "rnbqkbnr" + "/" == "rnbqkbnr/";
    assert "rnbqkbnr/" + "p1pppppp" == "rnbqkbnr/p1pppppp";
    assert "rnbqkbnr/p1pppppp" + "/" == "rnbqkbnr/p1pppppp/";
    assert "rnbqkbnr/p1pppppp/" + "8" == "rnbqkbnr/p1pppppp/8";
    assert "rnbqkbnr/p1pppppp/8" + "/" == "rnbqkbnr/p1pppppp/8/";
    assert "rnbqkbnr/p1pppppp/8/" + "8" == "rnbqkbnr/p1pppppp/8/8";
  }

  lemma BlackEnPassantLowerPlacement()
    ensures BLACK_EN_PASSANT_TEXTS[4] + "/" + BLACK_EN_PASSANT_TEXTS[5] + "/" + BLACK_EN_PASSANT_TEXTS[6] + "/" + BLACK_EN_PASSANT_TEXTS[7] == "Pp6/8/1PPPPPPP/RNBQKBNR"
  {
    assert BLACK_EN_PASSANT_TEXTS[4] + "/" + BLACK_EN_PASSANT_TEXTS[5] + "/" + BLACK_EN_PASSANT_TEXTS[6] + "/" + BLACK_EN_PASSANT_TEXTS[7] == "Pp6" + "/" + "8" + "/" + "1PPPPPPP" + "/" + "RNBQKBNR";
    assert "Pp6" + "/" == "Pp6/";
    assert "Pp6/" + "8" == "Pp6/8";
    assert "Pp6/8" + "/" == "Pp6/8/";
    assert "Pp6/8/" + "1PPPPPPP" == "Pp6/8/1PPPPPPP";
    assert "Pp6/8/1PPPPPPP" + "/" == "Pp6/8/1PPPPPPP/";
    assert "Pp6/8/1PPPPPPP/" + "RNBQKBNR" == "Pp6/8/1PPPPPPP/RNBQKBNR";
  }

  lemma BlackEnPassantHalvesPlacement()
    ensures "rnbqkbnr/p1pppppp/8/8" + "/" + "Pp6/8/1PPPPPPP/RNBQKBNR" == BLACK_EN_PASSANT_PLACEMENT
  {
  }

  lemma BlackEnPassantPlacement()
    ensures Slashed(BLACK_EN_PASSANT_TEXTS) == BLACK_EN_PASSANT_PLACEMENT
  {
    BlackEnPassantUpperPlacement();
    BlackEnPassantLowerPlacement();
    BlackEnPassantHalvesPlacement();
    SlashedHalves(BLACK_EN_PASSANT_TEXTS);
  }

  const WHITE_EN_PASSANT_RANKS: seq<seq<int>> := [
    [-R, -N, -B, -Q, -K, -B, -N, -R],
    [-P, -P, -P, -P, -P, -P, -P,  0],
    [ 0,  0,  0,  0,  0,  0,  0,  0],
    [ 0,  0,  0,  0,  0,  0,  P, -P],
    [ 0,  0,  0,  0,  0,  0,  0,  0],
    [ 0,  0,  0,  0,  0,  0,  0,  0],
    [ P,  P,  P,  P,  P,  P,  0,  P],
    [ R,  N,  B,  Q,  K,  B,  N,  R]
  ]
  const WHITE_EN_PASSANT_TEXTS: seq<string> := ["rnbqkbnr", "ppppppp1", "8", "6Pp", "8", "8", "PPPPPP1P", "RNBQKBNR"]
  const WHITE_EN_PASSANT_PLACEMENT: string := "rnbqkbnr/ppppppp1/8/6Pp/8/8/PPPPPP1P/RNBQKBNR"

  lemma WhiteEnPassantText8()
    ensures IsRank(WHITE_EN_PASSANT_RANKS[0]) && RankText(WHITE_EN_PASSANT_RANKS[0]) == WHITE_EN_PASSANT_TEXTS[0]
  {
  }

  lemma WhiteEnPassantText7()
    ensures IsRank(WHITE_EN_PASSANT_RANKS[1]) && RankText(WHITE_EN_PASSANT_RANKS[1]) == WHITE_EN_PASSANT_TEXTS[1]
  {
  }

  lemma WhiteEnPassantText6()
    ensures IsRank(WHITE_EN_PASSANT_RANKS[2]) && RankText(WHITE_EN_PASSANT_RANKS[2]) == WHITE_EN_PASSANT_TEXTS[2]
  {
  }

  lemma WhiteEnPassantText5()
    ensures IsRank(WHITE_EN_PASSANT_RANKS[3]) && RankText(WHITE_EN_PASSANT_RANKS[3]) == WHITE_EN_PASSANT_TEXTS[3]
  {
  }

  lemma WhiteEnPassantText4()
    ensures IsRank(WHITE_EN_PASSANT_RANKS[4]) && RankText(WHITE_EN_PASSANT_RANKS[4]) == WHITE_EN_PASSANT_TEXTS[4]
  {
  }

  lemma WhiteEnPassantText3()
    ensures IsRank(WHITE_EN_PASSANT_RANKS[5]) && RankText(WHITE_EN_PASSANT_RANKS[5]) == WHITE_EN_PASSANT_TEXTS[5]
  {
  }

  lemma WhiteEnPassantText2()
    ensures IsRank(WHITE_EN_PASSANT_RANKS[6]) && RankText(WHITE_EN_PASSANT_RANKS[6]) == WHITE_EN_PASSANT_TEXTS[6]
  {
  }

  lemma WhiteEnPassantText1()
    ensures IsRank(WHITE_EN_PASSANT_RANKS[7]) && RankText(WHITE_EN_PASSANT_RANKS[7]) == WHITE_EN_PASSANT_TEXTS[7]
  {
  }

  lemma WhiteEnPassantUpperPlacement()
    ensures WHITE_EN_PASSANT_TEXTS[0] + "/" + WHITE_EN_PASSANT_TEXTS[1] + "/" + WHITE_EN_PASSANT_TEXTS[2] + "/" + WHITE_EN_PASSANT_TEXTS[3] == "rnbqkbnr/ppppppp1/8/6Pp"
  {
    assert WHITE_EN_PASSANT_TEXTS[0] + "/" + WHITE_EN_PASSANT_TEXTS[1] + "/" + WHITE_EN_PASSANT_TEXTS[2] + "/" + WHITE_EN_PASSANT_TEXTS[3] == "rnbqkbnr" + "/" + "ppppppp1" + "/" + "8" + "/" + "6Pp";
    assert "rnbqkbnr" + "/" == "rnbqkbnr/";
    assert "rnbqkbnr/" + "ppppppp1" == "rnbqkbnr/ppppppp1";
    assert "rnbqkbnr/ppppppp1" + "/" == "rnbqkbnr/ppppppp1/";
    assert "rnbqkbnr/ppppppp1/" + "8" == "rnbqkbnr/ppppppp1/8";
    assert "rnbqkbnr/ppppppp1/8" + "/" == "rnbqkbnr/ppppppp1/8/";
    assert "rnbqkbnr/ppppppp1/8/" + "6Pp" == "rnbqkbnr/ppppppp1/8/6Pp";
  }

  lemma WhiteEnPassantLowerPlacement()
    ensures WHITE_EN_PASSANT_TEXTS[4] + "/" + WHITE_EN_PASSANT_TEXTS[5] + "/" + WHITE_EN_PASSANT_TEXTS[6] + "/" + WHITE_EN_PASSANT_TEXTS[7] == "8/8/PPPPPP1P/RNBQKBNR"
  {
    assert WHITE_EN_PASSANT_TEXTS[4] + "/" + WHITE_EN_PASSANT_TEXTS[5] + "/" + WHITE_EN_PASSANT_TEXTS[6] + "/" + WHITE_EN_PASSANT_TEXTS[7] == "8" + "/" + "8" + "/" + "PPPPPP1P" + "/" + "RNBQKBNR";
    assert "8" + "/" == "8/";
    assert "8/" + "8" == "8/8";
    assert "8/8" + "/" == "8/8/";
    assert "8/8/" + "PPPPPP1P" == "8/8/PPPPPP1P";
    assert "8/8/PPPPPP1P" + "/" == "8/8/PPPPPP1P/";
    assert "8/8/PPPPPP1P/" + "RNBQKBNR" == "8/8/PPPPPP1P/RNBQKBNR";
  }

  lemma WhiteEnPassantHalvesPlacement()
    ensures "rnbqkbnr/ppppppp1/8/6Pp" + "/" + "8/8/PPPPPP1P/RNBQKBNR" == WHITE_EN_PASSANT_PLACEMENT
  {
  }

  lemma WhiteEnPassantPlacement()
    ensures Slashed(WHITE_EN_PASSANT_TEXTS) == WHITE_EN_PASSANT_PLACEMENT
  {
    WhiteEnPassantUpperPlacement();
    WhiteEnPassantLowerPlacement();
    WhiteEnPassantHalvesPlacement();
    SlashedHalves(WHITE_EN_PASSANT_TEXTS);
  }

  const PUSHED_RANKS: seq<seq<int>> := [
    [-R, -N, -B, -Q, -K, -B, -N, -R],
    [-P, -P, -P, -P, -P, -P, -P, -P],
    [ 0,  0,  0,  0,  0,  0,  0,  0],
    [ 0,  0,  0,  0,  0,  0,  0,  0],
    [ 0,  0,  0,  P,  0,  0,  0,  0],
    [ 0,  0,  0,  0,  0,  0,  0,  0],
    [ P,  P,  P,  0,  P,  P,  P,  P],
    [ R,  N,  B,  Q,  K,  B,  N,  R]
  ]
  const PUSHED_TEXTS: seq<string> := ["rnbqkbnr", "pppppppp", "8", "8", "3P4", "8", "PPP1PPPP", "RNBQKBNR"]
  const PUSHED_PLACEMENT: string := "rnbqkbnr/pppppppp/8/8/3P4/8/PPP1PPPP/RNBQKBNR"

  lemma PushedText8()
    ensures IsRank(PUSHED_RANKS[0]) && RankText(PUSHED_RANKS[0]) == PUSHED_TEXTS[0]
  {
  }

  lemma PushedText7()
    ensures IsRank(PUSHED_RANKS[1]) && RankText(PUSHED_RANKS[1]) == PUSHED_TEXTS[1]
  {
  }

  lemma PushedText6()
    ensures IsRank(PUSHED_RANKS[2]) && RankText(PUSHED_RANKS[2]) == PUSHED_TEXTS[2]
  {
  }

  lemma PushedText5()
    ensures IsRank(PUSHED_RANKS[3]) && RankText(PUSHED_RANKS[3]) == PUSHED_TEXTS[3]
  {
  }

  lemma PushedText4()
    ensures IsRank(PUSHED_RANKS[4]) && RankText(PUSHED_RANKS[4]) == PUSHED_TEXTS[4]
  {
  }

  lemma PushedText3()
    ensures IsRank(PUSHED_RANKS[5]) && RankText(PUSHED_RANKS[5]) == PUSHED_TEXTS[5]
  {
  }

  lemma PushedText2()
    ensures IsRank(PUSHED_RANKS[6]) && RankText(PUSHED_RANKS[6]) == PUSHED_TEXTS[6]
  {
  }

  lemma PushedText1()
    ensures IsRank(PUSHED_RANKS[7]) && RankText(PUSHED_RANKS[7]) == PUSHED_TEXTS[7]
  {
  }

  lemma PushedUpperPlacement()
    ensures PUSHED_TEXTS[0] + "/" + PUSHED_TEXTS[1] + "/" + PUSHED_TEXTS[2] + "/" + PUSHED_TEXTS[3] == "rnbqkbnr/pppppppp/8/8"
  {
    assert PUSHED_TEXTS[0] + "/" + PUSHED_TEXTS[1] + "/" + PUSHED_TEXTS[2] + "/" + PUSHED_TEXTS[3] == "rnbqkbnr" + "/" + "pppppppp" + "/" + "8" + "/" + "8";
    assert "rnbqkbnr" + "/" == "rnbqkbnr/";
    assert "rnbqkbnr/" + "pppppppp" == "rnbqkbnr/pppppppp";
    assert "rnbqkbnr/pppppppp" + "/" == "rnbqkbnr/pppppppp/";
    assert "rnbqkbnr/pppppppp/" + "8" == "rnbqkbnr/pppppppp/8";
    assert "rnbqkbnr/pppppppp/8" + "/" == "rnbqkbnr/pppppppp/8/";
    assert "rnbqkbnr/pppppppp/8/" + "8" == "rnbqkbnr/pppppppp/8/8";
  }

  lemma PushedLowerPlacement()
    ensures PUSHED_TEXTS[4] + "/" + PUSHED_TEXTS[5] + "/" + PUSHED_TEXTS[6] + "/" + PUSHED_TEXTS[7] == "3P4/8/PPP1PPPP/RNBQKBNR"
  {
    assert PUSHED_TEXTS[4] + "/" + PUSHED_TEXTS[5] + "/" + PUSHED_TEXTS[6] + "/" + PUSHED_TEXTS[7] == "3P4" + "/" + "8" + "/" + "PPP1PPPP" + "/" + "RNBQKBNR";
    assert "3P4" + "/" == "3P4/";
    assert "3P4/" + "8" == "3P4/8";
    assert "3P4/8" + "/" == "3P4/8/";
    assert "3P4/8/" + "PPP1PPPP" == "3P4/8/PPP1PPPP";
    assert "3P4/8/PPP1PPPP" + "/" == "3P4/8/PPP1PPPP/";
    assert "3P4/8/PPP1PPPP/" + "RNBQKBNR" == "3P4/8/PPP1PPPP/RNBQKBNR";
  }

  lemma PushedHalvesPlacement()
    ensures "rnbqkbnr/pppppppp/8/8" + "/" + "3P4/8/PPP1PPPP/RNBQKBNR" == PUSHED_PLACEMENT
  {
  }

  lemma PushedPlacement()
    ensures Slashed(PUSHED_TEXTS) == PUSHED_PLACEMENT
  {
    PushedUpperPlacement();
    PushedLowerPlacement();
    PushedHalvesPlacement();
    SlashedHalves(PUSHED_TEXTS);
  }

  /** A double push changes the placement in exactly two squares: the start
      square empties and the end square receives the pawn; every other rank
      is unchanged. */
  lemma DoublePushRow(p: Position, start: int, end: int, row: int)
    requires WellFormed(p) && IsDoublePush(p, PAWN, start, end) && 2 <= row <= 9
    ensures GridRow(DoublePush(p, start, end).cells, row) ==
      if row == Row(end) then GridRow(p.cells, row)[Col(end) - 1 := p.cells[start]]
      else if row == Row(start) then GridRow(p.cells, row)[Col(start) - 1 := 0]
      else GridRow(p.cells, row)
  {
    var moved := p.cells[start := 0];
    assert Row(end) != Row(start);
    GridRowUpdate(p.cells, start, 0, row);
    GridRowUpdate(moved, end, p.cells[start], row);
  }

  /** The white pawn double push d2-d4 (square 84 to square 64) from the
      starting layout is a legal double push and yields the layout `PUSHED_RANKS`. */
  lemma PushedRanks(p: Position)
    requires WellFormed(p) && forall row :: 2 <= row <= 9 ==> GridRow(p.cells, row) == START_RANKS[row - 2]
    requires p.halfMoveCount == 0
    ensures IsDoublePush(p, PAWN, 84, 64)
    ensures forall row :: 2 <= row <= 9 ==> GridRow(DoublePush(p, 84, 64).cells, row) == PUSHED_RANKS[row - 2]
  {
    assert p.cells[84] == GridRow(p.cells, 8)[3];
    assert p.cells[64] == GridRow(p.cells, 6)[3];
    assert PUSHED_RANKS[4] == START_RANKS[4][3 := P] && PUSHED_RANKS[6] == START_RANKS[6][3 := 0];
    assert forall k :: 0 <= k < 8 && k != 4 && k != 6 ==> PUSHED_RANKS[k] == START_RANKS[k];
    forall row | 2 <= row <= 9 ensures GridRow(DoublePush(p, 84, 64).cells, row) == PUSHED_RANKS[row - 2] {
      DoublePushRow(p, 84, 64, row);
    }
  }

  // ----- The exporter's examples -----

  lemma StartingPositionRecord()
    ensures Record(START_PLACEMENT, "w", "KQkq", "-", "0", "1") == "rnbqkbnr/pppppppp/8/8/8/8/PPPPPPPP/RNBQKBNR w KQkq - 0 1"
  {
  }

  lemma StartingPositionFields(p: Position)
    requires p.halfMoveClock == 0 && p.halfMoveCount == 0 && p.stateFlags == 0
    requires p.enPassant == NoEnPassant
    ensures ActiveColor(p) == "w" && CastlingField(p.stateFlags) == "KQkq" && EnPassantField(p.enPassant) == "-"
    ensures Decimal(p.halfMoveClock) == "0" && Decimal(p.halfMoveCount / 2 + 1) == "1"
  {
  }

  /** The starting layout with zero clocks and flags. */
  lemma StartingPositionExport(p: Position)
    requires WellFormed(p) && forall row :: 2 <= row <= 9 ==> GridRow(p.cells, row) == START_RANKS[row - 2]
    requires p.halfMoveClock == 0 && p.halfMoveCount == 0 && p.stateFlags == 0
    requires p.enPassant == NoEnPassant
    ensures ToFEN(p) == "rnbqkbnr/pppppppp/8/8/8/8/PPPPPPPP/RNBQKBNR w KQkq - 0 1"
  {
    StartText8(); StartText7();
    StartText6(); StartText5();
    StartText4(); StartText3();
    StartText2(); StartText1();
    StartPlacement();
    StartingPositionRecord();
    StartingPositionFields(p);
    FenOfBoard(p, START_RANKS, START_TEXTS, START_PLACEMENT, "rnbqkbnr/pppppppp/8/8/8/8/PPPPPPPP/RNBQKBNR w KQkq - 0 1");
  }

  /** The board of the example, built and exported through the board object. */
  method StartingPositionScenario() returns (fen: string)
    ensures fen == "rnbqkbnr/pppppppp/8/8/8/8/PPPPPPPP/RNBQKBNR w KQkq - 0 1"
  {
    BorderedLayout(START_RANKS, 0, 0, 0);
    var board := new Board(Bordered(START_RANKS, 0, 0, 0));
    StartingPositionExport(board.State());
    fen := ToFEN(board.State());
  }

  lemma TestPositionRecord()
    ensures Record(TEST_PLACEMENT, "w", "KQkq", "-", "0", "1") == "r3k2r/p1ppqpb1/bn2pnp1/3PN3/1p2P3/2N2Q1p/PPPBBPPP/R3K2R w KQkq - 0 1"
  {
  }

  lemma TestPositionFields(p: Position)
    requires p.halfMoveClock == 0 && p.halfMoveCount == 0 && p.stateFlags == 0
    requires p.enPassant == NoEnPassant
    ensures ActiveColor(p) == "w" && CastlingField(p.stateFlags) == "KQkq" && EnPassantField(p.enPassant) == "-"
    ensures Decimal(p.halfMoveClock) == "0" && Decimal(p.halfMoveCount / 2 + 1) == "1"
  {
  }

  /** A middle-game layout with every castling right. */
  lemma TestPositionExport(p: Position)
    requires WellFormed(p) && forall row :: 2 <= row <= 9 ==> GridRow(p.cells, row) == TEST_RANKS[row - 2]
    requires p.halfMoveClock == 0 && p.halfMoveCount == 0 && p.stateFlags == 0
    requires p.enPassant == NoEnPassant
    ensures ToFEN(p) == "r3k2r/p1ppqpb1/bn2pnp1/3PN3/1p2P3/2N2Q1p/PPPBBPPP/R3K2R w KQkq - 0 1"
  {
    TestText8(); TestText7();
    TestText6(); TestText5();
    TestText4(); TestText3();
    TestText2(); TestText1();
    TestPlacement();
    TestPositionRecord();
    TestPositionFields(p);
    FenOfBoard(p, TEST_RANKS, TEST_TEXTS, TEST_PLACEMENT, "r3k2r/p1ppqpb1/bn2pnp1/3PN3/1p2P3/2N2Q1p/PPPBBPPP/R3K2R w KQkq - 0 1");
  }

  /** The board of the example, built and exported through the board object. */
  method TestPositionScenario() returns (fen: string)
    ensures fen == "r3k2r/p1ppqpb1/bn2pnp1/3PN3/1p2P3/2N2Q1p/PPPBBPPP/R3K2R w KQkq - 0 1"
  {
    BorderedLayout(TEST_RANKS, 0, 0, 0);
    var board := new Board(Bordered(TEST_RANKS, 0, 0, 0));
    TestPositionExport(board.State());
    fen := ToFEN(board.State());
  }

  lemma ActivePlayerRecord()
    ensures Record(PUSHED_PLACEMENT, "b", "KQkq", "d3", "0", "1") == "rnbqkbnr/pppppppp/8/8/3P4/8/PPP1PPPP/RNBQKBNR b KQkq d3 0 1"
  {
  }

  lemma ActivePlayerFields(p: Position)
    requires p.halfMoveClock == 0 && p.halfMoveCount == 1 && p.stateFlags == 0
    requires p.enPassant == EnPassantSlot(SlotOf(84))
    ensures ActiveColor(p) == "b" && CastlingField(p.stateFlags) == "KQkq" && EnPassantField(p.enPassant) == "d3"
    ensures Decimal(p.halfMoveClock) == "0" && Decimal(p.halfMoveCount / 2 + 1) == "1"
  {
  }

  /** The starting layout after the white pawn double push d2-d4 (squares 84 to 64). */
  lemma ActivePlayerExport(p: Position)
    requires WellFormed(p) && forall row :: 2 <= row <= 9 ==> GridRow(p.cells, row) == PUSHED_RANKS[row - 2]
    requires p.halfMoveClock == 0 && p.halfMoveCount == 1 && p.stateFlags == 0
    requires p.enPassant == EnPassantSlot(SlotOf(84))
    ensures ToFEN(p) == "rnbqkbnr/pppppppp/8/8/3P4/8/PPP1PPPP/RNBQKBNR b KQkq d3 0 1"
  {
    PushedText8(); PushedText7();
    PushedText6(); PushedText5();
    PushedText4(); PushedText3();
    PushedText2(); PushedText1();
    PushedPlacement();
    ActivePlayerRecord();
    ActivePlayerFields(p);
    FenOfBoard(p, PUSHED_RANKS, PUSHED_TEXTS, PUSHED_PLACEMENT, "rnbqkbnr/pppppppp/8/8/3P4/8/PPP1PPPP/RNBQKBNR b KQkq d3 0 1");
  }

  /** The board of the example, built and exported through the board object. */
  method ActivePlayerScenario() returns (fen: string)
    ensures fen == "rnbqkbnr/pppppppp/8/8/3P4/8/PPP1PPPP/RNBQKBNR b KQkq d3 0 1"
  {
    BorderedLayout(START_RANKS, 0, 0, 0);
    var board := new Board(Bordered(START_RANKS, 0, 0, 0));
    DecodeEncode(P, 84, 64);
    PushedRanks(board.State());
    board.PerformEncodedMove(EncodeMove(P, 84, 64).move);
    ActivePlayerExport(board.State());
    fen := ToFEN(board.State());
  }

  lemma NoCastlingRecord()
    ensures Record(NO_CASTLING_PLACEMENT, "w", "-", "-", "0", "1") == "r4k1r/p1ppqpb1/bn2pnp1/3PN3/1p2P3/2N2Q1p/PPPBBPPP/R4K1R w - - 0 1"
  {
  }

  lemma NoCastlingFields(p: Position)
    requires p.halfMoveClock == 0 && p.halfMoveCount == 0 && p.stateFlags == BLACK_KING_MOVED + WHITE_KING_MOVED
    requires p.enPassant == NoEnPassant
    ensures ActiveColor(p) == "w" && CastlingField(p.stateFlags) == "-" && EnPassantField(p.enPassant) == "-"
    ensures Decimal(p.halfMoveClock) == "0" && Decimal(p.halfMoveCount / 2 + 1) == "1"
  {
  }

  /** Both kings have moved: no castling right is left. */
  lemma NoCastlingExport(p: Position)
    requires WellFormed(p) && forall row :: 2 <= row <= 9 ==> GridRow(p.cells, row) == NO_CASTLING_RANKS[row - 2]
    requires p.halfMoveClock == 0 && p.halfMoveCount == 0 && p.stateFlags == BLACK_KING_MOVED + WHITE_KING_MOVED
    requires p.enPassant == NoEnPassant
    ensures ToFEN(p) == "r4k1r/p1ppqpb1/bn2pnp1/3PN3/1p2P3/2N2Q1p/PPPBBPPP/R4K1R w - - 0 1"
  {
    NoCastlingText8(); NoCastlingText7();
    NoCastlingText6(); NoCastlingText5();
    NoCastlingText4(); NoCastlingText3();
    NoCastlingText2(); NoCastlingText1();
    NoCastlingPlacement();
    NoCastlingRecord();
    NoCastlingFields(p);
    FenOfBoard(p, NO_CASTLING_RANKS, NO_CASTLING_TEXTS, NO_CASTLING_PLACEMENT, "r4k1r/p1ppqpb1/bn2pnp1/3PN3/1p2P3/2N2Q1p/PPPBBPPP/R4K1R w - - 0 1");
  }

  /** The board of the example, built and exported through the board object. */
  method NoCastlingScenario() returns (fen: string)
    ensures fen == "r4k1r/p1ppqpb1/bn2pnp1/3PN3/1p2P3/2N2Q1p/PPPBBPPP/R4K1R w - - 0 1"
  {
    BorderedLayout(NO_CASTLING_RANKS, 0, 0, BLACK_KING_MOVED + WHITE_KING_MOVED);
    var board := new Board(Bordered(NO_CASTLING_RANKS, 0, 0, BLACK_KING_MOVED + WHITE_KING_MOVED));
    NoCastlingExport(board.State());
    fen := ToFEN(board.State());
  }

  lemma WhiteCastlingOnlyRecord()
    ensures Record(WHITE_CASTLING_PLACEMENT, "w", "KQ", "-", "0", "1") == "r4k1r/p1ppqpb1/bn2pnp1/3PN3/1p2P3/2N2Q1p/PPPBBPPP/R3K2R w KQ - 0 1"
  {
  }

  lemma WhiteCastlingOnlyFields(p: Position)
    requires p.halfMoveClock == 0 && p.halfMoveCount == 0 && p.stateFlags == BLACK_KING_MOVED
    requires p.enPassant == NoEnPassant
    ensures ActiveColor(p) == "w" && CastlingField(p.stateFlags) == "KQ" && EnPassantField(p.enPassant) == "-"
    ensures Decimal(p.halfMoveClock) == "0" && Decimal(p.halfMoveCount / 2 + 1) == "1"
  {
  }

  /** Only the black king has moved: white keeps both rights. */
  lemma WhiteCastlingOnlyExport(p: Position)
    requires WellFormed(p) && forall row :: 2 <= row <= 9 ==> GridRow(p.cells, row) == WHITE_CASTLING_RANKS[row - 2]
    requires p.halfMoveClock == 0 && p.halfMoveCount == 0 && p.stateFlags == BLACK_KING_MOVED
    requires p.enPassant == NoEnPassant
    ensures ToFEN(p) == "r4k1r/p1ppqpb1/bn2pnp1/3PN3/1p2P3/2N2Q1p/PPPBBPPP/R3K2R w KQ - 0 1"
  {
    WhiteCastlingText8(); WhiteCastlingText7();
    WhiteCastlingText6(); WhiteCastlingText5();
    WhiteCastlingText4(); WhiteCastlingText3();
    WhiteCastlingText2(); WhiteCastlingText1();
    WhiteCastlingPlacement();
    WhiteCastlingOnlyRecord();
    WhiteCastlingOnlyFields(p);
    FenOfBoard(p, WHITE_CASTLING_RANKS, WHITE_CASTLING_TEXTS, WHITE_CASTLING_PLACEMENT, "r4k1r/p1ppqpb1/bn2pnp1/3PN3/1p2P3/2N2Q1p/PPPBBPPP/R3K2R w KQ - 0 1");
  }

  /** The board of the example, built and exported through the board object. */
  method WhiteCastlingOnlyScenario() returns (fen: string)
    ensures fen == "r4k1r/p1ppqpb1/bn2pnp1/3PN3/1p2P3/2N2Q1p/PPPBBPPP/R3K2R w KQ - 0 1"
  {
    BorderedLayout(WHITE_CASTLING_RANKS, 0, 0, BLACK_KING_MOVED);
    var board := new Board(Bordered(WHITE_CASTLING_RANKS, 0, 0, BLACK_KING_MOVED));
    WhiteCastlingOnlyExport(board.State());
    fen := ToFEN(board.State());
  }

  lemma BlackCastlingOnlyRecord()
    ensures Record(BLACK_CASTLING_PLACEMENT, "w", "kq", "-", "0", "1") == "r3k2r/p1ppqpb1/bn2pnp1/3PN3/1p2P3/2N2Q1p/PPPBBPPP/R4K1R w kq - 0 1"
  {
  }

  lemma BlackCastlingOnlyFields(p: Position)
    requires p.halfMoveClock == 0 && p.halfMoveCount == 0 && p.stateFlags == WHITE_KING_MOVED
    requires p.enPassant == NoEnPassant
    ensures ActiveColor(p) == "w" && CastlingField(p.stateFlags) == "kq" && EnPassantField(p.enPassant) == "-"
    ensures Decimal(p.halfMoveClock) == "0" && Decimal(p.halfMoveCount / 2 + 1) == "1"
  {
  }

  /** Only the white king has moved: black keeps both rights. */
  lemma BlackCastlingOnlyExport(p: Position)
    requires WellFormed(p) && forall row :: 2 <= row <= 9 ==> GridRow(p.cells, row) == BLACK_CASTLING_RANKS[row - 2]
    requires p.halfMoveClock == 0 && p.halfMoveCount == 0 && p.stateFlags == WHITE_KING_MOVED
    requires p.enPassant == NoEnPassant
    ensures ToFEN(p) == "r3k2r/p1ppqpb1/bn2pnp1/3PN3/1p2P3/2N2Q1p/PPPBBPPP/R4K1R w kq - 0 1"
  {
    BlackCastlingText8(); BlackCastlingText7();
    BlackCastlingText6(); BlackCastlingText5();
    BlackCastlingText4(); BlackCastlingText3();
    BlackCastlingText2(); BlackCastlingText1();
    BlackCastlingPlacement();
    BlackCastlingOnlyRecord();
    BlackCastlingOnlyFields(p);
    FenOfBoard(p, BLACK_CASTLING_RANKS, BLACK_CASTLING_TEXTS, BLACK_CASTLING_PLACEMENT, "r3k2r/p1ppqpb1/bn2pnp1/3PN3/1p2P3/2N2Q1p/PPPBBPPP/R4K1R w kq - 0 1");
  }

  /** The board of the example, built and exported through the board object. */
  method BlackCastlingOnlyScenario() returns (fen: string)
    ensures fen == "r3k2r/p1ppqpb1/bn2pnp1/3PN3/1p2P3/2N2Q1p/PPPBBPPP/R4K1R w kq - 0 1"
  {
    BorderedLayout(BLACK_CASTLING_RANKS, 0, 0, WHITE_KING_MOVED);
    var board := new Board(Bordered(BLACK_CASTLING_RANKS, 0, 0, WHITE_KING_MOVED));
    BlackCastlingOnlyExport(board.State());
    fen := ToFEN(board.State());
  }

  lemma KingSideCastlingRecord()
    ensures Record(KING_SIDE_PLACEMENT, "w", "Kk", "-", "0", "1") == "1r2k2r/p1ppqpb1/bn2pnp1/3PN3/1p2P3/2N2Q1p/PPPBBPPP/1R2K2R w Kk - 0 1"
  {
  }

  lemma KingSideCastlingFields(p: Position)
    requires p.halfMoveClock == 0 && p.halfMoveCount == 0 && p.stateFlags == BLACK_LEFT_ROOK_MOVED + WHITE_LEFT_ROOK_MOVED
    requires p.enPassant == NoEnPassant
    ensures ActiveColor(p) == "w" && CastlingField(p.stateFlags) == "Kk" && EnPassantField(p.enPassant) == "-"
    ensures Decimal(p.halfMoveClock) == "0" && Decimal(p.halfMoveCount / 2 + 1) == "1"
  {
  }

  /** Both queen-side rooks have moved: only king-side rights are left. */
  lemma KingSideCastlingExport(p: Position)
    requires WellFormed(p) && forall row :: 2 <= row <= 9 ==> GridRow(p.cells, row) == KING_SIDE_RANKS[row - 2]
    requires p.halfMoveClock == 0 && p.halfMoveCount == 0 && p.stateFlags == BLACK_LEFT_ROOK_MOVED + WHITE_LEFT_ROOK_MOVED
    requires p.enPassant == NoEnPassant
    ensures ToFEN(p) == "1r2k2r/p1ppqpb1/bn2pnp1/3PN3/1p2P3/2N2Q1p/PPPBBPPP/1R2K2R w Kk - 0 1"
  {
    KingSideText8(); KingSideText7();
    KingSideText6(); KingSideText5();
    KingSideText4(); KingSideText3();
    KingSideText2(); KingSideText1();
    KingSidePlacement();
    KingSideCastlingRecord();
    KingSideCastlingFields(p);
    FenOfBoard(p, KING_SIDE_RANKS, KING_SIDE_TEXTS, KING_SIDE_PLACEMENT, "1r2k2r/p1ppqpb1/bn2pnp1/3PN3/1p2P3/2N2Q1p/PPPBBPPP/1R2K2R w Kk - 0 1");
  }

  /** The board of the example, built and exported through the board object. */
  method KingSideCastlingScenario() returns (fen: string)
    ensures fen == "1r2k2r/p1ppqpb1/bn2pnp1/3PN3/1p2P3/2N2Q1p/PPPBBPPP/1R2K2R w Kk - 0 1"
  {
    BorderedLayout(KING_SIDE_RANKS, 0, 0, BLACK_LEFT_ROOK_MOVED + WHITE_LEFT_ROOK_MOVED);
    var board := new Board(Bordered(KING_SIDE_RANKS, 0, 0, BLACK_LEFT_ROOK_MOVED + WHITE_LEFT_ROOK_MOVED));
    KingSideCastlingExport(board.State());
    fen := ToFEN(board.State());
  }

  lemma QueenSideCastlingRecord()
    ensures Record(QUEEN_SIDE_PLACEMENT, "w", "Qq", "-", "0", "1") == "r3k1r1/p1ppqpb1/bn2pnp1/3PN3/1p2P3/2N2Q1p/PPPBBPPP/R3K1R1 w Qq - 0 1"
  {
  }

  lemma QueenSideCastlingFields(p: Position)
    requires p.halfMoveClock == 0 && p.halfMoveCount == 0 && p.stateFlags == BLACK_RIGHT_ROOK_MOVED + WHITE_RIGHT_ROOK_MOVED
    requires p.enPassant == NoEnPassant
    ensures ActiveColor(p) == "w" && CastlingField(p.stateFlags) == "Qq" && EnPassantField(p.enPassant) == "-"
    ensures Decimal(p.halfMoveClock) == "0" && Decimal(p.halfMoveCount / 2 + 1) == "1"
  {
  }

  /** Both king-side rooks have moved: only queen-side rights are left. */
  lemma QueenSideCastlingExport(p: Position)
    requires WellFormed(p) && forall row :: 2 <= row <= 9 ==> GridRow(p.cells, row) == QUEEN_SIDE_RANKS[row - 2]
    requires p.halfMoveClock == 0 && p.halfMoveCount == 0 && p.stateFlags == BLACK_RIGHT_ROOK_MOVED + WHITE_RIGHT_ROOK_MOVED
    requires p.enPassant == NoEnPassant
    ensures ToFEN(p) == "r3k1r1/p1ppqpb1/bn2pnp1/3PN3/1p2P3/2N2Q1p/PPPBBPPP/R3K1R1 w Qq - 0 1"
  {
    QueenSideText8(); QueenSideText7();
    QueenSideText6(); QueenSideText5();
    QueenSideText4(); QueenSideText3();
    QueenSideText2(); QueenSideText1();
    QueenSidePlacement();
    QueenSideCastlingRecord();
    QueenSideCastlingFields(p);
    FenOfBoard(p, QUEEN_SIDE_RANKS, QUEEN_SIDE_TEXTS, QUEEN_SIDE_PLACEMENT, "r3k1r1/p1ppqpb1/bn2pnp1/3PN3/1p2P3/2N2Q1p/PPPBBPPP/R3K1R1 w Qq - 0 1");
  }

  /** The board of the example, built and exported through the board object. */
  method QueenSideCastlingScenario() returns (fen: string)
    ensures fen == "r3k1r1/p1ppqpb1/bn2pnp1/3PN3/1p2P3/2N2Q1p/PPPBBPPP/R3K1R1 w Qq - 0 1"
  {
    BorderedLayout(QUEEN_SIDE_RANKS, 0, 0, BLACK_RIGHT_ROOK_MOVED + WHITE_RIGHT_ROOK_MOVED);
    var board := new Board(Bordered(QUEEN_SIDE_RANKS, 0, 0, BLACK_RIGHT_ROOK_MOVED + WHITE_RIGHT_ROOK_MOVED));
    QueenSideCastlingExport(board.State());
    fen := ToFEN(board.State());
  }

  lemma BlackEnPassantRecord()
    ensures Record(BLACK_EN_PASSANT_PLACEMENT, "w", "KQkq", "a3", "0", "1") == "rnbqkbnr/p1pppppp/8/8/Pp6/8/1PPPPPPP/RNBQKBNR w KQkq a3 0 1"
  {
  }

  lemma BlackEnPassantFields(p: Position)
    requires p.halfMoveClock == 0 && p.halfMoveCount == 0 && p.stateFlags == 0
    requires p.enPassant == EnPassantSlot(SlotOf(81))
    ensures ActiveColor(p) == "w" && CastlingField(p.stateFlags) == "KQkq" && EnPassantField(p.enPassant) == "a3"
    ensures Decimal(p.halfMoveClock) == "0" && Decimal(p.halfMoveCount / 2 + 1) == "1"
  {
  }

  /** The pawn from a2 (square 81) has just advanced to a4: the target is a3. */
  lemma BlackEnPassantExport(p: Position)
    requires WellFormed(p) && forall row :: 2 <= row <= 9 ==> GridRow(p.cells, row) == BLACK_EN_PASSANT_RANKS[row - 2]
    requires p.halfMoveClock == 0 && p.halfMoveCount == 0 && p.stateFlags == 0
    requires p.enPassant == EnPassantSlot(SlotOf(81))
    ensures ToFEN(p) == "rnbqkbnr/p1pppppp/8/8/Pp6/8/1PPPPPPP/RNBQKBNR w KQkq a3 0 1"
  {
    BlackEnPassantText8(); BlackEnPassantText7();
    BlackEnPassantText6(); BlackEnPassantText5();
    BlackEnPassantText4(); BlackEnPassantText3();
    BlackEnPassantText2(); BlackEnPassantText1();
    BlackEnPassantPlacement();
    BlackEnPassantRecord();
    BlackEnPassantFields(p);
    FenOfBoard(p, BLACK_EN_PASSANT_RANKS, BLACK_EN_PASSANT_TEXTS, BLACK_EN_PASSANT_PLACEMENT, "rnbqkbnr/p1pppppp/8/8/Pp6/8/1PPPPPPP/RNBQKBNR w KQkq a3 0 1");
  }

  /** The board of the example, built and exported through the board object. */
  method BlackEnPassantScenario() returns (fen: string)
    ensures fen == "rnbqkbnr/p1pppppp/8/8/Pp6/8/1PPPPPPP/RNBQKBNR w KQkq a3 0 1"
  {
    BorderedLayout(BLACK_EN_PASSANT_RANKS, 0, 0, 0);
    var board := new Board(Bordered(BLACK_EN_PASSANT_RANKS, 0, 0, 0));
    board.SetEnPassantPossible(81);
    BlackEnPassantExport(board.State());
    fen := ToFEN(board.State());
  }

  lemma WhiteEnPassantRecord()
    ensures Record(WHITE_EN_PASSANT_PLACEMENT, "w", "KQkq", "h6", "0", "1") == "rnbqkbnr/ppppppp1/8/6Pp/8/8/PPPPPP1P/RNBQKBNR w KQkq h6 0 1"
  {
  }

  lemma WhiteEnPassantFields(p: Position)
    requires p.halfMoveClock == 0 && p.halfMoveCount == 0 && p.stateFlags == 0
    requires p.enPassant == EnPassantSlot(SlotOf(38))
    ensures ActiveColor(p) == "w" && CastlingField(p.stateFlags) == "KQkq" && EnPassantField(p.enPassant) == "h6"
    ensures Decimal(p.halfMoveClock) == "0" && Decimal(p.halfMoveCount / 2 + 1) == "1"
  {
  }

  /** The pawn from h7 (square 38) has just advanced to h5: the target is h6. */
  lemma WhiteEnPassantExport(p: Position)
    requires WellFormed(p) && forall row :: 2 <= row <= 9 ==> GridRow(p.cells, row) == WHITE_EN_PASSANT_RANKS[row - 2]
    requires p.halfMoveClock == 0 && p.halfMoveCount == 0 && p.stateFlags == 0
    requires p.enPassant == EnPassantSlot(SlotOf(38))
    ensures ToFEN(p) == "rnbqkbnr/ppppppp1/8/6Pp/8/8/PPPPPP1P/RNBQKBNR w KQkq h6 0 1"
  {
    WhiteEnPassantText8(); WhiteEnPassantText7();
    WhiteEnPassantText6(); WhiteEnPassantText5();
    WhiteEnPassantText4(); WhiteEnPassantText3();
    WhiteEnPassantText2(); WhiteEnPassantText1();
    WhiteEnPassantPlacement();
    WhiteEnPassantRecord();
    WhiteEnPassantFields(p);
    FenOfBoard(p, WHITE_EN_PASSANT_RANKS, WHITE_EN_PASSANT_TEXTS, WHITE_EN_PASSANT_PLACEMENT, "rnbqkbnr/ppppppp1/8/6Pp/8/8/PPPPPP1P/RNBQKBNR w KQkq h6 0 1");
  }

  /** The board of the example, built and exported through the board object. */
  method WhiteEnPassantScenario() returns (fen: string)
    ensures fen == "rnbqkbnr/ppppppp1/8/6Pp/8/8/PPPPPP1P/RNBQKBNR w KQkq h6 0 1"
  {
    BorderedLayout(WHITE_EN_PASSANT_RANKS, 0, 0, 0);
    var board := new Board(Bordered(WHITE_EN_PASSANT_RANKS, 0, 0, 0));
    board.SetEnPassantPossible(38);
    WhiteEnPassantExport(board.State());
    fen := ToFEN(board.State());
  }

  lemma HalfMoveClockRecord()
    ensures Record(WHITE_EN_PASSANT_PLACEMENT, "w", "KQkq", "-", "2", "4") == "rnbqkbnr/ppppppp1/8/6Pp/8/8/PPPPPP1P/RNBQKBNR w KQkq - 2 4"
  {
  }

  lemma HalfMoveClockFields(p: Position)
    requires p.halfMoveClock == 2 && p.halfMoveCount == 6 && p.stateFlags == 0
    requires p.enPassant == NoEnPassant
    ensures ActiveColor(p) == "w" && CastlingField(p.stateFlags) == "KQkq" && EnPassantField(p.enPassant) == "-"
    ensures Decimal(p.halfMoveClock) == "2" && Decimal(p.halfMoveCount / 2 + 1) == "4"
  {
  }

  /** Half-move clock 2 after six half moves: white to move in move 4. */
  lemma HalfMoveClockExport(p: Position)
    requires WellFormed(p) && forall row :: 2 <= row <= 9 ==> GridRow(p.cells, row) == WHITE_EN_PASSANT_RANKS[row - 2]
    requires p.halfMoveClock == 2 && p.halfMoveCount == 6 && p.stateFlags == 0
    requires p.enPassant == NoEnPassant
    ensures ToFEN(p) == "rnbqkbnr/ppppppp1/8/6Pp/8/8/PPPPPP1P/RNBQKBNR w KQkq - 2 4"
  {
    WhiteEnPassantText8(); WhiteEnPassantText7();
    WhiteEnPassantText6(); WhiteEnPassantText5();
    WhiteEnPassantText4(); WhiteEnPassantText3();
    WhiteEnPassantText2(); WhiteEnPassantText1();
    WhiteEnPassantPlacement();
    HalfMoveClockRecord();
    HalfMoveClockFields(p);
    FenOfBoard(p, WHITE_EN_PASSANT_RANKS, WHITE_EN_PASSANT_TEXTS, WHITE_EN_PASSANT_PLACEMENT, "rnbqkbnr/ppppppp1/8/6Pp/8/8/PPPPPP1P/RNBQKBNR w KQkq - 2 4");
  }

  /** The board of the example, built and exported through the board object. */
  method HalfMoveClockScenario() returns (fen: string)
    ensures fen == "rnbqkbnr/ppppppp1/8/6Pp/8/8/PPPPPP1P/RNBQKBNR w KQkq - 2 4"
  {
    BorderedLayout(WHITE_EN_PASSANT_RANKS, 2, 6, 0);
    var board := new Board(Bordered(WHITE_EN_PASSANT_RANKS, 2, 6, 0));
    HalfMoveClockExport(board.State());
    fen := ToFEN(board.State());
  }

  lemma FullMoveCountRecord()
    ensures Record(WHITE_EN_PASSANT_PLACEMENT, "b", "KQkq", "-", "2", "4") == "rnbqkbnr/ppppppp1/8/6Pp/8/8/PPPPPP1P/RNBQKBNR b KQkq - 2 4"
  {
  }

  lemma FullMoveCountFields(p: Position)
    requires p.halfMoveClock == 2 && p.halfMoveCount == 7 && p.stateFlags == 0
    requires p.enPassant == NoEnPassant
    ensures ActiveColor(p) == "b" && CastlingField(p.stateFlags) == "KQkq" && EnPassantField(p.enPassant) == "-"
    ensures Decimal(p.halfMoveClock) == "2" && Decimal(p.halfMoveCount / 2 + 1) == "4"
  {
  }

  /** Half-move clock 2 after seven half moves: black to move in move 4. */
  lemma FullMoveCountExport(p: Position)
    requires WellFormed(p) && forall row :: 2 <= row <= 9 ==> GridRow(p.cells, row) == WHITE_EN_PASSANT_RANKS[row - 2]
    requires p.halfMoveClock == 2 && p.halfMoveCount == 7 && p.stateFlags == 0
    requires p.enPassant == NoEnPassant
    ensures ToFEN(p) == "rnbqkbnr/ppppppp1/8/6Pp/8/8/PPPPPP1P/RNBQKBNR b KQkq - 2 4"
  {
    WhiteEnPassantText8(); WhiteEnPassantText7();
    WhiteEnPassantText6(); WhiteEnPassantText5();
    WhiteEnPassantText4(); WhiteEnPassantText3();
    WhiteEnPassantText2(); WhiteEnPassantText1();
    WhiteEnPassantPlacement();
    FullMoveCountRecord();
    FullMoveCountFields(p);
    FenOfBoard(p, WHITE_EN_PASSANT_RANKS, WHITE_EN_PASSANT_TEXTS, WHITE_EN_PASSANT_PLACEMENT, "rnbqkbnr/ppppppp1/8/6Pp/8/8/PPPPPP1P/RNBQKBNR b KQkq - 2 4");
  }

  /** The board of the example, built and exported through the board object. */
  method FullMoveCountScenario() returns (fen: string)
    ensures fen == "rnbqkbnr/ppppppp1/8/6Pp/8/8/PPPPPP1P/RNBQKBNR b KQkq - 2 4"
  {
    BorderedLayout(WHITE_EN_PASSANT_RANKS, 2, 7, 0);
    var board := new Board(Bordered(WHITE_EN_PASSANT_RANKS, 2, 7, 0));
    FullMoveCountExport(board.State());
    fen := ToFEN(board.State());
  }

}
