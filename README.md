# Chess position layer: pieces, Zobrist tables, board and FEN export

A Dafny model of the position layer of an AssemblyScript chess engine. It covers four parts:

- **Piece encoding and board geometry** (`pieces.dfy`, module `Pieces`). These are the piece-type constants 1..6, the material values, the one-letter aliases, and the knight and king direction offsets.
  - The board is a 10 × 12 bordered grid: two sentinel rows at top and bottom, and one sentinel column on each side.
  - It is proved that every knight or king offset from a playable square stays inside the 120-cell array. It lands on either a sentinel cell or the true chess neighbour.
- **Zobrist tables** (`zobrist.dfy`, module `Zobrist`). These are the random numbers for hashing positions:
  - 13 × 64 piece/square entries;
  - one entry for the side to move;
  - 16 en-passant entries;
  - 64 castling entries, of which entry 0 is overwritten with zero.

  `randArray` and `firstElementZero` are methods on arrays. The generator `rand64` is an object that hands out the values of an arbitrary stream of 64-bit words, so nothing depends on the actual random values.

  `table_shapes.dfy` (module `TableShapes`) relates the table sizes to the board: it counts the 64 playable squares and the 13 piece values, and shows that every castling mask and en-passant slot of a well-formed position indexes its table. The tables themselves depend on nothing but the generator.
- **The board** (`board.dfy`, module `Board`). The position value is `Position`; `Board` is the object holding a 120-cell array and the metadata fields.
  - The constructor takes 120 cells followed by the half-move clock, the half-move count and the state flags.
  - `setEnPassantPossible` records an en-passant opportunity.
  - `performEncodedMove` applies an encoded pawn double push.
  - Each mutating method is proved against a function on `Position` (`WithEnPassant`, `DoublePush`).
- **FEN export** (`fen.dfy`, module `Fen`). `ToFEN` writes the six-field Forsyth–Edwards Notation record of section 16.1 of the PGN Standard: placement, active colour, castling availability, en-passant target, half-move clock and full-move number.
  - `fen_read.dfy` (module `FenRead`) gives a reader for every field and proves that each reader recovers the board data from what the exporter wrote. As a consequence, two positions with the same record agree on every square, on both counters, on the castling rights and on the en-passant target.
  - `fen_vectors.dfy` (module `FenVectors`) states each expected record of the exporter's examples. Each scenario method builds the board through the `Board` object, applies the mutation the example applies, and is proved to produce the expected string.

`board.ts`, `fen.ts`, `move-generation.ts` and `util.ts` are not part of this model: the board, the exporter and the move codec are modelled from what the examples in `assembly/__tests__/fen.spec.ts` assert.

## Model

| member | source | states |
|---|---|---|
| Pieces.PieceTypesAreOneToSix | assembly/pieces.ts:21-26 | The piece types run from PAWN = 1 to KING = 6 in strictly increasing order. |
| Pieces.PieceValuesByType | assembly/pieces.ts:28-29 | The value table has 7 entries. Entry 0 (no piece) is 0 and entry t is the value of type t (1, 3, 3, 5, 9, 10). The king outweighs every other type. |
| Pieces.PiecesEnumeratesTypes | assembly/pieces.ts:31-38 | `pieces` lists each type 1..6 exactly once in ascending order, and the aliases P..K equal PAWN..KING. |
| Pieces.KnightDirectionsShape | assembly/pieces.ts:40 | The eight knight offsets are distinct and closed under negation. Each one-row-two-column or two-row-one-column step on the 10-wide grid is among them. |
| Pieces.KingDirectionsShape | assembly/pieces.ts:41 | The eight king offsets are distinct and closed under negation. Every step to one of the eight neighbours is among them. |
| Pieces.StepGeometry | assembly/pieces.ts:40-41 | A step of up to two rows and two columns from a playable square stays in 0..119. It lands on a playable square exactly when the aimed-at row and column are playable, and then on that row and column (no wrap-around). |
| Pieces.KnightMovesStayOnGrid | assembly/pieces.ts:40 | From every playable square each knight offset stays in the grid and lands on a sentinel or a knight's-jump square. Every knight's jump between playable squares is one of the offsets. |
| Pieces.KingMovesStayOnGrid | assembly/pieces.ts:41 | From every playable square each king offset stays in the grid and lands on a sentinel or a neighbouring square. Every neighbour is reached by one of the offsets. |
| Zobrist.RandArray | assembly/zobrist.ts:34-42 | Returns a fresh array of exactly `count` words. Entry i is the i-th value drawn during the call, and the generator has advanced by `count` draws. |
| Zobrist.RandomSource.Rand64 | assembly/zobrist.ts:20 | Each call returns the next word of the generator's stream and advances it by exactly one draw. |
| Zobrist.FirstElementZero | assembly/zobrist.ts:44-47 | Returns the same array, with element 0 set to zero and every other element unchanged. |
| Zobrist.Tables.constructor | assembly/zobrist.ts:27-32 | Draws the tables in declaration order: 832 piece/square words, one player word, 16 en-passant words, then 64 castling words with entry 0 replaced by zero. |
| TableShapes.PlayableSquaresExact | assembly/zobrist.ts:27 | The 64 cells 10·r + c for rows 2..9 and columns 1..8 are distinct and are exactly the playable squares. |
| TableShapes.PieceValuesExact | assembly/zobrist.ts:27 | The 13 numbers -6..6 are distinct and are exactly the piece values. |
| TableShapes.PieceTableShape | assembly/zobrist.ts:27 | The set of playable squares has 64 elements and the set of piece values 13, so the 13 × 64 piece/square entries are one per pair of a piece value and a square. |
| TableShapes.MovedMaskIndexesCastling | assembly/zobrist.ts:31-32 | Any combination of the six "moved" bits WK..BRR sums to an index below 64, the castling table's size, and each bit reads back from that mask on its own. |
| TableShapes.TablesCoverPositions | assembly/zobrist.ts:29-32 | The state flags of every well-formed position index the 64-entry castling table, and every en-passant slot indexes the 16-entry table. |
| Zobrist.CastlingToggle | assembly/zobrist.ts:31-32 | With castling entry 0 equal to zero, toggling the empty mask leaves any hash unchanged, and toggling any mask twice restores the hash. |
| Zobrist.XorUpdate | assembly/zobrist.ts:23-26 | XOR-ing an entry in twice restores a hash, and the order of two updates does not matter. |
| Board.Board.constructor | assembly/__tests__/fen.spec.ts:35-48 | The board holds the 120 given cells, then the clock, count and flags from the three trailing values, and no en-passant opportunity. |
| Board.TargetIsSquareAhead | assembly/__tests__/fen.spec.ts:188-228 | The recorded en-passant target is the square one rank ahead of the pushing pawn's start square. Distinct start squares get distinct slots. |
| Board.WithEnPassant | assembly/__tests__/fen.spec.ts:204 | Setting en passant changes nothing but the en-passant field, whose target is the square ahead of the start square. |
| Board.Board.SetEnPassantPossible | assembly/__tests__/fen.spec.ts:204 | The board's new state is `WithEnPassant` of its old state. The cell array is the same object. |
| Board.DecodeMove | assembly/__tests__/fen.spec.ts:88 | Unpacking a code gives a piece below 8 and two squares below 128; `DecodeEncode` and `EncodeDecode` tie it to `EncodeMove`. |
| Board.EncodeMove | assembly/__tests__/fen.spec.ts:88 | A move is encoded exactly when the piece fits 3 bits and both squares fit 7 bits; otherwise the result is a range error. |
| Board.DecodeEncode | assembly/__tests__/fen.spec.ts:88 | Decoding an encoded move gives back its piece, start square and end square. |
| Board.EncodeDecode | assembly/__tests__/fen.spec.ts:88 | Every code below 2^17 is the encoding of what it decodes to, so encoding is a bijection onto those codes. |
| Board.EncodeInjective | assembly/__tests__/fen.spec.ts:88 | Distinct moves have distinct codes. |
| Board.DoublePushGeometry | assembly/__tests__/fen.spec.ts:88 | A move satisfying `IsDoublePush` takes a pawn of the side to move two ranks straight up its file: rank 2 to 4 for White, rank 7 to 5 for Black, both squares playable. |
| Board.DoublePush | assembly/__tests__/fen.spec.ts:88-90 | A double push from a well-formed position yields a well-formed position. |
| Board.DoublePushEffect | assembly/__tests__/fen.spec.ts:73-91 | After a double push:<br>• the pawn is on the end square and the start square is empty; all other cells are unchanged;<br>• the side to move flips and the clock is 0;<br>• the full-move number advances only after Black's move;<br>• the flags are kept;<br>• the en-passant target is the square passed over. |
| Board.Board.PerformEncodedMove | assembly/__tests__/fen.spec.ts:88 | Applying the encoded double push in place leaves the board in `DoublePush` of its old state. |
| Fen.GridRow | assembly/__tests__/fen.spec.ts:35-47 | Grid row r, columns 1..8, is a rank of eight piece values: file a is at column 1 and rank 8 at row 2. |
| Fen.GridRowUpdate | assembly/__tests__/fen.spec.ts:35-47 | Writing one playable cell changes only that cell's rank, and in it only that cell's file. |
| Fen.RankFromLength | assembly/__tests__/fen.spec.ts:54-70 | The text of a rank from file `col` on (`RankFrom`) is non-empty while squares or a pending run remain, and has at most one character per remaining square plus one for a pending run; `ExpandRankFrom` and `RankFromRunsMerged` give its meaning. |
| Fen.RankText | assembly/__tests__/fen.spec.ts:54-70 | A rank text has 1 to 8 characters; `RankTextReadBack` states that it reads back as the rank in canonical form. |
| Fen.ActiveColor | assembly/__tests__/fen.spec.ts:73-91 | The colour is "w" or "b", and "w" exactly when the half-move count is even. |
| Fen.CastlingField | assembly/__tests__/fen.spec.ts:93-186 | The field has 1 to 4 characters; `CastlingReadBack` states which letters appear and in which order. |
| Fen.EnPassantField | assembly/__tests__/fen.spec.ts:188-228 | The field is "-" exactly when there is no opportunity, and otherwise a two-character square name; `EnPassantReadBack` states which square. |
| Fen.Decimal | assembly/__tests__/fen.spec.ts:230-271 | The text is one or more decimal digits and starts with '0' only for zero; `DecimalReadBack` states that it reads back as the number. |
| Fen.ToFEN | assembly/__tests__/fen.spec.ts:34-272 | The record opens with the placement field and a space. `ToFENEndsWithFullMove`, `RecordReadBack`, `PlacementReadBack`, `MoveCountReadBack`, `CastlingReadBack`, `EnPassantReadBack` and `ExportDeterminesPosition` state what every field means. |
| Fen.ToFENEndsWithFullMove | assembly/__tests__/fen.spec.ts:230-271 | The record closes with a space and the full-move number count/2 + 1. |
| FenRead.SplitJoin | assembly/__tests__/fen.spec.ts:50 | Cutting a joined text at the separator gives back the parts whenever no part contains the separator. |
| FenRead.RankTextReadBack | assembly/__tests__/fen.spec.ts:54-70 | A rank text is written in piece letters and digits 1..8. Expanding each letter to its piece and each digit to that many empty squares gives back exactly the eight squares of the rank. No two digits are adjacent, so every maximal run of empty squares is one digit (`r3k2r`, never `r111k11r`). |
| FenRead.RankFromRunsMerged | assembly/__tests__/fen.spec.ts:54-70 | The rank text from any file on, with any pending run, never has two digits in a row. |
| FenRead.ExpandRankFrom | assembly/__tests__/fen.spec.ts:54-70 | The rank text from any file on, with pending empty squares, expands to the squares from the first pending one on. |
| FenRead.PlacementReadBack | assembly/__tests__/fen.spec.ts:54-70 | The placement field cuts at '/' into eight rank texts, rank 8 first. Each expands to its grid row. |
| FenRead.DecimalReadBack | assembly/__tests__/fen.spec.ts:230-271 | A number is written as digits without a leading zero and reads back as that number. |
| FenRead.MoveCountReadBack | assembly/__tests__/fen.spec.ts:230-271 | The active colour is "w" exactly when the half-move count is even. With the full-move number count/2 + 1, it determines the half-move count. |
| FenRead.CastlingReadBack | assembly/__tests__/fen.spec.ts:93-186 | K appears exactly when neither the white king nor the h-file (right) rook has moved; Q likewise with the a-file (left) rook; k and q likewise with the black flags. The letters come in order KQkq, and the field is "-" exactly when no right remains. |
| FenRead.SquareNameReadBack | assembly/__tests__/fen.spec.ts:204-227 | The file-letter-and-rank-digit name of any playable square reads back as that square. |
| FenRead.EnPassantReadBack | assembly/__tests__/fen.spec.ts:188-228 | The en-passant field is "-" without an opportunity. Otherwise it names the slot's target square. |
| FenRead.TargetInjective | assembly/__tests__/fen.spec.ts:188-228 | Distinct en-passant slots have distinct target squares. |
| FenRead.RecordReadBack | assembly/__tests__/fen.spec.ts:50 | The record cuts at spaces into exactly its six fields, in order. |
| FenRead.ExportDeterminesPosition | assembly/__tests__/fen.spec.ts:34-272 | Two well-formed positions with the same record agree on:<br>• every playable square;<br>• the half-move clock and count;<br>• all four castling rights;<br>• the en-passant field. |
| FenVectors.BorderedLayout | assembly/__tests__/fen.spec.ts:35-48 | A bordered 123-value literal (sentinels around eight ranks, then clock, count and flags) is a well-formed board whose grid rows 2..9 read back as the ranks. |
| FenVectors.DoublePushRow | assembly/__tests__/fen.spec.ts:88 | After a double push, the end square's rank gains the pawn and the start square's rank loses it. Every other rank is unchanged. |
| FenVectors.PushedRanks | assembly/__tests__/fen.spec.ts:88-90 | From the starting layout, 84 to 64 is a white double push in the model's sense (`IsDoublePush`: the mover's pawn on its start square, an empty square two ranks ahead; the square passed over and king safety are not checked) that gives the layout of the expected record. |
| FenVectors.StartingPositionScenario | assembly/__tests__/fen.spec.ts:34-52 | The starting board exports as `rnbqkbnr/pppppppp/8/8/8/8/PPPPPPPP/RNBQKBNR w KQkq - 0 1`. |
| FenVectors.TestPositionScenario | assembly/__tests__/fen.spec.ts:54-71 | The test position exports with the expected placement `r3k2r/.../R3K2R w KQkq - 0 1`. |
| FenVectors.ActivePlayerScenario | assembly/__tests__/fen.spec.ts:73-91 | The starting board after the encoded double push 84 to 64 exports as `.../3P4/8/PPP1PPPP/... b KQkq d3 0 1`. |
| FenVectors.NoCastlingScenario | assembly/__tests__/fen.spec.ts:93-110 | With both kings moved, the castling field is "-". |
| FenVectors.WhiteCastlingOnlyScenario | assembly/__tests__/fen.spec.ts:112-129 | With the black king moved, the castling field is "KQ". |
| FenVectors.BlackCastlingOnlyScenario | assembly/__tests__/fen.spec.ts:131-148 | With the white king moved, the castling field is "kq". |
| FenVectors.KingSideCastlingScenario | assembly/__tests__/fen.spec.ts:150-167 | With both left rooks moved, the castling field is "Kk". |
| FenVectors.QueenSideCastlingScenario | assembly/__tests__/fen.spec.ts:169-186 | With both right rooks moved, the castling field is "Qq". |
| FenVectors.BlackEnPassantScenario | assembly/__tests__/fen.spec.ts:188-207 | After `SetEnPassantPossible(81)` the en-passant field is "a3". |
| FenVectors.WhiteEnPassantScenario | assembly/__tests__/fen.spec.ts:209-228 | After `SetEnPassantPossible(38)` the en-passant field is "h6". |
| FenVectors.HalfMoveClockScenario | assembly/__tests__/fen.spec.ts:230-250 | Clock 2 and count 6 export as `w ... - 2 4`. |
| FenVectors.FullMoveCountScenario | assembly/__tests__/fen.spec.ts:252-272 | Clock 2 and count 7 export as `b ... - 2 4`. |

## Left out

- `board.ts`, `fen.ts`, `move-generation.ts` and `util.ts` are not part of this model. Their behaviour is taken from the examples' assertions, and the following details are choices of this model:
  - the sentinel value is 7; any value outside -6..6 behaves the same in every lemma;
  - the state-flag bits are WK = 1, WLR = 2, WRR = 4, BK = 8, BLR = 16, BRR = 32, written `+` where the source writes `|` of distinct bits;
  - the en-passant field is a slot 0..15: black start squares 31..38 map to 0..7 and white ones 81..88 to 8..15;
  - the move encoding is piece + 8·start + 1024·end;
  - a piece outside 0..7 or a square outside 0..127 gives `EncodingRangeError` instead of a code (no example encodes such a move).
- Board.Board.PerformEncodedMove: only the pawn double push is modelled, so its precondition admits only that move. Captures, castling, promotion, en-passant capture and undo are not exercised by any example.
- Board.Board.constructor: the engine's own layout validation is not modelled; the precondition asks for a well-formed layout instead.
- FEN parsing into a board is not modelled. The readers in `FenRead` invert the exporter field by field but build no `Board`.
- The incremental Zobrist hash and its piece/square indexing live in `board.ts`. Only the table shapes and XOR facts are stated.
- `rand64` is a stream of arbitrary 64-bit words held by a `RandomSource` object. Its actual values are not modelled.
- Zobrist.RandArray: `count` is a natural number. The source takes a 32-bit signed integer, and a negative count would make the typed-array allocation throw; every call site passes a positive constant.
- Zobrist.FirstElementZero: requires a non-empty array. The store into element 0 of an empty typed array would abort; its one call site passes 64 elements.
- `assembly/io/wasi/clock.ts` (a system-clock wrapper) and `as-pect-perft.config.js` (test-runner configuration) hold no logic to model.
