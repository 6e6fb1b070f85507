/** The random numbers behind the Zobrist hash of a position: one per piece
    value and square, one for the side to move, one per en-passant slot and
    one per castling-flag mask, drawn once in declaration order.

    The generator `rand64` is not part of this model: it is represented by a
    `RandomSource` object that hands out the values of an arbitrary stream of
    64-bit words one after another, so that every statement below holds
    whatever numbers the generator produces. */
module Zobrist {
  /** Entries of the piece/square table: 13 piece values (-6..6) times 64 squares. */
  const PIECE_RNG_COUNT: nat := 13 * 64
  /** Entries of the en-passant table: one per slot. */
  const EN_PASSANT_RNG_COUNT: nat := 16
  /** Entries of the castling table: one per 6-bit mask of state flags. */
  const CASTLING_RNG_COUNT: nat := 64

  /** The values `count` calls of the generator hand out, starting with draw number `from`. */
  function Draws(stream: nat -> bv64, from: nat, count: nat): (words: seq<bv64>)
    ensures |words| == count
  {
    seq(count, i requires 0 <= i < count => stream(from + i))
  }

  /** The 64-bit generator: each call returns the next value of `stream`. */
  class RandomSource {
    const stream: nat -> bv64
    var drawn: nat

    constructor (stream: nat -> bv64)
      ensures this.stream == stream && drawn == 0
    {
      this.stream := stream;
      drawn := 0;
    }

    method Rand64() returns (r: bv64)
      modifies this
      ensures r == stream(old(drawn)) && drawn == old(drawn) + 1
    {
      r := stream(drawn);
      drawn := drawn + 1;
    }
  }

  /** A fresh array of `count` words, filled index by index with successive draws. */
  method RandArray(rng: RandomSource, count: nat) returns (numbers: array<bv64>)
    modifies rng
    ensures fresh(numbers) && numbers.Length == count
    ensures rng.drawn == old(rng.drawn) + count
    ensures numbers[..] == Draws(rng.stream, old(rng.drawn), count)
  {
    numbers := new bv64[count](_ => 0);
    var i := 0;
    while i < count
      invariant 0 <= i <= count
      invariant rng.drawn == old(rng.drawn) + i
      invariant forall k :: 0 <= k < i ==> numbers[k] == rng.stream(old(rng.drawn) + k)
    {
      numbers[i] := rng.Rand64();
      i := i + 1;
    }
  }

  /** Sets element 0 to zero in place and hands back the same array. */
  method FirstElementZero(elements: array<bv64>) returns (r: array<bv64>)
    requires elements.Length > 0
    modifies elements
    ensures r == elements
    ensures elements[..] == old(elements[..])[0 := 0]
  {
    elements[0] := 0;
    r := elements;
  }

  /** The four tables, initialised in the order they are declared. */
  class Tables {
    const pieces: array<bv64>
    const player: bv64
    const enPassant: array<bv64>
    const castling: array<bv64>

    constructor (rng: RandomSource)
      modifies rng
      ensures rng.drawn == old(rng.drawn) + PIECE_RNG_COUNT + 1 + EN_PASSANT_RNG_COUNT + CASTLING_RNG_COUNT
      ensures pieces[..] == Draws(rng.stream, old(rng.drawn), PIECE_RNG_COUNT)
      ensures player == rng.stream(old(rng.drawn) + PIECE_RNG_COUNT)
      ensures enPassant[..] == Draws(rng.stream, old(rng.drawn) + PIECE_RNG_COUNT + 1, EN_PASSANT_RNG_COUNT)
      ensures castling[..] ==
        Draws(rng.stream, old(rng.drawn) + PIECE_RNG_COUNT + 1 + EN_PASSANT_RNG_COUNT, CASTLING_RNG_COUNT)[0 := 0]
      ensures fresh(pieces) && fresh(enPassant) && fresh(castling)
    {
      var pieceNumbers := RandArray(rng, PIECE_RNG_COUNT);
      var playerNumber := rng.Rand64();
      var enPassantNumbers := RandArray(rng, EN_PASSANT_RNG_COUNT);
      var castlingNumbers := RandArray(rng, CASTLING_RNG_COUNT);
      castlingNumbers := FirstElementZero(castlingNumbers);
      pieces, player, enPassant, castling := pieceNumbers, playerNumber, enPassantNumbers, castlingNumbers;
    }
  }

  /** Toggles one castling-table entry in or out of a hash. */
  function ToggleCastling(hash: bv64, castling: seq<bv64>, mask: int): (toggled: bv64)
    requires |castling| == CASTLING_RNG_COUNT && 0 <= mask < CASTLING_RNG_COUNT
  {
    hash ^ castling[mask]
  }

  /** With entry 0 set to zero, the mask with no flag set leaves every hash
      as it was; any other entry toggled twice restores the hash. */
  lemma CastlingToggle(hash: bv64, castling: seq<bv64>, mask: int)
    requires |castling| == CASTLING_RNG_COUNT && castling[0] == 0 && 0 <= mask < CASTLING_RNG_COUNT
    ensures ToggleCastling(hash, castling, 0) == hash
    ensures ToggleCastling(ToggleCastling(hash, castling, mask), castling, mask) == hash
  {
  }

  /** Toggling any table entry twice restores the hash, in whichever order
      two entries are toggled in. */
  lemma XorUpdate(hash: bv64, a: bv64, b: bv64)
    ensures hash ^ a ^ a == hash
    ensures hash ^ a ^ b == hash ^ b ^ a
  {
  }
}
