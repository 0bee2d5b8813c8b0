/**
  The parts of Rust's `u64` that the engine relies on: the 64-bit word itself,
  bit positions, and the intrinsics `trailing_zeros`, `leading_zeros`,
  `checked_shl` and `checked_shr`.

  Counts and shift amounts are `u32` in Rust; here they are words too, which
  changes nothing because they never exceed 64.
*/
module U64 {
  import opened Wrappers

  /** A bitboard: bit `i` stands for square `i` (a1 = 0, b1 = 1, ..., h8 = 63). */
  type Word = bv64

  /** A bit position, i.e. a square index. */
  type Index = i: Word | i < 64

  const MAX: Word := 0xFFFF_FFFF_FFFF_FFFF

  /** Bit `j` of `w` is set. */
  predicate Bit(w: Word, j: Index) {
    (w >> j) & 1 == 1
  }

  /** The bitboard holding only square `i`. */
  function Singleton(i: Index): Word {
    1 << i
  }

  /** `w` is the bitboard of exactly one square. */
  ghost predicate IsSquare(w: Word) {
    exists i: Index :: w == Singleton(i)
  }

  /**
    `u64::trailing_zeros`: the position of the lowest set bit, 64 for the
    zero word. Computed by halving the search window.
  */
  function TrailingZeros(w: Word): (n: Word)
    ensures n <= 64
    ensures n == 64 <==> w == 0
    ensures w != 0 ==> LowestBit(w) == 1 << n
  {
    if w == 0 then 64 else
    var a: Word := if w & 0xFFFF_FFFF == 0 then 32 else 0;
    var w1 := w >> a;
    var b: Word := if w1 & 0xFFFF == 0 then 16 else 0;
    var w2 := w1 >> b;
    var c: Word := if w2 & 0xFF == 0 then 8 else 0;
    var w3 := w2 >> c;
    var d: Word := if w3 & 0xF == 0 then 4 else 0;
    var w4 := w3 >> d;
    var e: Word := if w4 & 0x3 == 0 then 2 else 0;
    var w5 := w4 >> e;
    var f: Word := if w5 & 0x1 == 0 then 1 else 0;
    a + b + c + d + e + f
  }

  /**
    `u64::leading_zeros`: the number of zero bits above the highest set bit,
    64 for the zero word. Computed by finding the highest set bit with a
    halving search.
  */
  function LeadingZeros(w: Word): (n: Word)
    ensures n <= 64
    ensures n == 64 <==> w == 0
  {
    if w == 0 then 64 else
    var a: Word := if w >> 32 != 0 then 32 else 0;
    var w1 := w >> a;
    var b: Word := if w1 >> 16 != 0 then 16 else 0;
    var w2 := w1 >> b;
    var c: Word := if w2 >> 8 != 0 then 8 else 0;
    var w3 := w2 >> c;
    var d: Word := if w3 >> 4 != 0 then 4 else 0;
    var w4 := w3 >> d;
    var e: Word := if w4 >> 2 != 0 then 2 else 0;
    var w5 := w4 >> e;
    var f: Word := if w5 >> 1 != 0 then 1 else 0;
    63 - (a + b + c + d + e + f)
  }

  /** The lowest set bit of `w`, found without counting: `w & -w`. */
  function LowestBit(w: Word): Word {
    w & -w
  }

  /** `u64::checked_shl(n)`: no result once the shift reaches the word width. */
  function CheckedShl(w: Word, n: Word): (r: Option<Word>)
  {
    if n < 64 then Some(w << n) else None
  }

  /** `u64::checked_shr(n)`: no result once the shift reaches the word width. */
  function CheckedShr(w: Word, n: Word): (r: Option<Word>)
  {
    if n < 64 then Some(w >> n) else None
  }

  /** `Option::unwrap_or`. */
  function UnwrapOr(o: Option<Word>, default: Word): Word
  {
    match o
    case Some(v) => v
    case None => default
  }

  /** The lowest set bit of a single square is that square. */
  lemma SingletonTrailingZeros(i: Index)
    ensures TrailingZeros(Singleton(i)) == i
  {}

  /** Above a single square `i` lie `63 - i` zero bits. */
  lemma SingletonLeadingZeros(i: Index)
    ensures LeadingZeros(Singleton(i)) == 63 - i
  {}

  /** The source's single-square test `w & (w - 1) == 0` (for nonzero `w`) means `w` is one square. */
  lemma IsSquareIff(w: Word)
    ensures IsSquare(w) <==> w != 0 && w & (w - 1) == 0
  {
    if w != 0 && w & (w - 1) == 0 {
      var i: Index := TrailingZeros(w);
      assert w == Singleton(i);
    }
  }
}
