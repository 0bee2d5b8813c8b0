/**
  Square and bitboard helpers of the engine: file and rank tests of a
  bitboard, conversion between a single-square bitboard and its algebraic
  name, and the masks of the squares above, below, left and right of a
  square.
*/
module Utils {
  import opened Wrappers
  import opened U64

  /** The three error messages of the module, as distinct cases. */
  datatype UtilsError =
    | InvalidBitboard     // "more than one piece on the board"
    | TooManyCharacters   // a square name whose length is not 2
    | InvalidFileOrRank

  const FILES: seq<char> := ['a', 'b', 'c', 'd', 'e', 'f', 'g', 'h']
  const RANKS: seq<char> := ['1', '2', '3', '4', '5', '6', '7', '8']

  /** The squares of file `f` (0 is the a-file). */
  function FileMask(f: Word): Word
    requires f < 8
  {
    0x0101_0101_0101_0101 << f
  }

  /** The squares of rank `k` (0 is rank 1). */
  function RankMask(k: Word): Word
    requires k < 8
  {
    0xFF << (8 * k)
  }

  // ---------------------------------------------------------------------
  // File predicates: the file of the lowest set bit. The zero word counts
  // as a-file, because its trailing-zero count 64 is a multiple of 8.
  // ---------------------------------------------------------------------

  function OnAFile(pieceLocation: Word): (r: bool)
    ensures pieceLocation == 0 ==> r
    ensures pieceLocation != 0 ==> (r <==> LowestBit(pieceLocation) & FileMask(0) != 0)
  {
    TrailingZeros(pieceLocation) % 8 == 0
  }

  function OnBFile(pieceLocation: Word): (r: bool)
    ensures pieceLocation == 0 ==> !r
    ensures pieceLocation != 0 ==> (r <==> LowestBit(pieceLocation) & FileMask(1) != 0)
  {
    TrailingZeros(pieceLocation) % 8 == 1
  }

  function OnCFile(pieceLocation: Word): (r: bool)
    ensures pieceLocation == 0 ==> !r
    ensures pieceLocation != 0 ==> (r <==> LowestBit(pieceLocation) & FileMask(2) != 0)
  {
    TrailingZeros(pieceLocation) % 8 == 2
  }

  function OnDFile(pieceLocation: Word): (r: bool)
    ensures pieceLocation == 0 ==> !r
    ensures pieceLocation != 0 ==> (r <==> LowestBit(pieceLocation) & FileMask(3) != 0)
  {
    TrailingZeros(pieceLocation) % 8 == 3
  }

  function OnEFile(pieceLocation: Word): (r: bool)
    ensures pieceLocation == 0 ==> !r
    ensures pieceLocation != 0 ==> (r <==> LowestBit(pieceLocation) & FileMask(4) != 0)
  {
    TrailingZeros(pieceLocation) % 8 == 4
  }

  function OnFFile(pieceLocation: Word): (r: bool)
    ensures pieceLocation == 0 ==> !r
    ensures pieceLocation != 0 ==> (r <==> LowestBit(pieceLocation) & FileMask(5) != 0)
  {
    TrailingZeros(pieceLocation) % 8 == 5
  }

  function OnGFile(pieceLocation: Word): (r: bool)
    ensures pieceLocation == 0 ==> !r
    ensures pieceLocation != 0 ==> (r <==> LowestBit(pieceLocation) & FileMask(6) != 0)
  {
    TrailingZeros(pieceLocation) % 8 == 6
  }

  function OnHFile(pieceLocation: Word): (r: bool)
    ensures pieceLocation == 0 ==> !r
    ensures pieceLocation != 0 ==> (r <==> LowestBit(pieceLocation) & FileMask(7) != 0)
  {
    TrailingZeros(pieceLocation) % 8 == 7
  }

  /** On every single-square bitboard, the file predicates test the square's file. */
  lemma FilesOfSquares(i: Index)
    ensures OnAFile(Singleton(i)) <==> i % 8 == 0
    ensures OnBFile(Singleton(i)) <==> i % 8 == 1
    ensures OnCFile(Singleton(i)) <==> i % 8 == 2
    ensures OnDFile(Singleton(i)) <==> i % 8 == 3
    ensures OnEFile(Singleton(i)) <==> i % 8 == 4
    ensures OnFFile(Singleton(i)) <==> i % 8 == 5
    ensures OnGFile(Singleton(i)) <==> i % 8 == 6
    ensures OnHFile(Singleton(i)) <==> i % 8 == 7
  {
    SingletonTrailingZeros(i);
  }

  // ---------------------------------------------------------------------
  // Rank predicates: numeric comparisons against rank boundaries. Each one
  // holds when the highest set bit lies on its rank. The lower bound is the
  // h-file square of the rank below, not the end of that rank, so a word
  // whose highest square is that h-file square and which holds another
  // square also counts as the next rank up (a1 + h1 is "on rank 2"). The
  // zero word counts as rank 1.
  // ---------------------------------------------------------------------

  /** Some square of rank `k` (0 is rank 1) is set and none above it. */
  predicate HighestOnRank(w: Word, k: Word)
    requires k < 8
  {
    w & RankMask(k) != 0 && (k == 7 || w >> (8 * k + 8) == 0)
  }

  /** The highest set bit is the h-file square of rank `k`, and another bit is set. */
  predicate HighestOnHFileWithOthers(w: Word, k: Word)
    requires k < 8
  {
    w >> (8 * k + 7) == 1 && w != Singleton(8 * k + 7)
  }

  function OnRank1(pieceLocation: Word): (r: bool)
    ensures r <==> pieceLocation == 0 || HighestOnRank(pieceLocation, 0)
  {
    pieceLocation < 0x0000000000000100
  }

  function OnRank2(pieceLocation: Word): (r: bool)
    ensures r <==> HighestOnRank(pieceLocation, 1) || HighestOnHFileWithOthers(pieceLocation, 0)
  {
    pieceLocation < 0x0000000000010000 && pieceLocation > 0x0000000000000080
  }

  function OnRank3(pieceLocation: Word): (r: bool)
    ensures r <==> HighestOnRank(pieceLocation, 2) || HighestOnHFileWithOthers(pieceLocation, 1)
  {
    pieceLocation < 0x0000000001000000 && pieceLocation > 0x0000000000008000
  }

  function OnRank4(pieceLocation: Word): (r: bool)
    ensures r <==> HighestOnRank(pieceLocation, 3) || HighestOnHFileWithOthers(pieceLocation, 2)
  {
    pieceLocation < 0x0000000100000000 && pieceLocation > 0x0000000000800000
  }

  function OnRank5(pieceLocation: Word): (r: bool)
    ensures r <==> HighestOnRank(pieceLocation, 4) || HighestOnHFileWithOthers(pieceLocation, 3)
  {
    pieceLocation < 0x0000010000000000 && pieceLocation > 0x0000000080000000
  }

  function OnRank6(pieceLocation: Word): (r: bool)
    ensures r <==> HighestOnRank(pieceLocation, 5) || HighestOnHFileWithOthers(pieceLocation, 4)
  {
    pieceLocation < 0x0001000000000000 && pieceLocation > 0x0000008000000000
  }

  function OnRank7(pieceLocation: Word): (r: bool)
    ensures r <==> HighestOnRank(pieceLocation, 6) || HighestOnHFileWithOthers(pieceLocation, 5)
  {
    pieceLocation < 0x0100000000000000 && pieceLocation > 0x0000800000000000
  }

  function OnRank8(pieceLocation: Word): (r: bool)
    ensures r <==> HighestOnRank(pieceLocation, 7) || HighestOnHFileWithOthers(pieceLocation, 6)
  {
    pieceLocation > 0x0080000000000000
  }

  /** A single square is highest on its own rank and on no other, and never comes with others. */
  lemma SingletonHighest(i: Index, k: Word)
    requires k < 8
    ensures HighestOnRank(Singleton(i), k) <==> i / 8 == k
    ensures !HighestOnHFileWithOthers(Singleton(i), k)
  {}

  /** On every single-square bitboard, the rank predicates test the square's rank. */
  lemma RanksOfSquares(i: Index)
    ensures OnRank1(Singleton(i)) <==> i / 8 == 0
    ensures OnRank2(Singleton(i)) <==> i / 8 == 1
    ensures OnRank3(Singleton(i)) <==> i / 8 == 2
    ensures OnRank4(Singleton(i)) <==> i / 8 == 3
    ensures OnRank5(Singleton(i)) <==> i / 8 == 4
    ensures OnRank6(Singleton(i)) <==> i / 8 == 5
    ensures OnRank7(Singleton(i)) <==> i / 8 == 6
    ensures OnRank8(Singleton(i)) <==> i / 8 == 7
  {
    SingletonHighest(i, 0);
    SingletonHighest(i, 1);
    SingletonHighest(i, 2);
    SingletonHighest(i, 3);
    SingletonHighest(i, 4);
    SingletonHighest(i, 5);
    SingletonHighest(i, 6);
    SingletonHighest(i, 7);
  }

  /** On a word with two squares, two rank predicates can hold at once. */
  lemma RanksOfTwoSquares()
    ensures OnRank1(0x81) && OnRank2(0x81)
  {}

  // ---------------------------------------------------------------------
  // Algebraic square names
  // ---------------------------------------------------------------------

  /** The algebraic name of square `i`: its file letter, then its rank digit. */
  function SquareName(i: Index): string {
    [FILES[i % 8], RANKS[i / 8]]
  }

  /** `s` is a file letter followed by a rank digit. */
  predicate IsSquareName(s: string) {
    |s| == 2 && s[0] in FILES && s[1] in RANKS
  }

  /** Different squares have different names. */
  lemma SquareNameInjective(i: Index, k: Index)
    requires SquareName(i) == SquareName(k)
    ensures i == k
  {
    assert FILES[i % 8] == FILES[k % 8] && RANKS[i / 8] == RANKS[k / 8];
  }

  /** The ASCII letter `b'a' + f`, as `bb_to_square` forms it. */
  function FileLetter(f: Word): (c: char)
    requires f < 8
    ensures c == FILES[f]
  {
    ('a' as int + f as int) as char
  }

  /** The decimal form of a rank number 1..8: a single digit. */
  function RankDigit(rank: Word): (c: char)
    requires 1 <= rank <= 8
    ensures c == RANKS[rank - 1]
  {
    ('0' as int + rank as int) as char
  }

  /**
    `bb_to_square`: the name of the square of a single-square bitboard, and
    the invalid-bitboard error when more than one bit is set. On the zero
    word `bitboard - 1` overflows, which panics in a debug build.
  */
  function BbToSquare(bitboard: Word): (r: Outcome<Result<string, UtilsError>>)
    ensures r.Panicked? <==> bitboard == 0
    ensures r.Panicked? ==> r.reason == ArithmeticOverflow
    ensures r.Returned? ==> (r.value.Failure? <==> !IsSquare(bitboard))
    ensures r.Returned? && r.value.Failure? ==> r.value.error == InvalidBitboard
    ensures forall i: Index :: bitboard == Singleton(i) ==> r == Returned(Success(SquareName(i)))
  {
    if bitboard == 0 then Panicked(ArithmeticOverflow) else
    IsSquareIff(bitboard);
    var bbNull := bitboard & (bitboard - 1);
    if bbNull != 0 then
      Returned(Failure(InvalidBitboard))
    else
      var bitPosition := TrailingZeros(bitboard);
      var rank := bitPosition / 8 + 1;
      var fileNum := bitPosition % 8;
      Returned(Success([FileLetter(fileNum), RankDigit(rank)]))
  }

  /** A word with two or more bits set is rejected, for instance 3 (a1 and b1). */
  lemma BbToSquareRejectsSeveralSquares(bitboard: Word, i: Index, k: Index)
    requires i != k && Bit(bitboard, i) && Bit(bitboard, k)
    ensures BbToSquare(bitboard) == Returned(Failure(InvalidBitboard))
  {}

  /** `char::to_digit(10)` on a rank digit, which is the rank number 1..8. */
  function RankNumber(rank: char): (d: Word)
    requires rank in RANKS
    ensures 1 <= d <= 8 && RANKS[d - 1] == rank
  {
    match rank
    case '1' => 1
    case '2' => 2
    case '3' => 3
    case '4' => 4
    case '5' => 5
    case '6' => 6
    case '7' => 7
    case _ => 8
  }

  /** `file as u8 - b'a'` on a file letter, which is the file's position 0..7. */
  function FileNumber(file: char): (f: Word)
    requires file in FILES
    ensures f < 8 && FILES[f] == file
  {
    match file
    case 'a' => 0
    case 'b' => 1
    case 'c' => 2
    case 'd' => 3
    case 'e' => 4
    case 'f' => 5
    case 'g' => 6
    case _ => 7
  }

  /** The index `square_to_bb` computes from a file letter and a rank digit names that square. */
  lemma SquareIndexOfName(file: char, rank: char)
    requires file in FILES && rank in RANKS
    ensures var m := (RankNumber(rank) - 1) * 8 + FileNumber(file);
      m < 64 && SquareName(m) == [file, rank]
  {
    var k := RankNumber(rank) - 1;
    var f := FileNumber(file);
    assert (k * 8 + f) % 8 == f && (k * 8 + f) / 8 == k;
  }

  /**
    `square_to_bb`: the single-square bitboard named by `square`, with the
    length error checked first and then the file and rank.
  */
  method SquareToBb(square: string) returns (r: Result<Word, UtilsError>)
    ensures |square| != 2 ==> r == Failure(TooManyCharacters)
    ensures |square| == 2 && !IsSquareName(square) ==> r == Failure(InvalidFileOrRank)
    ensures IsSquareName(square) ==>
      exists i: Index :: r == Success(Singleton(i)) && SquareName(i) == square
  {
    if |square| != 2 {
      return Failure(TooManyCharacters);
    }
    var file := square[0];
    var rank := square[1];
    if !(file in FILES && rank in RANKS) {
      return Failure(InvalidFileOrRank);
    }
    SquareIndexOfName(file, rank);

    var modifier: Word := 0;
    modifier := modifier + (RankNumber(rank) - 1) * 8;
    var fileModifier := FileNumber(file);
    modifier := modifier + fileModifier;
    r := Success(1 << modifier);
  }

  /** The square names the repository's tests convert, with their bitboards. */
  method SquareToBbTests() returns (a1: Result<Word, UtilsError>, e4: Result<Word, UtilsError>,
      h8: Result<Word, UtilsError>, c7: Result<Word, UtilsError>)
    ensures a1 == Success(1) && e4 == Success(0x0000_0000_1000_0000)
    ensures h8 == Success(0x8000_0000_0000_0000) && c7 == Success(0x0004_0000_0000_0000)
  {
    a1 := SquareOfName("a1", 0);
    e4 := SquareOfName("e4", 28);
    h8 := SquareOfName("h8", 63);
    c7 := SquareOfName("c7", 50);
  }

  /** `square_to_bb` on the name of square `i` gives that square. */
  method SquareOfName(square: string, i: Index) returns (r: Result<Word, UtilsError>)
    requires square == SquareName(i)
    ensures r == Success(Singleton(i))
  {
    r := SquareToBb(square);
    ghost var k :| r == Success(Singleton(k)) && SquareName(k) == square;
    SquareNameInjective(i, k);
  }

  /** The malformed names of the repository's tests and their errors. */
  method SquareToBbErrorTests() returns (i1: Result<Word, UtilsError>, a9: Result<Word, UtilsError>,
      a11: Result<Word, UtilsError>)
    ensures i1 == Failure(InvalidFileOrRank) && a9 == Failure(InvalidFileOrRank)
    ensures a11 == Failure(TooManyCharacters)
  {
    i1 := SquareToBb("i1");
    a9 := SquareToBb("a9");
    a11 := SquareToBb("a11");
  }

  /** `square_to_bb` followed by `bb_to_square` gives back every square name. */
  method NameRoundTrip(square: string) returns (bb: Result<Word, UtilsError>, name: Outcome<Result<string, UtilsError>>)
    requires IsSquareName(square)
    ensures bb.Success? && IsSquare(bb.value)
    ensures name == Returned(Success(square))
  {
    bb := SquareToBb(square);
    var i: Index :| bb == Success(Singleton(i)) && SquareName(i) == square;
    name := BbToSquare(bb.value);
  }

  /** `bb_to_square` followed by `square_to_bb` gives back every single-square bitboard. */
  method BitboardRoundTrip(i: Index) returns (name: Outcome<Result<string, UtilsError>>, bb: Result<Word, UtilsError>)
    ensures name == Returned(Success(SquareName(i)))
    ensures bb == Success(Singleton(i))
  {
    name := BbToSquare(Singleton(i));
    bb := SquareOfName(name.value.value, i);
  }

  /** The squares the repository's tests name, with their bitboards. */
  lemma NamedTestSquares()
    ensures BbToSquare(0x0000_0000_0000_0001) == Returned(Success("a1"))
    ensures BbToSquare(0x0000_0000_1000_0000) == Returned(Success("e4"))
    ensures BbToSquare(0x8000_0000_0000_0000) == Returned(Success("h8"))
    ensures BbToSquare(0x0004_0000_0000_0000) == Returned(Success("c7"))
    ensures BbToSquare(3) == Returned(Failure(InvalidBitboard))
  {
    assert 0x0000_0000_0000_0001 == Singleton(0);
    assert 0x0000_0000_1000_0000 == Singleton(28);
    assert 0x8000_0000_0000_0000 == Singleton(63);
    assert 0x0004_0000_0000_0000 == Singleton(50);
    BbToSquareRejectsSeveralSquares(3, 0, 1);
  }

  // ---------------------------------------------------------------------
  // Masks of the squares above and below a square. Both derive their cutoff
  // from `% 8` of a bit count, that is from a file, where a rank (`/ 8`)
  // was meant; see SquaresAboveRank and SquaresBelowRank.
  // ---------------------------------------------------------------------

  /**
    `squares_above`: all of `u64::MAX` above a cutoff of eight bits per
    step of the file of the lowest set bit. The mask holds the ranks whose
    number exceeds that file's number.
  */
  function SquaresAbove(square: Word): (mask: Word)
    ensures forall j: Index :: Bit(mask, j) <==> j / 8 > TrailingZeros(square) % 8
  {
    var cutoff := ((TrailingZeros(square) % 8) + 1) * 8;
    UnwrapOr(CheckedShl(MAX, cutoff), 0)
  }

  /**
    `squares_below`: all of `u64::MAX` below a cutoff taken from the
    leading-zero count modulo 8. The mask holds the ranks whose number is
    less than seven minus that remainder.
  */
  function SquaresBelow(square: Word): (mask: Word)
    ensures forall j: Index :: Bit(mask, j) <==> j / 8 + LeadingZeros(square) % 8 < 7
  {
    var cutoff := ((LeadingZeros(square) % 8) + 1) * 8;
    UnwrapOr(CheckedShr(MAX, cutoff), 0)
  }

  /** On a single square, SquaresAbove gives the ranks above the rank numbered by its FILE. */
  lemma SquaresAboveOfSquare(i: Index, j: Index)
    ensures Bit(SquaresAbove(Singleton(i)), j) <==> j / 8 > i % 8
  {
    SingletonTrailingZeros(i);
  }

  /** On a single square, SquaresBelow gives the ranks below the rank numbered by its FILE. */
  lemma SquaresBelowOfSquare(i: Index, j: Index)
    ensures Bit(SquaresBelow(Singleton(i)), j) <==> j / 8 < i % 8
  {
    SingletonLeadingZeros(i);
  }

  /** The values the repository's tests pin, for a1 and g7. */
  lemma SquaresAboveBelowTests()
    ensures SquaresAbove(Singleton(0)) == 0xFFFF_FFFF_FFFF_FF00
    ensures SquaresAbove(Singleton(54)) == 0xFF00_0000_0000_0000
    ensures SquaresBelow(Singleton(0)) == 0
    ensures SquaresBelow(Singleton(54)) == 0x0000_FFFF_FFFF_FFFF
  {
    SingletonTrailingZeros(0);
    SingletonTrailingZeros(54);
    SingletonLeadingZeros(0);
    SingletonLeadingZeros(54);
  }

  /** `squares_above` as its name and comment describe it: the cutoff from the rank. */
  function SquaresAboveRank(square: Word): (mask: Word)
    ensures forall j: Index :: Bit(mask, j) <==> j / 8 > TrailingZeros(square) / 8
  {
    var cutoff := ((TrailingZeros(square) / 8) + 1) * 8;
    UnwrapOr(CheckedShl(MAX, cutoff), 0)
  }

  /** `squares_below` as its name and comment describe it: the cutoff from the rank. */
  function SquaresBelowRank(square: Word): (mask: Word)
    ensures forall j: Index :: Bit(mask, j) <==> j / 8 + LeadingZeros(square) / 8 < 7
  {
    var cutoff := ((LeadingZeros(square) / 8) + 1) * 8;
    UnwrapOr(CheckedShr(MAX, cutoff), 0)
  }

  /** The corrected masks hold exactly the squares on higher, respectively lower, ranks. */
  lemma SquaresAboveBelowRankOfSquare(i: Index, j: Index)
    ensures Bit(SquaresAboveRank(Singleton(i)), j) <==> j / 8 > i / 8
    ensures Bit(SquaresBelowRank(Singleton(i)), j) <==> j / 8 < i / 8
  {
    SingletonTrailingZeros(i);
    SingletonLeadingZeros(i);
  }

  /** On b1 the source's masks and the intended ones differ. */
  lemma SquaresAboveBelowOnB1()
    ensures SquaresAbove(Singleton(1)) == 0xFFFF_FFFF_FFFF_0000
    ensures SquaresAboveRank(Singleton(1)) == 0xFFFF_FFFF_FFFF_FF00
    ensures SquaresBelow(Singleton(1)) == 0x0000_0000_0000_00FF
    ensures SquaresBelowRank(Singleton(1)) == 0
  {
    SingletonTrailingZeros(1);
    SingletonLeadingZeros(1);
  }

  // ---------------------------------------------------------------------
  // Masks of files, built by loops that XOR shifted copies of one file
  // ---------------------------------------------------------------------

  /** Files `lo` to `hi - 1` on every rank. */
  function FileRange(lo: Word, hi: Word): (mask: Word)
    requires lo <= hi <= 8
    ensures forall j: Index :: Bit(mask, j) <==> lo <= j % 8 < hi
  {
    ((1 << hi) - (1 << lo)) * 0x0101_0101_0101_0101
  }

  /** Adding file `m` to files `lo..m-1` gives files `lo..m`. */
  lemma FileRangeGrowUp(lo: Word, m: Word)
    requires lo <= m < 8
    ensures FileRange(lo, m) ^ FileMask(m) == FileRange(lo, m + 1)
  {}

  /** Adding file `m` to files `m+1..hi-1` gives files `m..hi-1`. */
  lemma FileRangeGrowDown(m: Word, hi: Word)
    requires m < hi <= 8
    ensures FileRange(m + 1, hi) ^ FileMask(m) == FileRange(m, hi)
  {}

  /** The h-file shifted right by `k` is file `7 - k`. */
  lemma HFileShiftedRight(k: Word)
    requires k < 8
    ensures 0x8080_8080_8080_8080 >> k == FileMask(7 - k)
  {}

  /**
    `squares_left`: zero for an a-file square; otherwise, with `f` the
    file of the lowest set bit, the XOR of the h-file shifted right by
    `f - 1` down to 0, the loop ending when `wrapping_sub` passes below 0.
    That gives the `f` files from the h-file leftwards, not the `f` files
    left of the square: see SquaresLeftOfFile.
  */
  method SquaresLeft(square: Word) returns (mask: Word)
    ensures mask == FileRange(8 - TrailingZeros(square) % 8, 8)
  {
    var f := TrailingZeros(square) % 8;
    if f == 0 {
      mask := 0;
    } else {
      mask := 0;
      var fileTemplate: Word := 0x8080_8080_8080_8080;
      var fileMod: Word := f - 1;
      while fileMod < MAX
        invariant fileMod < f || fileMod == MAX
        invariant mask == FileRange(8 - f, 7 - fileMod)
        decreases fileMod + 1
      {
        HFileShiftedRight(fileMod);
        FileRangeGrowUp(8 - f, 7 - fileMod);
        mask := mask ^ (fileTemplate >> fileMod);
        fileMod := fileMod - 1;  // u64::wrapping_sub(1)
      }
    }
  }

  /**
    `squares_left` as its name describes it: the same loop over the a-file
    shifted left, giving the files left of the square's file.
  */
  method SquaresLeftOfFile(square: Word) returns (mask: Word)
    ensures mask == FileRange(0, TrailingZeros(square) % 8)
  {
    var f := TrailingZeros(square) % 8;
    if f == 0 {
      mask := 0;
    } else {
      mask := 0;
      var fileTemplate: Word := 0x0101_0101_0101_0101;
      var fileMod: Word := f - 1;
      while fileMod < MAX
        invariant fileMod < f || fileMod == MAX
        invariant mask == FileRange(fileMod + 1, f)
        decreases fileMod + 1
      {
        FileRangeGrowDown(fileMod, f);
        mask := mask ^ (fileTemplate << fileMod);
        fileMod := fileMod - 1;
      }
    }
  }

  /**
    `squares_right`: with `f` the file of the lowest set bit, the XOR of
    the a-file shifted left by `f + 1` up to 7: the files right of `f`.
    The source's first branch tests `% 8 == 8`, which never holds; it is
    left out.
  */
  method SquaresRight(square: Word) returns (mask: Word)
    ensures mask == FileRange(TrailingZeros(square) % 8 + 1, 8)
  {
    var f := TrailingZeros(square) % 8;
    mask := 0;
    var fileTemplate: Word := 0x0101_0101_0101_0101;
    var fileMod: Word := f + 1;
    while fileMod < 8
      invariant f + 1 <= fileMod <= 8
      invariant mask == FileRange(f + 1, fileMod)
    {
      FileRangeGrowUp(f + 1, fileMod);
      mask := mask ^ (fileTemplate << fileMod);
      fileMod := fileMod + 1;
    }
  }

  /** On a single square, the three masks in terms of the square's file. */
  lemma SquaresLeftRightOfSquare(i: Index, j: Index)
    ensures Bit(FileRange(8 - TrailingZeros(Singleton(i)) % 8, 8), j) <==> 8 - i % 8 <= j % 8
    ensures Bit(FileRange(0, TrailingZeros(Singleton(i)) % 8), j) <==> j % 8 < i % 8
    ensures Bit(FileRange(TrailingZeros(Singleton(i)) % 8 + 1, 8), j) <==> i % 8 < j % 8
  {
    SingletonTrailingZeros(i);
  }

  /** The values the repository's tests pin, for a1 and g7. */
  lemma SquaresLeftRightTests()
    ensures FileRange(8 - TrailingZeros(Singleton(0)) % 8, 8) == 0
    ensures FileRange(8 - TrailingZeros(Singleton(54)) % 8, 8) == 0xFCFC_FCFC_FCFC_FCFC
    ensures FileRange(TrailingZeros(Singleton(0)) % 8 + 1, 8) == 0xFEFE_FEFE_FEFE_FEFE
    ensures FileRange(TrailingZeros(Singleton(54)) % 8 + 1, 8) == 0x8080_8080_8080_8080
  {
    SingletonTrailingZeros(0);
    SingletonTrailingZeros(54);
  }

  /** On b1 the source's left mask is the h-file, the intended one the a-file. */
  lemma SquaresLeftOnB1()
    ensures FileRange(8 - TrailingZeros(Singleton(1)) % 8, 8) == 0x8080_8080_8080_8080
    ensures FileRange(0, TrailingZeros(Singleton(1)) % 8) == 0x0101_0101_0101_0101
  {
    SingletonTrailingZeros(1);
  }

  /** `squares_left` and `squares_right` themselves on a1 and g7 give the words the repository's tests expect. */
  method SquaresLeftRightMethodTests() returns (leftA1: Word, leftG7: Word, rightA1: Word, rightG7: Word)
    ensures leftA1 == 0 && leftG7 == 0xFCFC_FCFC_FCFC_FCFC
    ensures rightA1 == 0xFEFE_FEFE_FEFE_FEFE && rightG7 == 0x8080_8080_8080_8080
  {
    SquaresLeftRightTests();
    leftA1 := SquaresLeft(Singleton(0));
    leftG7 := SquaresLeft(Singleton(54));
    rightA1 := SquaresRight(Singleton(0));
    rightG7 := SquaresRight(Singleton(54));
  }

  /** On b1 the source's `squares_left` gives the h-file, the corrected loop the a-file. */
  method SquaresLeftB1MethodTests() returns (asWritten: Word, corrected: Word)
    ensures asWritten == 0x8080_8080_8080_8080 && corrected == 0x0101_0101_0101_0101
  {
    SquaresLeftOnB1();
    asWritten := SquaresLeft(Singleton(1));
    corrected := SquaresLeftOfFile(Singleton(1));
  }
}
