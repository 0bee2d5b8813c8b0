/**
  The chess board record, its two constructors, and the check of a FEN
  string (Forsyth-Edwards Notation: piece placement, side to move,
  castling rights, en-passant target, halfmove clock, fullmove number).
*/
module Board {
  import opened Wrappers
  import opened U64
  import opened Ints
  import opened RustStr
  import Utils

  /**
    A position: one bitboard per piece type, one per colour, and the game
    state. Bit `i` of a bitboard is square `i`, a1 = 0. The castling
    rights use their four low bits (white kingside, white queenside, black
    kingside, black queenside).
  */
  datatype ChessBoard = ChessBoard(
    pawns: Word,
    knights: Word,
    bishops: Word,
    rooks: Word,
    queens: Word,
    kings: Word,
    whitePieces: Word,
    blackPieces: Word,
    sideToMove: bool,      // true: white to move
    enPassant: Word,       // the capture square, 0 when there is none
    castlingRights: U8,
    halfmoveClock: U8,
    fullmoveNumber: U16)

  /** The occupied squares, by piece type. */
  function Occupied(b: ChessBoard): Word {
    b.pawns | b.knights | b.bishops | b.rooks | b.queens | b.kings
  }

  /**
    The two layers of a board agree: no square holds two piece types or
    both colours, and the coloured squares are exactly the occupied ones.
  */
  predicate Consistent(b: ChessBoard) {
    && b.whitePieces & b.blackPieces == 0
    && b.whitePieces | b.blackPieces == Occupied(b)
    && b.pawns & (b.knights | b.bishops | b.rooks | b.queens | b.kings) == 0
    && b.knights & (b.bishops | b.rooks | b.queens | b.kings) == 0
    && b.bishops & (b.rooks | b.queens | b.kings) == 0
    && b.rooks & (b.queens | b.kings) == 0
    && b.queens & b.kings == 0
  }

  /** `initialize`: the standard starting position, white to move. */
  function Initialize(): (b: ChessBoard)
    ensures Consistent(b)
    ensures b.whitePieces == Utils.RankMask(0) | Utils.RankMask(1)
    ensures b.blackPieces == Utils.RankMask(6) | Utils.RankMask(7)
    ensures b.pawns == Utils.RankMask(1) | Utils.RankMask(6)
    ensures b.knights == Singleton(1) | Singleton(6) | Singleton(57) | Singleton(62)
    ensures b.bishops == Singleton(2) | Singleton(5) | Singleton(58) | Singleton(61)
    ensures b.rooks == Singleton(0) | Singleton(7) | Singleton(56) | Singleton(63)
    ensures b.queens == Singleton(3) | Singleton(59)
    ensures b.kings == Singleton(4) | Singleton(60)
    ensures b.kings & b.whitePieces == Singleton(4) && b.kings & b.blackPieces == Singleton(60)
    ensures b.sideToMove && b.enPassant == 0 && b.castlingRights == 0xF
    ensures b.halfmoveClock == 0 && b.fullmoveNumber == 1
  {
    ChessBoard(
      0x00FF00000000FF00,
      0x4200000000000042,
      0x2400000000000024,
      0x8100000000000081,
      0x0800000000000008,
      0x1000000000000010,
      0x000000000000FFFF,
      0xFFFF000000000000,
      true,
      0,
      0xF,
      0,
      1)
  }

  /** `empty`: no pieces, white to move, no castling rights, fullmove 1. */
  function Empty(): (b: ChessBoard)
    ensures Consistent(b) && Occupied(b) == 0 && b.whitePieces == 0 && b.blackPieces == 0
    ensures b.sideToMove && b.enPassant == 0 && b.castlingRights == 0
    ensures b.halfmoveClock == 0 && b.fullmoveNumber == 1
  {
    ChessBoard(0, 0, 0, 0, 0, 0, 0, 0, true, 0, 0, 0, 1)
  }

  // ---------------------------------------------------------------------
  // verify_fen as a function of the input
  // ---------------------------------------------------------------------

  /** The piece letters of `"kqrbnpKQRBNP".contains(ch)`. */
  const PIECE_LETTERS: set<char> := {'k', 'q', 'r', 'b', 'n', 'p', 'K', 'Q', 'R', 'B', 'N', 'P'}

  /** The set of piece letters is the source's substring test of "kqrbnpKQRBNP" on one character. */
  lemma PieceLettersContain(ch: char)
    ensures ch in PIECE_LETTERS <==> Contains("kqrbnpKQRBNP", [ch])
  {
    ContainsChar("kqrbnpKQRBNP", ch);
  }

  /** The king counters of `verify_fen`, kept across ranks. */
  datatype Kings = Kings(white: U8, black: U8)

  /** The counters while a rank is read: its squares so far, and the kings. */
  datatype Tally = Tally(squares: U32, kings: Kings)

  /**
    One pass of the inner loop on character `ch`: `None` is the loop's
    `return false`. The counters are a `u32` and two `u8`, whose overflow
    panics in a debug build.
  */
  function ScanChar(t: Tally, ch: char): Outcome<Option<Tally>> {
    if ch in PIECE_LETTERS then
      if t.squares == 0xFFFF_FFFF then Panicked(ArithmeticOverflow)
      else
        var squares := t.squares + 1;
        if ch == 'K' then
          if t.kings.white == 0xFF then Panicked(ArithmeticOverflow)
          else Returned(Some(Tally(squares, t.kings.(white := t.kings.white + 1))))
        else if ch == 'k' then
          if t.kings.black == 0xFF then Panicked(ArithmeticOverflow)
          else Returned(Some(Tally(squares, t.kings.(black := t.kings.black + 1))))
        else Returned(Some(t.(squares := squares)))
    else if '1' <= ch <= '8' then
      var d := DigitValue(ch);
      if t.squares as int + d > 0xFFFF_FFFF then Panicked(ArithmeticOverflow)
      else Returned(Some(t.(squares := (t.squares as int + d) as U32)))
    else
      Returned(None)
  }

  /** The inner loop over the characters of `rank`, from the counters `t`. */
  function ScanRank(t: Tally, rank: string): Outcome<Option<Tally>>
    decreases |rank|
  {
    if |rank| == 0 then Returned(Some(t))
    else
      match ScanRank(t, rank[..|rank| - 1])
      case Returned(Some(t')) => ScanChar(t', rank[|rank| - 1])
      case other => other
  }

  /** One pass of the outer loop: read a rank from zero squares, then demand exactly 8. */
  function ScanRankEnd(k: Kings, rank: string): Outcome<Option<Kings>> {
    match ScanRank(Tally(0, k), rank)
    case Panicked(p) => Panicked(p)
    case Returned(None) => Returned(None)
    case Returned(Some(t)) => if t.squares != 8 then Returned(None) else Returned(Some(t.kings))
  }

  /** The outer loop over `ranks`, from the king counters `k`. */
  function ScanRanks(k: Kings, ranks: seq<string>): Outcome<Option<Kings>>
    decreases |ranks|
  {
    if |ranks| == 0 then Returned(Some(k))
    else
      match ScanRanks(k, ranks[..|ranks| - 1])
      case Returned(Some(k')) => ScanRankEnd(k', ranks[|ranks| - 1])
      case Panicked(p) => Panicked(p)
      case Returned(None) => Returned(None)
  }

  /** The side-to-move test: a substring of "wb" of length 1. */
  predicate SideOk(f: string) {
    !(!Contains("wb", f) || Utf8Len(f) != 1)
  }

  /** The two castling tests: a substring of "KQkq-" of length at most 4, and "-" only alone. */
  predicate CastlingOk(f: string) {
    && !(!Contains("KQkq-", f) || Utf8Len(f) > 4)
    && !(Contains(f, "-") && f != "-")
  }

  /** The en-passant tests; the first character is taken with `unwrap`. */
  function EnPassantVerdict(f: string): Outcome<bool> {
    if Utf8Len(f) > 2 then Returned(false)
    else if f == "-" then Returned(true)
    else if |f| == 0 then Panicked(UnwrapNone)
    else if f[0] < 'a' || f[0] > 'h' then Returned(false)
    else if |f| < 2 then Returned(false)
    else Returned(!(f[1] != '6' && f[1] != '3'))
  }

  /** The tests of fields 1 to 5, each field read by indexing, which panics when it is missing. */
  function FieldsVerdict(c: seq<string>): Outcome<bool> {
    if |c| < 2 then Panicked(IndexOutOfBounds)
    else if !SideOk(c[1]) then Returned(false)
    else if |c| < 3 then Panicked(IndexOutOfBounds)
    else if !CastlingOk(c[2]) then Returned(false)
    else if |c| < 4 then Panicked(IndexOutOfBounds)
    else
      match EnPassantVerdict(c[3])
      case Panicked(p) => Panicked(p)
      case Returned(false) => Returned(false)
      case Returned(true) =>
        if |c| < 5 then Panicked(IndexOutOfBounds)
        else if !ParseU16(c[4]).Success? then Returned(false)
        else if |c| < 6 then Panicked(IndexOutOfBounds)
        else Returned(!(!ParseU16(c[5]).Success? || c[5] == "0"))
  }

  /** What `verify_fen(fen)` does: return true or false, or panic. */
  function FenVerdict(fen: string): Outcome<bool> {
    var c := SplitWhitespace(fen);
    if |c| == 0 then Panicked(IndexOutOfBounds)
    else
      var ranks := Split(c[0], '/');
      if |ranks| != 8 then Returned(false)
      else
        match ScanRanks(Kings(0, 0), ranks)
        case Panicked(p) => Panicked(p)
        case Returned(None) => Returned(false)
        case Returned(Some(k)) =>
          if k.white != 1 then Returned(false)
          else if k.black != 1 then Returned(false)
          else FieldsVerdict(c)
  }

  /** Once a rank's scan has stopped, the characters after the stop change nothing. */
  lemma {:induction false} ScanRankStops(t: Tally, rank: string, i: nat)
    requires i <= |rank|
    requires ScanRank(t, rank[..i]).Panicked? || ScanRank(t, rank[..i]) == Returned(None)
    ensures ScanRank(t, rank) == ScanRank(t, rank[..i])
    decreases |rank|
  {
    if i == |rank| {
      assert rank[..i] == rank;
    } else {
      var init := rank[..|rank| - 1];
      assert init[..i] == rank[..i];
      ScanRankStops(t, init, i);
    }
  }

  /** Once the scan of the ranks has stopped, the ranks after the stop change nothing. */
  lemma {:induction false} ScanRanksStops(k: Kings, ranks: seq<string>, n: nat)
    requires n <= |ranks|
    requires ScanRanks(k, ranks[..n]).Panicked? || ScanRanks(k, ranks[..n]) == Returned(None)
    ensures ScanRanks(k, ranks) == ScanRanks(k, ranks[..n])
    decreases |ranks|
  {
    if n == |ranks| {
      assert ranks[..n] == ranks;
    } else {
      var init := ranks[..|ranks| - 1];
      assert init[..n] == ranks[..n];
      ScanRanksStops(k, init, n);
    }
  }

  /** One more character of the rank is one more `ScanChar`, unless the scan has stopped. */
  lemma ScanRankStep(t: Tally, rank: string, i: nat)
    requires i < |rank|
    ensures ScanRank(t, rank[..i + 1]) ==
      match ScanRank(t, rank[..i])
      case Returned(Some(t')) => ScanChar(t', rank[i])
      case other => other
  {
    assert rank[..i + 1][..i] == rank[..i];
  }

  /**
    The inner loop of `verify_fen` over one rank's characters, from the
    king counters `k`; `None` is its `return false`.
  */
  method ReadRank(rank: string, k: Kings) returns (r: Outcome<Option<Tally>>)
    ensures r == ScanRank(Tally(0, k), rank)
  {
    var whiteKingCount := k.white;
    var blackKingCount := k.black;
    var squareCount: U32 := 0;
    var i := 0;
    while i < |rank|
      invariant i <= |rank|
      invariant ScanRank(Tally(0, k), rank[..i]) == Returned(Some(Tally(squareCount, Kings(whiteKingCount, blackKingCount))))
    {
      var ch := rank[i];
      ghost var next := ScanChar(Tally(squareCount, Kings(whiteKingCount, blackKingCount)), ch);
      ScanRankStep(Tally(0, k), rank, i);
      assert ScanRank(Tally(0, k), rank[..i + 1]) == next;
      if ch in PIECE_LETTERS {
        if squareCount == 0xFFFF_FFFF {
          ScanRankStops(Tally(0, k), rank, i + 1);
          return Panicked(ArithmeticOverflow);
        }
        squareCount := squareCount + 1;
        if ch == 'K' {
          if whiteKingCount == 0xFF {
            ScanRankStops(Tally(0, k), rank, i + 1);
            return Panicked(ArithmeticOverflow);
          }
          whiteKingCount := whiteKingCount + 1;
        } else if ch == 'k' {
          if blackKingCount == 0xFF {
            ScanRankStops(Tally(0, k), rank, i + 1);
            return Panicked(ArithmeticOverflow);
          }
          blackKingCount := blackKingCount + 1;
        }
      } else if '1' <= ch <= '8' {
        var d := DigitValue(ch);
        if squareCount as int + d > 0xFFFF_FFFF {
          ScanRankStops(Tally(0, k), rank, i + 1);
          return Panicked(ArithmeticOverflow);
        }
        squareCount := (squareCount as int + d) as U32;
      } else {
        ScanRankStops(Tally(0, k), rank, i + 1);
        return Returned(None);
      }
      i := i + 1;
    }
    assert rank[..i] == rank;
    return Returned(Some(Tally(squareCount, Kings(whiteKingCount, blackKingCount))));
  }

  /**
    The outer loop of `verify_fen` over the ranks of the placement, which
    demands exactly 8 squares of each rank; `None` is a `return false`.
  */
  method ReadPlacement(ranks: seq<string>) returns (r: Outcome<Option<Kings>>)
    ensures r == ScanRanks(Kings(0, 0), ranks)
  {
    var kings := Kings(0, 0);
    var n := 0;
    while n < |ranks|
      invariant n <= |ranks|
      invariant ScanRanks(Kings(0, 0), ranks[..n]) == Returned(Some(kings))
    {
      var t := ReadRank(ranks[n], kings);
      assert ranks[..n + 1][..n] == ranks[..n];
      if t.Panicked? {
        ScanRanksStops(Kings(0, 0), ranks, n + 1);
        return Panicked(t.reason);
      }
      if t.value.None? || t.value.value.squares != 8 {
        ScanRanksStops(Kings(0, 0), ranks, n + 1);
        return Returned(None);
      }
      kings := t.value.value.kings;
      n := n + 1;
    }
    assert ranks[..n] == ranks;
    return Returned(Some(kings));
  }

  /**
    `verify_fen`: split the input into fields, read the placement, then
    test fields 1 to 5 in the source's order. The result is exactly
    `FenVerdict(fen)`.
  */
  method VerifyFen(fen: string) returns (r: Outcome<bool>)
    ensures r == FenVerdict(fen)
  {
    var c := SplitWhitespace(fen);
    if |c| == 0 {
      return Panicked(IndexOutOfBounds);
    }
    var ranks := Split(c[0], '/');
    if |ranks| != 8 {
      return Returned(false);
    }
    var placement := ReadPlacement(ranks);
    if placement.Panicked? {
      return Panicked(placement.reason);
    }
    if placement.value.None? {
      return Returned(false);
    }
    var kings := placement.value.value;
    if kings.white != 1 {
      return Returned(false);
    }
    if kings.black != 1 {
      return Returned(false);
    }
    if |c| < 2 {
      return Panicked(IndexOutOfBounds);
    }
    if !Contains("wb", c[1]) || Utf8Len(c[1]) != 1 {
      return Returned(false);
    }
    if |c| < 3 {
      return Panicked(IndexOutOfBounds);
    }
    if !Contains("KQkq-", c[2]) || Utf8Len(c[2]) > 4 {
      return Returned(false);
    }
    if Contains(c[2], "-") && c[2] != "-" {
      return Returned(false);
    }
    if |c| < 4 {
      return Panicked(IndexOutOfBounds);
    }
    if Utf8Len(c[3]) > 2 {
      return Returned(false);
    }
    if c[3] != "-" {
      if |c[3]| == 0 {
        return Panicked(UnwrapNone);
      }
      var first := c[3][0];
      if first < 'a' || first > 'h' {
        return Returned(false);
      }
      if |c[3]| >= 2 {
        var second := c[3][1];
        if second != '6' && second != '3' {
          return Returned(false);
        }
      } else {
        return Returned(false);
      }
    }
    if |c| < 5 {
      return Panicked(IndexOutOfBounds);
    }
    if !ParseU16(c[4]).Success? {
      return Returned(false);
    }
    if |c| < 6 {
      return Panicked(IndexOutOfBounds);
    }
    if !ParseU16(c[5]).Success? || c[5] == "0" {
      return Returned(false);
    }
    return Returned(true);
  }

  /** `initialize_from_fen`'s error. */
  datatype BoardError = InvalidFen

  /**
    `initialize_from_fen`: a rejected string is an error; reading an
    accepted one is not written yet (`todo!`) and panics.
  */
  method InitializeFromFen(fen: string) returns (r: Outcome<Result<ChessBoard, BoardError>>)
    ensures r.Returned? <==> FenVerdict(fen) == Returned(false)
    ensures r.Returned? ==> r.value == Failure(InvalidFen)
    ensures FenVerdict(fen) == Returned(true) ==> r == Panicked(NotImplemented)
    ensures FenVerdict(fen).Panicked? ==> r == Panicked(FenVerdict(fen).reason)
  {
    var ok := VerifyFen(fen);
    if ok.Panicked? {
      return Panicked(ok.reason);
    }
    if !ok.value {
      return Returned(Failure(InvalidFen));
    }
    return Panicked(NotImplemented);
  }

  // ---------------------------------------------------------------------
  // What verify_fen accepts
  // ---------------------------------------------------------------------

  /** The side to move is accepted exactly when it is "w" or "b". */
  lemma SideOkIff(f: string)
    ensures SideOk(f) <==> f == "w" || f == "b"
  {
    ContainsIff("wb", f);
    Utf8LenBounds(f);
    if SideOk(f) {
      var i :| OccursAt("wb", f, i);
      assert |f| == 1;
      assert f == "wb"[i..i + 1];
    }
    if f == "w" {
      assert OccursAt("wb", f, 0);
    }
    if f == "b" {
      assert OccursAt("wb", f, 1);
    }
  }

  /** The castling fields the two tests let through (besides the empty string). */
  const CASTLING_FIELDS: set<string> := {"-", "K", "Q", "k", "q", "KQ", "Qk", "kq", "KQk", "Qkq", "KQkq"}

  /** The runs of "KQkq" of up to four letters are the castling fields other than "-". */
  lemma RunsOfKQkq(i: nat, n: nat)
    requires 1 <= n && i + n <= 4
    ensures "KQkq"[i..i + n] in CASTLING_FIELDS
  {
    var hay := "KQkq";
    if n == 1 {
      assert hay[i..i + n] == [hay[i]];
    } else if n == 2 {
      assert hay[i..i + n] == [hay[i], hay[i + 1]];
    } else if n == 3 {
      assert hay[i..i + n] == [hay[i], hay[i + 1], hay[i + 2]];
    } else {
      assert hay[i..i + n] == hay;
    }
  }

  lemma CastlingLettersPass()
    ensures CastlingOk("-") && CastlingOk("K") && CastlingOk("Q") && CastlingOk("k") && CastlingOk("q")
  {}

  lemma CastlingPairsPass()
    ensures CastlingOk("KQ") && CastlingOk("Qk") && CastlingOk("kq")
  {}

  lemma CastlingLongRunsPass()
    ensures CastlingOk("KQk") && CastlingOk("Qkq") && CastlingOk("KQkq")
  {}

  /** Every castling field passes the castling tests. */
  lemma CastlingFieldsPass(f: string)
    requires f in CASTLING_FIELDS
    ensures CastlingOk(f)
  {
    if |f| == 1 {
      CastlingLettersPass();
    } else if |f| == 2 {
      CastlingPairsPass();
    } else {
      CastlingLongRunsPass();
    }
  }

  /** A piece of "KQkq-" of up to four characters, with no dash unless it is the dash, is a castling field. */
  lemma CastlingRun(f: string, i: int)
    requires 0 < |f| <= 4 && OccursAt("KQkq-", f, i)
    requires f == "-" || !OccursAt(f, "-", |f| - 1)
    ensures f in CASTLING_FIELDS
  {
    var hay := "KQkq-";
    var n := |f|;
    if i + n == 5 {
      assert f[n - 1..n] == hay[4..5] == "-";
      assert f == "-";
    } else {
      assert hay[i..i + n] == "KQkq"[i..i + n];
      RunsOfKQkq(i, n);
    }
  }

  /** What passes the castling tests, other than the empty string, is a castling field. */
  lemma CastlingOkFields(f: string)
    requires CastlingOk(f) && f != ""
    ensures f in CASTLING_FIELDS
  {
    ContainsIff("KQkq-", f);
    ContainsIff(f, "-");
    Utf8LenBounds(f);
    var i :| OccursAt("KQkq-", f, i);
    CastlingRun(f, i);
  }

  /**
    The castling tests accept exactly the runs of "KQkq" and the lone "-"
    (and the empty string, which is never a whitespace-separated field).
  */
  lemma CastlingOkIff(f: string)
    ensures CastlingOk(f) <==> f == "" || f in CASTLING_FIELDS
  {
    if f in CASTLING_FIELDS {
      CastlingFieldsPass(f);
    }
    if CastlingOk(f) && f != "" {
      CastlingOkFields(f);
    }
  }

  // The castling test as intended: any of the four rights, each at most
  // once, in the order K, Q, k, q.

  /** The place of a castling letter in "KQkq"; -1 for any other character. */
  function CastlingOrder(c: char): int {
    if c == 'K' then 0 else if c == 'Q' then 1 else if c == 'k' then 2 else if c == 'q' then 3 else -1
  }

  /** Castling letters from place `k` on, each later than the one before. */
  predicate Ascending(f: string, k: int) {
    && (forall i :: 0 <= i < |f| ==> CastlingOrder(f[i]) >= k)
    && (forall i, j :: 0 <= i < j < |f| ==> CastlingOrder(f[i]) < CastlingOrder(f[j]))
  }

  /** Castling rights as the notation writes them: "-", or some of "KQkq" in that order. */
  predicate CastlingRightsField(f: string) {
    f == "-" || (|f| > 0 && Ascending(f, 0))
  }

  /** `f` can be read off `hay` by skipping characters. */
  function Subsequence(f: string, hay: string): bool
    decreases |hay|
  {
    if |f| == 0 then true
    else if |hay| == 0 then false
    else if f[0] == hay[0] then Subsequence(f[1..], hay[1..])
    else Subsequence(f, hay[1..])
  }

  /** The corrected castling test: the dash, or a nonempty subsequence of "KQkq". */
  predicate CastlingRightsOk(f: string) {
    f == "-" || (|f| > 0 && Subsequence(f, "KQkq"))
  }

  lemma CastlingOrderAt(c: char, k: nat)
    requires k < 4
    ensures CastlingOrder(c) == k <==> c == "KQkq"[k]
  {}

  /** Reading `f` off the tail of "KQkq" from place `k` is the same as `f` ascending from `k`. */
  lemma {:induction false} SubsequenceAscending(f: string, k: nat)
    requires k <= 4
    ensures Subsequence(f, "KQkq"[k..]) <==> Ascending(f, k)
    decreases 4 - k
  {
    var hay := "KQkq"[k..];
    if |f| == 0 {
    } else if k == 4 {
      assert hay == [];
      assert CastlingOrder(f[0]) <= 3;
    } else {
      assert hay[0] == "KQkq"[k] && hay[1..] == "KQkq"[k + 1..];
      CastlingOrderAt(f[0], k);
      if f[0] == hay[0] {
        SubsequenceAscending(f[1..], k + 1);
        if Ascending(f[1..], k + 1) {
          forall i, j | 0 <= i < j < |f|
            ensures CastlingOrder(f[i]) < CastlingOrder(f[j])
          {
            if i > 0 {
              assert f[i] == f[1..][i - 1] && f[j] == f[1..][j - 1];
            } else {
              assert f[j] == f[1..][j - 1];
            }
          }
        }
        if Ascending(f, k) {
          forall i | 0 <= i < |f[1..]|
            ensures CastlingOrder(f[1..][i]) >= k + 1
          {
            assert f[1..][i] == f[i + 1];
          }
          forall i, j | 0 <= i < j < |f[1..]|
            ensures CastlingOrder(f[1..][i]) < CastlingOrder(f[1..][j])
          {
            assert f[1..][i] == f[i + 1] && f[1..][j] == f[j + 1];
          }
        }
      } else {
        SubsequenceAscending(f, k + 1);
        if Ascending(f, k) {
          assert CastlingOrder(f[0]) >= k + 1;
          forall i | 0 <= i < |f|
            ensures CastlingOrder(f[i]) >= k + 1
          {
            if i > 0 {
              assert CastlingOrder(f[0]) < CastlingOrder(f[i]);
            }
          }
        }
      }
    }
  }

  /** The corrected test accepts exactly the castling rights the notation allows. */
  lemma CastlingRightsOkIff(f: string)
    ensures CastlingRightsOk(f) <==> CastlingRightsField(f)
  {
    SubsequenceAscending(f, 0);
    assert "KQkq"[0..] == "KQkq";
  }

  /**
    The castling rights "Kq" (white may castle short, black long) and "Kk"
    (both short) are written correctly, yet the substring test turns them
    away; the corrected test accepts them.
  */
  lemma CastlingKqRejected()
    ensures CastlingRightsField("Kq") && CastlingRightsOk("Kq") && !CastlingOk("Kq")
    ensures CastlingRightsField("Kk") && CastlingRightsOk("Kk") && !CastlingOk("Kk")
  {
    assert CastlingOrder("Kq"[0]) == 0 && CastlingOrder("Kq"[1]) == 3;
    assert CastlingOrder("Kk"[0]) == 0 && CastlingOrder("Kk"[1]) == 2;
    CastlingRightsOkIff("Kq");
    CastlingRightsOkIff("Kk");
    CastlingOkIff("Kq");
    CastlingOkIff("Kk");
  }

  /** An en-passant field as the notation writes it: "-", or a file and rank 3 or 6. */
  predicate EnPassantField(f: string) {
    f == "-" || (|f| == 2 && 'a' <= f[0] <= 'h' && (f[1] == '3' || f[1] == '6'))
  }

  /**
    The en-passant tests accept exactly the written fields, and the
    `unwrap` fails only on the empty string.
  */
  lemma EnPassantIff(f: string)
    ensures EnPassantVerdict(f).Panicked? <==> f == ""
    ensures EnPassantVerdict(f) == Returned(true) <==> EnPassantField(f)
  {
    Utf8LenBounds(f);
    if EnPassantField(f) && f != "-" {
      assert forall i :: 0 <= i < |f| ==> f[i] as int < 0x80;
    }
  }

  // ---------------------------------------------------------------------
  // What the placement loops accept
  // ---------------------------------------------------------------------

  predicate IsPlacementChar(c: char) {
    c in PIECE_LETTERS || '1' <= c <= '8'
  }

  /** The squares a placement character covers: one for a piece, its value for a digit. */
  function SquareWidth(c: char): nat {
    if c in PIECE_LETTERS then 1 else if '1' <= c <= '8' then DigitValue(c) else 0
  }

  predicate PlacementChars(rank: string) {
    forall i :: 0 <= i < |rank| ==> IsPlacementChar(rank[i])
  }

  /** The squares a rank covers. */
  function RankWidth(rank: string): nat {
    if |rank| == 0 then 0 else SquareWidth(rank[0]) + RankWidth(rank[1..])
  }

  lemma {:induction false} RankWidthAppend(a: string, b: string)
    ensures RankWidth(a + b) == RankWidth(a) + RankWidth(b)
    decreases |a|
  {
    if |a| > 0 {
      assert (a + b)[0] == a[0] && (a + b)[1..] == a[1..] + b;
      RankWidthAppend(a[1..], b);
    } else {
      assert a + b == b;
    }
  }

  /** A rank of the placement: pieces and digits covering exactly 8 squares. */
  predicate ValidRank(rank: string) {
    PlacementChars(rank) && RankWidth(rank) == 8
  }

  predicate ValidRanks(ranks: seq<string>) {
    forall n :: 0 <= n < |ranks| ==> ValidRank(ranks[n])
  }

  /** The occurrences of `c` in all the ranks. */
  function TotalCount(ranks: seq<string>, c: char): nat {
    if |ranks| == 0 then 0 else Count(ranks[0], c) + TotalCount(ranks[1..], c)
  }

  lemma {:induction false} TotalCountAppend(a: seq<string>, b: seq<string>, c: char)
    ensures TotalCount(a + b, c) == TotalCount(a, c) + TotalCount(b, c)
    decreases |a|
  {
    if |a| > 0 {
      assert (a + b)[0] == a[0] && (a + b)[1..] == a[1..] + b;
      TotalCountAppend(a[1..], b, c);
    } else {
      assert a + b == b;
    }
  }

  /**
    Reading a rank from counters `t`: when it goes through, the rank holds
    only placement characters, the squares grow by the rank's width and
    each king counter by that king's occurrences; and it does go through
    whenever those sums fit the counters.
  */
  lemma {:induction false} ScanRankSpec(t: Tally, rank: string)
    ensures ScanRank(t, rank).Returned? && ScanRank(t, rank).value.Some? ==>
      && PlacementChars(rank)
      && ScanRank(t, rank).value.value.squares as int == t.squares as int + RankWidth(rank)
      && ScanRank(t, rank).value.value.kings.white as int == t.kings.white as int + Count(rank, 'K')
      && ScanRank(t, rank).value.value.kings.black as int == t.kings.black as int + Count(rank, 'k')
    ensures
      && PlacementChars(rank)
      && t.squares as int + RankWidth(rank) <= 0xFFFF_FFFF
      && t.kings.white as int + Count(rank, 'K') <= 0xFF
      && t.kings.black as int + Count(rank, 'k') <= 0xFF
      ==> ScanRank(t, rank).Returned? && ScanRank(t, rank).value.Some?
    decreases |rank|
  {
    if |rank| > 0 {
      var init, last := rank[..|rank| - 1], rank[|rank| - 1];
      assert rank == init + [last];
      CountAppend(init, [last], 'K');
      CountAppend(init, [last], 'k');
      RankWidthAppend(init, [last]);
      ScanRankSpec(t, init);
      assert forall i :: 0 <= i < |init| ==> init[i] == rank[i];
    }
  }

  /** A nonempty run of placement characters holds no whitespace and no '/'; a valid rank is one. */
  lemma PlacementCharsAreToken(rank: string)
    requires PlacementChars(rank) && (|rank| > 0 || RankWidth(rank) == 8)
    ensures IsToken(rank) && '/' !in rank
  {
    assert forall i :: 0 <= i < |rank| ==> IsPlacementChar(rank[i]);
  }

  /** A king letter takes one square, so a rank holds no more of it than its width. */
  lemma {:induction false} CountWithinWidth(rank: string, c: char)
    requires PlacementChars(rank) && c in PIECE_LETTERS
    ensures Count(rank, c) <= RankWidth(rank)
    decreases |rank|
  {
    if |rank| > 0 {
      var init, last := rank[..|rank| - 1], rank[|rank| - 1];
      assert rank == init + [last];
      CountAppend(init, [last], c);
      RankWidthAppend(init, [last]);
      assert forall i :: 0 <= i < |init| ==> init[i] == rank[i];
      CountWithinWidth(init, c);
    }
  }

  /** One rank closes with king counters `k` exactly when it is a valid rank. */
  lemma ScanRankEndSpec(k: Kings, rank: string)
    requires k.white <= 0xF7 && k.black <= 0xF7
    ensures ScanRankEnd(k, rank).Returned? && ScanRankEnd(k, rank).value.Some? <==> ValidRank(rank)
    ensures ValidRank(rank) ==>
      && Count(rank, 'K') <= 8
      && Count(rank, 'k') <= 8
      && ScanRankEnd(k, rank) == Returned(Some(Kings(k.white + Count(rank, 'K') as U8, k.black + Count(rank, 'k') as U8)))
  {
    ScanRankSpec(Tally(0, k), rank);
    if PlacementChars(rank) {
      CountWithinWidth(rank, 'K');
      CountWithinWidth(rank, 'k');
    }
  }

  /** When the placement loops go through, every rank is valid and the counters hold the kings. */
  lemma {:induction false} PlacementSound(ranks: seq<string>)
    requires ScanRanks(Kings(0, 0), ranks).Returned? && ScanRanks(Kings(0, 0), ranks).value.Some?
    ensures ValidRanks(ranks)
    ensures ScanRanks(Kings(0, 0), ranks).value.value.white as int == TotalCount(ranks, 'K')
    ensures ScanRanks(Kings(0, 0), ranks).value.value.black as int == TotalCount(ranks, 'k')
    decreases |ranks|
  {
    if |ranks| > 0 {
      var init, last := ranks[..|ranks| - 1], ranks[|ranks| - 1];
      PlacementSound(init);
      var k := ScanRanks(Kings(0, 0), init).value.value;
      assert ScanRanks(Kings(0, 0), ranks) == ScanRankEnd(k, last);
      ScanRankSpec(Tally(0, k), last);
      assert init + [last] == ranks;
      TotalCountAppend(init, [last], 'K');
      TotalCountAppend(init, [last], 'k');
      ValidRanksSnoc(init, last);
    }
  }

  /** When every rank is valid, the placement loops go through. */
  lemma {:induction false} PlacementComplete(ranks: seq<string>)
    requires |ranks| <= 8 && ValidRanks(ranks)
    ensures TotalCount(ranks, 'K') <= 8 * |ranks| && TotalCount(ranks, 'k') <= 8 * |ranks|
    ensures ScanRanks(Kings(0, 0), ranks).Returned? && ScanRanks(Kings(0, 0), ranks).value.Some?
    decreases |ranks|
  {
    if |ranks| > 0 {
      var init, last := ranks[..|ranks| - 1], ranks[|ranks| - 1];
      assert init + [last] == ranks;
      TotalCountAppend(init, [last], 'K');
      TotalCountAppend(init, [last], 'k');
      ValidRanksSnoc(init, last);
      PlacementComplete(init);
      PlacementSound(init);
      var k := ScanRanks(Kings(0, 0), init).value.value;
      ScanRankEndSpec(k, last);
    }
  }

  /**
    The placement loops go through exactly when every rank is valid, and
    then their counters hold the number of white and of black kings.
  */
  lemma PlacementSpec(ranks: seq<string>)
    requires |ranks| <= 8
    ensures ScanRanks(Kings(0, 0), ranks).Returned? && ScanRanks(Kings(0, 0), ranks).value.Some? <==> ValidRanks(ranks)
    ensures ValidRanks(ranks) ==>
      && TotalCount(ranks, 'K') <= 8 * |ranks|
      && TotalCount(ranks, 'k') <= 8 * |ranks|
      && ScanRanks(Kings(0, 0), ranks) == Returned(Some(Kings(TotalCount(ranks, 'K') as U8, TotalCount(ranks, 'k') as U8)))
  {
    if ValidRanks(ranks) {
      PlacementComplete(ranks);
    }
    if ScanRanks(Kings(0, 0), ranks).Returned? && ScanRanks(Kings(0, 0), ranks).value.Some? {
      PlacementSound(ranks);
    }
  }

  lemma ValidRanksSnoc(init: seq<string>, last: string)
    ensures ValidRanks(init + [last]) <==> ValidRanks(init) && ValidRank(last)
  {
    var ranks := init + [last];
    assert forall n :: 0 <= n < |init| ==> ranks[n] == init[n];
    assert ranks[|init|] == last;
  }

  /** A whitespace-separated field that `u16::from_str` accepts: an optional `+`, then digits worth at most 65535. */
  predicate U16Field(f: string) {
    var d := UnsignedDigits(f);
    |d| > 0 && AllDigits(d) && DecimalValue(d) <= 0xFFFF
  }

  /**
    The fullmove test as intended: the field reads as a `u16` that is not
    zero. The source compares the field with the string "0" instead, which
    lets "00" and "+0" through.
  */
  predicate FullmoveOk(f: string) {
    ParseU16(f).Success? && ParseU16(f).value != 0
  }

  /** The corrected fullmove test accepts exactly the decimal readings from 1 to 65535. */
  lemma FullmoveOkIff(f: string)
    ensures FullmoveOk(f) <==> U16Field(f) && DecimalValue(UnsignedDigits(f)) >= 1
  {
    ParseU16Iff(f);
  }

  /** The corrected test rejects "00" and "+0". */
  lemma FullmoveZeroesRejected()
    ensures !FullmoveOk("00") && !FullmoveOk("+0") && FullmoveOk("1")
  {
    FullmoveOkIff("00");
    FullmoveOkIff("+0");
    FullmoveOkIff("1");
  }

  /** The placement field of an accepted FEN string: eight valid ranks with one king of each colour. */
  predicate PlacementAccepted(placement: string) {
    && |Split(placement, '/')| == 8
    && ValidRanks(Split(placement, '/'))
    && TotalCount(Split(placement, '/'), 'K') == 1
    && TotalCount(Split(placement, '/'), 'k') == 1
  }

  /** Every field that is present, up to the en-passant field and the halfmove clock, is accepted. */
  predicate PresentFieldsAccepted(c: seq<string>) {
    && (|c| > 0 ==> PlacementAccepted(c[0]))
    && (|c| > 1 ==> c[1] == "w" || c[1] == "b")
    && (|c| > 2 ==> c[2] in CASTLING_FIELDS)
    && (|c| > 3 ==> EnPassantField(c[3]))
    && (|c| > 4 ==> U16Field(c[4]))
  }

  /** The fields of an accepted FEN string, stated without the tests that accept them. */
  predicate AcceptedFields(c: seq<string>) {
    && |c| >= 6
    && PresentFieldsAccepted(c)
    && U16Field(c[5]) && c[5] != "0"
  }

  /**
    `verify_fen` returns true exactly when the string has at least six
    fields: eight valid ranks holding one white and one black king, "w" or
    "b", a castling field, an en-passant field, and two numbers that fit a
    `u16`, the last not written "0".
  */
  lemma FenAcceptedIff(fen: string)
    ensures FenVerdict(fen) == Returned(true) <==> AcceptedFields(SplitWhitespace(fen))
  {
    var c := SplitWhitespace(fen);
    if |c| > 0 {
      var ranks := Split(c[0], '/');
      if |ranks| == 8 {
        PlacementSpec(ranks);
      }
    }
    if |c| >= 6 {
      SideOkIff(c[1]);
      CastlingOkIff(c[2]);
      assert IsToken(c[2]);
      EnPassantIff(c[3]);
      ParseU16Iff(c[4]);
      ParseU16Iff(c[5]);
    }
  }

  // ---------------------------------------------------------------------
  // When verify_fen returns
  // ---------------------------------------------------------------------

  /**
    A character adds at most 8 squares and at most one king, so reading a
    rank cannot overflow while those bounds fit the counters.
  */
  lemma {:induction false} ScanRankBounds(t: Tally, rank: string)
    ensures ScanRank(t, rank).Returned? && ScanRank(t, rank).value.Some? ==>
      && ScanRank(t, rank).value.value.squares as int <= t.squares as int + 8 * |rank|
      && ScanRank(t, rank).value.value.kings.white as int <= t.kings.white as int + |rank|
      && ScanRank(t, rank).value.value.kings.black as int <= t.kings.black as int + |rank|
    ensures
      && t.squares as int + 8 * |rank| <= 0xFFFF_FFFF
      && t.kings.white as int + |rank| <= 0xFF
      && t.kings.black as int + |rank| <= 0xFF
      ==> ScanRank(t, rank).Returned?
    decreases |rank|
  {
    if |rank| > 0 {
      ScanRankBounds(t, rank[..|rank| - 1]);
    }
  }

  /** With ranks of at most `len` characters, and `len` kings per rank fitting a `u8`, the placement loops return. */
  lemma {:induction false} PlacementReturns(ranks: seq<string>, len: nat)
    requires |ranks| * len <= 0xFF
    requires forall n :: 0 <= n < |ranks| ==> |ranks[n]| <= len
    ensures ScanRanks(Kings(0, 0), ranks).Returned?
    ensures ScanRanks(Kings(0, 0), ranks).Returned? && ScanRanks(Kings(0, 0), ranks).value.Some? ==>
      && ScanRanks(Kings(0, 0), ranks).value.value.white as int <= |ranks| * len
      && ScanRanks(Kings(0, 0), ranks).value.value.black as int <= |ranks| * len
    decreases |ranks|
  {
    if |ranks| > 0 {
      var init, last := ranks[..|ranks| - 1], ranks[|ranks| - 1];
      assert |init| * len + len == |ranks| * len;
      assert forall n :: 0 <= n < |init| ==> init[n] == ranks[n];
      PlacementReturns(init, len);
      var prev := ScanRanks(Kings(0, 0), init);
      if prev.Returned? && prev.value.Some? {
        var k := prev.value.value;
        assert ScanRanks(Kings(0, 0), ranks) == ScanRankEnd(k, last);
        ScanRankBounds(Tally(0, k), last);
      }
    }
  }

  /**
    `verify_fen` returns, and does not panic, on a string of at least six
    fields whose ranks have at most 31 characters each; in particular the
    en-passant `unwrap` never fails, as the source's comment claims.
  */
  lemma FenReturns(fen: string)
    requires |SplitWhitespace(fen)| >= 6
    requires forall n :: 0 <= n < |Split(SplitWhitespace(fen)[0], '/')| ==> |Split(SplitWhitespace(fen)[0], '/')[n]| <= 31
    ensures FenVerdict(fen).Returned?
  {
    var c := SplitWhitespace(fen);
    var ranks := Split(c[0], '/');
    if |ranks| == 8 {
      PlacementReturns(ranks, 31);
    }
    assert IsToken(c[3]);
    EnPassantIff(c[3]);
  }

  /** The only panic inside a rank is a counter overflow. */
  lemma {:induction false} ScanRankPanics(t: Tally, rank: string)
    ensures ScanRank(t, rank).Panicked? ==> ScanRank(t, rank).reason == ArithmeticOverflow
    decreases |rank|
  {
    if |rank| > 0 {
      ScanRankPanics(t, rank[..|rank| - 1]);
    }
  }

  /** The only panic of the placement loops is a counter overflow. */
  lemma {:induction false} ScanRanksPanics(k: Kings, ranks: seq<string>)
    ensures ScanRanks(k, ranks).Panicked? ==> ScanRanks(k, ranks).reason == ArithmeticOverflow
    decreases |ranks|
  {
    if |ranks| > 0 {
      ScanRanksPanics(k, ranks[..|ranks| - 1]);
      var prev := ScanRanks(k, ranks[..|ranks| - 1]);
      if prev.Returned? && prev.value.Some? {
        ScanRankPanics(Tally(0, prev.value.value), ranks[|ranks| - 1]);
      }
    }
  }

  /**
    `verify_fen` panics only by indexing a missing field or by overflowing
    a counter: the en-passant `unwrap` never fails, because a field is
    never empty.
  */
  lemma FenPanics(fen: string)
    ensures FenVerdict(fen).Panicked? ==>
      FenVerdict(fen).reason == IndexOutOfBounds || FenVerdict(fen).reason == ArithmeticOverflow
  {
    var c := SplitWhitespace(fen);
    if |c| > 0 {
      ScanRanksPanics(Kings(0, 0), Split(c[0], '/'));
    }
    if |c| >= 4 {
      assert IsToken(c[3]);
      EnPassantIff(c[3]);
    }
  }

  /**
    On a string of fewer than six fields, `verify_fen` indexes a missing
    field, and panics, exactly when every field before the first missing
    one passes its test; a string rejected earlier returns false or
    overflows a counter instead.
  */
  lemma FenMissingFieldPanics(fen: string)
    requires |SplitWhitespace(fen)| < 6
    ensures FenVerdict(fen) == Panicked(IndexOutOfBounds) <==> PresentFieldsAccepted(SplitWhitespace(fen))
  {
    var c := SplitWhitespace(fen);
    if |c| > 0 {
      var ranks := Split(c[0], '/');
      ScanRanksPanics(Kings(0, 0), ranks);
      if |ranks| == 8 {
        PlacementSpec(ranks);
      }
    }
    if |c| > 1 {
      SideOkIff(c[1]);
    }
    if |c| > 2 {
      CastlingOkIff(c[2]);
      assert IsToken(c[2]);
    }
    if |c| > 3 {
      assert IsToken(c[3]);
      EnPassantIff(c[3]);
    }
    if |c| > 4 {
      ParseU16Iff(c[4]);
    }
  }

  // ---------------------------------------------------------------------
  // FEN strings written out from their parts
  // ---------------------------------------------------------------------

  /** The six fields of a FEN string whose placement has the given ranks. */
  function FenFields(ranks: seq<string>, side: string, castling: string, enPassant: string, halfmove: string, fullmove: string): seq<string>
    requires |ranks| > 0
  {
    [Join(ranks, '/'), side, castling, enPassant, halfmove, fullmove]
  }

  /** The FEN string written out from its parts: ranks joined by '/', fields by spaces. */
  function FenOf(ranks: seq<string>, side: string, castling: string, enPassant: string, halfmove: string, fullmove: string): string
    requires |ranks| > 0
  {
    JoinSpaced(FenFields(ranks, side, castling, enPassant, halfmove, fullmove))
  }

  /**
    On a string written out from short ranks without '/' and from five
    fields without whitespace, `verify_fen` returns, and returns whether
    those fields are accepted.
  */
  lemma FenOfVerdict(ranks: seq<string>, side: string, castling: string, enPassant: string, halfmove: string, fullmove: string)
    requires |ranks| > 0
    requires forall n :: 0 <= n < |ranks| ==> IsToken(ranks[n]) && '/' !in ranks[n] && |ranks[n]| <= 31
    requires IsToken(side) && IsToken(castling) && IsToken(enPassant) && IsToken(halfmove) && IsToken(fullmove)
    ensures Split(Join(ranks, '/'), '/') == ranks
    ensures FenVerdict(FenOf(ranks, side, castling, enPassant, halfmove, fullmove)) ==
      Returned(AcceptedFields(FenFields(ranks, side, castling, enPassant, halfmove, fullmove)))
  {
    var c := FenFields(ranks, side, castling, enPassant, halfmove, fullmove);
    assert !IsWhitespace('/');
    JoinIsToken(ranks, '/');
    SplitWhitespaceOfJoin(c);
    SplitOfJoin(ranks, '/');
    var fen := FenOf(ranks, side, castling, enPassant, halfmove, fullmove);
    FenReturns(fen);
    FenAcceptedIff(fen);
  }
}
