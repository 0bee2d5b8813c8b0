/**
  The FEN strings of `verify_fen`'s unit tests, each written out from its
  ranks and its five other fields with `FenOf`.
*/
module BoardTests {
  import opened Wrappers
  import opened RustStr
  import opened Board

  /** No rank of a test holds whitespace or '/', or more than 31 characters. */
  predicate Writable(ranks: seq<string>) {
    forall n :: 0 <= n < |ranks| ==> IsToken(ranks[n]) && '/' !in ranks[n] && |ranks[n]| <= 31
  }

  /** The occurrences of `x` in eight ranks, rank by rank. */
  lemma EightRanksCount(a: string, b: string, c: string, d: string, e: string, f: string, g: string, h: string, x: char)
    ensures TotalCount([a, b, c, d, e, f, g, h], x) ==
      Count(a, x) + Count(b, x) + Count(c, x) + Count(d, x) + Count(e, x) + Count(f, x) + Count(g, x) + Count(h, x)
  {
    var r := [a, b, c, d, e, f, g, h];
    var s1 := r[1..];
    var s2 := s1[1..];
    var s3 := s2[1..];
    var s4 := s3[1..];
    var s5 := s4[1..];
    var s6 := s5[1..];
    var s7 := s6[1..];
    assert s7[1..] == [];
    assert TotalCount(s7, x) == Count(h, x);
    assert TotalCount(s6, x) == Count(g, x) + TotalCount(s7, x);
    assert TotalCount(s5, x) == Count(f, x) + TotalCount(s6, x);
    assert TotalCount(s4, x) == Count(e, x) + TotalCount(s5, x);
    assert TotalCount(s3, x) == Count(d, x) + TotalCount(s4, x);
    assert TotalCount(s2, x) == Count(c, x) + TotalCount(s3, x);
    assert TotalCount(s1, x) == Count(b, x) + TotalCount(s2, x);
  }

  /** A rank of a test: valid, and short. */
  predicate TestRank(s: string) {
    |s| <= 31 && ValidRank(s)
  }

  /** A rank of a test that cannot be valid: short placement characters, or a token with some other letter. */
  predicate OddRank(s: string) {
    |s| <= 31 && ((|s| > 0 && PlacementChars(s)) || (IsToken(s) && '/' !in s))
  }

  /** Ranks that are test ranks or odd ranks can be written out with `FenOf`. */
  lemma WritableRanks(ranks: seq<string>)
    requires forall n :: 0 <= n < |ranks| ==> TestRank(ranks[n]) || OddRank(ranks[n])
    ensures Writable(ranks)
  {
    forall n | 0 <= n < |ranks|
      ensures IsToken(ranks[n]) && '/' !in ranks[n] && |ranks[n]| <= 31
    {
      if PlacementChars(ranks[n]) && (|ranks[n]| > 0 || RankWidth(ranks[n]) == 8) {
        PlacementCharsAreToken(ranks[n]);
      }
    }
  }

  /** Eight test ranks make a valid placement. */
  lemma EightTestRanks(a: string, b: string, c: string, d: string, e: string, f: string, g: string, h: string)
    requires TestRank(a) && TestRank(b) && TestRank(c) && TestRank(d)
    requires TestRank(e) && TestRank(f) && TestRank(g) && TestRank(h)
    ensures Writable([a, b, c, d, e, f, g, h]) && ValidRanks([a, b, c, d, e, f, g, h])
  {
    var r := [a, b, c, d, e, f, g, h];
    forall n | 0 <= n < 8
      ensures TestRank(r[n])
    {
      if n < 4 {
        assert n == 0 || n == 1 || n == 2 || n == 3;
      } else {
        assert n == 4 || n == 5 || n == 6 || n == 7;
      }
    }
    WritableRanks(r);
  }

  /** A rank written as two pieces: its squares and its kings are those of the pieces together. */
  lemma TestRankHalves(a: string, b: string)
    requires |a| + |b| <= 31 && PlacementChars(a) && PlacementChars(b)
    requires RankWidth(a) + RankWidth(b) == 8
    ensures TestRank(a + b)
    ensures Count(a + b, 'K') == Count(a, 'K') + Count(b, 'K')
    ensures Count(a + b, 'k') == Count(a, 'k') + Count(b, 'k')
  {
    RankWidthAppend(a, b);
    CountAppend(a, b, 'K');
    CountAppend(a, b, 'k');
    assert PlacementChars(a + b) by {
      forall i | 0 <= i < |a + b|
        ensures IsPlacementChar((a + b)[i])
      {
        if i < |a| {
          assert (a + b)[i] == a[i];
        } else {
          assert (a + b)[i] == b[i - |a|];
        }
      }
    }
  }

  // The ranks of the tests, one lemma each.

  lemma StartRank8()
    ensures TestRank("rnbqkbnr") && Count("rnbqkbnr", 'K') == 0 && Count("rnbqkbnr", 'k') == 1
  {
    TestRankHalves("rnbq", "kbnr");
    assert "rnbqkbnr" == "rnbq" + "kbnr";
  }

  lemma StartRank7()
    ensures TestRank("pppppppp") && Count("pppppppp", 'K') == 0 && Count("pppppppp", 'k') == 0
  {
    TestRankHalves("pppp", "pppp");
    assert "pppppppp" == "pppp" + "pppp";
  }

  lemma EmptyRank()
    ensures TestRank("8") && Count("8", 'K') == 0 && Count("8", 'k') == 0
  {}

  lemma StartRank2()
    ensures TestRank("PPPPPPPP") && Count("PPPPPPPP", 'K') == 0 && Count("PPPPPPPP", 'k') == 0
  {
    TestRankHalves("PPPP", "PPPP");
    assert "PPPPPPPP" == "PPPP" + "PPPP";
  }

  lemma StartRank1()
    ensures TestRank("RNBQKBNR") && Count("RNBQKBNR", 'K') == 1 && Count("RNBQKBNR", 'k') == 0
  {
    TestRankHalves("RNBQ", "KBNR");
    assert "RNBQKBNR" == "RNBQ" + "KBNR";
  }

  lemma MiddlegameRank8()
    ensures TestRank("1rbq1rk1") && Count("1rbq1rk1", 'K') == 0 && Count("1rbq1rk1", 'k') == 1
  {
    TestRankHalves("1rbq", "1rk1");
    assert "1rbq1rk1" == "1rbq" + "1rk1";
  }

  lemma MiddlegameRank7()
    ensures TestRank("5pbp") && Count("5pbp", 'K') == 0 && Count("5pbp", 'k') == 0
  {}

  lemma MiddlegameRank6()
    ensures TestRank("2pNn1p1") && Count("2pNn1p1", 'K') == 0 && Count("2pNn1p1", 'k') == 0
  {
    TestRankHalves("2pNn", "1p1");
    assert "2pNn1p1" == "2pNn" + "1p1";
  }

  lemma MiddlegameRank5()
    ensures TestRank("p1Pn4") && Count("p1Pn4", 'K') == 0 && Count("p1Pn4", 'k') == 0
  {
    TestRankHalves("p1Pn", "4");
    assert "p1Pn4" == "p1Pn" + "4";
  }

  lemma MiddlegameRank4()
    ensures TestRank("Pp1P4") && Count("Pp1P4", 'K') == 0 && Count("Pp1P4", 'k') == 0
  {
    TestRankHalves("Pp1P", "4");
    assert "Pp1P4" == "Pp1P" + "4";
  }

  lemma MiddlegameRank3()
    ensures TestRank("1B3N1P") && Count("1B3N1P", 'K') == 0 && Count("1B3N1P", 'k') == 0
  {
    TestRankHalves("1B3N", "1P");
    assert "1B3N1P" == "1B3N" + "1P";
  }

  lemma MiddlegameRank2()
    ensures TestRank("1P3PP1") && Count("1P3PP1", 'K') == 0 && Count("1P3PP1", 'k') == 0
  {
    TestRankHalves("1P3P", "P1");
    assert "1P3PP1" == "1P3P" + "P1";
  }

  lemma MiddlegameRank1()
    ensures TestRank("R1BQR1K1") && Count("R1BQR1K1", 'K') == 1 && Count("R1BQR1K1", 'k') == 0
  {
    TestRankHalves("R1BQ", "R1K1");
    assert "R1BQR1K1" == "R1BQ" + "R1K1";
  }

  lemma OpeningRank8()
    ensures TestRank("rnbqk2r") && Count("rnbqk2r", 'K') == 0 && Count("rnbqk2r", 'k') == 1
  {
    TestRankHalves("rnbq", "k2r");
    assert "rnbqk2r" == "rnbq" + "k2r";
  }

  lemma OpeningRank7()
    ensures TestRank("pp2nppp") && Count("pp2nppp", 'K') == 0 && Count("pp2nppp", 'k') == 0
  {
    TestRankHalves("pp2n", "ppp");
    assert "pp2nppp" == "pp2n" + "ppp";
  }

  lemma OpeningRank6()
    ensures TestRank("2pbp3") && Count("2pbp3", 'K') == 0 && Count("2pbp3", 'k') == 0
  {
    TestRankHalves("2pbp", "3");
    assert "2pbp3" == "2pbp" + "3";
  }

  lemma OpeningRank5()
    ensures TestRank("3p4") && Count("3p4", 'K') == 0 && Count("3p4", 'k') == 0
  {}

  lemma OpeningRank4()
    ensures TestRank("3P4") && Count("3P4", 'K') == 0 && Count("3P4", 'k') == 0
  {}

  lemma OpeningRank3()
    ensures TestRank("1P1BPN2") && Count("1P1BPN2", 'K') == 0 && Count("1P1BPN2", 'k') == 0
  {
    TestRankHalves("1P1B", "PN2");
    assert "1P1BPN2" == "1P1B" + "PN2";
  }

  lemma OpeningRank2()
    ensures TestRank("PBP2PPP") && Count("PBP2PPP", 'K') == 0 && Count("PBP2PPP", 'k') == 0
  {
    TestRankHalves("PBP2", "PPP");
    assert "PBP2PPP" == "PBP2" + "PPP";
  }

  lemma OpeningRank1()
    ensures TestRank("RN1QK2R") && Count("RN1QK2R", 'K') == 1 && Count("RN1QK2R", 'k') == 0
  {
    TestRankHalves("RN1Q", "K2R");
    assert "RN1QK2R" == "RN1Q" + "K2R";
  }

  lemma BadRankTooWide()
    ensures OddRank("R2BQR1K1") && !ValidRank("R2BQR1K1")
  {}

  lemma BadRankTooNarrow()
    ensures OddRank("RBQR1K1") && !ValidRank("RBQR1K1")
  {}

  /** An ASCII letter or digit. */
  predicate Alphanumeric(c: char) {
    ('0' <= c <= '9') || ('a' <= c <= 'z') || ('A' <= c <= 'Z')
  }

  /** A nonempty run of letters and digits holds no whitespace and no '/'. */
  lemma AlphanumericToken(s: string)
    requires |s| > 0 && forall i :: 0 <= i < |s| ==> Alphanumeric(s[i])
    ensures IsToken(s) && '/' !in s
  {
    assert forall i :: 0 <= i < |s| ==> !IsWhitespace(s[i]) && s[i] != '/';
  }

  lemma BadRankLetter()
    ensures OddRank("1rbq1ak1") && !ValidRank("1rbq1ak1")
  {
    var r := "1rbq1ak1";
    assert forall i :: 0 <= i < |r| ==> Alphanumeric(r[i]);
    AlphanumericToken(r);
    assert r[5] == 'a' && !IsPlacementChar(r[5]);
  }

  // ---------------------------------------------------------------------
  // The placements of the tests
  // ---------------------------------------------------------------------

  /** The ranks of the starting position, rank 8 first. */
  const START: seq<string> := ["rnbqkbnr", "pppppppp", "8", "8", "8", "8", "PPPPPPPP", "RNBQKBNR"]

  /** The ranks of the first middlegame of the tests. */
  const MIDDLEGAME: seq<string> := ["1rbq1rk1", "5pbp", "2pNn1p1", "p1Pn4", "Pp1P4", "1B3N1P", "1P3PP1", "R1BQR1K1"]

  /** The ranks of the second middlegame of the tests. */
  const OPENING: seq<string> := ["rnbqk2r", "pp2nppp", "2pbp3", "3p4", "3P4", "1P1BPN2", "PBP2PPP", "RN1QK2R"]

  lemma StartRanks()
    ensures Writable(START) && ValidRanks(START)
  {
    StartRank8();
    StartRank7();
    EmptyRank();
    StartRank2();
    StartRank1();
    EightTestRanks("rnbqkbnr", "pppppppp", "8", "8", "8", "8", "PPPPPPPP", "RNBQKBNR");
  }

  lemma StartWhiteKing()
    ensures TotalCount(START, 'K') == 1
  {
    StartRank8();
    StartRank7();
    EmptyRank();
    StartRank2();
    StartRank1();
    EightRanksCount("rnbqkbnr", "pppppppp", "8", "8", "8", "8", "PPPPPPPP", "RNBQKBNR", 'K');
  }

  lemma StartBlackKing()
    ensures TotalCount(START, 'k') == 1
  {
    StartRank8();
    StartRank7();
    EmptyRank();
    StartRank2();
    StartRank1();
    EightRanksCount("rnbqkbnr", "pppppppp", "8", "8", "8", "8", "PPPPPPPP", "RNBQKBNR", 'k');
  }

  lemma MiddlegameRanks()
    ensures Writable(MIDDLEGAME) && ValidRanks(MIDDLEGAME)
  {
    MiddlegameRank8();
    MiddlegameRank7();
    MiddlegameRank6();
    MiddlegameRank5();
    MiddlegameRank4();
    MiddlegameRank3();
    MiddlegameRank2();
    MiddlegameRank1();
    EightTestRanks("1rbq1rk1", "5pbp", "2pNn1p1", "p1Pn4", "Pp1P4", "1B3N1P", "1P3PP1", "R1BQR1K1");
  }

  lemma MiddlegameWhiteKing()
    ensures TotalCount(MIDDLEGAME, 'K') == 1
  {
    MiddlegameRank8();
    MiddlegameRank7();
    MiddlegameRank6();
    MiddlegameRank5();
    MiddlegameRank4();
    MiddlegameRank3();
    MiddlegameRank2();
    MiddlegameRank1();
    EightRanksCount("1rbq1rk1", "5pbp", "2pNn1p1", "p1Pn4", "Pp1P4", "1B3N1P", "1P3PP1", "R1BQR1K1", 'K');
  }

  lemma MiddlegameBlackKing()
    ensures TotalCount(MIDDLEGAME, 'k') == 1
  {
    MiddlegameRank8();
    MiddlegameRank7();
    MiddlegameRank6();
    MiddlegameRank5();
    MiddlegameRank4();
    MiddlegameRank3();
    MiddlegameRank2();
    MiddlegameRank1();
    EightRanksCount("1rbq1rk1", "5pbp", "2pNn1p1", "p1Pn4", "Pp1P4", "1B3N1P", "1P3PP1", "R1BQR1K1", 'k');
  }

  lemma OpeningRanks()
    ensures Writable(OPENING) && ValidRanks(OPENING)
  {
    OpeningRank8();
    OpeningRank7();
    OpeningRank6();
    OpeningRank5();
    OpeningRank4();
    OpeningRank3();
    OpeningRank2();
    OpeningRank1();
    EightTestRanks("rnbqk2r", "pp2nppp", "2pbp3", "3p4", "3P4", "1P1BPN2", "PBP2PPP", "RN1QK2R");
  }

  lemma OpeningWhiteKing()
    ensures TotalCount(OPENING, 'K') == 1
  {
    OpeningRank8();
    OpeningRank7();
    OpeningRank6();
    OpeningRank5();
    OpeningRank4();
    OpeningRank3();
    OpeningRank2();
    OpeningRank1();
    EightRanksCount("rnbqk2r", "pp2nppp", "2pbp3", "3p4", "3P4", "1P1BPN2", "PBP2PPP", "RN1QK2R", 'K');
  }

  lemma OpeningBlackKing()
    ensures TotalCount(OPENING, 'k') == 1
  {
    OpeningRank8();
    OpeningRank7();
    OpeningRank6();
    OpeningRank5();
    OpeningRank4();
    OpeningRank3();
    OpeningRank2();
    OpeningRank1();
    EightRanksCount("rnbqk2r", "pp2nppp", "2pbp3", "3p4", "3P4", "1P1BPN2", "PBP2PPP", "RN1QK2R", 'k');
  }

  /** Replacing one rank of writable ranks by an odd rank that is not valid makes the FEN rejected. */
  lemma ReplacedRankRejected(ranks: seq<string>, i: nat, bad: string, side: string, castling: string, enPassant: string, halfmove: string, fullmove: string)
    requires Writable(ranks) && i < |ranks| && OddRank(bad) && !ValidRank(bad)
    requires IsToken(side) && IsToken(castling) && IsToken(enPassant) && IsToken(halfmove) && IsToken(fullmove)
    ensures FenVerdict(FenOf(ranks[i := bad], side, castling, enPassant, halfmove, fullmove)) == Returned(false)
  {
    var r := ranks[i := bad];
    if |bad| > 0 && PlacementChars(bad) {
      PlacementCharsAreToken(bad);
    }
    assert forall n :: 0 <= n < |r| && n != i ==> r[n] == ranks[n];
    FenOfVerdict(r, side, castling, enPassant, halfmove, fullmove);
    assert !ValidRank(r[i]);
  }

  /** One more writable rank after eight makes the FEN rejected. */
  lemma ExtraRankRejected(ranks: seq<string>, extra: string, side: string, castling: string, enPassant: string, halfmove: string, fullmove: string)
    requires Writable(ranks) && |ranks| == 8 && TestRank(extra)
    requires IsToken(side) && IsToken(castling) && IsToken(enPassant) && IsToken(halfmove) && IsToken(fullmove)
    ensures FenVerdict(FenOf(ranks + [extra], side, castling, enPassant, halfmove, fullmove)) == Returned(false)
  {
    var r := ranks + [extra];
    PlacementCharsAreToken(extra);
    assert forall n :: 0 <= n < |ranks| ==> r[n] == ranks[n];
    assert r[8] == extra;
    FenOfVerdict(r, side, castling, enPassant, halfmove, fullmove);
  }

  /** Dropping the last of eight writable ranks makes the FEN rejected. */
  lemma MissingRankRejected(ranks: seq<string>, side: string, castling: string, enPassant: string, halfmove: string, fullmove: string)
    requires Writable(ranks) && |ranks| == 8
    requires IsToken(side) && IsToken(castling) && IsToken(enPassant) && IsToken(halfmove) && IsToken(fullmove)
    ensures FenVerdict(FenOf(ranks[..7], side, castling, enPassant, halfmove, fullmove)) == Returned(false)
  {
    var r := ranks[..7];
    assert forall n :: 0 <= n < 7 ==> r[n] == ranks[n];
    FenOfVerdict(r, side, castling, enPassant, halfmove, fullmove);
  }

  // ---------------------------------------------------------------------
  // The test cases
  // ---------------------------------------------------------------------

  /**
    From eight writable valid ranks holding one king of each colour, the
    verdict is exactly the test of the five other fields.
  */
  lemma FromPlacement(ranks: seq<string>, side: string, castling: string, enPassant: string, halfmove: string, fullmove: string)
    requires Writable(ranks) && |ranks| == 8 && ValidRanks(ranks)
    requires TotalCount(ranks, 'K') == 1 && TotalCount(ranks, 'k') == 1
    requires IsToken(side) && IsToken(castling) && IsToken(enPassant) && IsToken(halfmove) && IsToken(fullmove)
    ensures FenVerdict(FenOf(ranks, side, castling, enPassant, halfmove, fullmove)) == Returned(
      && (side == "w" || side == "b")
      && castling in CASTLING_FIELDS
      && EnPassantField(enPassant)
      && U16Field(halfmove)
      && U16Field(fullmove) && fullmove != "0")
  {
    FenOfVerdict(ranks, side, castling, enPassant, halfmove, fullmove);
  }

  /** From the starting placement, the verdict is exactly the test of the five other fields. */
  lemma FromStart(side: string, castling: string, enPassant: string, halfmove: string, fullmove: string)
    requires IsToken(side) && IsToken(castling) && IsToken(enPassant) && IsToken(halfmove) && IsToken(fullmove)
    ensures FenVerdict(FenOf(START, side, castling, enPassant, halfmove, fullmove)) == Returned(
      && (side == "w" || side == "b")
      && castling in CASTLING_FIELDS
      && EnPassantField(enPassant)
      && U16Field(halfmove)
      && U16Field(fullmove) && fullmove != "0")
  {
    StartRanks();
    StartWhiteKing();
    StartBlackKing();
    FromPlacement(START, side, castling, enPassant, halfmove, fullmove);
  }

  /** The starting position is accepted. */
  lemma StartingFenAccepted()
    ensures FenVerdict(FenOf(START, "w", "KQkq", "-", "0", "1")) == Returned(true)
  {
    assert IsToken("w") && IsToken("KQkq") && IsToken("-") && IsToken("0") && IsToken("1");
    assert U16Field("0") && U16Field("1");
    FromStart("w", "KQkq", "-", "0", "1");
  }

  lemma MiddlegameFields()
    ensures IsToken("w") && IsToken("-") && IsToken("1") && IsToken("18")
    ensures U16Field("1") && U16Field("18") && "-" in CASTLING_FIELDS && EnPassantField("-")
  {}

  /** The first middlegame of the tests is accepted. */
  lemma MiddlegameFenAccepted()
    ensures FenVerdict(FenOf(MIDDLEGAME, "w", "-", "-", "1", "18")) == Returned(true)
  {
    MiddlegameFields();
    MiddlegameRanks();
    MiddlegameWhiteKing();
    MiddlegameBlackKing();
    FromPlacement(MIDDLEGAME, "w", "-", "-", "1", "18");
  }

  lemma OpeningFields()
    ensures IsToken("b") && IsToken("KQkq") && IsToken("-") && IsToken("2") && IsToken("6")
    ensures U16Field("2") && U16Field("6") && "KQkq" in CASTLING_FIELDS && EnPassantField("-")
  {}

  /** The second middlegame of the tests, black to move, is accepted. */
  lemma OpeningFenAccepted()
    ensures FenVerdict(FenOf(OPENING, "b", "KQkq", "-", "2", "6")) == Returned(true)
  {
    OpeningFields();
    OpeningRanks();
    OpeningWhiteKing();
    OpeningBlackKing();
    FromPlacement(OPENING, "b", "KQkq", "-", "2", "6");
  }

  /** A board without kings is rejected. */
  lemma NoKingsRejected()
    ensures FenVerdict(FenOf(["8", "8", "8", "8", "8", "8", "8", "8"], "w", "-", "-", "0", "1")) == Returned(false)
  {
    assert IsToken("w") && IsToken("-") && IsToken("0") && IsToken("1");
    EmptyRank();
    EightTestRanks("8", "8", "8", "8", "8", "8", "8", "8");
    EightRanksCount("8", "8", "8", "8", "8", "8", "8", "8", 'K');
    FenOfVerdict(["8", "8", "8", "8", "8", "8", "8", "8"], "w", "-", "-", "0", "1");
  }

  /** Nine ranks are rejected. */
  lemma NineRanksRejected()
    ensures FenVerdict(FenOf(MIDDLEGAME + ["1rbq1rk1"], "w", "-", "-", "1", "18")) == Returned(false)
  {
    assert IsToken("w") && IsToken("-") && IsToken("1") && IsToken("18");
    MiddlegameRank8();
    MiddlegameRanks();
    ExtraRankRejected(MIDDLEGAME, "1rbq1rk1", "w", "-", "-", "1", "18");
  }

  /** Seven ranks are rejected. */
  lemma SevenRanksRejected()
    ensures FenVerdict(FenOf(MIDDLEGAME[..7], "w", "-", "-", "1", "18")) == Returned(false)
  {
    assert IsToken("w") && IsToken("-") && IsToken("1") && IsToken("18");
    MiddlegameRanks();
    MissingRankRejected(MIDDLEGAME, "w", "-", "-", "1", "18");
  }

  /** A last rank covering nine squares is rejected. */
  lemma TooManySquaresRejected()
    ensures FenVerdict(FenOf(MIDDLEGAME[7 := "R2BQR1K1"], "w", "-", "-", "1", "18")) == Returned(false)
  {
    assert IsToken("w") && IsToken("-") && IsToken("1") && IsToken("18");
    BadRankTooWide();
    MiddlegameRanks();
    ReplacedRankRejected(MIDDLEGAME, 7, "R2BQR1K1", "w", "-", "-", "1", "18");
  }

  /** A last rank covering seven squares is rejected. */
  lemma TooFewSquaresRejected()
    ensures FenVerdict(FenOf(MIDDLEGAME[7 := "RBQR1K1"], "w", "-", "-", "1", "18")) == Returned(false)
  {
    assert IsToken("w") && IsToken("-") && IsToken("1") && IsToken("18");
    BadRankTooNarrow();
    MiddlegameRanks();
    ReplacedRankRejected(MIDDLEGAME, 7, "RBQR1K1", "w", "-", "-", "1", "18");
  }

  /** A letter that names no piece is rejected (here in the first rank). */
  lemma WrongLetterRejected()
    ensures FenVerdict(FenOf(MIDDLEGAME[0 := "1rbq1ak1"], "w", "-", "-", "1", "18")) == Returned(false)
  {
    assert IsToken("w") && IsToken("-") && IsToken("1") && IsToken("18");
    BadRankLetter();
    MiddlegameRanks();
    ReplacedRankRejected(MIDDLEGAME, 0, "1rbq1ak1", "w", "-", "-", "1", "18");
  }

  lemma StartFields()
    ensures IsToken("w") && IsToken("KQkq") && IsToken("-") && IsToken("0") && IsToken("1")
  {}

  /** From the starting placement, a side to move other than `w` or `b` is rejected. */
  lemma StartBadSide(side: string, castling: string, enPassant: string, halfmove: string, fullmove: string)
    requires IsToken(side) && IsToken(castling) && IsToken(enPassant) && IsToken(halfmove) && IsToken(fullmove)
    requires side != "w" && side != "b"
    ensures FenVerdict(FenOf(START, side, castling, enPassant, halfmove, fullmove)) == Returned(false)
  {
    FromStart(side, castling, enPassant, halfmove, fullmove);
  }

  /** From the starting placement, castling rights outside the accepted forms are rejected. */
  lemma StartBadCastling(side: string, castling: string, enPassant: string, halfmove: string, fullmove: string)
    requires IsToken(side) && IsToken(castling) && IsToken(enPassant) && IsToken(halfmove) && IsToken(fullmove)
    requires castling !in CASTLING_FIELDS
    ensures FenVerdict(FenOf(START, side, castling, enPassant, halfmove, fullmove)) == Returned(false)
  {
    FromStart(side, castling, enPassant, halfmove, fullmove);
  }

  /** From the starting placement, an en passant field that names no target square is rejected. */
  lemma StartBadEnPassant(side: string, castling: string, enPassant: string, halfmove: string, fullmove: string)
    requires IsToken(side) && IsToken(castling) && IsToken(enPassant) && IsToken(halfmove) && IsToken(fullmove)
    requires !EnPassantField(enPassant)
    ensures FenVerdict(FenOf(START, side, castling, enPassant, halfmove, fullmove)) == Returned(false)
  {
    FromStart(side, castling, enPassant, halfmove, fullmove);
  }

  /** From the starting placement, a halfmove clock that is no `u16` is rejected. */
  lemma StartBadHalfmove(side: string, castling: string, enPassant: string, halfmove: string, fullmove: string)
    requires IsToken(side) && IsToken(castling) && IsToken(enPassant) && IsToken(halfmove) && IsToken(fullmove)
    requires !U16Field(halfmove)
    ensures FenVerdict(FenOf(START, side, castling, enPassant, halfmove, fullmove)) == Returned(false)
  {
    FromStart(side, castling, enPassant, halfmove, fullmove);
  }

  /** From the starting placement, a fullmove number that is no `u16` or is the literal `0` is rejected. */
  lemma StartBadFullmove(side: string, castling: string, enPassant: string, halfmove: string, fullmove: string)
    requires IsToken(side) && IsToken(castling) && IsToken(enPassant) && IsToken(halfmove) && IsToken(fullmove)
    requires !U16Field(fullmove) || fullmove == "0"
    ensures FenVerdict(FenOf(START, side, castling, enPassant, halfmove, fullmove)) == Returned(false)
  {
    FromStart(side, castling, enPassant, halfmove, fullmove);
  }

  /** The side to move `v` is rejected. */
  lemma SideVRejected()
    ensures FenVerdict(FenOf(START, "v", "KQkq", "-", "0", "1")) == Returned(false)
  {
    StartFields();
    assert IsToken("v");
    StartBadSide("v", "KQkq", "-", "0", "1");
  }

  /** The side to move `ww` is rejected. */
  lemma SideWwRejected()
    ensures FenVerdict(FenOf(START, "ww", "KQkq", "-", "0", "1")) == Returned(false)
  {
    StartFields();
    assert IsToken("ww");
    StartBadSide("ww", "KQkq", "-", "0", "1");
  }

  /** Five castling letters are rejected. */
  lemma CastlingTooLongRejected()
    ensures FenVerdict(FenOf(START, "w", "KQkqK", "-", "0", "1")) == Returned(false)
  {
    StartFields();
    assert IsToken("KQkqK");
    StartBadCastling("w", "KQkqK", "-", "0", "1");
  }

  /** A castling letter other than `K`, `Q`, `k`, `q` is rejected. */
  lemma CastlingStrayLetterRejected()
    ensures FenVerdict(FenOf(START, "w", "KQka", "-", "0", "1")) == Returned(false)
  {
    StartFields();
    assert IsToken("KQka");
    StartBadCastling("w", "KQka", "-", "0", "1");
  }

  /** A dash together with castling letters is rejected. */
  lemma CastlingDashRejected()
    ensures FenVerdict(FenOf(START, "w", "-K", "-", "0", "1")) == Returned(false)
  {
    StartFields();
    assert IsToken("-K");
    StartBadCastling("w", "-K", "-", "0", "1");
  }

  /** An en passant field of three characters is rejected. */
  lemma EnPassantTooLongRejected()
    ensures FenVerdict(FenOf(START, "w", "KQkq", "a33", "0", "1")) == Returned(false)
  {
    StartFields();
    assert IsToken("a33");
    StartBadEnPassant("w", "KQkq", "a33", "0", "1");
  }

  /** An en passant square off the board is rejected. */
  lemma EnPassantOffBoardRejected()
    ensures FenVerdict(FenOf(START, "w", "KQkq", "i3", "0", "1")) == Returned(false)
  {
    StartFields();
    assert IsToken("i3");
    StartBadEnPassant("w", "KQkq", "i3", "0", "1");
  }

  /** An en passant square on rank 2 is rejected. */
  lemma EnPassantWrongRankRejected()
    ensures FenVerdict(FenOf(START, "w", "KQkq", "a2", "0", "1")) == Returned(false)
  {
    StartFields();
    assert IsToken("a2");
    StartBadEnPassant("w", "KQkq", "a2", "0", "1");
  }

  /** A negative halfmove clock is rejected. */
  lemma HalfmoveNegativeRejected()
    ensures FenVerdict(FenOf(START, "w", "KQkq", "-", "-1", "1")) == Returned(false)
  {
    StartFields();
    assert IsToken("-1");
    StartBadHalfmove("w", "KQkq", "-", "-1", "1");
  }

  /** A halfmove clock that is not a number is rejected. */
  lemma HalfmoveNotNumberRejected()
    ensures FenVerdict(FenOf(START, "w", "KQkq", "-", "a", "1")) == Returned(false)
  {
    StartFields();
    assert IsToken("a");
    StartBadHalfmove("w", "KQkq", "-", "a", "1");
  }

  /** A negative fullmove number is rejected. */
  lemma FullmoveNegativeRejected()
    ensures FenVerdict(FenOf(START, "w", "KQkq", "-", "0", "-1")) == Returned(false)
  {
    StartFields();
    assert IsToken("-1");
    StartBadFullmove("w", "KQkq", "-", "0", "-1");
  }

  /** The fullmove number `0` is rejected. */
  lemma FullmoveZeroRejected()
    ensures FenVerdict(FenOf(START, "w", "KQkq", "-", "0", "0")) == Returned(false)
  {
    StartFields();
    assert IsToken("0");
    StartBadFullmove("w", "KQkq", "-", "0", "0");
  }

  /** A fullmove number that is not a number is rejected. */
  lemma FullmoveNotNumberRejected()
    ensures FenVerdict(FenOf(START, "w", "KQkq", "-", "0", "a")) == Returned(false)
  {
    StartFields();
    assert IsToken("a");
    StartBadFullmove("w", "KQkq", "-", "0", "a");
  }

  /** The fullmove fields "00" and "+0", which read as zero, get past the test for "0". */
  lemma FullmoveZeroesAccepted()
    ensures FenVerdict(FenOf(START, "w", "KQkq", "-", "0", "00")) == Returned(true)
    ensures FenVerdict(FenOf(START, "w", "KQkq", "-", "0", "+0")) == Returned(true)
  {
    StartFields();
    assert IsToken("00") && IsToken("+0");
    assert "KQkq" in CASTLING_FIELDS && EnPassantField("-") && U16Field("0");
    assert U16Field("00") && U16Field("+0");
    FromStart("w", "KQkq", "-", "0", "00");
    FromStart("w", "KQkq", "-", "0", "+0");
  }

  /** The legal castling rights "Kq" are turned away with the whole FEN string. */
  lemma CastlingKqFenRejected()
    ensures FenVerdict(FenOf(START, "w", "Kq", "-", "0", "1")) == Returned(false)
  {
    StartFields();
    assert IsToken("Kq");
    StartBadCastling("w", "Kq", "-", "0", "1");
  }
}
