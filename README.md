# oxi_chess_lib: bitboard helpers, board record and FEN check, in Dafny

This project models the finished logic of the chess library `oxi_chess_lib`.
It covers three Rust files:

- `src/utils.rs`: the square and bitboard helpers. These are the file and
  rank predicates, the algebraic-name codec `square_to_bb` / `bb_to_square`,
  and the masks `squares_above`, `squares_below`, `squares_left` and
  `squares_right`.
- `src/board.rs`: the `ChessBoard` record, its constructors `initialize`
  and `empty`, the FEN validator `verify_fen`, and the error path of
  `initialize_from_fen`.
- `src/moves.rs`: the pawn attack mask `pawn_attacks`.

Proved beside the code are:

- the properties the source promises;
- the source's own unit tests, each as a lemma or a test method.

The model has eight modules:

- `Wrappers` (wrappers.dfy): `Option` and `Result`. It also holds `Outcome`,
  the result of Rust code that may panic: a returned value or a `Panic`
  reason. The panics that can occur are arithmetic overflow, an index out
  of bounds, `unwrap` on `None`, and the `todo!()` that stands for the
  unwritten part of `initialize_from_fen`.
- `Ints` (ints.dfy): the Rust integer types `u8`, `u16` and `u32` as
  newtypes.
- `U64` (u64.dfy): the `u64` word as `bv64`. It holds the `u64`
  intrinsics `trailing_zeros`, `leading_zeros`, `checked_shl` and
  `checked_shr`, and also `Option::unwrap_or`, which the masks apply to
  their results.
- `Utils` (utils.dfy): `src/utils.rs`. The predicates and `bb_to_square`
  are functions. `square_to_bb`, `squares_left` and `squares_right` are
  methods with the source's loops and mutable locals.
- `Moves` (moves.dfy): `pawn_attacks`, one function, and its lemmas.
- `RustStr` (str.dfy): the parts of Rust's `str` that `verify_fen` calls.
  These are `split_whitespace`, `split` on a character, `contains`, `len`
  in UTF-8 bytes, and `parse::<u16>`. Each comes with the lemmas the FEN
  proofs use.
- `Board` (board.dfy): the record, the constructors and `verify_fen`.
  `verify_fen` appears twice. `FenVerdict` is a function of the input
  string. `VerifyFen` is a method with the source's two nested loops and
  three counters, proved equal to `FenVerdict`. The lemmas then say what
  `FenVerdict` accepts, field by field.
- `BoardTests` (board_tests.dfy): the FEN strings of the source's test,
  each with its verdict.

A Rust panic is never a precondition here; it is an outcome. `verify_fen`
indexes the whitespace-separated fields without checking how many there
are. A string with too few fields panics with `Panicked(IndexOutOfBounds)`
at the first missing field the checks reach. A string that is rejected
before that point returns false.
Its counters are a `u32` and two `u8`. A debug build panics when one of
them overflows, and so does the model. A lemma shows this cannot happen
when no rank is longer than 31 characters.

## Model

| member | source | states |
|---|---|---|
| U64.TrailingZeros | src/utils.rs:6 | `trailing_zeros` is at most 64, 64 exactly for the zero word, and otherwise the lowest set bit is `1 << n` |
| U64.LeadingZeros | src/utils.rs:204 | `leading_zeros` is at most 64, and 64 exactly for the zero word |
| U64.SingletonTrailingZeros | src/utils.rs:152 | on the one-square word `1 << i` the trailing-zero count is `i` |
| U64.SingletonLeadingZeros | src/utils.rs:204 | on `1 << i` the leading-zero count is `63 - i` |
| U64.IsSquareIff | src/utils.rs:148-149 | on a nonzero word, `w & (w - 1) == 0` holds exactly when the word is a single square |
| U64.CheckedShl | src/utils.rs:198 | no contract; see Utils.SquaresAbove |
| U64.CheckedShr | src/utils.rs:205 | no contract; see Utils.SquaresBelow |
| U64.UnwrapOr | src/utils.rs:198-205 | no contract; see Utils.SquaresAbove and Utils.SquaresBelow |
| Utils.OnAFile | src/utils.rs:3-11 | the zero word counts as on the a-file; any other word is on it exactly when its lowest set bit is |
| Utils.OnBFile | src/utils.rs:13-21 | false on the zero word; otherwise true exactly when the lowest set bit is on the b-file |
| Utils.OnCFile | src/utils.rs:23-31 | false on the zero word; otherwise true exactly when the lowest set bit is on the c-file |
| Utils.OnDFile | src/utils.rs:33-41 | false on the zero word; otherwise true exactly when the lowest set bit is on the d-file |
| Utils.OnEFile | src/utils.rs:43-51 | false on the zero word; otherwise true exactly when the lowest set bit is on the e-file |
| Utils.OnFFile | src/utils.rs:53-61 | false on the zero word; otherwise true exactly when the lowest set bit is on the f-file |
| Utils.OnGFile | src/utils.rs:63-71 | false on the zero word; otherwise true exactly when the lowest set bit is on the g-file |
| Utils.OnHFile | src/utils.rs:73-81 | false on the zero word; otherwise true exactly when the lowest set bit is on the h-file |
| Utils.FilesOfSquares | src/utils.rs:3-81 | for every one-square word `1 << i`, `on_X_file` holds exactly when `i % 8` is the index of file X |
| Utils.OnRank1 | src/utils.rs:83-89 | true exactly on the zero word and on words whose highest set bit is on rank 1 |
| Utils.OnRank2 | src/utils.rs:91-97 | true exactly when the highest set bit is on rank 2, or it is h1 and another bit is set |
| Utils.OnRank3 | src/utils.rs:99-105 | true exactly when the highest set bit is on rank 3, or it is h2 and another bit is set |
| Utils.OnRank4 | src/utils.rs:107-113 | true exactly when the highest set bit is on rank 4, or it is h3 and another bit is set |
| Utils.OnRank5 | src/utils.rs:115-121 | true exactly when the highest set bit is on rank 5, or it is h4 and another bit is set |
| Utils.OnRank6 | src/utils.rs:123-129 | true exactly when the highest set bit is on rank 6, or it is h5 and another bit is set |
| Utils.OnRank7 | src/utils.rs:131-137 | true exactly when the highest set bit is on rank 7, or it is h6 and another bit is set |
| Utils.OnRank8 | src/utils.rs:139-145 | true exactly when the highest set bit is on rank 8, or it is h7 and another bit is set |
| Utils.SingletonHighest | src/utils.rs:83-145 | a single square is highest on its own rank and on no other, and never comes with other squares |
| Utils.RanksOfSquares | src/utils.rs:83-145 | for every one-square word `1 << i`, `on_rank_k` holds exactly when `i / 8 == k - 1` |
| Utils.RanksOfTwoSquares | src/utils.rs:83-97 | on the two-square word a1+h1, `on_rank_1` and `on_rank_2` both hold |
| Utils.SquareNameInjective | src/utils.rs:152-157 | two squares with the same name are the same square |
| Utils.FileLetter | src/utils.rs:154-155 | `b'a' + file` is the file's letter in `FILES` |
| Utils.RankDigit | src/utils.rs:153-157 | the formatted rank number is the rank's digit in `RANKS` |
| Utils.BbToSquare | src/utils.rs:147-159 | panics (the `u64` subtraction overflows) exactly on the zero word; otherwise fails with the invalid-bitboard error exactly when the word is not one square; on the word of square `i` returns the name of `i` |
| Utils.BbToSquareRejectsSeveralSquares | src/utils.rs:148-150 | every word with two distinct set bits gets the invalid-bitboard error |
| Utils.NamedTestSquares | src/utils.rs:463-483 | `bb_to_square` gives a1, e4, h8 and c7 on the words of the unit test, and the invalid-bitboard error on 3 |
| Utils.RankNumber | src/utils.rs:177 | `to_digit(10)` of a rank digit is its rank number, from 1 to 8 |
| Utils.FileNumber | src/utils.rs:178 | `file as u8 - b'a'` is the file's position in `FILES`, from 0 to 7 |
| Utils.SquareIndexOfName | src/utils.rs:175-179 | the index computed from a file letter and a rank digit is below 64, and it is the square with that name |
| Utils.SquareToBb | src/utils.rs:165-183 | a length other than 2 gives the too-many-characters error; a file or rank outside the tables gives the invalid-file-or-rank error; a valid name gives the one-square word of the square with that name |
| Utils.SquareOfName | src/utils.rs:165-183 | on the name of square `i`, `square_to_bb` returns `1 << i` |
| Utils.SquareToBbTests | src/utils.rs:485-498 | `square_to_bb` on a1, e4, h8 and c7 gives the four words the unit test expects |
| Utils.SquareToBbErrorTests | src/utils.rs:499-517 | i1 and a9 give the invalid-file-or-rank error, and a11 the too-many-characters error |
| Utils.NameRoundTrip | src/utils.rs:147-183 | `square_to_bb` then `bb_to_square` gives back every valid square name, through a one-square word |
| Utils.BitboardRoundTrip | src/utils.rs:147-183 | `bb_to_square` then `square_to_bb` gives back every one-square word |
| Utils.SquaresAbove | src/utils.rs:195-200 | bit `j` is set exactly when the rank of `j` exceeds `trailing_zeros % 8`; a shift by 64 gives 0 |
| Utils.SquaresBelow | src/utils.rs:202-207 | bit `j` is set exactly when the rank of `j` plus `leading_zeros % 8` is below 7; a shift by 64 gives 0 |
| Utils.SquaresAboveOfSquare | src/utils.rs:195-200 | on square `i`, the mask holds the ranks above the rank whose number is the FILE of `i` |
| Utils.SquaresBelowOfSquare | src/utils.rs:202-207 | on square `i`, the mask holds the ranks below the rank whose number is the FILE of `i` |
| Utils.SquaresAboveBelowTests | src/utils.rs:519-542 | the values the unit tests expect for a1 and g7, above and below |
| Utils.SquaresAboveRank | src/utils.rs:195-200 | corrected `squares_above`: bit `j` is set exactly when the rank of `j` exceeds the rank of the lowest set bit |
| Utils.SquaresBelowRank | src/utils.rs:202-207 | corrected `squares_below`: bit `j` is set exactly when the rank of `j` plus `leading_zeros / 8` is below 7, which on square `i` is every rank below that of `i` (Utils.SquaresAboveBelowRankOfSquare) |
| Utils.SquaresAboveBelowRankOfSquare | src/utils.rs:195-207 | on square `i`, the corrected masks hold exactly the squares on higher, respectively lower, ranks |
| Utils.SquaresAboveBelowOnB1 | src/utils.rs:195-207 | on b1 the source's masks are ranks 3 to 8 and rank 1; the corrected ones are ranks 2 to 8 and nothing |
| Utils.FileRange | src/utils.rs:209-243 | bit `j` of the file mask is set exactly when the file of `j` lies in `lo..hi` |
| Utils.FileRangeGrowUp | src/utils.rs:236-239 | XOR of file `m` into files `lo..m` gives files `lo..m+1` |
| Utils.FileRangeGrowDown | src/utils.rs:217-220 | XOR of file `m` into files `m+1..hi` gives files `m..hi` |
| Utils.HFileShiftedRight | src/utils.rs:214-218 | the h-file shifted right by `k` is file `7 - k` |
| Utils.SquaresLeft | src/utils.rs:209-225 | the `wrapping_sub` loop ends, and the mask is files `8 - f` to h, with `f = trailing_zeros % 8` (nothing for an a-file square) |
| Utils.SquaresLeftOfFile | src/utils.rs:209-225 | corrected `squares_left`: the mask is files a to `f - 1` |
| Utils.SquaresRight | src/utils.rs:227-243 | the counting loop ends, and the mask is files `f + 1` to h, with `f = trailing_zeros % 8` |
| Utils.SquaresLeftRightOfSquare | src/utils.rs:209-243 | on square `i`, the three masks in terms of the file of `i` |
| Utils.SquaresLeftRightTests | src/utils.rs:544-566 | the values the unit tests expect for a1 and g7, left and right |
| Utils.SquaresLeftOnB1 | src/utils.rs:209-225 | on b1 the source's left mask is the h-file, the corrected one the a-file |
| Utils.SquaresLeftRightMethodTests | src/utils.rs:544-566 | the methods `squares_left` and `squares_right` on a1 and g7 return the four words the unit tests expect |
| Utils.SquaresLeftB1MethodTests | src/utils.rs:209-225 | on b1 the method as written returns the h-file and the corrected one the a-file |
| Moves.PawnAttacks | src/moves.rs:6-16 | no contract; see Moves.PawnAttackBits |
| Moves.PawnAttacksStayOnBoard | src/moves.rs:6-16 | white attacks never reach rank 1 and black attacks never rank 8 |
| Moves.PawnAttacksMaskAfterShift | src/moves.rs:9-13 | the file masks before the shift are the same as masking the far file after it |
| Moves.PawnAttackBits | src/moves.rs:6-16 | bit `j` is attacked exactly when a pawn stands diagonally behind `j`, one file to either side, within the board |
| Moves.WhitePawnAttacksOfSquare | src/moves.rs:8-10 | from square `i`, white attacks the neighbouring files of the next rank up |
| Moves.BlackPawnAttacksOfSquare | src/moves.rs:11-13 | from square `i`, black attacks the neighbouring files of the next rank down |
| Moves.PawnAttackTargets | src/moves.rs:8-14 | from square `i`, every attacked square is `i + 7` or `i + 9` (for black `i - 9` or `i - 7`), so never the square itself or the ones straight ahead or behind |
| Moves.PawnAttacksUnion | src/moves.rs:9-13 | for either colour, the attacks of a union of pawns are the union of their attacks |
| Moves.PawnAttacksTests | src/moves.rs:45-76 | the values the unit test expects: b5 for both colours, and the four corner squares |
| RustStr.SplitWhitespace | src/board.rs:75 | every piece is nonempty and holds no whitespace |
| RustStr.SplitWhitespaceKeepsText | src/board.rs:75 | the pieces, concatenated, are the input with its whitespace removed |
| RustStr.SplitWhitespaceOfJoin | src/board.rs:75 | splitting tokens joined by single spaces gives back the tokens |
| RustStr.Split | src/board.rs:87 | there is at least one piece, and no piece holds the separator |
| RustStr.SplitCount | src/board.rs:87-88 | there is one piece more than occurrences of the separator |
| RustStr.JoinOfSplit | src/board.rs:87 | joining the pieces with the separator gives back the input |
| RustStr.SplitOfJoin | src/board.rs:87 | splitting pieces without the separator, joined by it, gives back the pieces |
| RustStr.JoinIsToken | src/board.rs:75-87 | tokens joined by a non-whitespace separator form one token |
| RustStr.Contains | src/board.rs:129-139 | no contract; see RustStr.ContainsIff |
| RustStr.ContainsIff | src/board.rs:129-139 | `contains` finds exactly the contiguous occurrences |
| RustStr.ContainsChar | src/board.rs:102 | a one-character pattern is contained exactly when the character is |
| RustStr.Utf8Len | src/board.rs:129-145 | no contract; see RustStr.Utf8LenBounds |
| RustStr.Utf8LenBounds | src/board.rs:129-145 | `len` in bytes is at least the number of characters, and equal to it exactly on ASCII strings |
| RustStr.ParseU16 | src/board.rs:169-174 | no contract; see RustStr.ParseU16Iff |
| RustStr.ParseDigitsValue | src/board.rs:169-174 | reading digits after an accumulated value succeeds exactly when all are digits and the combined value fits 65535, and then gives that value |
| RustStr.ParseU16Iff | src/board.rs:169-174 | `parse::<u16>` succeeds exactly on an optional `+` then nonempty digits worth at most 65535, with that value |
| Board.Initialize | src/board.rs:21-39 | every field of the starting position: pawns on ranks 2 and 7; knights on b1, g1, b8, g8; bishops on c1, f1, c8, f8; rooks on a1, h1, a8, h8; queens on d1, d8; kings on e1, e8; white on ranks 1-2 and black on ranks 7-8, with the layers agreeing; white to move, no en passant, all four castling rights, halfmove 0, fullmove 1 (the values of the unit test at src/board.rs:187-202) |
| Board.Empty | src/board.rs:42-60 | no piece and no colour anywhere; white to move, no en passant or castling rights, halfmove 0, fullmove 1 |
| Board.ScanChar | src/board.rs:102-113 | no contract; see Board.ScanRankSpec and Board.ScanRankBounds |
| Board.PieceLettersContain | src/board.rs:102 | `ScanChar`'s membership in the set of piece letters is exactly the source's `"kqrbnpKQRBNP".contains(ch)`, through `RustStr.ContainsChar` |
| Board.ScanRank | src/board.rs:101-114 | no contract; see Board.ScanRankSpec and Board.ReadRank |
| Board.ScanRankEnd | src/board.rs:99-117 | no contract; see Board.ScanRankEndSpec |
| Board.ScanRanks | src/board.rs:98-118 | no contract; see Board.PlacementSpec and Board.ReadPlacement |
| Board.SideOk | src/board.rs:129-131 | no contract; see Board.SideOkIff |
| Board.CastlingOk | src/board.rs:135-141 | no contract; see Board.CastlingOkIff |
| Board.EnPassantVerdict | src/board.rs:145-165 | no contract; see Board.EnPassantIff |
| Board.FieldsVerdict | src/board.rs:127-176 | no contract; see Board.FenAcceptedIff |
| Board.FenVerdict | src/board.rs:73-180 | no contract; see Board.VerifyFen, Board.FenAcceptedIff, Board.FenReturns and Board.FenPanics |
| Board.ScanRankStops | src/board.rs:101-113 | once a rank's scan has returned false or panicked, later characters change nothing |
| Board.ScanRanksStops | src/board.rs:98-118 | once the rank loop has returned false or panicked, later ranks change nothing |
| Board.ScanRankStep | src/board.rs:101-114 | one more character extends the scan by one pass of the loop body |
| Board.ReadRank | src/board.rs:99-117 | the inner loop over a rank's characters, with its counters, computes the scan of that rank |
| Board.ReadPlacement | src/board.rs:95-118 | the outer loop over the ranks computes the scan of the whole placement |
| Board.VerifyFen | src/board.rs:73-180 | `verify_fen` returns, or panics, exactly as the whole-string verdict |
| Board.InitializeFromFen | src/board.rs:63-69 | returns the invalid-FEN error exactly when `verify_fen` is false; panics where `verify_fen` panics, and at the `todo!()` otherwise |
| Board.SideOkIff | src/board.rs:129-131 | the side to move is accepted exactly when it is "w" or "b" |
| Board.CastlingOkIff | src/board.rs:135-141 | the castling tests accept exactly the empty string, "-", and the runs of "KQkq" |
| Board.CastlingRightsOkIff | src/board.rs:133-141 | corrected castling test: accepts exactly "-" and the nonempty selections of K, Q, k, q in that order |
| Board.CastlingKqRejected | src/board.rs:135 | "Kq" and "Kk" are correctly written castling rights that the source's test rejects and the corrected test accepts |
| Board.EnPassantIff | src/board.rs:145-165 | the `unwrap` fails exactly on the empty field; the field is accepted exactly when it is "-" or a file a-h followed by 3 or 6 |
| Board.RankWidthAppend | src/board.rs:101-114 | the squares of two strings joined are the sum of their squares |
| Board.TotalCountAppend | src/board.rs:98-118 | the king count of ranks joined is the sum of their counts |
| Board.ScanRankSpec | src/board.rs:101-114 | when a rank's scan goes through, the rank holds only placement characters, and the counters grow by its squares and its kings; it goes through whenever those sums fit the counters |
| Board.PlacementCharsAreToken | src/board.rs:102-113 | a nonempty run of placement characters holds no whitespace and no '/' |
| Board.CountWithinWidth | src/board.rs:102-108 | a rank holds no more of a piece letter than its width in squares |
| Board.ScanRankEndSpec | src/board.rs:99-117 | one rank goes through the inner loop and the check of 8 squares exactly when it is valid, and then adds its kings to the counters |
| Board.PlacementSound | src/board.rs:98-118 | when the rank loop goes through, every rank is valid and the counters hold the numbers of white and of black kings |
| Board.PlacementComplete | src/board.rs:98-118 | when up to eight ranks are all valid, the rank loop goes through |
| Board.PlacementSpec | src/board.rs:87-125 | for up to eight ranks, the loops go through exactly when every rank is valid, and the counters then hold the king counts |
| Board.ValidRanksSnoc | src/board.rs:98-118 | ranks with one more are valid exactly when the first ones and the new one are |
| Board.FullmoveOkIff | src/board.rs:172-174 | corrected fullmove test: accepts exactly the fields that read as a `u16` from 1 to 65535 |
| Board.FullmoveZeroesRejected | src/board.rs:172-174 | the corrected fullmove test rejects "00" and "+0" and accepts "1" |
| Board.FenAcceptedIff | src/board.rs:73-180 | `verify_fen` returns true exactly on strings with at least six fields: eight valid ranks with one white and one black king, "w" or "b", an accepted castling field, "-" or a file and rank 3 or 6, a `u16` halfmove clock, and a `u16` fullmove number other than "0" |
| Board.ScanRankBounds | src/board.rs:101-114 | a character adds at most 8 squares and one king, so a rank cannot overflow the counters while those bounds fit |
| Board.PlacementReturns | src/board.rs:95-118 | with short enough ranks the placement loops never panic |
| Board.FenReturns | src/board.rs:73-180 | with six fields or more and ranks of at most 31 characters, `verify_fen` returns and never panics |
| Board.ScanRankPanics | src/board.rs:101-114 | the only panic of the inner loop is an arithmetic overflow |
| Board.ScanRanksPanics | src/board.rs:98-118 | the only panic of the rank loop is an arithmetic overflow |
| Board.FenPanics | src/board.rs:73-180 | `verify_fen` panics only on a missing field or on counter overflow, never at the `unwrap` of the en-passant field |
| Board.FenMissingFieldPanics | src/board.rs:73-180 | on a string of fewer than six fields, `verify_fen` panics on a missing index exactly when the placement and every field present up to the halfmove clock pass their tests |
| Board.FenOfVerdict | src/board.rs:73-180 | for a FEN string written from its fields, the placement splits back into its ranks, and the verdict is whether the fields meet the acceptance conditions |
| BoardTests.FromPlacement | src/board.rs:87-125 | from eight writable valid ranks with one king of each colour, the verdict is the test of the five other fields |
| BoardTests.FromStart | src/board.rs:224 | from the starting placement, the verdict is the test of the five other fields |
| BoardTests.ReplacedRankRejected | src/board.rs:98-118 | replacing a rank by one that is not valid makes the string rejected |
| BoardTests.ExtraRankRejected | src/board.rs:87-90 | a ninth rank makes the string rejected |
| BoardTests.MissingRankRejected | src/board.rs:87-90 | seven ranks make the string rejected |
| BoardTests.StartBadSide | src/board.rs:129-131 | from the starting placement, any side to move other than "w" or "b" makes the string rejected |
| BoardTests.StartBadCastling | src/board.rs:135-141 | from the starting placement, a castling field outside the accepted set makes the string rejected |
| BoardTests.StartBadEnPassant | src/board.rs:145-165 | from the starting placement, an en-passant field other than "-" or a file and rank 3 or 6 makes the string rejected |
| BoardTests.StartBadHalfmove | src/board.rs:169-171 | from the starting placement, a halfmove clock that is not a `u16` makes the string rejected |
| BoardTests.StartBadFullmove | src/board.rs:174-176 | from the starting placement, a fullmove number that is not a `u16`, or is written "0", makes the string rejected |
| BoardTests.StartingFenAccepted | src/board.rs:224-225 | the starting position is accepted |
| BoardTests.NoKingsRejected | src/board.rs:227-228 | the empty board is rejected |
| BoardTests.MiddlegameFenAccepted | src/board.rs:230-232 | the first middlegame is accepted |
| BoardTests.NineRanksRejected | src/board.rs:234-237 | nine ranks are rejected |
| BoardTests.SevenRanksRejected | src/board.rs:239-241 | seven ranks are rejected |
| BoardTests.TooManySquaresRejected | src/board.rs:243-245 | a rank of nine squares is rejected |
| BoardTests.TooFewSquaresRejected | src/board.rs:247-249 | a rank of seven squares is rejected |
| BoardTests.WrongLetterRejected | src/board.rs:251-253 | the letter 'a' in a rank is rejected |
| BoardTests.SideVRejected | src/board.rs:255-257 | side to move "v" is rejected |
| BoardTests.SideWwRejected | src/board.rs:259-261 | side to move "ww" is rejected |
| BoardTests.CastlingTooLongRejected | src/board.rs:263-265 | castling "KQkqK" is rejected |
| BoardTests.CastlingStrayLetterRejected | src/board.rs:267-269 | castling "KQka" is rejected |
| BoardTests.CastlingDashRejected | src/board.rs:271-273 | castling "-K" is rejected |
| BoardTests.EnPassantTooLongRejected | src/board.rs:275-277 | en passant "a33" is rejected |
| BoardTests.EnPassantOffBoardRejected | src/board.rs:279-281 | en passant "i3" is rejected |
| BoardTests.EnPassantWrongRankRejected | src/board.rs:283-285 | en passant "a2" is rejected |
| BoardTests.HalfmoveNegativeRejected | src/board.rs:287-289 | halfmove clock "-1" is rejected |
| BoardTests.HalfmoveNotNumberRejected | src/board.rs:291-293 | halfmove clock "a" is rejected |
| BoardTests.FullmoveNegativeRejected | src/board.rs:295-297 | fullmove number "-1" is rejected |
| BoardTests.FullmoveZeroRejected | src/board.rs:299-301 | fullmove number "0" is rejected |
| BoardTests.FullmoveNotNumberRejected | src/board.rs:303-305 | fullmove number "a" is rejected |
| BoardTests.OpeningFenAccepted | src/board.rs:307-309 | the second middlegame, black to move, is accepted |
| BoardTests.FullmoveZeroesAccepted | src/board.rs:172-174 | the start position with fullmove "00" or "+0", both worth zero, is accepted |
| BoardTests.CastlingKqFenRejected | src/board.rs:135 | the start position with the legal castling rights "Kq" is rejected |

## Left out

- `print_board_binary` (src/utils.rs:185-193) only prints to standard output.
- `knight_attacks`, `bishop_attacks`, `rook_attacks`, `queen_attacks`, `king_attacks` and `find_pseudolegal_moves` (src/moves.rs:18-43) are `todo!()` stubs, so there is nothing to model.
- `src/rules.rs` is not part of this model. It calls an attack generator that does not exist in src/moves.rs.
- Board.InitializeFromFen: the success path of `initialize_from_fen` is `todo!()`; it is modelled as the panic `Panicked(NotImplemented)`.
- The error messages of `utils.rs` and `initialize_from_fen` are variants of `UtilsError` and `BoardError`, not strings.
- `trailing_zeros` and `leading_zeros` return `u32` in Rust. Here they return the 64-bit word. Their values never exceed 64, so nothing changes.
- U64.LeadingZeros: its contract states only the bounds and the zero case. Its value on a word with several squares (the position of the highest set bit) is not stated, because proving it through the halving search exceeds the solver budget. Its exact value on single squares is stated by U64.SingletonLeadingZeros, which is all the masks need.
- Overflow is modelled as a debug build has it: in `verify_fen` and `bb_to_square` it is a panic. A release build would wrap instead.
- RustStr.ParseU16Iff states when the parse succeeds and its value. The kind of error on failure is modelled but not stated, because `verify_fen` only asks `is_ok()`.
- Strings are sequences of Unicode scalar values. `split_whitespace` uses the Unicode White_Space set, and `len` counts UTF-8 bytes. Nothing here relies on normalisation or case.
- The test lemmas in BoardTests state each FEN string as `FenOf(ranks, side, castling, en passant, halfmove, fullmove)`. That is the ranks joined by '/' and the six fields joined by single spaces, which spells the string of the unit test. The test methods in Utils for `square_to_bb` call the method on the names of the unit test.
- Moves.PawnAttacks is a function without a contract. Its lemmas state what it computes.

## Findings

| source | as written | input that shows it | evidently intended | confidence | as-written member | corrected member |
|---|---|---|---|---|---|---|
| src/utils.rs:197 | the cutoff of `squares_above` comes from `trailing_zeros % 8`, the file | b1 (`0x2`) gives ranks 3 to 8, `0xFFFF_FFFF_FFFF_0000` | the cutoff from `/ 8`, the rank: ranks 2 to 8, `0xFFFF_FFFF_FFFF_FF00` | not executed; the tests use a1 and g7, on which file and rank numbers agree | Utils.SquaresAboveBelowOnB1 | Utils.SquaresAboveBelowRankOfSquare |
| src/utils.rs:204 | the cutoff of `squares_below` comes from `leading_zeros % 8` | b1 gives rank 1, `0xFF` | nothing below rank 1: `0` | not executed; same tests as above | Utils.SquaresAboveBelowOnB1 | Utils.SquaresAboveBelowRankOfSquare |
| src/utils.rs:213-221 | `squares_left` XORs `H_FILE >> k` for `k` from `f - 1` down to 0, giving files `8 - f` to h | b1 gives the h-file, `0x8080_8080_8080_8080` | the files left of the square: the a-file, `0x0101_0101_0101_0101` | not executed; the repository's test pins the as-written value for g7 | Utils.SquaresLeftOnB1 | Utils.SquaresLeftOfFile |
| src/board.rs:135 | castling rights are accepted only as a substring of "KQkq-" | "Kq" (and "Kk") is rejected | any of K, Q, k, q at most once and in that order | not executed | Board.CastlingKqRejected | Board.CastlingRightsOkIff |
| src/board.rs:174 | the fullmove number is compared with the text "0" | "00" and "+0", both worth zero, are accepted | a positive number, as the comment on line 173 says | not executed | BoardTests.FullmoveZeroesAccepted | Board.FullmoveOkIff |

`FenVerdict` and `VerifyFen` keep the castling and fullmove tests as written, because they model `verify_fen`. The corrected predicates `CastlingRightsOk` and `FullmoveOk` sit beside them.
