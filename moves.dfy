/**
  Attack masks. Only the pawn's is implemented: a pawn attacks the two
  squares diagonally in front of it, one file to either side, and the file
  masks keep the shifts from wrapping round the board's edge.
*/
module Moves {
  import opened U64

  const A_FILE: Word := 0x0101_0101_0101_0101
  const H_FILE: Word := 0x8080_8080_8080_8080

  /**
    `pawn_attacks`: the squares attacked by pawns of `color` (true is white)
    standing on the squares of `square`. White attacks up the board, black
    down; bits shifted off either end of the word are dropped.
  */
  function PawnAttacks(color: bool, square: Word): Word
  {
    if color then
      ((square & !A_FILE) << 7) | ((square & !H_FILE) << 9)
    else
      ((square & !A_FILE) >> 9) | ((square & !H_FILE) >> 7)
  }

  /** White never attacks rank 1 and Black never attacks rank 8: nothing wraps round the ends of the word. */
  lemma PawnAttacksStayOnBoard(color: bool, square: Word)
    ensures color ==> PawnAttacks(color, square) & 0xFF == 0
    ensures !color ==> PawnAttacks(color, square) & 0xFF00_0000_0000_0000 == 0
  {}

  /**
    The same masks applied after the shifts instead of before: a west
    attack never lands on the h-file and an east attack never on the a-file.
  */
  lemma PawnAttacksMaskAfterShift(color: bool, square: Word)
    ensures color ==>
      PawnAttacks(color, square) == ((square << 7) & !H_FILE) | ((square << 9) & !A_FILE)
    ensures !color ==>
      PawnAttacks(color, square) == ((square >> 9) & !H_FILE) | ((square >> 7) & !A_FILE)
  {}

  /**
    Square by square: `j` is attacked when a pawn stands on the square
    behind it one file to the east or one file to the west.
  */
  lemma PawnAttackBits(color: bool, square: Word, j: Index)
    ensures color ==> (Bit(PawnAttacks(color, square), j) <==>
      || (j >= 7 && j % 8 != 7 && Bit(square, j - 7))
      || (j >= 9 && j % 8 != 0 && Bit(square, j - 9)))
    ensures !color ==> (Bit(PawnAttacks(color, square), j) <==>
      || (j < 55 && j % 8 != 7 && Bit(square, j + 9))
      || (j < 57 && j % 8 != 0 && Bit(square, j + 7)))
  {}

  /** From a single square, White attacks the neighbouring files of the next rank up. */
  lemma WhitePawnAttacksOfSquare(i: Index, j: Index)
    ensures Bit(PawnAttacks(true, Singleton(i)), j) <==>
      j / 8 == i / 8 + 1 && (j % 8 == i % 8 + 1 || j % 8 + 1 == i % 8)
  {}

  /** From a single square, Black attacks the neighbouring files of the next rank down. */
  lemma BlackPawnAttacksOfSquare(i: Index, j: Index)
    ensures Bit(PawnAttacks(false, Singleton(i)), j) <==>
      j / 8 + 1 == i / 8 && (j % 8 == i % 8 + 1 || j % 8 + 1 == i % 8)
  {}

  /**
    A single pawn attacks at most the two diagonal squares ahead: never its
    own square and never the square straight ahead.
  */
  lemma PawnAttackTargets(color: bool, i: Index, j: Index)
    requires Bit(PawnAttacks(color, Singleton(i)), j)
    ensures color ==> j == i + 7 || j == i + 9
    ensures !color ==> j + 9 == i || j + 7 == i
    ensures j != i && j != i + 8 && j + 8 != i
  {
    if color {
      WhitePawnAttacksOfSquare(i, j);
    } else {
      BlackPawnAttacksOfSquare(i, j);
    }
  }

  /** For either colour, the attacks of a set of pawns are the union of their attacks. */
  lemma PawnAttacksUnion(a: Word, b: Word)
    ensures PawnAttacks(true, a | b) == PawnAttacks(true, a) | PawnAttacks(true, b)
    ensures PawnAttacks(false, a | b) == PawnAttacks(false, a) | PawnAttacks(false, b)
  {}

  /** The values the repository's tests pin: b5 for both colours, and the four corners. */
  lemma PawnAttacksTests()
    ensures PawnAttacks(true, 0x0000_0002_0000_0000) == 0x0000_0500_0000_0000
    ensures PawnAttacks(false, 0x0000_0002_0000_0000) == 0x0000_0000_0500_0000
    ensures PawnAttacks(true, 0x0000_0000_0000_0001) == 0x0000_0000_0000_0200
    ensures PawnAttacks(false, 0x0100_0000_0000_0000) == 0x0002_0000_0000_0000
    ensures PawnAttacks(true, 0x0000_0000_0000_0080) == 0x0000_0000_0000_4000
    ensures PawnAttacks(false, 0x8000_0000_0000_0000) == 0x0040_0000_0000_0000
  {}
}
