/** ChessVar.letters_to_num: algebraic notation ("e2") to a (row, column)
    square, with rank '8' on row 0 and file 'a' on column 0. */
module Notation {
  import opened Board

  /** The rank digit's row. */
  const RowDict: map<char, int> :=
    map['1' := 7, '2' := 6, '3' := 5, '4' := 4, '5' := 3, '6' := 2, '7' := 1, '8' := 0]

  /** The file letter's column. */
  const ColDict: map<char, int> :=
    map['a' := 0, 'b' := 1, 'c' := 2, 'd' := 3, 'e' := 4, 'f' := 5, 'g' := 6, 'h' := 7]

  /** A position letters_to_num looks up without a KeyError or an IndexError:
      a file letter, then a rank digit (later characters are never read). */
  predicate ValidPosition(position: string)
  {
    |position| >= 2 && position[0] in ColDict && position[1] in RowDict
  }

  /** letters_to_num: file 'a'..'h' gives column 0..7 and rank '1'..'8' gives
      row 8 - rank. */
  function LettersToNum(position: string): (sq: Square)
    requires ValidPosition(position)
    ensures OnBoard(sq)
    ensures sq.col == position[0] as int - 'a' as int
    ensures sq.row == 8 - (position[1] as int - '0' as int)
  {
    Square(RowDict[position[1]], ColDict[position[0]])
  }

  /** The algebraic name of an on-board square. */
  function NumToLetters(sq: Square): (position: string)
    requires OnBoard(sq)
    ensures ValidPosition(position) && |position| == 2
  {
    [('a' as int + sq.col) as char, ('8' as int - sq.row) as char]
  }

  /** Every on-board square has a name that letters_to_num maps back to it. */
  lemma LettersToNumOnto(sq: Square)
    requires OnBoard(sq)
    ensures LettersToNum(NumToLetters(sq)) == sq
  {
  }

  /** letters_to_num forgets nothing of the first two characters: two valid
      positions with the same square have the same file and rank. */
  lemma LettersToNumInjective(p: string, q: string)
    requires ValidPosition(p) && ValidPosition(q)
    requires LettersToNum(p) == LettersToNum(q)
    ensures p[..2] == q[..2]
  {
    assert p[0] == q[0] && p[1] == q[1];
  }

  /** Naming the square that letters_to_num finds gives back the position's
      first two characters. */
  lemma NumToLettersInverse(position: string)
    requires ValidPosition(position)
    ensures NumToLetters(LettersToNum(position)) == position[..2]
  {
  }

  /** The corners: 'a8' is (0, 0) and 'h1' is (7, 7). */
  lemma Corners()
    ensures LettersToNum("a8") == Square(0, 0)
    ensures LettersToNum("h1") == Square(7, 7)
  {
  }
}
