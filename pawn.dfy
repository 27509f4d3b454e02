/** Pawn.get_moves, as written. The pawn reads its two diagonal cells before
    any bounds check and reads the two-step cell for row 6 or row 1 whatever
    its colour, so it depends on how Python indexes a list: a negative index
    counts from the end and an index outside [-8, 8) raises IndexError. Both
    are modelled here; `None` stands for the raised IndexError. */
module PawnRules {
  import opened Board

  /** Python's index into a list of length 8. */
  function PyIndex(i: int): (r: Option<int>)
    ensures r.Some? <==> -8 <= i < 8
    ensures r.Some? ==> 0 <= r.value < 8 && (r.value == i || r.value == i + 8)
  {
    if 0 <= i < 8 then Some(i) else if -8 <= i < 0 then Some(i + 8) else None
  }

  /** board[r][c] as Python evaluates it; `None` where it raises IndexError. */
  function PyRead(g: Grid, r: int, c: int): (v: Option<Cell>)
    requires WellFormed(g)
    ensures v.Some? <==> -8 <= r < 8 && -8 <= c < 8
    ensures InBounds(r, c) ==> v == Some(g[r][c])
  {
    match (PyIndex(r), PyIndex(c))
    case (Some(i), Some(j)) => Some(g[i][j])
    case _ => None
  }

  /** The row step of a pawn: White moves towards row 0, Black towards row 7. */
  function Forward(c: Colour): int
  {
    if c == White then -1 else 1
  }

  /** Pawn.get_moves for a pawn of colour `c` on `sq`. The result is `None`
      exactly where the source raises IndexError: on column 7 (the right
      diagonal read), for Black on row 7 (the diagonal reads), and for Black
      on row 6 when the cell ahead is empty (the two-step read). */
  function PawnMoves(g: Grid, c: Colour, sq: Square): (r: Option<seq<Square>>)
    requires WellFormed(g) && OnBoard(sq)
    ensures r.None? <==>
      sq.col == 7 || (c == Black && sq.row == 7) || (c == Black && sq.row == 6 && g[7][sq.col].Empty?)
  {
    var row, col := sq.row, sq.col;
    var steps := Forward(c);
    var dgLeft := PyRead(g, row + steps, col - 1);
    var dgRight := PyRead(g, row + steps, col + 1);
    if dgLeft.None? || dgRight.None? then None
    else
      var ahead := PyRead(g, row + steps, col).value;
      // The two-step tests of the source look at row 6 and row 1 for either colour.
      var forward :=
        if ahead != Empty then Some([])
        else if row == 6 || row == 1 then
          match PyRead(g, row + 2 * steps, col)
          case None => None
          case Some(far) =>
            Some([Square(row + steps, col)] + (if far == Empty then [Square(row + 2 * steps, col)] else []))
        else Some([Square(row + steps, col)]);
      if forward.None? then None
      else
        var left :=
          if col > 0 && dgLeft.value.Occupied? && dgLeft.value.piece.colour != c
          then [Square(row + steps, col - 1)] else [];
        var right :=
          if col < 7 && dgRight.value.Occupied? && dgRight.value.piece.colour != c
          then [Square(row + steps, col + 1)] else [];
        Some(forward.value + left + right)
  }

  /** The on-board squares a pawn may go to: one square forward onto an empty
      square; two squares forward from row 6 or row 1 when both squares are
      empty; one square diagonally forward onto a piece of the other colour. */
  ghost predicate PawnStep(g: Grid, c: Colour, sq: Square, m: Square)
    requires WellFormed(g) && OnBoard(sq) && OnBoard(m)
  {
    var f := Forward(c);
    var one := Square(sq.row + f, sq.col);
    (m == one && At(g, m).Empty?)
    || (m == Square(sq.row + 2 * f, sq.col) && (sq.row == 6 || sq.row == 1)
        && OnBoard(one) && At(g, one).Empty? && At(g, m).Empty?)
    || (m.row == sq.row + f && (m.col == sq.col - 1 || m.col == sq.col + 1) && Enemy(g, c, m))
  }

  /** When the pawn does not raise, its on-board destinations are exactly the
      PawnStep squares. */
  lemma PawnIff(g: Grid, c: Colour, sq: Square, m: Square)
    requires WellFormed(g) && OnBoard(sq) && OnBoard(m)
    requires PawnMoves(g, c, sq).Some?
    ensures m in PawnMoves(g, c, sq).value <==> PawnStep(g, c, sq, m)
  {
  }

  /** The off-board squares the negative indices let through: only for a
      White pawn on row 0 or row 1, and only on row -1, so they never match
      an on-board destination. */
  lemma PawnOffBoard(g: Grid, c: Colour, sq: Square, m: Square)
    requires WellFormed(g) && OnBoard(sq)
    requires PawnMoves(g, c, sq).Some? && m in PawnMoves(g, c, sq).value && !OnBoard(m)
    ensures c == White && m.row == -1 && sq.row <= 1
  {
  }
}
