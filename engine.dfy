/** What ChessVar.make_move decides and does, as functions of the board, the
    side to move and the two squares; the class in module Game runs it in
    place on its board. */
module Engine {
  import opened Board
  import opened Catalog

  /** make_move's answer: `Ok` is the implicit None of a move that was made,
      `WrongTurn` is 'Wrong turn', `Illegal` is 'IllEGAL MOVE', and
      `IndexError` is the exception a pawn's get_moves raises, which leaves
      make_move before anything is changed. */
  datatype MoveResult = Ok | WrongTurn | Illegal | IndexError

  /** The answer make_move gives for a move from `from` to `to` on `g` with
      `turn` to play. */
  function MoveOutcome(g: Grid, turn: Colour, from: Square, to: Square): MoveResult
    requires WellFormed(g) && OnBoard(from) && OnBoard(to)
  {
    match At(g, from)
    case Empty => Illegal
    case Occupied(p) =>
      if p.colour != turn then WrongTurn
      else match Destinations(g, p, from)
        case None => IndexError
        case Some(moves) => if to in moves then Ok else Illegal
  }

  /** `s` lies in the 3x3 block centred on `centre`. */
  predicate InBlast(centre: Square, s: Square)
  {
    Abs(s.row - centre.row) <= 1 && Abs(s.col - centre.col) <= 1
  }

  /** The atomic explosion: every on-board cell of the 3x3 block centred on
      `centre` becomes empty. */
  function Explode(g: Grid, centre: Square): (h: Grid)
    requires WellFormed(g)
    ensures WellFormed(h)
  {
    seq(8, r requires 0 <= r < 8 =>
      seq(8, c requires 0 <= c < 8 => if InBlast(centre, Square(r, c)) then Empty else g[r][c]))
  }

  /** The board after make_move: unchanged unless the move is made; otherwise
      the piece, now recording `to`, lands on `to`, `from` is emptied, and a
      capture (an occupied `to`) explodes around `to`. */
  function BoardAfter(g: Grid, turn: Colour, from: Square, to: Square): (h: Grid)
    requires WellFormed(g) && OnBoard(from) && OnBoard(to)
    ensures WellFormed(h)
  {
    if MoveOutcome(g, turn, from, to) != Ok then g
    else
      var p := At(g, from).piece;
      var moved := SetAt(SetAt(g, to, Occupied(p.UpdateNewPosition(to))), from, Empty);
      if At(g, to).Occupied? then Explode(moved, to) else moved
  }

  /** 'Wrong turn' exactly when the source holds a piece of the side not to
      move; 'IllEGAL MOVE' exactly when the source is empty or the destination
      is not listed; a rejected or raising call leaves the board as it was. */
  lemma Rejections(g: Grid, turn: Colour, from: Square, to: Square)
    requires WellFormed(g) && OnBoard(from) && OnBoard(to)
    ensures MoveOutcome(g, turn, from, to) == WrongTurn <==>
      At(g, from).Occupied? && At(g, from).piece.colour != turn
    ensures MoveOutcome(g, turn, from, to) == Illegal <==>
      At(g, from).Empty?
      || (At(g, from).piece.colour == turn && Destinations(g, At(g, from).piece, from).Some?
          && to !in Destinations(g, At(g, from).piece, from).value)
    ensures MoveOutcome(g, turn, from, to) != Ok ==> BoardAfter(g, turn, from, to) == g
  {
  }

  /** A move that is made goes to an empty square or captures a piece of the
      other colour, and never stays on its own square. */
  lemma MadeMoveTargets(g: Grid, turn: Colour, from: Square, to: Square)
    requires WellFormed(g) && OnBoard(from) && OnBoard(to)
    requires MoveOutcome(g, turn, from, to) == Ok
    ensures At(g, from).Occupied? && At(g, from).piece.colour == turn
    ensures from != to && Targetable(g, turn, to)
  {
    DestinationsSound(g, At(g, from).piece, from, to);
  }

  /** A non-capturing move: the piece, recording its new square, is on `to`,
      `from` is empty, and every other cell is unchanged. */
  lemma QuietMove(g: Grid, turn: Colour, from: Square, to: Square)
    requires WellFormed(g) && OnBoard(from) && OnBoard(to)
    requires MoveOutcome(g, turn, from, to) == Ok && At(g, to).Empty?
    ensures var h := BoardAfter(g, turn, from, to);
      && At(h, to) == Occupied(At(g, from).piece.(pos := to))
      && At(h, from) == Empty
      && forall s :: OnBoard(s) && s != from && s != to ==> At(h, s) == At(g, s)
  {
    MadeMoveTargets(g, turn, from, to);
  }

  /** A capture: every on-board cell of the 3x3 block around `to` is empty,
      the capturer included; `from` is empty; all other cells are unchanged. */
  lemma CaptureMove(g: Grid, turn: Colour, from: Square, to: Square)
    requires WellFormed(g) && OnBoard(from) && OnBoard(to)
    requires MoveOutcome(g, turn, from, to) == Ok && At(g, to).Occupied?
    ensures Enemy(g, turn, to)
    ensures var h := BoardAfter(g, turn, from, to);
      && (forall s :: OnBoard(s) && InBlast(to, s) ==> At(h, s) == Empty)
      && At(h, from) == Empty
      && (forall s :: OnBoard(s) && !InBlast(to, s) && s != from ==> At(h, s) == At(g, s))
  {
    MadeMoveTargets(g, turn, from, to);
  }

  /** make_move keeps every occupied cell's piece recording that cell. */
  lemma MovePreservesConsistent(g: Grid, turn: Colour, from: Square, to: Square)
    requires WellFormed(g) && OnBoard(from) && OnBoard(to) && Consistent(g)
    ensures Consistent(BoardAfter(g, turn, from, to))
  {
    if MoveOutcome(g, turn, from, to) == Ok {
      if At(g, to).Empty? {
        QuietMove(g, turn, from, to);
      } else {
        CaptureMove(g, turn, from, to);
      }
    }
  }

  /** Repeating a move that was just made is illegal: its source is now empty.
      The terminal loop relies on this when it calls make_move a second time. */
  lemma RepeatedMoveIllegal(g: Grid, turn: Colour, from: Square, to: Square)
    requires WellFormed(g) && OnBoard(from) && OnBoard(to)
    requires MoveOutcome(g, turn, from, to) == Ok
    ensures MoveOutcome(BoardAfter(g, turn, from, to), turn, from, to) == Illegal
  {
    if At(g, to).Empty? {
      QuietMove(g, turn, from, to);
    } else {
      CaptureMove(g, turn, from, to);
    }
  }

  /** A non-capturing move keeps both kings: it only relocates a piece. */
  lemma QuietMoveKeepsKings(g: Grid, turn: Colour, from: Square, to: Square, k: Colour)
    requires WellFormed(g) && OnBoard(from) && OnBoard(to)
    requires MoveOutcome(g, turn, from, to) == Ok && At(g, to).Empty?
    ensures HasKing(BoardAfter(g, turn, from, to), k) <==> HasKing(g, k)
  {
    QuietMove(g, turn, from, to);
    var h := BoardAfter(g, turn, from, to);
    if HasKing(g, k) {
      var s :| OnBoard(s) && IsKingOf(At(g, s), k);
      var t := if s == from then to else s;
      assert IsKingOf(At(h, t), k);
    }
    if HasKing(h, k) {
      var s :| OnBoard(s) && IsKingOf(At(h, s), k);
      var t := if s == to then from else s;
      assert IsKingOf(At(g, t), k);
    }
  }

  /** After a capture, a king is still on the board exactly when one stood
      outside the blast and was not the capturing piece. */
  lemma CaptureKeepsKingIff(g: Grid, turn: Colour, from: Square, to: Square, k: Colour)
    requires WellFormed(g) && OnBoard(from) && OnBoard(to)
    requires MoveOutcome(g, turn, from, to) == Ok && At(g, to).Occupied?
    ensures HasKing(BoardAfter(g, turn, from, to), k) <==>
      exists s :: OnBoard(s) && !InBlast(to, s) && s != from && IsKingOf(At(g, s), k)
  {
    CaptureMove(g, turn, from, to);
    var h := BoardAfter(g, turn, from, to);
    if HasKing(h, k) {
      var s :| OnBoard(s) && IsKingOf(At(h, s), k);
      assert !InBlast(to, s) && s != from;
    }
  }
}
