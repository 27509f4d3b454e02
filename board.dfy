/** The vocabulary shared by every part of the engine: colours, piece kinds,
    squares, pieces, cells and the 8x8 grid of cells. */
module Board {

  datatype Option<T> = None | Some(value: T)

  datatype Colour = White | Black

  datatype Kind = Pawn | Rook | Knight | Bishop | Queen | King

  /** A (row, column) pair. Row 0 is Black's back rank, row 7 White's. Squares
      are plain integers so that the off-board destinations a pawn can produce
      (row -1) are representable. */
  datatype Square = Square(row: int, col: int)

  /** A piece: its kind and colour never change; `pos` is the position the
      piece records for itself. */
  datatype Piece = Piece(kind: Kind, colour: Colour, pos: Square)
  {
    /** Piece.update_new_position: the same piece, now recording `newPos`. */
    function UpdateNewPosition(newPos: Square): (p: Piece)
      ensures p.kind == kind && p.colour == colour && p.pos == newPos
    {
      this.(pos := newPos)
    }
  }

  /** A board cell: the blank ' ' or a piece. */
  datatype Cell = Empty | Occupied(piece: Piece)

  /** The board as a value: eight rows of eight cells. */
  type Grid = seq<seq<Cell>>

  function Abs(x: int): nat
  {
    if x < 0 then -x else x
  }

  predicate InBounds(r: int, c: int)
  {
    0 <= r < 8 && 0 <= c < 8
  }

  predicate OnBoard(s: Square)
  {
    InBounds(s.row, s.col)
  }

  predicate WellFormed(g: Grid)
  {
    |g| == 8 && forall r :: 0 <= r < 8 ==> |g[r]| == 8
  }

  function At(g: Grid, s: Square): Cell
    requires WellFormed(g) && OnBoard(s)
  {
    g[s.row][s.col]
  }

  function Opponent(c: Colour): (o: Colour)
    ensures o != c
  {
    if c == White then Black else White
  }

  /** The square holds a piece whose colour differs from `c`. */
  predicate Enemy(g: Grid, c: Colour, s: Square)
    requires WellFormed(g) && OnBoard(s)
  {
    At(g, s).Occupied? && At(g, s).piece.colour != c
  }

  /** A piece of colour `c` may land on `s`: it is empty or holds an enemy. */
  predicate Targetable(g: Grid, c: Colour, s: Square)
    requires WellFormed(g) && OnBoard(s)
  {
    At(g, s).Empty? || Enemy(g, c, s)
  }

  /** The grid with cell `s` replaced by `v`. */
  function SetAt(g: Grid, s: Square, v: Cell): (h: Grid)
    requires WellFormed(g) && OnBoard(s)
    ensures WellFormed(h) && At(h, s) == v
    ensures forall t :: OnBoard(t) && t != s ==> At(h, t) == At(g, t)
  {
    g[s.row := g[s.row][s.col := v]]
  }

  /** Every occupied cell holds a piece that records that very cell. */
  ghost predicate Consistent(g: Grid)
    requires WellFormed(g)
  {
    forall s :: OnBoard(s) && At(g, s).Occupied? ==> At(g, s).piece.pos == s
  }

  predicate IsKingOf(cell: Cell, c: Colour)
  {
    cell.Occupied? && cell.piece.kind == King && cell.piece.colour == c
  }

  /** Some cell of the grid holds the king of colour `c`. */
  ghost predicate HasKing(g: Grid, c: Colour)
    requires WellFormed(g)
  {
    exists s :: OnBoard(s) && IsKingOf(At(g, s), c)
  }

  /** Two well-formed grids that agree on every square are equal. */
  lemma GridExtensional(g: Grid, h: Grid)
    requires WellFormed(g) && WellFormed(h)
    requires forall s :: OnBoard(s) ==> At(g, s) == At(h, s)
    ensures g == h
  {
    forall r | 0 <= r < 8
      ensures g[r] == h[r]
    {
      forall c | 0 <= c < 8
        ensures g[r][c] == h[r][c]
      {
        assert At(g, Square(r, c)) == At(h, Square(r, c));
      }
    }
  }
}
