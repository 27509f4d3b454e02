/** The leaping pieces: Knight.get_moves and King.get_moves. Each tries a
    fixed list of offsets and keeps the on-board targets that are empty or
    hold a piece of the other colour. */
module Leaping {
  import opened Board

  /** The knight's offsets, in the order Knight.get_moves tries them. */
  const KnightOffsets: seq<(int, int)> := [(2, 1), (2, -1), (-2, 1), (-2, -1), (1, 2), (1, -2), (-1, 2), (-1, -2)]

  /** The king's offsets, in the order King.get_moves tries them. */
  const KingOffsets: seq<(int, int)> := [(1, 0), (1, 1), (1, -1), (0, 1), (0, -1), (-1, 0), (-1, 1), (-1, -1)]

  /** What the loop over `offsets` collects. */
  function Jumps(g: Grid, c: Colour, sq: Square, offsets: seq<(int, int)>): seq<Square>
    requires WellFormed(g)
    decreases |offsets|
  {
    if offsets == [] then []
    else
      var last := offsets[|offsets| - 1];
      var t := Square(sq.row + last.0, sq.col + last.1);
      Jumps(g, c, sq, offsets[..|offsets| - 1])
        + (if OnBoard(t) && Targetable(g, c, t) then [t] else [])
  }

  function KnightMoves(g: Grid, c: Colour, sq: Square): seq<Square>
    requires WellFormed(g)
  {
    Jumps(g, c, sq, KnightOffsets)
  }

  function KingMoves(g: Grid, c: Colour, sq: Square): seq<Square>
    requires WellFormed(g)
  {
    Jumps(g, c, sq, KingOffsets)
  }

  /** The shared loop of Knight.get_moves and King.get_moves. */
  method Leap(g: Grid, c: Colour, sq: Square, offsets: seq<(int, int)>) returns (moves: seq<Square>)
    requires WellFormed(g)
    ensures moves == Jumps(g, c, sq, offsets)
  {
    moves := [];
    for i := 0 to |offsets|
      invariant moves == Jumps(g, c, sq, offsets[..i])
    {
      var (m, n) := offsets[i];
      var newRow, newCol := sq.row + m, sq.col + n;
      if 0 <= newRow < 8 && 0 <= newCol < 8 {
        var piece := g[newRow][newCol];
        if piece.Empty? || piece.piece.colour != c {
          moves := moves + [Square(newRow, newCol)];
        }
      }
      assert offsets[..i + 1][..i] == offsets[..i];
    }
    assert offsets[..|offsets|] == offsets;
  }

  /** Knight.get_moves. */
  method KnightGetMoves(g: Grid, c: Colour, sq: Square) returns (moves: seq<Square>)
    requires WellFormed(g)
    ensures moves == KnightMoves(g, c, sq)
  {
    moves := Leap(g, c, sq, KnightOffsets);
  }

  /** King.get_moves. */
  method KingGetMoves(g: Grid, c: Colour, sq: Square) returns (moves: seq<Square>)
    requires WellFormed(g)
    ensures moves == KingMoves(g, c, sq)
  {
    moves := Leap(g, c, sq, KingOffsets);
  }

  // ---------------------------------------------------------------------------
  // Geometric descriptions of the two pieces' reach.

  /** (±1, ±2) or (±2, ±1). */
  predicate KnightJump(a: Square, b: Square)
  {
    var dr, dc := Abs(b.row - a.row), Abs(b.col - a.col);
    (dr == 1 && dc == 2) || (dr == 2 && dc == 1)
  }

  /** Chebyshev distance exactly 1. */
  predicate KingStep(a: Square, b: Square)
  {
    a != b && Abs(b.row - a.row) <= 1 && Abs(b.col - a.col) <= 1
  }

  lemma {:induction false} JumpsIff(g: Grid, c: Colour, sq: Square, offsets: seq<(int, int)>, m: Square)
    requires WellFormed(g)
    ensures m in Jumps(g, c, sq, offsets) <==>
      (m.row - sq.row, m.col - sq.col) in offsets && OnBoard(m) && Targetable(g, c, m)
    decreases |offsets|
  {
    if offsets != [] {
      var init := offsets[..|offsets| - 1];
      JumpsIff(g, c, sq, init, m);
      assert offsets == init + [offsets[|offsets| - 1]];
    }
  }

  /** Knight.get_moves, characterised: the on-board squares a knight's jump
      away that are empty or hold an enemy (so never the source square). */
  lemma KnightIff(g: Grid, c: Colour, sq: Square, m: Square)
    requires WellFormed(g)
    ensures m in KnightMoves(g, c, sq) <==> OnBoard(m) && KnightJump(sq, m) && Targetable(g, c, m)
  {
    JumpsIff(g, c, sq, KnightOffsets, m);
  }

  /** King.get_moves, characterised: the on-board squares at Chebyshev
      distance 1 that are empty or hold an enemy. */
  lemma KingIff(g: Grid, c: Colour, sq: Square, m: Square)
    requires WellFormed(g)
    ensures m in KingMoves(g, c, sq) <==> OnBoard(m) && KingStep(sq, m) && Targetable(g, c, m)
  {
    JumpsIff(g, c, sq, KingOffsets, m);
  }
}
