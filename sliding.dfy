/** The sliding pieces: Rook.get_moves, Bishop.get_moves and Queen.get_moves.
    A slider walks each of its directions one square at a time, collects empty
    squares, and stops at the first occupied square, which it collects only
    when it holds a piece of the other colour. */
module Sliding {
  import opened Board

  /** The rook's directions, in the order Rook.get_moves tries them. */
  const RookSteps: seq<(int, int)> := [(1, 0), (-1, 0), (0, 1), (0, -1)]

  /** The bishop's directions, in the order Bishop.get_moves tries them. */
  const BishopSteps: seq<(int, int)> := [(1, 1), (1, -1), (-1, 1), (-1, -1)]

  /** `d * t`, as t additions of d: the proofs about rays then stay in linear
      arithmetic. */
  function Times(d: int, t: nat): int
  {
    if t == 0 then 0 else Times(d, t - 1) + d
  }

  lemma {:induction false} TimesIsProduct(d: int, t: nat)
    ensures Times(d, t) == d * t
  {
    if t > 0 {
      TimesIsProduct(d, t - 1);
      assert d * t == d * (t - 1) + d;
    }
  }

  /** The square `t` steps away from `s` in direction (dr, dc): the source's
      (row + dr * t, col + dc * t), by TimesIsProduct. */
  function Along(s: Square, dr: int, dc: int, t: nat): Square
  {
    Square(s.row + Times(dr, t), s.col + Times(dc, t))
  }

  /** What the inner loop over range(j, 8) collects along one direction. */
  function Ray(g: Grid, c: Colour, sq: Square, dr: int, dc: int, j: int): seq<Square>
    requires WellFormed(g) && 1 <= j <= 8
    decreases 8 - j
  {
    if j == 8 then []
    else
      var t := Along(sq, dr, dc, j);
      if !OnBoard(t) then []
      else if At(g, t).Empty? then [t] + Ray(g, c, sq, dr, dc, j + 1)
      else if At(g, t).piece.colour != c then [t]
      else []
  }

  /** The lists in `xs`, concatenated in order. */
  function Flatten(xs: seq<seq<Square>>): seq<Square>
    decreases |xs|
  {
    if xs == [] then [] else Flatten(xs[..|xs| - 1]) + xs[|xs| - 1]
  }

  /** The ray of each direction in `steps`, in order. */
  function RayList(g: Grid, c: Colour, sq: Square, steps: seq<(int, int)>): (rays: seq<seq<Square>>)
    requires WellFormed(g)
    ensures |rays| == |steps|
    ensures forall i :: 0 <= i < |steps| ==> rays[i] == Ray(g, c, sq, steps[i].0, steps[i].1, 1)
  {
    seq(|steps|, i requires 0 <= i < |steps| => Ray(g, c, sq, steps[i].0, steps[i].1, 1))
  }

  /** The rays of all directions in `steps`, concatenated in order. */
  function Rays(g: Grid, c: Colour, sq: Square, steps: seq<(int, int)>): seq<Square>
    requires WellFormed(g)
  {
    Flatten(RayList(g, c, sq, steps))
  }

  function RookMoves(g: Grid, c: Colour, sq: Square): seq<Square>
    requires WellFormed(g)
  {
    Rays(g, c, sq, RookSteps)
  }

  function BishopMoves(g: Grid, c: Colour, sq: Square): seq<Square>
    requires WellFormed(g)
  {
    Rays(g, c, sq, BishopSteps)
  }

  /** The inner loop of Rook.get_moves and Bishop.get_moves for one direction:
      step j = 1..7, collecting empty squares, and stop at the board's edge or
      at the first occupied square, which is collected only if it holds an
      enemy. */
  method Walk(g: Grid, c: Colour, sq: Square, dr: int, dc: int) returns (ray: seq<Square>)
    requires WellFormed(g)
    ensures ray == Ray(g, c, sq, dr, dc, 1)
  {
    ray := [];
    for j := 1 to 8
      invariant ray + Ray(g, c, sq, dr, dc, j) == Ray(g, c, sq, dr, dc, 1)
    {
      var newRow, newCol := sq.row + dr * j, sq.col + dc * j;
      var next := Square(newRow, newCol);
      assert next == Along(sq, dr, dc, j) by {
        TimesIsProduct(dr, j);
        TimesIsProduct(dc, j);
      }
      if 0 <= newRow < 8 && 0 <= newCol < 8 {
        var piece := g[newRow][newCol];
        if piece.Empty? {
          assert Ray(g, c, sq, dr, dc, j) == [next] + Ray(g, c, sq, dr, dc, j + 1);
          AppendAssoc(ray, [next], Ray(g, c, sq, dr, dc, j + 1));
          ray := ray + [next];
        } else if piece.piece.colour != c {
          assert Ray(g, c, sq, dr, dc, j) == [next];
          ray := ray + [next];
          return;
        } else {
          assert Ray(g, c, sq, dr, dc, j) == [];
          assert ray + [] == ray;
          return;
        }
      } else {
        assert Ray(g, c, sq, dr, dc, j) == [];
        assert ray + [] == ray;
        return;
      }
    }
    assert ray + [] == ray;
  }

  lemma AppendAssoc(a: seq<Square>, b: seq<Square>, c: seq<Square>)
    ensures (a + b) + c == a + (b + c)
  {
  }

  /** The outer loop of Rook.get_moves and Bishop.get_moves: each direction's
      ray, appended in the order of `steps`. */
  method Slide(g: Grid, c: Colour, sq: Square, steps: seq<(int, int)>) returns (moves: seq<Square>)
    requires WellFormed(g)
    ensures moves == Rays(g, c, sq, steps)
  {
    ghost var rays := RayList(g, c, sq, steps);
    moves := [];
    for i := 0 to |steps|
      invariant moves == Flatten(rays[..i])
    {
      var (dr, dc) := steps[i];
      var ray := Walk(g, c, sq, dr, dc);
      moves := moves + ray;
      assert rays[..i + 1][..i] == rays[..i];
    }
    assert rays[..|steps|] == rays;
  }

  /** Rook.get_moves. */
  method RookGetMoves(g: Grid, c: Colour, sq: Square) returns (moves: seq<Square>)
    requires WellFormed(g)
    ensures moves == RookMoves(g, c, sq)
  {
    moves := Slide(g, c, sq, RookSteps);
  }

  /** Bishop.get_moves. */
  method BishopGetMoves(g: Grid, c: Colour, sq: Square) returns (moves: seq<Square>)
    requires WellFormed(g)
    ensures moves == BishopMoves(g, c, sq)
  {
    moves := Slide(g, c, sq, BishopSteps);
  }

  /** Queen.get_moves: the rook's list from the same square, then the bishop's. */
  method QueenGetMoves(g: Grid, c: Colour, sq: Square) returns (moves: seq<Square>)
    requires WellFormed(g)
    ensures moves == RookMoves(g, c, sq) + BishopMoves(g, c, sq)
  {
    var straight := RookGetMoves(g, c, sq);
    var diagonal := BishopGetMoves(g, c, sq);
    moves := straight + diagonal;
  }

  // ---------------------------------------------------------------------------
  // An independent, geometric description of where a slider may go.

  function Sign(x: int): int
  {
    if x > 0 then 1 else if x < 0 then -1 else 0
  }

  /** Chebyshev distance: the number of king steps between two squares. */
  function Distance(a: Square, b: Square): nat
  {
    var dr, dc := Abs(b.row - a.row), Abs(b.col - a.col);
    if dr < dc then dc else dr
  }

  predicate UnitStep(dr: int, dc: int)
  {
    -1 <= dr <= 1 && -1 <= dc <= 1 && !(dr == 0 && dc == 0)
  }

  /** Steps lo .. hi-1 from `sq` in direction (dr, dc) are empty squares. */
  ghost predicate ClearFrom(g: Grid, sq: Square, dr: int, dc: int, lo: int, hi: int)
    requires WellFormed(g)
  {
    forall t: nat :: lo <= t < hi ==> OnBoard(Along(sq, dr, dc, t)) && At(g, Along(sq, dr, dc, t)).Empty?
  }

  /** Every square strictly between `a` and `b` (walking from `a` towards `b`)
      is empty. */
  ghost predicate PathClear(g: Grid, a: Square, b: Square)
    requires WellFormed(g)
  {
    ClearFrom(g, a, Sign(b.row - a.row), Sign(b.col - a.col), 1, Distance(a, b))
  }

  predicate RookLine(a: Square, b: Square)
  {
    a != b && (a.row == b.row || a.col == b.col)
  }

  predicate BishopLine(a: Square, b: Square)
  {
    a != b && Abs(b.row - a.row) == Abs(b.col - a.col)
  }

  /** `d * t` for a direction component `d` in {-1, 0, 1}, written without a
      product so that the geometric proofs stay in linear arithmetic. */
  function Scale(d: int, t: int): int
  {
    if d > 0 then t else if d < 0 then -t else 0
  }

  lemma {:induction false} TimesUnit(d: int, t: nat)
    requires -1 <= d <= 1
    ensures Times(d, t) == Scale(d, t)
  {
    if t > 0 {
      TimesUnit(d, t - 1);
    }
  }

  lemma AlongScaled(sq: Square, dr: int, dc: int, t: nat)
    requires UnitStep(dr, dc)
    ensures Along(sq, dr, dc, t) == Square(sq.row + Scale(dr, t), sq.col + Scale(dc, t))
  {
    TimesUnit(dr, t);
    TimesUnit(dc, t);
  }

  lemma AlongGeometry(sq: Square, dr: int, dc: int, k: int)
    requires UnitStep(dr, dc) && k >= 0
    ensures Distance(sq, Along(sq, dr, dc, k)) == k
    ensures k > 0 ==> Sign(Along(sq, dr, dc, k).row - sq.row) == dr
    ensures k > 0 ==> Sign(Along(sq, dr, dc, k).col - sq.col) == dc
  {
    AlongScaled(sq, dr, dc, k);
  }

  /** A square is on the ray from step j on exactly when it is the square
      some t steps away (j <= t < 8), on the board, every square from step j
      up to it is empty, and it is empty or holds an enemy. */
  lemma {:induction false} RayIndex(g: Grid, c: Colour, sq: Square, dr: int, dc: int, j: int, m: Square)
    requires WellFormed(g) && 1 <= j <= 8
    ensures m in Ray(g, c, sq, dr, dc, j) <==>
      exists t :: j <= t < 8 && m == Along(sq, dr, dc, t) && OnBoard(m)
        && ClearFrom(g, sq, dr, dc, j, t) && Targetable(g, c, m)
    decreases 8 - j
  {
    if j < 8 {
      var a := Along(sq, dr, dc, j);
      if OnBoard(a) && At(g, a).Empty? {
        RayIndex(g, c, sq, dr, dc, j + 1, m);
        if exists t :: j + 1 <= t < 8 && m == Along(sq, dr, dc, t) && OnBoard(m)
            && ClearFrom(g, sq, dr, dc, j + 1, t) && Targetable(g, c, m) {
          var t :| j + 1 <= t < 8 && m == Along(sq, dr, dc, t) && OnBoard(m)
            && ClearFrom(g, sq, dr, dc, j + 1, t) && Targetable(g, c, m);
          assert ClearFrom(g, sq, dr, dc, j, t);
        }
        if m == a {
          assert ClearFrom(g, sq, dr, dc, j, j);
        }
      }
    }
  }

  /** A square is on the ray from step j on exactly when it lies in that
      direction at least j steps away, on the board, every square before it
      (from step j) is empty, and it is empty or holds an enemy. */
  lemma RayIff(g: Grid, c: Colour, sq: Square, dr: int, dc: int, j: int, m: Square)
    requires WellFormed(g) && OnBoard(sq) && UnitStep(dr, dc) && 1 <= j <= 8
    ensures m in Ray(g, c, sq, dr, dc, j) <==>
      j <= Distance(sq, m) && m == Along(sq, dr, dc, Distance(sq, m)) && OnBoard(m)
      && ClearFrom(g, sq, dr, dc, j, Distance(sq, m)) && Targetable(g, c, m)
  {
    RayIndex(g, c, sq, dr, dc, j, m);
    var k := Distance(sq, m);
    if m in Ray(g, c, sq, dr, dc, j) {
      var t :| j <= t < 8 && m == Along(sq, dr, dc, t) && OnBoard(m)
        && ClearFrom(g, sq, dr, dc, j, t) && Targetable(g, c, m);
      AlongGeometry(sq, dr, dc, t);
    }
    if OnBoard(m) {
      assert k < 8;
    }
  }

  /** Membership in a concatenation: in one of the lists. */
  lemma {:induction false} FlattenMember(xs: seq<seq<Square>>, m: Square)
    ensures m in Flatten(xs) <==> exists i :: 0 <= i < |xs| && m in xs[i]
    decreases |xs|
  {
    if xs != [] {
      var n := |xs| - 1;
      FlattenMember(xs[..n], m);
      if m in Flatten(xs[..n]) {
        var i :| 0 <= i < n && m in xs[..n][i];
        assert m in xs[i];
      }
      if exists i :: 0 <= i < |xs| && m in xs[i] {
        var i :| 0 <= i < |xs| && m in xs[i];
        if i < n {
          assert xs[..n][i] == xs[i];
        }
      }
    }
  }

  lemma RaysMember(g: Grid, c: Colour, sq: Square, steps: seq<(int, int)>, m: Square)
    requires WellFormed(g)
    ensures m in Rays(g, c, sq, steps) <==>
      exists i :: 0 <= i < |steps| && m in Ray(g, c, sq, steps[i].0, steps[i].1, 1)
  {
    var rays := RayList(g, c, sq, steps);
    FlattenMember(rays, m);
    if exists i :: 0 <= i < |steps| && m in Ray(g, c, sq, steps[i].0, steps[i].1, 1) {
      var i :| 0 <= i < |steps| && m in Ray(g, c, sq, steps[i].0, steps[i].1, 1);
      assert m in rays[i];
    }
  }

  /** Membership in the concatenated rays, in geometric terms: the target lies
      in one of the given directions, the path to it is clear, and it is empty
      or holds an enemy. */
  lemma SlideIff(g: Grid, c: Colour, sq: Square, steps: seq<(int, int)>, m: Square)
    requires WellFormed(g) && OnBoard(sq)
    requires forall i :: 0 <= i < |steps| ==> UnitStep(steps[i].0, steps[i].1)
    ensures m in Rays(g, c, sq, steps) <==>
      OnBoard(m) && m != sq && (Sign(m.row - sq.row), Sign(m.col - sq.col)) in steps
      && m == Along(sq, Sign(m.row - sq.row), Sign(m.col - sq.col), Distance(sq, m))
      && PathClear(g, sq, m) && Targetable(g, c, m)
  {
    RaysMember(g, c, sq, steps, m);
    var d := (Sign(m.row - sq.row), Sign(m.col - sq.col));
    if m in Rays(g, c, sq, steps) {
      var i :| 0 <= i < |steps| && m in Ray(g, c, sq, steps[i].0, steps[i].1, 1);
      RayIff(g, c, sq, steps[i].0, steps[i].1, 1, m);
      AlongGeometry(sq, steps[i].0, steps[i].1, Distance(sq, m));
      assert steps[i] == d;
    }
    if OnBoard(m) && m != sq && d in steps && m == Along(sq, d.0, d.1, Distance(sq, m))
       && PathClear(g, sq, m) && Targetable(g, c, m) {
      var i :| 0 <= i < |steps| && steps[i] == d;
      RayIff(g, c, sq, d.0, d.1, 1, m);
    }
  }

  lemma SignAbs(x: int)
    ensures Scale(Sign(x), Abs(x)) == x
  {
  }

  /** The squares a rook step reaches: a row or column line, in geometric
      terms of its directions. */
  lemma RookDirections(sq: Square, m: Square)
    ensures RookLine(sq, m) <==>
      m != sq && (Sign(m.row - sq.row), Sign(m.col - sq.col)) in RookSteps
      && m == Along(sq, Sign(m.row - sq.row), Sign(m.col - sq.col), Distance(sq, m))
  {
    var dr, dc := m.row - sq.row, m.col - sq.col;
    SignAbs(dr);
    SignAbs(dc);
    var d := (Sign(dr), Sign(dc));
    if m != sq {
      AlongScaled(sq, d.0, d.1, Distance(sq, m));
    }
    if RookLine(sq, m) {
      if dr == 0 {
        assert d == (0, 1) || d == (0, -1);
        assert Distance(sq, m) == Abs(dc);
      } else {
        assert d == (1, 0) || d == (-1, 0);
        assert Distance(sq, m) == Abs(dr);
      }
      assert d in RookSteps;
    }
  }

  /** The squares a bishop step reaches: a diagonal, in geometric terms of
      its directions. */
  lemma BishopDirections(sq: Square, m: Square)
    ensures BishopLine(sq, m) <==>
      m != sq && (Sign(m.row - sq.row), Sign(m.col - sq.col)) in BishopSteps
      && m == Along(sq, Sign(m.row - sq.row), Sign(m.col - sq.col), Distance(sq, m))
  {
    var dr, dc := m.row - sq.row, m.col - sq.col;
    SignAbs(dr);
    SignAbs(dc);
    var d := (Sign(dr), Sign(dc));
    if m != sq {
      AlongScaled(sq, d.0, d.1, Distance(sq, m));
    }
    if BishopLine(sq, m) {
      assert Distance(sq, m) == Abs(dr);
      assert d in BishopSteps;
    }
    if m != sq && d in BishopSteps && m == Along(sq, d.0, d.1, Distance(sq, m)) {
      AlongGeometry(sq, d.0, d.1, Distance(sq, m));
    }
  }

  /** Rook.get_moves, characterised: exactly the on-board squares in the same
      row or column, with a clear path, that are empty or hold an enemy. */
  lemma RookIff(g: Grid, c: Colour, sq: Square, m: Square)
    requires WellFormed(g) && OnBoard(sq)
    ensures m in RookMoves(g, c, sq) <==>
      OnBoard(m) && RookLine(sq, m) && PathClear(g, sq, m) && Targetable(g, c, m)
  {
    SlideIff(g, c, sq, RookSteps, m);
    RookDirections(sq, m);
  }

  /** Bishop.get_moves, characterised: exactly the on-board squares on a
      diagonal, with a clear path, that are empty or hold an enemy. */
  lemma BishopIff(g: Grid, c: Colour, sq: Square, m: Square)
    requires WellFormed(g) && OnBoard(sq)
    ensures m in BishopMoves(g, c, sq) <==>
      OnBoard(m) && BishopLine(sq, m) && PathClear(g, sq, m) && Targetable(g, c, m)
  {
    SlideIff(g, c, sq, BishopSteps, m);
    BishopDirections(sq, m);
  }

  /** Queen.get_moves, characterised: a rook or bishop line with a clear path
      to an on-board square that is empty or holds an enemy. */
  lemma QueenIff(g: Grid, c: Colour, sq: Square, m: Square)
    requires WellFormed(g) && OnBoard(sq)
    ensures m in RookMoves(g, c, sq) + BishopMoves(g, c, sq) <==>
      OnBoard(m) && (RookLine(sq, m) || BishopLine(sq, m)) && PathClear(g, sq, m) && Targetable(g, c, m)
  {
    RookIff(g, c, sq, m);
    BishopIff(g, c, sq, m);
  }
}
