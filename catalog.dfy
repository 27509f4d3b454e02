/** The per-kind dispatch: `piece.get_moves(position, board)` for whatever
    kind of piece stands on the source square. */
module Catalog {
  import opened Board
  import opened Sliding
  import opened Leaping
  import opened PawnRules

  /** The destinations the piece's own get_moves lists when called for square
      `sq`; `None` when it raises IndexError (only a pawn can). */
  function Destinations(g: Grid, p: Piece, sq: Square): Option<seq<Square>>
    requires WellFormed(g) && OnBoard(sq)
  {
    match p.kind
    case Pawn => PawnMoves(g, p.colour, sq)
    case Rook => Some(RookMoves(g, p.colour, sq))
    case Knight => Some(KnightMoves(g, p.colour, sq))
    case Bishop => Some(BishopMoves(g, p.colour, sq))
    case Queen => Some(RookMoves(g, p.colour, sq) + BishopMoves(g, p.colour, sq))
    case King => Some(KingMoves(g, p.colour, sq))
  }

  /** The virtual call piece.get_moves(position, board). */
  method GetMoves(g: Grid, p: Piece, sq: Square) returns (r: Option<seq<Square>>)
    requires WellFormed(g) && OnBoard(sq)
    ensures r == Destinations(g, p, sq)
  {
    match p.kind {
      case Pawn =>
        r := PawnMoves(g, p.colour, sq);
      case Rook =>
        var moves := RookGetMoves(g, p.colour, sq);
        r := Some(moves);
      case Knight =>
        var moves := KnightGetMoves(g, p.colour, sq);
        r := Some(moves);
      case Bishop =>
        var moves := BishopGetMoves(g, p.colour, sq);
        r := Some(moves);
      case Queen =>
        var moves := QueenGetMoves(g, p.colour, sq);
        r := Some(moves);
      case King =>
        var moves := KingGetMoves(g, p.colour, sq);
        r := Some(moves);
    }
  }

  /** Whatever the kind, an on-board destination is never the source square
      and never holds a piece of the mover's colour. */
  lemma DestinationsSound(g: Grid, p: Piece, sq: Square, m: Square)
    requires WellFormed(g) && OnBoard(sq) && OnBoard(m)
    requires Destinations(g, p, sq).Some? && m in Destinations(g, p, sq).value
    ensures m != sq && Targetable(g, p.colour, m)
  {
    match p.kind
    case Pawn => PawnIff(g, p.colour, sq, m);
    case Rook => RookIff(g, p.colour, sq, m);
    case Knight => KnightIff(g, p.colour, sq, m);
    case Bishop => BishopIff(g, p.colour, sq, m);
    case Queen => QueenIff(g, p.colour, sq, m);
    case King => KingIff(g, p.colour, sq, m);
  }
}
