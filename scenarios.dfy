/** Moves from the starting layout, worked out from the contracts. */
module Scenarios {
  import opened Board
  import opened Sliding
  import opened Leaping
  import opened Engine
  import opened Game

  /** e2-e4: the White pawn's two-step from row 6 is made; (6, 4) is empty and
      (4, 4) holds the pawn, which records its new square. */
  lemma OpeningDoubleStep()
    ensures MoveOutcome(InitialGrid(), White, Square(6, 4), Square(4, 4)) == Ok
    ensures At(BoardAfter(InitialGrid(), White, Square(6, 4), Square(4, 4)), Square(4, 4))
      == Occupied(Piece(Pawn, White, Square(4, 4)))
    ensures At(BoardAfter(InitialGrid(), White, Square(6, 4), Square(4, 4)), Square(6, 4)) == Empty
  {
    QuietMove(InitialGrid(), White, Square(6, 4), Square(4, 4));
  }

  /** A Black pawn cannot be moved while White is to play. */
  lemma BlackPieceOnWhitesTurn()
    ensures MoveOutcome(InitialGrid(), White, Square(1, 0), Square(2, 0)) == WrongTurn
  {
  }

  /** h2-h3 never happens: the pawn on column 7 reads column 8 and raises. */
  lemma EdgePawnRaises()
    ensures MoveOutcome(InitialGrid(), White, Square(6, 7), Square(5, 7)) == IndexError
  {
  }

  /** b1-c3: the knight jumps over the pawns in front of it. */
  lemma KnightJumpsOverPawns()
    ensures MoveOutcome(InitialGrid(), White, Square(7, 1), Square(5, 2)) == Ok
  {
    KnightIff(InitialGrid(), White, Square(7, 1), Square(5, 2));
  }

  /** A rook on a1 cannot reach a3 while a2 is occupied. */
  lemma RookCannotPass(g: Grid, p: Piece)
    requires WellFormed(g) && p.kind == Rook
    requires At(g, Square(7, 0)) == Occupied(p) && At(g, Square(6, 0)).Occupied?
    ensures MoveOutcome(g, p.colour, Square(7, 0), Square(5, 0)) == Illegal
  {
    var from, to := Square(7, 0), Square(5, 0);
    assert !PathClear(g, from, to) by {
      assert Along(from, -1, 0, 1) == Square(6, 0);
    }
    assert to !in RookMoves(g, p.colour, from) by {
      RookIff(g, p.colour, from, to);
    }
  }

  /** a1-a3: the rook cannot pass its own pawn on a2. */
  lemma RookBlockedByOwnPawn()
    ensures MoveOutcome(InitialGrid(), White, Square(7, 0), Square(5, 0)) == Illegal
  {
    RookCannotPass(InitialGrid(), Piece(Rook, White, Square(7, 0)));
  }

  /** A whole turn on a new game: e2-e4 is made, nobody has won, and Black is
      to move. */
  method OpeningTurn() returns (game: ChessVar)
    ensures game.Valid() && game.currentTurn == Black && game.gameState == Unfinished
  {
    game := new ChessVar();
    InitialLayout();
    OpeningDoubleStep();
    QuietMoveKeepsKings(InitialGrid(), White, Square(6, 4), Square(4, 4), White);
    QuietMoveKeepsKings(InitialGrid(), White, Square(6, 4), Square(4, 4), Black);
    var r := game.TakeTurn(Square(6, 4), Square(4, 4));
  }
}
