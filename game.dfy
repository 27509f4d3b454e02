/** The ChessVar game object: an 8x8 board updated in place, the side to move
    and the game's result. */
module Game {
  import opened Board
  import opened Catalog
  import opened Engine

  datatype GameState = Unfinished | WhiteWon | BlackWon

  /** The verdict of update_game_state on grid `g`, given the state before:
      no White king means Black won (checked first, so also when both kings
      are gone), else no Black king means White won, else nothing changes. */
  ghost function StateAfterScan(g: Grid, s: GameState): GameState
    requires WellFormed(g)
  {
    if !HasKing(g, White) then BlackWon
    else if !HasKing(g, Black) then WhiteWon
    else s
  }

  /** The pieces of a back rank, from column 0 to column 7. */
  const BackRank: seq<Kind> := [Rook, Knight, Bishop, Queen, King, Bishop, Knight, Rook]

  /** The starting layout: Black on rows 0 and 1, White on rows 6 and 7, each
      piece recording its own square. */
  function InitialCell(r: int, c: int): Cell
    requires InBounds(r, c)
  {
    if r == 0 then Occupied(Piece(BackRank[c], Black, Square(r, c)))
    else if r == 1 then Occupied(Piece(Pawn, Black, Square(r, c)))
    else if r == 6 then Occupied(Piece(Pawn, White, Square(r, c)))
    else if r == 7 then Occupied(Piece(BackRank[c], White, Square(r, c)))
    else Empty
  }

  function InitialGrid(): (g: Grid)
    ensures WellFormed(g)
    ensures forall r, c :: InBounds(r, c) ==> g[r][c] == InitialCell(r, c)
  {
    seq(8, r requires 0 <= r < 8 => seq(8, c requires 0 <= c < 8 => InitialCell(r, c)))
  }

  /** The starting layout is consistent and holds both kings. */
  lemma InitialLayout()
    ensures Consistent(InitialGrid())
    ensures HasKing(InitialGrid(), White) && HasKing(InitialGrid(), Black)
    ensures At(InitialGrid(), Square(7, 4)) == Occupied(Piece(King, White, Square(7, 4)))
    ensures At(InitialGrid(), Square(0, 4)) == Occupied(Piece(King, Black, Square(0, 4)))
  {
    assert IsKingOf(At(InitialGrid(), Square(7, 4)), White);
    assert IsKingOf(At(InitialGrid(), Square(0, 4)), Black);
  }

  /** The verdict after a capture: if every Black king stood in the blast (or
      was the capturer) while a White king stood elsewhere, White has won; if
      every White king stood in the blast or was the capturer, Black has won,
      whatever happened to the Black king. */
  lemma CaptureVerdict(g: Grid, turn: Colour, from: Square, to: Square, st: GameState)
    requires WellFormed(g) && OnBoard(from) && OnBoard(to)
    requires MoveOutcome(g, turn, from, to) == Ok && At(g, to).Occupied?
    ensures (forall s :: OnBoard(s) && IsKingOf(At(g, s), Black) ==> InBlast(to, s) || s == from)
      && (exists s :: OnBoard(s) && !InBlast(to, s) && s != from && IsKingOf(At(g, s), White))
      ==> StateAfterScan(BoardAfter(g, turn, from, to), st) == WhiteWon
    ensures (forall s :: OnBoard(s) && IsKingOf(At(g, s), White) ==> InBlast(to, s) || s == from)
      ==> StateAfterScan(BoardAfter(g, turn, from, to), st) == BlackWon
  {
    CaptureKeepsKingIff(g, turn, from, to, White);
    CaptureKeepsKingIff(g, turn, from, to, Black);
  }

  /** The scan of update_game_state: the colours of the kings found on `g`. */
  method CollectKings(g: Grid) returns (kings: seq<Colour>)
    requires WellFormed(g)
    ensures forall k :: k in kings <==> HasKing(g, k)
  {
    kings := [];
    for r := 0 to 8
      invariant forall k :: k in kings <==>
        exists s :: OnBoard(s) && s.row < r && IsKingOf(At(g, s), k)
    {
      for c := 0 to 8
        invariant forall k :: k in kings <==>
          exists s :: OnBoard(s) && (s.row < r || (s.row == r && s.col < c)) && IsKingOf(At(g, s), k)
      {
        var m := g[r][c];
        if m.Occupied? && m.piece.kind == King {
          kings := kings + [m.piece.colour];
          assert IsKingOf(At(g, Square(r, c)), m.piece.colour);
        }
      }
    }
  }

  /** The contents of an 8x8 array of cells, as a grid value. */
  function Snapshot(b: array2<Cell>): (g: Grid)
    reads b
    requires b.Length0 == 8 && b.Length1 == 8
    ensures WellFormed(g)
    ensures forall r, c :: InBounds(r, c) ==> g[r][c] == b[r, c]
  {
    seq(8, r requires 0 <= r < 8 reads b =>
      seq(8, c requires 0 <= c < 8 reads b => b[r, c]))
  }

  /** The placements of __init__ on an empty 8x8 board: the back ranks on
      rows 0 and 7 and the pawns on rows 1 and 6. */
  method PlacePieces(b: array2<Cell>)
    requires b.Length0 == 8 && b.Length1 == 8
    requires forall r, c :: InBounds(r, c) ==> b[r, c] == Empty
    modifies b
    ensures Snapshot(b) == InitialGrid() && Consistent(Snapshot(b))
  {
    for i := 0 to 8
      invariant forall r, c :: InBounds(r, c) ==> b[r, c] == if c < i then InitialCell(r, c) else Empty
    {
      b[0, i] := Occupied(Piece(BackRank[i], Black, Square(0, i)));
      b[1, i] := Occupied(Piece(Pawn, Black, Square(1, i)));
      b[7, i] := Occupied(Piece(BackRank[i], White, Square(7, i)));
      b[6, i] := Occupied(Piece(Pawn, White, Square(6, i)));
    }
    GridExtensional(Snapshot(b), InitialGrid());
    InitialLayout();
  }

  class ChessVar {
    var board: array2<Cell>
    var gameState: GameState
    var currentTurn: Colour

    /** The board is 8x8 and every piece records the cell it stands on. */
    ghost predicate Valid()
      reads this`board, board
    {
      board.Length0 == 8 && board.Length1 == 8 && Consistent(Cells())
    }

    /** The board as a value (the list the source passes to get_moves). */
    function Cells(): (g: Grid)
      reads this`board, board
      requires board.Length0 == 8 && board.Length1 == 8
      ensures WellFormed(g)
      ensures forall r, c :: InBounds(r, c) ==> g[r][c] == board[r, c]
    {
      Snapshot(board)
    }

    /** ChessVar.__init__: the standard layout, White to move, game unfinished. */
    constructor ()
      ensures Valid() && fresh(board)
      ensures Cells() == InitialGrid()
      ensures currentTurn == White && gameState == Unfinished
    {
      var b := new Cell[8, 8]((r, c) => Empty);
      PlacePieces(b);
      board := b;
      gameState := Unfinished;
      currentTurn := White;
      new;
      assert Cells() == Snapshot(board);
    }

    /** switch_turn. */
    method SwitchTurn()
      modifies this`currentTurn
      ensures currentTurn == Opponent(old(currentTurn))
    {
      if currentTurn == White {
        currentTurn := Black;
      } else {
        currentTurn := White;
      }
    }

    /** update_game_state: the result from which kings are still on the board. */
    method UpdateGameState()
      requires Valid()
      modifies this`gameState
      ensures gameState == StateAfterScan(Cells(), old(gameState))
    {
      var kings := CollectKings(Cells());
      if White !in kings {
        gameState := BlackWon;
      } else if Black !in kings {
        gameState := WhiteWon;
      }
    }

    /** make_move: enforce the turn, check the destination against the piece's
        get_moves, move the piece and, on a capture, clear the 3x3 block
        around the destination. */
    method MakeMove(from: Square, to: Square) returns (r: MoveResult)
      requires Valid() && OnBoard(from) && OnBoard(to)
      modifies board
      ensures Valid()
      ensures r == MoveOutcome(old(Cells()), currentTurn, from, to)
      ensures Cells() == BoardAfter(old(Cells()), currentTurn, from, to)
    {
      ghost var g := Cells();
      var piece := board[from.row, from.col];
      if piece.Occupied? && piece.piece.colour != currentTurn {
        return WrongTurn;
      }
      if piece.Empty? {
        return Illegal;
      }
      var moves := GetMoves(Cells(), piece.piece, from);
      if moves.None? {
        return IndexError;
      }
      if to !in moves.value {
        return Illegal;
      }
      var temp := board[to.row, to.col];
      board[to.row, to.col] := Occupied(piece.piece.UpdateNewPosition(to));
      board[from.row, from.col] := Empty;
      GridExtensional(Cells(), SetAt(SetAt(g, to, Occupied(piece.piece.UpdateNewPosition(to))), from, Empty));
      if temp.Occupied? {
        Detonate(to);
      }
      r := Ok;
      MovePreservesConsistent(g, currentTurn, from, to);
    }

    /** The capture branch of make_move: clear every on-board cell of the 3x3
        block around `centre`, skipping the neighbours that are off the board. */
    method Detonate(centre: Square)
      requires board.Length0 == 8 && board.Length1 == 8
      modifies board
      ensures Cells() == Explode(old(Cells()), centre)
    {
      ghost var before := Cells();
      for i := -1 to 2
        invariant forall x, y :: InBounds(x, y) ==>
          board[x, y] == (if InBlast(centre, Square(x, y)) && x < centre.row + i then Empty else before[x][y])
      {
        for j := -1 to 2
          invariant forall x, y :: InBounds(x, y) ==>
            board[x, y] == (if InBlast(centre, Square(x, y)) && (x < centre.row + i || (x == centre.row + i && y < centre.col + j))
                            then Empty else before[x][y])
        {
          var row, col := centre.row + i, centre.col + j;
          if 0 <= row <= 7 && 0 <= col <= 7 {
            board[row, col] := Empty;
          }
        }
      }
      GridExtensional(Cells(), Explode(before, centre));
    }

    /** One turn of the terminal loop once a move has been read: make_move is
        called, and when it did not answer 'IllEGAL MOVE' it is called again
        with the same squares; unless that second call answers 'Wrong turn',
        the result is updated and, if the game goes on, the turn passes. An
        IndexError from the first call ends the turn with nothing changed. */
    method TakeTurn(from: Square, to: Square) returns (r: MoveResult)
      requires Valid() && OnBoard(from) && OnBoard(to)
      modifies this, board
      ensures Valid() && board == old(board)
      ensures r == MoveOutcome(old(Cells()), old(currentTurn), from, to)
      ensures Cells() == BoardAfter(old(Cells()), old(currentTurn), from, to)
      ensures gameState == if r == Ok then StateAfterScan(Cells(), old(gameState)) else old(gameState)
      ensures currentTurn == if r == Ok && gameState == Unfinished then Opponent(old(currentTurn)) else old(currentTurn)
    {
      ghost var g := Cells();
      r := MakeMove(from, to);
      if r == Illegal || r == IndexError {
        return;
      }
      if r == Ok {
        RepeatedMoveIllegal(g, currentTurn, from, to);
      }
      var again := MakeMove(from, to);
      if again != WrongTurn {
        UpdateGameState();
        if gameState == Unfinished {
          SwitchTurn();
        }
      }
    }
  }
}
