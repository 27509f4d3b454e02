# Atomic chess engine — a Dafny model

This project models the engine of a two-player "atomic chess" game (`ChessVar.py`). Pieces move as in chess, but every capture explodes: it empties the 3x3 block around the destination square, including the capturing piece. A player wins when the other side's king is gone. The model covers the following:

- the six move generators (`get_moves` of Pawn, Rook, Knight, Bishop, Queen and King);
- the `ChessVar` game object: its starting layout, `make_move` with turn enforcement, legality and the explosion, `update_game_state` and `switch_turn`;
- the one turn step of the terminal loop that follows a parsed move;
- the `letters_to_num` conversion from algebraic notation.

Layout, one module per file:

- `board.dfy` (`Board`): colours, kinds, squares, pieces (`Piece.update_new_position`), cells, the 8x8 grid as a value, the consistency invariant, king presence.
- `sliding.dfy` (`Sliding`): Rook, Bishop and Queen. `Ray`/`Rays` are the specification of the nested loops. `Walk` (the inner loop) and `Slide` (the outer loop) are proved equal to them. The lemmas describe the result geometrically.
- `leaping.dfy` (`Leaping`): Knight and King. `Jumps` is the specification, `Leap` the loop, and lemmas give the offset characterisations.
- `pawn.dfy` (`PawnRules`): Pawn, with Python's list indexing written out (see below).
- `catalog.dfy` (`Catalog`): dispatch from a piece to its own generator.
- `engine.dfy` (`Engine`): the answer and the new board of `make_move` as functions, plus their frame, explosion and invariant lemmas.
- `game.dfy` (`Game`): the `ChessVar` class over an `array2<Cell>` board, the starting layout and the game-state scan.
- `notation.dfy` (`Notation`): `letters_to_num` and its inverse.
- `scenarios.dfy` (`Scenarios`): moves from the starting position.

Cells are values: `Empty` or `Occupied(Piece(kind, colour, pos))`. Colours are an enum. The source compares only the first letter of colour strings, and the enum keeps that meaning. `make_move` answers `Ok` (the source's implicit `None`), `WrongTurn`, `Illegal` or `IndexError`.

### Where the model follows the code rather than the design description

- **Pawn.** The source reads both diagonal cells (`ChessVar.py:70-71`) before any bounds check. It tests the two-step on `row == 6` and on `row == 1` for either colour (lines 75 and 77). Python wraps negative indices and raises `IndexError` past the end, so `PawnMoves` models `board[i][j]` as Python evaluates it (`PyRead`). The consequences, all proved:
  - the pawn raises exactly on column 7, for Black on row 7, and for Black on row 6 with the cell ahead empty;
  - a pawn on the h-file therefore never moves (`EdgePawnRaises`);
  - a White pawn on row 0 or 1 can list squares on row -1, which no on-board destination matches.

  The exception leaves `make_move` before any change. The model reports it as `IndexError` with the board untouched.
- **`update_game_state`** leaves the state unchanged while both kings are present; it never resets it to unfinished. No White king gives `BLACK_WON`, and this is checked first, so it also wins when both kings are gone.
- **The blast** clears every on-board cell of the 3x3 block: pawns, the capturer and pieces of both colours.

## Model

| member | source | states |
|---|---|---|
| `Board.Piece.UpdateNewPosition` | ChessVar.py:44-45 | the piece keeps its kind and colour and records the new square |
| `Sliding.TimesIsProduct` | ChessVar.py:107-108 | the repeated addition used for `Along` is the source's product `i[0] * j` |
| `Sliding.Walk` | ChessVar.py:106-120 | the step loop over j = 1..7 with its `break`s returns exactly the ray `Ray` of one direction |
| `Sliding.Slide` | ChessVar.py:105-120 | the loop over the directions returns exactly the concatenated rays `Rays`, in the source's order |
| `Sliding.RookGetMoves` | ChessVar.py:95-121 | returns the four rook rays in the source's order |
| `Sliding.BishopGetMoves` | ChessVar.py:162-190 | returns the four bishop rays in the source's order |
| `Sliding.QueenGetMoves` | ChessVar.py:201-210 | the queen's list is the rook's list followed by the bishop's list from the same square |
| `Sliding.RayIndex` | ChessVar.py:106-120 | a square is on a ray from step j iff it is the square t steps away for some j <= t < 8, on the board, with steps j..t-1 empty, and it is empty or an enemy |
| `Sliding.RayIff` | ChessVar.py:106-120 | a square is on a ray iff it lies in that direction on the board, every earlier square of the ray is empty, and it is empty or an enemy (so the ray stops at the first occupied square, included iff enemy) |
| `Sliding.RaysMember` | ChessVar.py:105-106 | a square is in the concatenated rays iff it is on one of the directions' rays |
| `Sliding.SlideIff` | ChessVar.py:105-120 | membership in a slider's list, in geometric terms: on board, not the source, in one of its directions, path clear, empty or enemy |
| `Sliding.RookDirections` | ChessVar.py:103 | the rook's four steps reach exactly the squares in the same row or column |
| `Sliding.BishopDirections` | ChessVar.py:171 | the bishop's four steps reach exactly the squares on a diagonal |
| `Sliding.RookIff` | ChessVar.py:103-120 | rook destinations are exactly the on-board squares in the same row or column with every square between empty, that are empty or hold an enemy |
| `Sliding.BishopIff` | ChessVar.py:171-188 | bishop destinations are exactly the on-board diagonal squares with a clear path that are empty or hold an enemy |
| `Sliding.QueenIff` | ChessVar.py:205-210 | queen destinations are exactly the rook-line or bishop-line squares with a clear path that are empty or hold an enemy |
| `Leaping.Leap` | ChessVar.py:143-150 | the shared offset loop returns exactly `Jumps` over the offsets, in order |
| `Leaping.KnightGetMoves` | ChessVar.py:132-151 | returns the knight's jumps over its eight offsets |
| `Leaping.KingGetMoves` | ChessVar.py:221-239 | returns the king's steps over its eight offsets |
| `Leaping.JumpsIff` | ChessVar.py:143-150 | a square is listed iff its offset is in the list, it is on the board, and it is empty or an enemy |
| `Leaping.KnightIff` | ChessVar.py:139-151 | knight destinations are exactly the on-board (±1,±2)/(±2,±1) squares that are empty or hold an enemy |
| `Leaping.KingIff` | ChessVar.py:228-239 | king destinations are exactly the on-board squares at Chebyshev distance 1 that are empty or hold an enemy |
| `PawnRules.PyIndex` | ChessVar.py:70-71 | a list index succeeds iff it is in [-8, 8), and it lands on the index itself or the index plus 8 |
| `PawnRules.PyRead` | ChessVar.py:70-71 | `board[r][c]` succeeds iff both indices are in [-8, 8), and on the board it is the cell itself |
| `PawnRules.PawnMoves` | ChessVar.py:56-84 | raises exactly on column 7, for Black on row 7, and for Black on row 6 with (7, col) empty |
| `PawnRules.PawnIff` | ChessVar.py:61-84 | when it does not raise, an on-board square is listed iff it is one step forward and empty, or two steps forward from row 6 or 1 with both squares empty, or one diagonal step forward onto an enemy |
| `PawnRules.PawnOffBoard` | ChessVar.py:70-77 | an off-board listed square is only ever row -1, for a White pawn on row 0 or 1 |
| `Catalog.GetMoves` | ChessVar.py:391 | calls the get_moves of the piece's own kind |
| `Catalog.DestinationsSound` | ChessVar.py:79-82 | for every kind, an on-board destination is never the source square and never holds a piece of the mover's colour |
| `Engine.Rejections` | ChessVar.py:388-404 | 'Wrong turn' iff the source holds a piece of the other colour than the turn; 'IllEGAL MOVE' iff the source is empty or the destination is not listed; any rejection leaves the board unchanged |
| `Engine.MadeMoveTargets` | ChessVar.py:389-391 | a made move moves the side to play, to a different square that is empty or holds an enemy |
| `Engine.QuietMove` | ChessVar.py:392-395 | after a non-capturing move the destination holds the piece recording the destination, the source is empty, and every other cell is unchanged |
| `Engine.CaptureMove` | ChessVar.py:396-402 | after a capture every on-board cell of the 3x3 block around the destination is empty (capturer included), the source is empty, and every other cell is unchanged |
| `Engine.MovePreservesConsistent` | ChessVar.py:392-395 | every occupied cell's piece still records that cell after make_move |
| `Engine.RepeatedMoveIllegal` | ChessVar.py:436-438 | calling make_move again with the squares of a move just made answers 'IllEGAL MOVE' |
| `Engine.QuietMoveKeepsKings` | ChessVar.py:392-395 | a non-capturing move removes no king |
| `Engine.CaptureKeepsKingIff` | ChessVar.py:396-402 | after a capture a king remains iff one stood outside the blast and was not the capturer |
| `Game.InitialLayout` | ChessVar.py:267-287 | the starting layout is consistent and has the White king on (7,4) and the Black king on (0,4) |
| `Game.CaptureVerdict` | ChessVar.py:360-363 | a capture that blows up every Black king but not the White king makes White the winner; one that blows up every White king makes Black the winner, even if the Black king also went |
| `Game.CollectKings` | ChessVar.py:354-358 | the scanned list holds a colour iff that colour's king is on the board |
| `Game.ChessVar.constructor` | ChessVar.py:256-291 | the board is the standard layout, White to move, game unfinished |
| `Game.ChessVar.SwitchTurn` | ChessVar.py:340-348 | the turn becomes the other colour |
| `Game.ChessVar.UpdateGameState` | ChessVar.py:350-363 | the state becomes BLACK_WON without a White king, else WHITE_WON without a Black king, else stays |
| `Game.ChessVar.MakeMove` | ChessVar.py:377-404 | answers `MoveOutcome` of the old board and leaves `BoardAfter` of it, keeping the consistency invariant |
| `Game.ChessVar.Detonate` | ChessVar.py:396-402 | the board becomes `Explode` of the old board: the on-board 3x3 block is empty, everything else is unchanged |
| `Game.ChessVar.TakeTurn` | ChessVar.py:436-442 | after a made move the state is rescanned and the turn passes if the game is unfinished; otherwise state and turn are unchanged |
| `Notation.LettersToNum` | ChessVar.py:365-375 | file 'a'..'h' gives column 0..7, rank '1'..'8' gives row 8 - rank, always on the board |
| `Notation.LettersToNumOnto` | ChessVar.py:370-375 | every on-board square is the image of its algebraic name |
| `Notation.LettersToNumInjective` | ChessVar.py:370-375 | two positions with the same square agree on their first two characters |
| `Notation.NumToLettersInverse` | ChessVar.py:373-375 | naming the square found gives back the position's file and rank |
| `Notation.Corners` | ChessVar.py:370-371 | 'a8' is (0,0) and 'h1' is (7,7) |
| `Scenarios.OpeningDoubleStep` | ChessVar.py:73-76 | e2-e4 from the start is made: e2 empty, e4 holds the White pawn recording e4 |
| `Scenarios.BlackPieceOnWhitesTurn` | ChessVar.py:389-390 | moving a Black pawn on White's turn answers 'Wrong turn' |
| `Scenarios.EdgePawnRaises` | ChessVar.py:71 | h2-h3 from the start raises IndexError |
| `Scenarios.KnightJumpsOverPawns` | ChessVar.py:143-150 | b1-c3 from the start is made |
| `Scenarios.RookCannotPass` | ChessVar.py:111-118 | a rook on a1 cannot reach a3 while a2 is occupied |
| `Scenarios.RookBlockedByOwnPawn` | ChessVar.py:111-118 | a1-a3 from the start is illegal |
| `Scenarios.OpeningTurn` | ChessVar.py:436-442 | after e2-e4 on a new game nobody has won and Black is to move |

## Left out

- `run` apart from lines 436-442: the start prompt, reading and splitting input, the `quit` forfeit, printing, and catching exceptions other than the pawn's IndexError. These are terminal I/O.
- `print_board`, `Player`, `create_player` and the getters: display and data holders with no logic.
- Piece identity: pieces are values, and `update_new_position` writes a new value into the destination cell. Two cells can never share one piece object here, so the "a piece is on at most one cell" invariant is not expressed. `Consistent` (every piece records its cell) is.
- Game.ChessVar.MakeMove: requires both squares on the board. The source accepts any pair, but its only caller passes results of `letters_to_num`, which are always on the board.
- Notation.LettersToNum: requires a file letter and a rank digit as the first two characters. Other input raises `KeyError`/`IndexError` in the source, and the caller catches it.
- The colour and state strings ('White', 'WK', 'UNFINISHED', ...) are enums. `switch_turn`'s branch for a turn string that is neither colour cannot occur.
- Game.ChessVar.Detonate: clears the blast cells directly rather than first collecting the nine coordinates in a list; the cells cleared are the same.
