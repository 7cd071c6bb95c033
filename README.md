# 3d-chess core in Dafny

This project models the rules core of the pygame chess game `3d-chess`:

- the pseudo-legal move generator of the piece classes: `Piece`, `Pawn`, `Knight`, `Bishop`, `Rook`, `Queen`, `King`;
- the opening position built by `create_board`;
- the click-driven selection and move state machine `Game.handle_click`;
- the way `GameSaver` serialises a board and the captured-piece lists into the `save_data` record.

A board is an 8×8 grid of cells. Each cell is `None` or a
`Piece(color, kind, hasMoved)`. Squares are `(row, col)` pairs, with row 0 on
Black's side. Every move routine returns its moves in the same order as the
source's `moves` list, duplicates included if there were any. It is given:

- as a specification function on values;
- as a method with the source's loops, proved equal to that function.

Lemmas then state what each list means:

- which squares it contains, with both directions proved;
- that it holds no square twice;
- what each square satisfies.

Modules:

- `Pieces`, in `pieces.dfy`:
  - the data model;
  - `is_valid_position` and `is_empty_or_enemy`;
  - the sliding rays behind `get_straight_moves` and `get_diagonal_moves`.
- `Steps`, in `steps.dfy`: the one-step offset scan that the king and the knight share.
- `PawnRules`, `KingRules`, `KnightRules`, `RookRules`, `BishopRules`, `QueenRules`: the six `get_valid_moves` overrides.
- `Moves`: the dispatch on the piece kind.
- `BoardSetup`: `create_board`.
- `GameState`: `handle_click`, with the `Game` class holding `board`, `selected_piece`, `selected_square` and `valid_moves` as fields.
- `GameSaver`:
  - the serialisers over a small JSON value type;
  - the `save_data` record;
  - decoders that serve as the serialisers' inverses.

Design decisions where the code leaves a choice:

- `create_board` stores `(color, kind)` tuples (src/board/board.py:39-45). `handle_click` and `_serialize_board`, however, use `.get_valid_moves`, `.color`, `.position` and `.has_moved` on the cells, as piece objects have them. The model stores pieces; every starting piece has `hasMoved = false`.
- Pixel coordinates are natural numbers. The clicked square is `(y / SQUARE_SIZE, x / SQUARE_SIZE)`, with `SQUARE_SIZE = 680 / 8 = 85` (config/settings.py:6-7).
- A click off the grid with nothing selected raises `IndexError` when the board is indexed. The model reports this as the `IndexError` outcome and leaves the state unchanged. With a piece selected, such a click simply deselects, as in the source: a move list only holds on-board squares.
- `getattr(piece, 'has_moved', False)` always finds the attribute, because every modelled piece has the field.
- Missing captured-piece lists follow the source. `_serialize_captured_pieces` raises `KeyError` when a colour is missing from its input, and `save_game` turns that into a failed save. The model returns `Err(colour)`, with white looked up first.
- The `ParseCell`, `ParseBoardState` and `ParseCapturedEntry` decoders are not in the source. They exist to state that the encodings lose nothing they should keep.

## Model

| member | source | states |
|---|---|---|
| Pieces.NewPiece | src/pieces/piece.py:2-5 | a new piece has the given colour and kind and has not moved |
| Pieces.SetCell | src/game/game.py:37-41 | the written cell holds the new value and every other cell of the board is unchanged |
| Pieces.RaySound | src/pieces/piece.py:26-35 | every square of a ray is empty or holds an enemy; every square but the last is empty; a ray never runs longer than the board allows in each direction it moves |
| Pieces.RaySquare | src/pieces/piece.py:25-35 | the i-th square of the walk is the start stepped i times along the direction |
| Pieces.RayFromSquare | src/pieces/piece.py:25-35 | the i-th move of one direction is the origin stepped i+1 times |
| Pieces.PosInjective | src/pieces/piece.py:34-35 | stepping a different number of times along a direction never reaches the same square |
| Pieces.PosSameDirection | src/pieces/piece.py:22 | two of the unit directions reach a common square at positive distances only when they are the same direction at the same distance |
| Pieces.RayFromReaches | src/pieces/piece.py:25-35 | the walk reaches distance k exactly when every square before it is empty and the square at k is empty or an enemy |
| Pieces.RayFromComplete | src/pieces/piece.py:25-35 | the square at distance k is a move if and only if the path to it is clear and it is empty or holds an enemy |
| Pieces.RayFromMember | src/pieces/piece.py:25-35 | every move lies at some positive distance along the direction, with a clear path and an empty or enemy square |
| Pieces.RayStopsAtFirstPiece | src/pieces/piece.py:27-33 | the first occupied square is a move exactly when it holds an enemy, and nothing beyond it is ever a move |
| Pieces.RayFromNoDuplicates | src/pieces/piece.py:24-35 | a single direction yields no square twice |
| Pieces.RaysMember | src/pieces/piece.py:24-36 | every collected move lies along one of the directions with a clear path and an empty or enemy square |
| Pieces.RaysComplete | src/pieces/piece.py:24-36 | for distinct directions, the square at distance k along direction i is collected if and only if direction i reaches it |
| Pieces.RaysNoDuplicates | src/pieces/piece.py:24-36 | distinct directions together yield no square twice |
| Pieces.NoDuplicatesConcat | src/pieces/queen.py:6-8 | joining two duplicate-free lists with no common square gives a duplicate-free list |
| Pieces.CastRays | src/pieces/piece.py:24-36 | the loop over the directions returns exactly the concatenation of their rays, in order |
| Pieces.CastRay | src/pieces/piece.py:25-35 | the `while` loop with its two `break`s returns exactly the ray of one direction |
| Pieces.RaysOfFour | src/pieces/piece.py:22-24 | the moves of four directions are their four rays concatenated in order |
| Pieces.GetStraightMoves | src/pieces/piece.py:19-36 | get_straight_moves returns the right, left, down and up rays, in that order |
| Pieces.GetDiagonalMoves | src/pieces/piece.py:38-55 | get_diagonal_moves returns the four diagonal rays in the source's order |
| Pieces.StraightMovesSound | src/pieces/piece.py:19-36 | every straight move is empty or an enemy and shares exactly one of row and column with the origin |
| Pieces.StraightMovesComplete | src/pieces/piece.py:19-36 | along each of the four straight directions, a square is a move if and only if the path to it is clear and it is empty or an enemy |
| Pieces.StraightMovesNoDuplicates | src/pieces/piece.py:19-36 | the straight moves contain no square twice |
| Pieces.DiagonalMovesSound | src/pieces/piece.py:38-55 | every diagonal move is empty or an enemy and differs from the origin by the same non-zero amount in row and column |
| Pieces.DiagonalMovesComplete | src/pieces/piece.py:38-55 | along each diagonal, a square is a move if and only if the path to it is clear and it is empty or an enemy |
| Pieces.DiagonalMovesNoDuplicates | src/pieces/piece.py:38-55 | the diagonal moves contain no square twice |
| Steps.OffsetMoves | src/pieces/king.py:14-19 | the offset scan keeps at most one square per offset |
| Steps.OffsetMovesMember | src/pieces/king.py:14-19 | a square is kept if and only if it is the origin plus one of the offsets and is on the board and empty or an enemy |
| Steps.OffsetMovesNoDuplicates | src/pieces/knight.py:15-20 | distinct offsets yield no square twice |
| Steps.CollectOffsetMoves | src/pieces/king.py:14-21 | the `for` loop appending each kept square returns exactly the offset scan |
| KingRules.KingMoves | src/pieces/king.py:4-21 | the king has at most eight moves |
| KingRules.KingMovesExact | src/pieces/king.py:8-19 | a square is a king move if and only if it is at Chebyshev distance 1 from the origin, on the board, and empty or an enemy |
| KingRules.KingMovesNoDuplicates | src/pieces/king.py:8-21 | no king move is listed twice |
| KingRules.KingMovesSound | src/pieces/king.py:14-19 | every king move is empty or an enemy and is not the origin |
| KingRules.GetKingMoves | src/pieces/king.py:4-21 | King.get_valid_moves returns the offset scan over the eight neighbours in the source's order |
| KnightRules.KnightMoves | src/pieces/knight.py:4-22 | the knight has at most eight moves |
| KnightRules.KnightMovesExact | src/pieces/knight.py:8-20 | a square is a knight move if and only if it is an L-shape (two by one) away, on the board, and empty or an enemy |
| KnightRules.KnightMovesNoDuplicates | src/pieces/knight.py:8-22 | no knight move is listed twice |
| KnightRules.KnightMovesSound | src/pieces/knight.py:15-20 | every knight move is empty or an enemy and is not the origin |
| KnightRules.GetKnightMoves | src/pieces/knight.py:4-22 | Knight.get_valid_moves returns the offset scan over the eight L-shapes in the source's order |
| PawnRules.PawnMovesExact | src/pieces/pawn.py:4-30 | a square is a pawn move if and only if it is one of three things: one row ahead and empty; or two rows ahead with both squares empty and the pawn unmoved; or diagonally one ahead and holding an enemy (white advances towards row 0, black towards row 7) |
| PawnRules.PawnMovesShape | src/pieces/pawn.py:4-30 | at most four moves, none twice; forward moves keep the column and advance one or two rows; captures change the column by one and land on an enemy |
| PawnRules.GetPawnMoves | src/pieces/pawn.py:4-30 | Pawn.get_valid_moves with its nested condition and its capture loop returns exactly the pawn's moves in the source's order |
| RookRules.RookMoves | src/pieces/rook.py:4-6 | every rook move is on the board, keeps exactly one of row and column, and is empty or an enemy; from an on-board square there are at most 14 |
| BishopRules.BishopMoves | src/pieces/bishop.py:4-6 | every bishop move is on the board, on a diagonal through the origin, empty or an enemy, and on a square of the origin's colour |
| BishopRules.SameSquareColour | src/pieces/bishop.py:4-6 | squares on a common diagonal have the same colour |
| QueenRules.QueenMoves | src/pieces/queen.py:4-8 | the queen's moves have no duplicates, number the straight and diagonal moves together, and are on the board, on a line through the origin, and empty or an enemy |
| QueenRules.QueenPartsDisjoint | src/pieces/queen.py:6-8 | straight and diagonal moves never share a square |
| Moves.ValidMoves | src/pieces/piece.py:57-59 | for every kind of piece, the moves are duplicate-free, on the board, never the origin, and empty or an enemy of the mover |
| Moves.GetValidMoves | src/game/game.py:66 | dispatching get_valid_moves on the piece's kind returns exactly that kind's moves |
| BoardSetup.CreateBoard | src/board/board.py:30-47 | black's back rank in the order rook, knight, bishop, queen, king, bishop, knight, rook on row 0 with pawns on row 1; white's on row 7 with pawns on row 6; rows 2 to 5 empty; no piece has moved |
| BoardSetup.StartingKings | src/board/board.py:35-45 | the starting board's only kings are black's on (0, 4) and white's on (7, 4) |
| BoardSetup.CountInRowBounds | src/board/board.py:38-45 | a row filled with one colour counts all its cells for that colour; a row without it counts none |
| BoardSetup.StartingCounts | src/board/board.py:37-45 | each side starts with sixteen pieces |
| GameState.ClickedSquare | src/game/game.py:25-26 | the clicked pixel lies inside the square it maps to |
| GameState.Game.constructor | src/game/game.py:12-17 | a new game holds the starting board with nothing selected and no moves |
| GameState.Game.HandleClick | src/game/game.py:23-66 | keeps the selection invariant. With a piece selected, any click clears the selection: a click on one of its moves moves it there, marks it moved, empties its square, replaces any captured piece, leaves every other cell alone and reports whether it captured; any other click only deselects. With nothing selected the board never changes: a piece of either colour is selected together with its moves, an empty square selects nothing, and a square off the grid is the IndexError case |
| GameSaver.SerializeBoard | src/utils/game_saver.py:88-104 | the nested loops build the eight-by-eight `board_state` encoding |
| GameSaver.CellRoundTrip | src/utils/game_saver.py:94-102 | an encoded cell decodes to the same cell: "" for empty, otherwise the kind, colour and has_moved flag |
| GameSaver.RowRoundTrip | src/utils/game_saver.py:92-103 | an encoded row decodes to the same row |
| GameSaver.RowsRoundTrip | src/utils/game_saver.py:90-104 | encoded rows decode to the same rows |
| GameSaver.BoardStateRoundTrip | src/utils/game_saver.py:88-104 | the board is recovered exactly from its `board_state` |
| GameSaver.BoardStateInjective | src/utils/game_saver.py:88-104 | two boards with the same `board_state` are the same board |
| GameSaver.CapturedPiecesShape | src/utils/game_saver.py:106-115 | succeeds if and only if both colours are present; the result has the keys white then black, each list as long as its input, and the i-th entry records the i-th captured piece's kind and colour |
| GameSaver.SerializeCapturedPieces | src/utils/game_saver.py:106-115 | the colour loop and the piece loop return exactly the captured-pieces encoding, or the first missing colour |
| GameSaver.SaveRecordFields | src/utils/game_saver.py:22-30 | each of the seven keys of the record looks up the value stored under it |
| GameSaver.SaveDataShape | src/utils/game_saver.py:22-41 | a record exists if and only if both captured lists are present. Its keys are exactly board_state, current_turn, time_left, move_history, captured_pieces, move_count and game_over, in that order. The board and the turn are recovered from it; time_left, move_history, move_count and game_over are carried unchanged; captured_pieces is the captured-pieces encoding |

## Left out

- The drawing, image loading, sounds, window and event loop of `Game`, `draw_board` and `draw_pieces` are pygame I/O. The capture sound is kept only as the `capture` flag of the `Moved` outcome.
- Check, checkmate, castling, en passant, promotion and turn alternation are not in the modelled code. `handle_click` lets either colour move.
- `save_game`'s timestamped file name, the JSON file write and the logger are I/O. `load_game`, `list_saved_games` and `delete_save` are file system operations. The model covers only the `save_data` value.
- The game state object that `save_game` reads has no class in the modelled code. `time_left` and `move_history` are carried as opaque JSON values; `current_turn` is a colour.
- The menu, `main.py`, the constants module and the logger are not part of this model.
- GameSaver.CapturedPiecesShape: captured entries keep only the kind and colour, as the source writes them, so a captured piece's has_moved flag cannot be recovered.
- GameState.Game.HandleClick: the board is a value that the method reassigns, not a list of lists shared with other holders. Aliasing of the board or of piece objects is not modelled. Setting `has_moved` therefore updates the one cell that holds the moved piece.
