/** Rook.get_valid_moves (src/pieces/rook.py): the straight rays. */
module RookRules {
  import opened Pieces

  /** The rook's moves are the straight moves: each keeps exactly one of the
      row and the column, is on the board and holds no piece of the rook's
      colour; from a square on the board there are at most 7 along the row
      and 7 along the column. */
  function RookMoves(board: Board, color: Color, row: int, col: int): (moves: seq<Square>)
    ensures forall s :: s in moves ==>
      IsValidPosition(s.0, s.1) && ((s.0 == row) != (s.1 == col)) && IsEmptyOrEnemy(board, color, s.0, s.1)
    ensures IsValidPosition(row, col) ==> |moves| <= 14
  {
    StraightMovesSound(board, color, row, col);
    RaySound(board, color, row, col + 1, (0, 1));
    RaySound(board, color, row, col - 1, (0, -1));
    RaySound(board, color, row + 1, col, (1, 0));
    RaySound(board, color, row - 1, col, (-1, 0));
    StraightMoves(board, color, row, col)
  }
}
