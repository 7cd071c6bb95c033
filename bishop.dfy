/** Bishop.get_valid_moves (src/pieces/bishop.py): the diagonal rays. */
module BishopRules {
  import opened Pieces

  /** The bishop's moves are the diagonal moves: each is as many rows as
      columns away (at least one), on the board, holds no piece of the
      bishop's colour, and keeps the colour of the square it starts on. */
  function BishopMoves(board: Board, color: Color, row: int, col: int): (moves: seq<Square>)
    ensures forall s :: s in moves ==>
      IsValidPosition(s.0, s.1) && Abs(s.0 - row) == Abs(s.1 - col) >= 1 &&
      IsEmptyOrEnemy(board, color, s.0, s.1) && (s.0 + s.1) % 2 == (row + col) % 2
  {
    DiagonalMovesSound(board, color, row, col);
    assert forall s :: s in DiagonalMoves(board, color, row, col) ==> (s.0 + s.1) % 2 == (row + col) % 2 by {
      forall s | s in DiagonalMoves(board, color, row, col) ensures (s.0 + s.1) % 2 == (row + col) % 2 {
        SameSquareColour(s.0, s.1, row, col);
      }
    }
    DiagonalMoves(board, color, row, col)
  }

  /** Moving as many rows as columns keeps the square's colour. */
  lemma SameSquareColour(r: int, c: int, row: int, col: int)
    requires Abs(r - row) == Abs(c - col)
    ensures (r + c) % 2 == (row + col) % 2
  {
    var t := if (r - row) == (c - col) then r - row else 0;
    assert r + c == row + col + 2 * t;
  }
}
