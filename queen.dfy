/** Queen.get_valid_moves (src/pieces/queen.py): the straight moves followed
    by the diagonal moves. */
module QueenRules {
  import opened Pieces

  /** A square on the rank, file or a diagonal through the origin, other than
      the origin itself. */
  predicate OnLineThrough(row: int, col: int, s: Square) {
    s != (row, col) && (s.0 == row || s.1 == col || Abs(s.0 - row) == Abs(s.1 - col))
  }

  /** The queen's moves: no square repeated (no square is both orthogonal and
      diagonal to the origin), so the count is the sum of the two parts; each
      on the board, on a line through the origin, holding no piece of the
      queen's colour. */
  function QueenMoves(board: Board, color: Color, row: int, col: int): (moves: seq<Square>)
    ensures NoDuplicates(moves)
    ensures |moves| == |StraightMoves(board, color, row, col)| + |DiagonalMoves(board, color, row, col)|
    ensures forall s :: s in moves ==>
      IsValidPosition(s.0, s.1) && OnLineThrough(row, col, s) && IsEmptyOrEnemy(board, color, s.0, s.1)
  {
    QueenPartsDisjoint(board, color, row, col);
    StraightMoves(board, color, row, col) + DiagonalMoves(board, color, row, col)
  }

  lemma QueenPartsDisjoint(board: Board, color: Color, row: int, col: int)
    ensures NoDuplicates(StraightMoves(board, color, row, col) + DiagonalMoves(board, color, row, col))
    ensures forall s :: s in StraightMoves(board, color, row, col) ==>
      IsEmptyOrEnemy(board, color, s.0, s.1) && OnLineThrough(row, col, s)
    ensures forall s :: s in DiagonalMoves(board, color, row, col) ==>
      IsEmptyOrEnemy(board, color, s.0, s.1) && OnLineThrough(row, col, s)
  {
    StraightMovesSound(board, color, row, col);
    DiagonalMovesSound(board, color, row, col);
    StraightMovesNoDuplicates(board, color, row, col);
    DiagonalMovesNoDuplicates(board, color, row, col);
    NoDuplicatesConcat(StraightMoves(board, color, row, col), DiagonalMoves(board, color, row, col));
  }
}
