/** Knight.get_valid_moves (src/pieces/knight.py): the eight L-shaped jumps. */
module KnightRules {
  import opened Pieces
  import opened Steps

  const KnightOffsets: seq<Direction> := [(-2, -1), (-2, 1), (2, -1), (2, 1), (-1, -2), (1, -2), (-1, 2), (1, 2)]

  /** Two squares one way and one the other. */
  predicate IsLShape(dr: int, dc: int) {
    (Abs(dr) == 2 && Abs(dc) == 1) || (Abs(dr) == 1 && Abs(dc) == 2)
  }

  function KnightMoves(board: Board, color: Color, row: int, col: int): (moves: seq<Square>)
    ensures |moves| <= 8
  {
    OffsetMoves(board, color, row, col, KnightOffsets)
  }

  /** A square is a knight move exactly when it is an L-jump away, on the
      board, and empty or held by an enemy. */
  lemma KnightMovesExact(board: Board, color: Color, row: int, col: int, s: Square)
    ensures s in KnightMoves(board, color, row, col) <==>
      IsEmptyOrEnemy(board, color, s.0, s.1) && IsLShape(s.0 - row, s.1 - col)
  {
    OffsetMovesMember(board, color, row, col, KnightOffsets, s);
  }

  lemma KnightMovesNoDuplicates(board: Board, color: Color, row: int, col: int)
    ensures NoDuplicates(KnightMoves(board, color, row, col))
  {
    OffsetMovesNoDuplicates(board, color, row, col, KnightOffsets);
  }

  /** No move is the origin or holds a piece of the mover's colour. */
  lemma KnightMovesSound(board: Board, color: Color, row: int, col: int)
    ensures forall s :: s in KnightMoves(board, color, row, col) ==>
      IsEmptyOrEnemy(board, color, s.0, s.1) && s != (row, col)
  {
    forall s | s in KnightMoves(board, color, row, col)
      ensures IsEmptyOrEnemy(board, color, s.0, s.1) && s != (row, col)
    {
      KnightMovesExact(board, color, row, col, s);
    }
  }

  method GetKnightMoves(board: Board, color: Color, row: int, col: int) returns (moves: seq<Square>)
    ensures moves == KnightMoves(board, color, row, col)
  {
    moves := CollectOffsetMoves(board, color, row, col, KnightOffsets);
  }
}
