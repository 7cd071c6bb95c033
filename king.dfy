/** King.get_valid_moves (src/pieces/king.py): the eight adjacent squares. */
module KingRules {
  import opened Pieces
  import opened Steps

  const KingOffsets: seq<Direction> := [(-1, -1), (-1, 0), (-1, 1), (0, -1), (0, 1), (1, -1), (1, 0), (1, 1)]

  function Max(a: int, b: int): int {
    if a < b then b else a
  }

  function KingMoves(board: Board, color: Color, row: int, col: int): (moves: seq<Square>)
    ensures |moves| <= 8
  {
    OffsetMoves(board, color, row, col, KingOffsets)
  }

  /** A square is a king move exactly when it is on the board, at Chebyshev
      distance 1 from the king, and empty or held by an enemy. */
  lemma KingMovesExact(board: Board, color: Color, row: int, col: int, s: Square)
    ensures s in KingMoves(board, color, row, col) <==>
      IsEmptyOrEnemy(board, color, s.0, s.1) && Max(Abs(s.0 - row), Abs(s.1 - col)) == 1
  {
    OffsetMovesMember(board, color, row, col, KingOffsets, s);
  }

  lemma KingMovesNoDuplicates(board: Board, color: Color, row: int, col: int)
    ensures NoDuplicates(KingMoves(board, color, row, col))
  {
    OffsetMovesNoDuplicates(board, color, row, col, KingOffsets);
  }

  /** No move is the origin or holds a piece of the mover's colour. */
  lemma KingMovesSound(board: Board, color: Color, row: int, col: int)
    ensures forall s :: s in KingMoves(board, color, row, col) ==>
      IsEmptyOrEnemy(board, color, s.0, s.1) && s != (row, col)
  {
    forall s | s in KingMoves(board, color, row, col)
      ensures IsEmptyOrEnemy(board, color, s.0, s.1) && s != (row, col)
    {
      KingMovesExact(board, color, row, col, s);
    }
  }

  method GetKingMoves(board: Board, color: Color, row: int, col: int) returns (moves: seq<Square>)
    ensures moves == KingMoves(board, color, row, col)
  {
    moves := CollectOffsetMoves(board, color, row, col, KingOffsets);
  }
}
