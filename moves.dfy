/** get_valid_moves, dispatched on the piece's kind: one closed match in place
    of the six subclasses of src/pieces/piece.py. */
module Moves {
  import opened Pieces
  import opened PawnRules
  import opened KnightRules
  import opened BishopRules
  import opened RookRules
  import opened QueenRules
  import opened KingRules

  /** The pseudo-legal moves of a piece standing on (row, col): never off the
      board, never the origin, never onto a piece of the mover's colour, and
      never the same square twice. */
  function ValidMoves(board: Board, piece: Piece, row: int, col: int): (moves: seq<Square>)
    ensures NoDuplicates(moves)
    ensures forall s :: s in moves ==>
      IsValidPosition(s.0, s.1) && s != (row, col) && IsEmptyOrEnemy(board, piece.color, s.0, s.1)
  {
    match piece.kind
    case Pawn =>
      PawnMovesShape(board, piece, row, col);
      PawnMoves(board, piece, row, col)
    case Knight =>
      KnightMovesNoDuplicates(board, piece.color, row, col);
      KnightMovesSound(board, piece.color, row, col);
      KnightMoves(board, piece.color, row, col)
    case Bishop =>
      DiagonalMovesNoDuplicates(board, piece.color, row, col);
      BishopMoves(board, piece.color, row, col)
    case Rook =>
      StraightMovesNoDuplicates(board, piece.color, row, col);
      RookMoves(board, piece.color, row, col)
    case Queen =>
      QueenMoves(board, piece.color, row, col)
    case King =>
      KingMovesNoDuplicates(board, piece.color, row, col);
      KingMovesSound(board, piece.color, row, col);
      KingMoves(board, piece.color, row, col)
  }

  /** The class-dispatched call piece.get_valid_moves(board, row, col). */
  method GetValidMoves(board: Board, piece: Piece, row: int, col: int) returns (moves: seq<Square>)
    ensures moves == ValidMoves(board, piece, row, col)
  {
    match piece.kind {
      case Pawn =>
        moves := GetPawnMoves(board, piece, row, col);
      case Knight =>
        moves := GetKnightMoves(board, piece.color, row, col);
      case Bishop =>
        moves := GetDiagonalMoves(board, piece.color, row, col);
      case Rook =>
        moves := GetStraightMoves(board, piece.color, row, col);
      case Queen =>
        var straight := GetStraightMoves(board, piece.color, row, col);
        var diagonal := GetDiagonalMoves(board, piece.color, row, col);
        moves := straight + diagonal;
      case King =>
        moves := GetKingMoves(board, piece.color, row, col);
    }
  }
}
