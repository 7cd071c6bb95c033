/** Pawn.get_valid_moves (src/pieces/pawn.py): one step forward, two steps
    forward from a piece that has not moved, and the two diagonal captures. */
module PawnRules {
  import opened Pieces

  /** White pawns move toward row 0, black pawns toward row 7. */
  function PawnDirection(color: Color): int {
    if color == White then -1 else 1
  }

  /** The forward steps: one square if it is on the board and empty, then two
      squares if the pawn has not moved and that square is on the board and
      empty too. */
  function ForwardMoves(board: Board, piece: Piece, row: int, col: int): seq<Square> {
    var dir := PawnDirection(piece.color);
    if IsValidPosition(row + dir, col) && board[row + dir][col].None? then
      [(row + dir, col)] +
      (if !piece.hasMoved && IsValidPosition(row + 2 * dir, col) && board[row + 2 * dir][col].None?
       then [(row + 2 * dir, col)] else [])
    else []
  }

  /** The diagonal capture with the given column offset, if it lands on an
      enemy piece. */
  function CaptureMove(board: Board, color: Color, row: int, col: int, offset: int): seq<Square> {
    var r, c := row + PawnDirection(color), col + offset;
    if IsValidPosition(r, c) && board[r][c].Some? && board[r][c].value.color != color then [(r, c)] else []
  }

  function Captures(board: Board, color: Color, row: int, col: int, offsets: seq<int>): seq<Square> {
    if offsets == [] then [] else CaptureMove(board, color, row, col, offsets[0]) + Captures(board, color, row, col, offsets[1..])
  }

  const CaptureOffsets: seq<int> := [-1, 1]

  /** The rule each pawn move obeys, stated square by square: the empty square
      ahead; the empty square two ahead, behind an empty square ahead, for a
      pawn that has not moved; a square diagonally ahead holding an enemy. */
  ghost predicate PawnTarget(board: Board, piece: Piece, row: int, col: int, s: Square) {
    var dir := PawnDirection(piece.color);
    (s == (row + dir, col) && IsEmptyAt(board, s)) ||
    (s == (row + 2 * dir, col) && !piece.hasMoved && IsEmptyAt(board, (row + dir, col)) && IsEmptyAt(board, s)) ||
    (s.0 == row + dir && Abs(s.1 - col) == 1 && IsEnemyAt(board, piece.color, s))
  }

  /** get_valid_moves for a pawn: the forward steps, then the left and the
      right capture. */
  function PawnMoves(board: Board, piece: Piece, row: int, col: int): seq<Square> {
    ForwardMoves(board, piece, row, col) +
    CaptureMove(board, piece.color, row, col, -1) + CaptureMove(board, piece.color, row, col, 1)
  }

  /** A square is a pawn move exactly when PawnTarget holds of it. */
  lemma PawnMovesExact(board: Board, piece: Piece, row: int, col: int, s: Square)
    ensures s in PawnMoves(board, piece, row, col) <==> PawnTarget(board, piece, row, col, s)
  {
  }

  /** At most four moves, none repeated, all on the board: the forward ones
      keep the column and advance one or two rows; the captures advance one
      row, change the column by one and land on an enemy piece. */
  lemma PawnMovesShape(board: Board, piece: Piece, row: int, col: int)
    ensures var moves := PawnMoves(board, piece, row, col);
      var dir := PawnDirection(piece.color);
      |moves| <= 4 && NoDuplicates(moves) &&
      forall s :: s in moves ==>
        IsValidPosition(s.0, s.1) &&
        ((s.1 == col && (s.0 == row + dir || s.0 == row + 2 * dir)) ||
         (s.0 == row + dir && Abs(s.1 - col) == 1 && IsEnemyAt(board, piece.color, s)))
  {
    var fwd := ForwardMoves(board, piece, row, col);
    var left := CaptureMove(board, piece.color, row, col, -1);
    var right := CaptureMove(board, piece.color, row, col, 1);
    assert NoDuplicates(fwd);
    NoDuplicatesConcat(fwd, left);
    NoDuplicatesConcat(fwd + left, right);
  }

  /** The capture scan from offset i on. */
  lemma CapturesFrom(board: Board, color: Color, row: int, col: int, offsets: seq<int>, i: int)
    requires 0 <= i < |offsets|
    ensures Captures(board, color, row, col, offsets[i..]) ==
      CaptureMove(board, color, row, col, offsets[i]) + Captures(board, color, row, col, offsets[i + 1..])
  {
    assert offsets[i..][1..] == offsets[i + 1..];
  }

  /** One turn of the capture loop: appending offset i's capture leaves the
      captures from offset i + 1 on to be appended. */
  lemma CapturesStep(board: Board, piece: Piece, row: int, col: int, i: int, moves: seq<Square>)
    requires 0 <= i < |CaptureOffsets|
    requires moves + Captures(board, piece.color, row, col, CaptureOffsets[i..]) == PawnMoves(board, piece, row, col)
    ensures moves + CaptureMove(board, piece.color, row, col, CaptureOffsets[i]) +
      Captures(board, piece.color, row, col, CaptureOffsets[i + 1..]) == PawnMoves(board, piece, row, col)
  {
    CapturesFrom(board, piece.color, row, col, CaptureOffsets, i);
  }

  /** The pawn's moves are its forward steps followed by the capture scan. */
  lemma PawnMovesSplit(board: Board, piece: Piece, row: int, col: int)
    ensures PawnMoves(board, piece, row, col) ==
      ForwardMoves(board, piece, row, col) + Captures(board, piece.color, row, col, CaptureOffsets)
  {
    assert CaptureOffsets[1..] == [1] && [1][1..] == [];
    assert Captures(board, piece.color, row, col, [1]) == CaptureMove(board, piece.color, row, col, 1);
  }

  method GetPawnMoves(board: Board, piece: Piece, row: int, col: int) returns (moves: seq<Square>)
    ensures moves == PawnMoves(board, piece, row, col)
  {
    moves := [];
    var direction := PawnDirection(piece.color);
    var newRow := row + direction;
    ghost var forward := ForwardMoves(board, piece, row, col);
    if IsValidPosition(newRow, col) && board[newRow][col].None? {
      moves := moves + [(newRow, col)];
      if !piece.hasMoved {
        newRow := row + direction * 2;
        if IsValidPosition(newRow, col) && board[newRow][col].None? {
          moves := moves + [(newRow, col)];
        }
      }
    }
    assert moves == forward;
    PawnMovesSplit(board, piece, row, col);
    assert CaptureOffsets[0..] == CaptureOffsets;
    for i := 0 to |CaptureOffsets|
      invariant moves + Captures(board, piece.color, row, col, CaptureOffsets[i..]) == PawnMoves(board, piece, row, col)
    {
      CapturesStep(board, piece, row, col, i, moves);
      newRow := row + direction;
      var newCol := col + CaptureOffsets[i];
      if IsValidPosition(newRow, newCol) {
        var target := board[newRow][newCol];
        if target.Some? && target.value.color != piece.color {
          moves := moves + [(newRow, newCol)];
        }
      }
    }
    assert CaptureOffsets[|CaptureOffsets|..] == [];
  }
}
