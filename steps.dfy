/** The fixed-offset loop that src/pieces/king.py and src/pieces/knight.py
    both contain: try each offset in order and keep the squares that are on
    the board and empty or held by an enemy. */
module Steps {
  import opened Pieces

  /** The target squares of the offsets, in the offsets' order. */
  function OffsetMoves(board: Board, color: Color, row: int, col: int, offsets: seq<Direction>)
    : (moves: seq<Square>)
    ensures |moves| <= |offsets|
  {
    if offsets == [] then []
    else
      var s := (row + offsets[0].0, col + offsets[0].1);
      (if IsValidPosition(s.0, s.1) && IsEmptyOrEnemy(board, color, s.0, s.1) then [s] else []) +
      OffsetMoves(board, color, row, col, offsets[1..])
  }

  /** A square is a target exactly when its offset from the origin is one of
      the offsets and it is on the board and empty or held by an enemy. */
  lemma {:induction false} OffsetMovesMember(board: Board, color: Color, row: int, col: int, offsets: seq<Direction>, s: Square)
    ensures s in OffsetMoves(board, color, row, col, offsets) <==>
      (s.0 - row, s.1 - col) in offsets && IsEmptyOrEnemy(board, color, s.0, s.1)
  {
    if offsets != [] {
      OffsetMovesMember(board, color, row, col, offsets[1..], s);
    }
  }

  /** Distinct offsets give a list without repeated squares. */
  lemma {:induction false} OffsetMovesNoDuplicates(board: Board, color: Color, row: int, col: int, offsets: seq<Direction>)
    requires DistinctDirections(offsets)
    ensures NoDuplicates(OffsetMoves(board, color, row, col, offsets))
  {
    if offsets != [] {
      var s := (row + offsets[0].0, col + offsets[0].1);
      var rest := OffsetMoves(board, color, row, col, offsets[1..]);
      OffsetMovesNoDuplicates(board, color, row, col, offsets[1..]);
      OffsetMovesMember(board, color, row, col, offsets[1..], s);
      assert (s.0 - row, s.1 - col) == offsets[0] && offsets[0] !in offsets[1..];
      NoDuplicatesConcat(if IsValidPosition(s.0, s.1) && IsEmptyOrEnemy(board, color, s.0, s.1) then [s] else [], rest);
    }
  }

  /** One turn of the loop: appending offset i's square when it is kept
      leaves the rest of the scan, from offset i + 1, to be appended. */
  lemma OffsetMovesStep(board: Board, color: Color, row: int, col: int, offsets: seq<Direction>,
                        i: int, moves: seq<Square>)
    requires 0 <= i < |offsets|
    requires moves + OffsetMoves(board, color, row, col, offsets[i..]) == OffsetMoves(board, color, row, col, offsets)
    ensures var s := (row + offsets[i].0, col + offsets[i].1);
      (if IsValidPosition(s.0, s.1) && IsEmptyOrEnemy(board, color, s.0, s.1) then moves + [s] else moves) +
      OffsetMoves(board, color, row, col, offsets[i + 1..]) == OffsetMoves(board, color, row, col, offsets)
  {
    assert offsets[i..][1..] == offsets[i + 1..];
    var s := (row + offsets[i].0, col + offsets[i].1);
    var rest := OffsetMoves(board, color, row, col, offsets[i + 1..]);
    if IsValidPosition(s.0, s.1) && IsEmptyOrEnemy(board, color, s.0, s.1) {
      assert moves + ([s] + rest) == (moves + [s]) + rest;
    }
  }

  /** The `for dir_row, dir_col in directions` loop. */
  method CollectOffsetMoves(board: Board, color: Color, row: int, col: int, offsets: seq<Direction>)
    returns (moves: seq<Square>)
    ensures moves == OffsetMoves(board, color, row, col, offsets)
  {
    moves := [];
    assert offsets[0..] == offsets;
    for i := 0 to |offsets|
      invariant moves + OffsetMoves(board, color, row, col, offsets[i..]) == OffsetMoves(board, color, row, col, offsets)
    {
      OffsetMovesStep(board, color, row, col, offsets, i, moves);
      var newRow, newCol := row + offsets[i].0, col + offsets[i].1;
      if IsValidPosition(newRow, newCol) && IsEmptyOrEnemy(board, color, newRow, newCol) {
        moves := moves + [(newRow, newCol)];
      }
    }
    assert offsets[|offsets|..] == [];
  }
}
