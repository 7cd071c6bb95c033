/** create_board (src/board/board.py:30-47): the standard opening
    arrangement on an 8x8 grid. */
module BoardSetup {
  import opened Wrappers
  import opened Pieces

  /** The back-rank order, from file a to file h. */
  const PieceOrder: seq<Kind> := [Rook, Knight, Bishop, Queen, King, Bishop, Knight, Rook]

  /** Black's pieces on rows 0 and 1, White's on rows 6 and 7, nothing on
      rows 2 to 5; every piece unmoved. */
  ghost predicate IsStartingBoard(board: Board) {
    (forall c :: 0 <= c < 8 ==>
      board[0][c] == Some(NewPiece(Black, PieceOrder[c])) && board[1][c] == Some(NewPiece(Black, Pawn)) &&
      board[6][c] == Some(NewPiece(White, Pawn)) && board[7][c] == Some(NewPiece(White, PieceOrder[c]))) &&
    (forall r, c :: 2 <= r < 6 && 0 <= c < 8 ==> board[r][c] == None)
  }

  method CreateBoard() returns (board: Board)
    ensures IsStartingBoard(board)
  {
    board := seq(8, _ => seq(8, _ => None));
    for col := 0 to 8
      invariant forall c :: 0 <= c < col ==>
        board[0][c] == Some(NewPiece(Black, PieceOrder[c])) && board[1][c] == Some(NewPiece(Black, Pawn))
      invariant forall r, c :: 0 <= r < 8 && 0 <= c < 8 && !(r < 2 && c < col) ==> board[r][c] == None
    {
      board := SetCell(board, 0, col, Some(NewPiece(Black, PieceOrder[col])));
      board := SetCell(board, 1, col, Some(NewPiece(Black, Pawn)));
    }
    for col := 0 to 8
      invariant forall c :: 0 <= c < 8 ==>
        board[0][c] == Some(NewPiece(Black, PieceOrder[c])) && board[1][c] == Some(NewPiece(Black, Pawn))
      invariant forall c :: 0 <= c < col ==>
        board[6][c] == Some(NewPiece(White, Pawn)) && board[7][c] == Some(NewPiece(White, PieceOrder[c]))
      invariant forall r, c :: 2 <= r < 8 && 0 <= c < 8 && !(r >= 6 && c < col) ==> board[r][c] == None
    {
      board := SetCell(board, 7, col, Some(NewPiece(White, PieceOrder[col])));
      board := SetCell(board, 6, col, Some(NewPiece(White, Pawn)));
    }
  }

  /** On the starting board the only kings are Black's on (0, 4) and White's
      on (7, 4). */
  lemma StartingKings(board: Board)
    requires IsStartingBoard(board)
    ensures board[0][4] == Some(NewPiece(Black, King)) && board[7][4] == Some(NewPiece(White, King))
    ensures forall r, c :: 0 <= r < 8 && 0 <= c < 8 && board[r][c].Some? && board[r][c].value.kind == King ==>
      (r, c) == (0, 4) || (r, c) == (7, 4)
  {
    forall r, c | 0 <= r < 8 && 0 <= c < 8 && board[r][c].Some? && board[r][c].value.kind == King
      ensures (r, c) == (0, 4) || (r, c) == (7, 4)
    {
      assert r == 0 || r == 7;
      assert PieceOrder[c] == King;
    }
  }

  /** The number of pieces of a colour in a row. */
  function CountInRow(cells: seq<Cell>, color: Color): nat {
    if cells == [] then 0
    else (if cells[0].Some? && cells[0].value.color == color then 1 else 0) + CountInRow(cells[1..], color)
  }

  /** The number of pieces of a colour on rows `from` to 7. */
  function CountFrom(board: Board, color: Color, from: nat): nat
    requires from <= 8
    decreases 8 - from
  {
    if from == 8 then 0 else CountInRow(board[from], color) + CountFrom(board, color, from + 1)
  }

  lemma {:induction false} CountInRowBounds(cells: seq<Cell>, color: Color)
    ensures (forall i :: 0 <= i < |cells| ==> cells[i].Some? && cells[i].value.color == color) ==>
      CountInRow(cells, color) == |cells|
    ensures (forall i :: 0 <= i < |cells| ==> cells[i].None? || cells[i].value.color != color) ==>
      CountInRow(cells, color) == 0
  {
    if cells != [] {
      CountInRowBounds(cells[1..], color);
      assert forall i :: 0 <= i < |cells[1..]| ==> cells[1..][i] == cells[i + 1];
    }
  }

  /** Each side starts with 16 pieces. */
  lemma StartingCounts(board: Board)
    requires IsStartingBoard(board)
    ensures CountFrom(board, White, 0) == 16 && CountFrom(board, Black, 0) == 16
  {
    forall r, color | 0 <= r < 8
      ensures CountInRow(board[r], color) == if (r < 2 && color == Black) || (r >= 6 && color == White) then 8 else 0
    {
      CountInRowBounds(board[r], color);
    }
    assert CountFrom(board, White, 2) == 16 by {
      assert CountFrom(board, White, 6) == 16;
    }
    assert CountFrom(board, Black, 2) == 0 by {
      assert CountFrom(board, Black, 6) == 0;
    }
  }
}
