/** The click-driven selection and move state machine of Game.handle_click
    (src/game/game.py:23-66). */
module GameState {
  import opened Wrappers
  import opened Pieces
  import opened Moves
  import opened BoardSetup

  /** BOARD_SIZE and SQUARE_SIZE of config/settings.py. */
  const BoardSize: int := 680
  const SquareSize: int := BoardSize / 8

  /** What a click did. After a move the source plays the capture sound when
      the destination was occupied and the move sound otherwise. */
  datatype ClickOutcome =
    | Selected
    | NothingSelected
    | Moved(capture: bool)
    | Deselected
    | IndexError  // the board lookup of an unselected click off the 8x8 grid raises

  /** The square under the pixel (x, y): the pixel lies inside it. */
  function ClickedSquare(x: nat, y: nat): (s: Square)
    ensures 0 <= s.0 && 0 <= s.1
    ensures s.0 * SquareSize <= y < (s.0 + 1) * SquareSize
    ensures s.1 * SquareSize <= x < (s.1 + 1) * SquareSize
  {
    CellOfPixel(y);
    CellOfPixel(x);
    (y / SquareSize, x / SquareSize)
  }

  /** Integer division by the square size finds the cell a pixel falls in. */
  lemma CellOfPixel(v: nat)
    ensures 0 <= v / SquareSize
    ensures (v / SquareSize) * SquareSize <= v < (v / SquareSize + 1) * SquareSize
  {
    assert SquareSize == 85;
    var q, r := v / 85, v % 85;
    assert v == q * 85 + r && 0 <= r < 85;
    assert (q + 1) * 85 == q * 85 + 85;
  }

  /** `after` is `before` with the piece on `from` moved to `to`, marked as
      moved, whatever stood on `to` overwritten, and every other cell as it
      was. */
  ghost predicate IsMove(before: Board, after: Board, from: Square, to: Square)
    requires IsValidPosition(from.0, from.1) && IsValidPosition(to.0, to.1)
  {
    before[from.0][from.1].Some? &&
    after[to.0][to.1] == Some(before[from.0][from.1].value.(hasMoved := true)) &&
    after[from.0][from.1] == None &&
    forall r, c :: 0 <= r < 8 && 0 <= c < 8 && (r, c) != from && (r, c) != to ==> after[r][c] == before[r][c]
  }

  class Game {
    var board: Board
    var selectedPiece: Option<Piece>
    var selectedSquare: Option<Square>
    var validMoves: seq<Square>

    /** Between clicks: a piece is selected exactly when a square is; with no
        selection there are no moves; a selected square is on the board, holds
        the selected piece, and the moves are that piece's moves there. */
    ghost predicate Valid()
      reads this
    {
      (selectedPiece.None? <==> selectedSquare.None?) &&
      (selectedPiece.None? ==> validMoves == []) &&
      (selectedSquare.Some? ==>
        var sq := selectedSquare.value;
        IsValidPosition(sq.0, sq.1) && board[sq.0][sq.1] == selectedPiece &&
        validMoves == ValidMoves(board, selectedPiece.value, sq.0, sq.1))
    }

    /** The board and selection part of Game.__init__. */
    constructor ()
      ensures Valid() && IsStartingBoard(board)
      ensures selectedPiece == None && selectedSquare == None && validMoves == []
    {
      var start := CreateBoard();
      board := start;
      selectedPiece := None;
      selectedSquare := None;
      validMoves := [];
    }

    method HandleClick(x: nat, y: nat) returns (outcome: ClickOutcome)
      requires Valid()
      modifies this
      ensures Valid()
      // any click with a piece selected clears the selection
      ensures old(selectedPiece).Some? ==>
        selectedPiece == None && selectedSquare == None && validMoves == []
      // a click on one of the selected piece's moves moves it there
      ensures old(selectedPiece).Some? && ClickedSquare(x, y) in old(validMoves) ==>
        var to := ClickedSquare(x, y);
        IsValidPosition(to.0, to.1) && IsValidPosition(old(selectedSquare).value.0, old(selectedSquare).value.1) &&
        outcome == Moved(old(board)[to.0][to.1].Some?) &&
        IsMove(old(board), board, old(selectedSquare).value, to)
      // any other click with a piece selected only deselects
      ensures old(selectedPiece).Some? && ClickedSquare(x, y) !in old(validMoves) ==>
        outcome == Deselected && board == old(board)
      // with nothing selected the board never changes
      ensures old(selectedPiece).None? ==> board == old(board)
      ensures old(selectedPiece).None? && !IsValidPosition(ClickedSquare(x, y).0, ClickedSquare(x, y).1) ==>
        outcome == IndexError && selectedPiece == None && validMoves == []
      ensures old(selectedPiece).None? && IsValidPosition(ClickedSquare(x, y).0, ClickedSquare(x, y).1) ==>
        var s := ClickedSquare(x, y);
        if board[s.0][s.1].None? then
          outcome == NothingSelected && selectedPiece == None && validMoves == []
        else
          // any piece of either colour: there is no turn check
          outcome == Selected && selectedPiece == board[s.0][s.1] && selectedSquare == Some(s) &&
          validMoves == ValidMoves(board, board[s.0][s.1].value, s.0, s.1)
      // a single click never both moves and selects
      ensures outcome.Moved? ==> selectedPiece == None
      ensures outcome == Selected ==> old(selectedPiece).None?
    {
      var sq := ClickedSquare(x, y);
      var row, col := sq.0, sq.1;
      if selectedPiece.Some? {
        if (row, col) in validMoves {
          var isCapture := board[row][col].Some?;
          var from := selectedSquare.value;
          ghost var before := board;
          board := SetCell(board, row, col, board[from.0][from.1]);
          board := SetCell(board, from.0, from.1, None);
          board := SetCell(board, row, col, Some(board[row][col].value.(hasMoved := true)));
          assert IsMove(before, board, from, (row, col));
          outcome := Moved(isCapture);
        } else {
          outcome := Deselected;
        }
        selectedPiece := None;
        selectedSquare := None;
        validMoves := [];
      } else if !IsValidPosition(row, col) {
        outcome := IndexError;
      } else {
        var piece := board[row][col];
        if piece.Some? {
          selectedPiece := piece;
          selectedSquare := Some((row, col));
          validMoves := GetValidMoves(board, piece.value, row, col);
          outcome := Selected;
        } else {
          outcome := NothingSelected;
        }
      }
    }
  }
}
