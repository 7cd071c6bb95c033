/** The serialisers of GameSaver (src/utils/game_saver.py:88-115) and the
    shape of the record save_game writes (game_saver.py:22-30), over a
    JSON-like value type. */
module GameSaver {
  import opened Wrappers
  import opened Pieces

  datatype Json =
    | JString(s: string)
    | JBool(b: bool)
    | JInt(i: int)
    | JArray(items: seq<Json>)
    | JObject(fields: seq<(string, Json)>)

  /** The lower-case kind names the pieces carry in their `position` attribute. */
  function KindName(k: Kind): string {
    match k
    case Pawn => "pawn"
    case Knight => "knight"
    case Bishop => "bishop"
    case Rook => "rook"
    case Queen => "queen"
    case King => "king"
  }

  function ColorName(c: Color): string {
    match c
    case White => "white"
    case Black => "black"
  }

  /** An empty cell is "", a piece is {position: kind, color, has_moved}. */
  function SerializeCell(cell: Cell): Json {
    match cell
    case None => JString("")
    case Some(p) => JObject([("position", JString(KindName(p.kind))), ("color", JString(ColorName(p.color))),
                             ("has_moved", JBool(p.hasMoved))])
  }

  function SerializeRow(cells: seq<Cell>): seq<Json> {
    seq(|cells|, i requires 0 <= i < |cells| => SerializeCell(cells[i]))
  }

  /** The `board_state` value: a list of 8 rows, each a list of 8 cells. */
  function BoardState(board: Board): Json {
    JArray(seq(8, r requires 0 <= r < 8 => JArray(SerializeRow(board[r]))))
  }

  /** _serialize_board: the `for row` / `for col` loops appending to
      `board_row` and `board_state`. */
  method SerializeBoard(board: Board) returns (state: Json)
    ensures state == BoardState(board)
  {
    var boardState: seq<Json> := [];
    for row := 0 to 8
      invariant |boardState| == row
      invariant forall r :: 0 <= r < row ==> boardState[r] == JArray(SerializeRow(board[r]))
    {
      var boardRow: seq<Json> := [];
      for col := 0 to 8
        invariant |boardRow| == col
        invariant forall c :: 0 <= c < col ==> boardRow[c] == SerializeCell(board[row][c])
      {
        boardRow := boardRow + [SerializeCell(board[row][col])];
      }
      boardState := boardState + [JArray(boardRow)];
    }
    state := JArray(boardState);
  }

  function ParseKind(s: string): Option<Kind> {
    if s == "pawn" then Some(Pawn) else if s == "knight" then Some(Knight)
    else if s == "bishop" then Some(Bishop) else if s == "rook" then Some(Rook)
    else if s == "queen" then Some(Queen) else if s == "king" then Some(King)
    else None
  }

  function ParseColor(s: string): Option<Color> {
    if s == "white" then Some(White) else if s == "black" then Some(Black) else None
  }

  /** The inverse of SerializeCell; None for anything it does not produce. */
  function ParseCell(j: Json): Option<Cell> {
    match j
    case JString(s) => if s == "" then Some(None) else None
    case JObject(fields) =>
      if |fields| == 3 && fields[0].0 == "position" && fields[1].0 == "color" && fields[2].0 == "has_moved" &&
         fields[0].1.JString? && fields[1].1.JString? && fields[2].1.JBool? then
        match (ParseKind(fields[0].1.s), ParseColor(fields[1].1.s))
        case (Some(k), Some(c)) => Some(Some(Piece(c, k, fields[2].1.b)))
        case _ => None
      else None
    case _ => None
  }

  function ParseRow(items: seq<Json>): Option<seq<Cell>> {
    if items == [] then Some([])
    else match (ParseCell(items[0]), ParseRow(items[1..]))
      case (Some(cell), Some(rest)) => Some([cell] + rest)
      case _ => None
  }

  function ParseRows(rows: seq<Json>): Option<seq<seq<Cell>>> {
    if rows == [] then Some([])
    else match (rows[0], ParseRows(rows[1..]))
      case (JArray(items), Some(rest)) =>
        (match ParseRow(items)
         case Some(cells) => Some([cells] + rest)
         case None => None)
      case _ => None
  }

  /** The inverse of BoardState: a list of 8 lists of 8 cell encodings. */
  function ParseBoardState(j: Json): Option<Board> {
    if !j.JArray? then None
    else match ParseRows(j.items)
      case Some(rows) =>
        if |rows| == 8 && forall r | 0 <= r < 8 :: |rows[r]| == 8 then Some(rows) else None
      case None => None
  }

  lemma CellRoundTrip(cell: Cell)
    ensures ParseCell(SerializeCell(cell)) == Some(cell)
  {
    match cell
    case None =>
    case Some(p) =>
      assert ParseKind(KindName(p.kind)) == Some(p.kind);
      assert ParseColor(ColorName(p.color)) == Some(p.color);
  }

  lemma {:induction false} RowRoundTrip(cells: seq<Cell>)
    ensures ParseRow(SerializeRow(cells)) == Some(cells)
  {
    if cells != [] {
      CellRoundTrip(cells[0]);
      RowRoundTrip(cells[1..]);
      assert SerializeRow(cells)[1..] == SerializeRow(cells[1..]);
      assert [cells[0]] + cells[1..] == cells;
    }
  }

  lemma {:induction false} RowsRoundTrip(rows: seq<seq<Cell>>)
    ensures ParseRows(seq(|rows|, r requires 0 <= r < |rows| => JArray(SerializeRow(rows[r])))) == Some(rows)
  {
    if rows != [] {
      var js := seq(|rows|, r requires 0 <= r < |rows| => JArray(SerializeRow(rows[r])));
      RowRoundTrip(rows[0]);
      RowsRoundTrip(rows[1..]);
      assert js[1..] == seq(|rows[1..]|, r requires 0 <= r < |rows[1..]| => JArray(SerializeRow(rows[1..][r])));
      assert [rows[0]] + rows[1..] == rows;
    }
  }

  /** The board is recovered from its `board_state`: every cell's kind,
      colour and has_moved flag survive. */
  lemma BoardStateRoundTrip(board: Board)
    ensures ParseBoardState(BoardState(board)) == Some(board)
  {
    RowsRoundTrip(board);
  }

  /** So boards that differ in any cell's kind, colour or has_moved flag have
      different `board_state` values. */
  lemma BoardStateInjective(b1: Board, b2: Board)
    requires BoardState(b1) == BoardState(b2)
    ensures b1 == b2
  {
    BoardStateRoundTrip(b1);
    BoardStateRoundTrip(b2);
  }

  /** A captured piece is recorded as {position: kind, color}. */
  function CapturedEntry(p: Piece): Json {
    JObject([("position", JString(KindName(p.kind))), ("color", JString(ColorName(p.color)))])
  }

  /** The kind and colour a captured entry records. */
  function ParseCapturedEntry(j: Json): Option<(Kind, Color)> {
    if j.JObject? && |j.fields| == 2 && j.fields[0].0 == "position" && j.fields[1].0 == "color" &&
       j.fields[0].1.JString? && j.fields[1].1.JString? then
      match (ParseKind(j.fields[0].1.s), ParseColor(j.fields[1].1.s))
      case (Some(k), Some(c)) => Some((k, c))
      case _ => None
    else None
  }

  function CapturedList(pieces: seq<Piece>): seq<Json> {
    seq(|pieces|, i requires 0 <= i < |pieces| => CapturedEntry(pieces[i]))
  }

  /** _serialize_captured_pieces: `{"white": [...], "black": [...]}`; looking
      up a colour missing from the input raises, reported here as that colour
      (white is looked up first). */
  function CapturedPieces(captured: map<Color, seq<Piece>>): Result<Json, Color> {
    if White !in captured then Err(White)
    else if Black !in captured then Err(Black)
    else Ok(JObject([("white", JArray(CapturedList(captured[White]))), ("black", JArray(CapturedList(captured[Black])))]))
  }

  /** The result has exactly the keys white and black, in that order; each
      list has the input's length, and its i-th entry records exactly the kind
      and colour of the i-th captured piece of that colour. */
  lemma CapturedPiecesShape(captured: map<Color, seq<Piece>>)
    ensures CapturedPieces(captured).Ok? <==> White in captured && Black in captured
    ensures CapturedPieces(captured).Ok? ==>
      var j := CapturedPieces(captured).value;
      j.JObject? && |j.fields| == 2 && j.fields[0].0 == "white" && j.fields[1].0 == "black" &&
      forall k :: 0 <= k < 2 ==>
        var pieces := captured[if k == 0 then White else Black];
        j.fields[k].1.JArray? && |j.fields[k].1.items| == |pieces| &&
        forall i :: 0 <= i < |pieces| ==>
          ParseCapturedEntry(j.fields[k].1.items[i]) == Some((pieces[i].kind, pieces[i].color))
  {
    forall p: Piece ensures ParseCapturedEntry(CapturedEntry(p)) == Some((p.kind, p.color)) {
      assert ParseKind(KindName(p.kind)) == Some(p.kind);
      assert ParseColor(ColorName(p.color)) == Some(p.color);
    }
  }

  /** The `for color in ["white", "black"]` / `for piece in ...` loops. */
  method SerializeCapturedPieces(captured: map<Color, seq<Piece>>) returns (result: Result<Json, Color>)
    ensures result == CapturedPieces(captured)
  {
    var serialized: map<Color, seq<Json>> := map[White := [], Black := []];
    var colors := [White, Black];
    for k := 0 to 2
      invariant serialized.Keys == {White, Black}
      invariant forall m :: 0 <= m < k ==> colors[m] in captured && serialized[colors[m]] == CapturedList(captured[colors[m]])
      invariant forall m :: k <= m < 2 ==> serialized[colors[m]] == []
    {
      var color := colors[k];
      if color !in captured {
        assert k == 1 ==> colors[0] in captured;
        return Err(color);
      }
      var pieces := captured[color];
      ghost var other := if color == White then Black else White;
      ghost var before := serialized;
      for i := 0 to |pieces|
        invariant serialized.Keys == {White, Black}
        invariant serialized[color] == CapturedList(pieces[..i])
        invariant serialized[other] == before[other]
      {
        serialized := serialized[color := serialized[color] + [CapturedEntry(pieces[i])]];
      }
    }
    assert colors[0] == White && colors[1] == Black;
    result := Ok(JObject([("white", JArray(serialized[White])), ("black", JArray(serialized[Black]))]));
  }

  /** The parts of the game state save_game reads; `time_left` and
      `move_history` belong to collaborators and are carried as opaque
      values. */
  datatype SavedGame = SavedGame(
    board: Board, currentTurn: Color, timeLeft: Json, moveHistory: Json,
    captured: map<Color, seq<Piece>>, moveCount: int, gameOver: bool)

  const SaveKeys: seq<string> :=
    ["board_state", "current_turn", "time_left", "move_history", "captured_pieces", "move_count", "game_over"]

  function Keys(fields: seq<(string, Json)>): seq<string> {
    seq(|fields|, i requires 0 <= i < |fields| => fields[i].0)
  }

  /** The `save_data` record; building it fails when serialising the captured
      pieces does, and save_game then returns None. */
  function SaveData(g: SavedGame): Result<Json, Color> {
    match CapturedPieces(g.captured)
    case Err(missing) => Err(missing)
    case Ok(captured) =>
      Ok(SaveRecord(BoardState(g.board), JString(ColorName(g.currentTurn)), g.timeLeft,
                    g.moveHistory, captured, JInt(g.moveCount), JBool(g.gameOver)))
  }

  /** The value stored under `key`, when the key is present. */
  function Lookup(fields: seq<(string, Json)>, key: string): Option<Json>
  {
    if fields == [] then None
    else if fields[0].0 == key then Some(fields[0].1)
    else Lookup(fields[1..], key)
  }

  /** The seven-key object save_game writes, its values already encoded. */
  function SaveRecord(boardState: Json, turn: Json, timeLeft: Json, history: Json,
                      captured: Json, count: Json, over: Json): Json {
    JObject([
      ("board_state", boardState),
      ("current_turn", turn),
      ("time_left", timeLeft),
      ("move_history", history),
      ("captured_pieces", captured),
      ("move_count", count),
      ("game_over", over)])
  }

  /** A key that does not occur before position `i` looks up the value at `i`. */
  lemma {:induction false} LookupAt(fields: seq<(string, Json)>, i: nat)
    requires i < |fields|
    requires forall j :: 0 <= j < i ==> fields[j].0 != fields[i].0
    ensures Lookup(fields, fields[i].0) == Some(fields[i].1)
    decreases i
  {
    if i > 0 {
      assert fields[0].0 != fields[i].0;
      LookupAt(fields[1..], i - 1);
    }
  }

  /** Each key of the record looks up the value it was built with. */
  lemma SaveRecordFields(boardState: Json, turn: Json, timeLeft: Json, history: Json,
                         captured: Json, count: Json, over: Json)
    ensures var f := SaveRecord(boardState, turn, timeLeft, history, captured, count, over).fields;
      Keys(f) == SaveKeys &&
      Lookup(f, "board_state") == Some(boardState) &&
      Lookup(f, "current_turn") == Some(turn) &&
      Lookup(f, "time_left") == Some(timeLeft) &&
      Lookup(f, "move_history") == Some(history) &&
      Lookup(f, "captured_pieces") == Some(captured) &&
      Lookup(f, "move_count") == Some(count) &&
      Lookup(f, "game_over") == Some(over)
  {
    var f := SaveRecord(boardState, turn, timeLeft, history, captured, count, over).fields;
    assert Keys(f) == SaveKeys;
    assert "time_left"[0] != "game_over"[0];
    assert "current_turn"[0] != "move_history"[0];
    LookupAt(f, 0);
    LookupAt(f, 1);
    LookupAt(f, 2);
    LookupAt(f, 3);
    LookupAt(f, 4);
    LookupAt(f, 5);
    LookupAt(f, 6);
  }

  /** The record exists exactly when both colours have a captured list; it
      has exactly the seven keys, in the order save_game writes them; the
      board is recovered from `board_state` and the turn from
      `current_turn`; `time_left`, `move_history`, the move count and the
      game-over flag are copied unchanged. */
  lemma {:induction false} SaveDataShape(g: SavedGame)
    ensures SaveData(g).Ok? <==> White in g.captured && Black in g.captured
    ensures SaveData(g).Ok? ==>
      (SaveData(g).value.JObject? &&
       var f := SaveData(g).value.fields;
       Keys(f) == SaveKeys &&
       Lookup(f, "board_state").Some? && ParseBoardState(Lookup(f, "board_state").value) == Some(g.board) &&
       Lookup(f, "current_turn").Some? && Lookup(f, "current_turn").value.JString? &&
       ParseColor(Lookup(f, "current_turn").value.s) == Some(g.currentTurn) &&
       Lookup(f, "time_left") == Some(g.timeLeft) &&
       Lookup(f, "move_history") == Some(g.moveHistory) &&
       Lookup(f, "captured_pieces").Some? && CapturedPieces(g.captured) == Ok(Lookup(f, "captured_pieces").value) &&
       Lookup(f, "move_count") == Some(JInt(g.moveCount)) &&
       Lookup(f, "game_over") == Some(JBool(g.gameOver)))
  {
    if SaveData(g).Ok? {
      SaveRecordFields(BoardState(g.board), JString(ColorName(g.currentTurn)), g.timeLeft,
                       g.moveHistory, SaveData(g).value.fields[4].1, JInt(g.moveCount), JBool(g.gameOver));
      BoardStateRoundTrip(g.board);
      assert ParseColor(ColorName(g.currentTurn)) == Some(g.currentTurn);
    }
  }
}
