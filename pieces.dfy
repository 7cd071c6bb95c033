/** The piece model of src/pieces/piece.py: colours, kinds and pieces, the 8x8
    board, the bounds and occupancy tests every piece uses, and the two
    ray-casting routines shared by the sliding pieces. */
module Pieces {
  import opened Wrappers

  datatype Color = White | Black

  /** The six kinds of piece; one closed datatype in place of the source's
      subclass per kind. */
  datatype Kind = Pawn | Knight | Bishop | Rook | Queen | King

  datatype Piece = Piece(color: Color, kind: Kind, hasMoved: bool)

  type Cell = Option<Piece>

  /** A (row, column) pair; row 0 is Black's back rank, column 0 is file a. */
  type Square = (int, int)

  /** A board is 8 rows of 8 cells. */
  type Board = b: seq<seq<Cell>> | |b| == 8 && forall r | 0 <= r < |b| :: |b[r]| == 8
    witness seq(8, _ => seq(8, _ => None))

  /** A (row, column) step with each component in -1..1, not both zero. */
  type Direction = (int, int)

  /** A freshly constructed piece has not moved yet. */
  function NewPiece(color: Color, kind: Kind): (p: Piece)
    ensures p.color == color && p.kind == kind && !p.hasMoved
  {
    Piece(color, kind, false)
  }

  predicate IsValidPosition(row: int, col: int) {
    0 <= row < 8 && 0 <= col < 8
  }

  /** The board after `board[row][col] = cell`: that cell holds the new
      value and every other cell is as before. */
  function SetCell(board: Board, row: int, col: int, cell: Cell): (b: Board)
    requires IsValidPosition(row, col)
    ensures b[row][col] == cell
    ensures forall r, c :: 0 <= r < 8 && 0 <= c < 8 && (r, c) != (row, col) ==> b[r][c] == board[r][c]
  {
    board[row := board[row][col := cell]]
  }

  /** Off the board: false; an empty square: true; an occupied square: true
      exactly when the occupant is of the other colour. */
  predicate IsEmptyOrEnemy(board: Board, color: Color, row: int, col: int) {
    IsValidPosition(row, col) &&
    (board[row][col].None? || board[row][col].value.color != color)
  }

  predicate IsEmptyAt(board: Board, s: Square) {
    IsValidPosition(s.0, s.1) && board[s.0][s.1].None?
  }

  predicate IsEnemyAt(board: Board, color: Color, s: Square) {
    IsValidPosition(s.0, s.1) && board[s.0][s.1].Some? && board[s.0][s.1].value.color != color
  }

  predicate NoDuplicates(s: seq<Square>) {
    forall i, j :: 0 <= i < j < |s| ==> s[i] != s[j]
  }

  predicate IsUnitDirection(d: Direction) {
    -1 <= d.0 <= 1 && -1 <= d.1 <= 1 && d != (0, 0)
  }

  predicate AllUnitDirections(dirs: seq<Direction>) {
    forall i :: 0 <= i < |dirs| ==> IsUnitDirection(dirs[i])
  }

  predicate DistinctDirections(dirs: seq<Direction>) {
    forall i, j :: 0 <= i < j < |dirs| ==> dirs[i] != dirs[j]
  }

  /** k * delta for a delta in -1..1, written without multiplication. */
  function Scale(k: int, delta: int): int {
    if delta > 0 then k else if delta < 0 then -k else 0
  }

  /** The square k steps along d from (row, col). */
  function Pos(row: int, col: int, d: Direction, k: int): Square {
    (row + Scale(k, d.0), col + Scale(k, d.1))
  }

  /** How many more squares coordinate v can advance by dv and stay in 0..7. */
  function StepsLeft(v: int, dv: int): nat {
    if 0 <= v < 8 then (if dv > 0 then 8 - v else if dv < 0 then v + 1 else 0) else 0
  }

  /** Every square strictly between (row, col) and the k-th square along d is
      on the board and empty. */
  ghost predicate ClearBetween(board: Board, row: int, col: int, d: Direction, k: int) {
    forall j :: 0 < j < k ==> IsEmptyAt(board, Pos(row, col, d, j))
  }

  /** The squares a sliding piece of the given colour reaches along d, starting
      AT (row, col): an empty square is taken and the walk goes on; the first
      occupied square ends the walk and is taken only when it holds an enemy;
      leaving the board ends the walk. */
  function Ray(board: Board, color: Color, row: int, col: int, d: Direction): (ray: seq<Square>)
    requires IsUnitDirection(d)
    decreases StepsLeft(row, d.0) + StepsLeft(col, d.1)
  {
    if !IsValidPosition(row, col) then []
    else match board[row][col]
      case None => [(row, col)] + Ray(board, color, row + d.0, col + d.1, d)
      case Some(p) => if p.color != color then [(row, col)] else []
  }

  /** Every square of a ray is empty or holds an enemy, every square but the
      last is empty, and a ray never runs longer than the board allows in
      each direction it moves. */
  lemma {:induction false} RaySound(board: Board, color: Color, row: int, col: int, d: Direction)
    requires IsUnitDirection(d)
    ensures var ray := Ray(board, color, row, col, d);
      (forall i :: 0 <= i < |ray| ==> IsEmptyOrEnemy(board, color, ray[i].0, ray[i].1)) &&
      (forall i :: 0 <= i < |ray| - 1 ==> IsEmptyAt(board, ray[i])) &&
      (d.0 != 0 ==> |ray| <= StepsLeft(row, d.0)) &&
      (d.1 != 0 ==> |ray| <= StepsLeft(col, d.1))
    decreases StepsLeft(row, d.0) + StepsLeft(col, d.1)
  {
    if IsValidPosition(row, col) && board[row][col].None? {
      var rest := Ray(board, color, row + d.0, col + d.1, d);
      RaySound(board, color, row + d.0, col + d.1, d);
      assert Ray(board, color, row, col, d) == [(row, col)] + rest;
    }
  }

  /** The i-th square of a ray is i steps from where it starts. */
  lemma {:induction false} RaySquare(board: Board, color: Color, row: int, col: int, d: Direction, i: nat)
    requires IsUnitDirection(d)
    requires i < |Ray(board, color, row, col, d)|
    ensures Ray(board, color, row, col, d)[i] == Pos(row, col, d, i)
    decreases i
  {
    if i > 0 {
      assert Ray(board, color, row, col, d) == [(row, col)] + Ray(board, color, row + d.0, col + d.1, d);
      RaySquare(board, color, row + d.0, col + d.1, d, i - 1);
      PosShift(row, col, d, i - 1);
    }
  }

  /** The ray cast from a piece standing on (row, col): it starts one step away. */
  function RayFrom(board: Board, color: Color, row: int, col: int, d: Direction): seq<Square>
    requires IsUnitDirection(d)
  {
    Ray(board, color, row + d.0, col + d.1, d)
  }

  /** The i-th square of the ray cast from (row, col) is i + 1 steps away. */
  lemma RayFromSquare(board: Board, color: Color, row: int, col: int, d: Direction, i: nat)
    requires IsUnitDirection(d)
    requires i < |RayFrom(board, color, row, col, d)|
    ensures RayFrom(board, color, row, col, d)[i] == Pos(row, col, d, i + 1)
  {
    RaySquare(board, color, row + d.0, col + d.1, d, i);
    PosShift(row, col, d, i);
  }

  /** Stepping once and then k times is stepping k + 1 times. */
  lemma PosShift(row: int, col: int, d: Direction, k: int)
    requires IsUnitDirection(d)
    ensures Pos(row + d.0, col + d.1, d, k) == Pos(row, col, d, k + 1)
  {
  }

  /** Along a unit direction, different distances give different squares. */
  lemma PosInjective(row: int, col: int, d: Direction, k: int, m: int)
    requires IsUnitDirection(d)
    ensures Pos(row, col, d, k) == Pos(row, col, d, m) <==> k == m
  {
  }

  /** Two squares at positive distance along two unit directions coincide
      only if the directions are the same. */
  lemma PosSameDirection(row: int, col: int, d: Direction, e: Direction, k: int, m: int)
    requires IsUnitDirection(d) && IsUnitDirection(e) && k >= 1 && m >= 1
    requires Pos(row, col, d, k) == Pos(row, col, e, m)
    ensures d == e && k == m
  {
  }

  /** Completeness of one ray: the square k >= 1 steps along d is returned
      exactly when every square strictly between it and the origin is empty
      and the square itself is empty or holds an enemy. */
  lemma {:induction false} RayFromReaches(board: Board, color: Color, row: int, col: int, d: Direction, k: int)
    requires IsUnitDirection(d) && k >= 1
    ensures k - 1 < |RayFrom(board, color, row, col, d)| <==>
      ClearBetween(board, row, col, d, k) && IsEmptyOrEnemy(board, color, Pos(row, col, d, k).0, Pos(row, col, d, k).1)
    decreases k
  {
    var next := Pos(row, col, d, 1);
    assert next == (row + d.0, col + d.1);
    if k > 1 {
      if IsEmptyAt(board, next) {
        assert RayFrom(board, color, row, col, d) == [next] + RayFrom(board, color, next.0, next.1, d);
        RayFromReaches(board, color, next.0, next.1, d, k - 1);
        PosShift(row, col, d, k - 1);
        ClearBetweenShift(board, row, col, d, k);
      } else {
        assert !ClearBetween(board, row, col, d, k) by {
          assert !IsEmptyAt(board, Pos(row, col, d, 1));
        }
      }
    }
  }

  /** Past an empty first square, the path to the k-th square is clear exactly
      when the path from that first square to it is. */
  lemma ClearBetweenShift(board: Board, row: int, col: int, d: Direction, k: int)
    requires IsUnitDirection(d) && k > 1 && IsEmptyAt(board, Pos(row, col, d, 1))
    ensures ClearBetween(board, row, col, d, k) <==> ClearBetween(board, row + d.0, col + d.1, d, k - 1)
  {
    var r1, c1 := row + d.0, col + d.1;
    if ClearBetween(board, row, col, d, k) {
      forall j | 0 < j < k - 1 ensures IsEmptyAt(board, Pos(r1, c1, d, j)) {
        PosShift(row, col, d, j);
      }
    }
    if ClearBetween(board, row + d.0, col + d.1, d, k - 1) {
      forall j | 0 < j < k ensures IsEmptyAt(board, Pos(row, col, d, j)) {
        if j > 1 { PosShift(row, col, d, j - 1); }
      }
    }
  }

  /** The same completeness, stated as membership of the square itself. */
  lemma RayFromComplete(board: Board, color: Color, row: int, col: int, d: Direction, k: int)
    requires IsUnitDirection(d) && k >= 1
    ensures Pos(row, col, d, k) in RayFrom(board, color, row, col, d) <==>
      ClearBetween(board, row, col, d, k) && IsEmptyOrEnemy(board, color, Pos(row, col, d, k).0, Pos(row, col, d, k).1)
  {
    var ray := RayFrom(board, color, row, col, d);
    RayFromReaches(board, color, row, col, d, k);
    if k - 1 < |ray| {
      RayFromSquare(board, color, row, col, d, k - 1);
    }
    if Pos(row, col, d, k) in ray {
      var i :| 0 <= i < |ray| && ray[i] == Pos(row, col, d, k);
      RayFromSquare(board, color, row, col, d, i);
      PosInjective(row, col, d, k, i + 1);
    }
  }

  /** Every square of a ray lies at a positive distance along its direction,
      with only empty squares before it, and is empty or holds an enemy. */
  lemma RayFromMember(board: Board, color: Color, row: int, col: int, d: Direction, s: Square)
    returns (k: int)
    requires IsUnitDirection(d) && s in RayFrom(board, color, row, col, d)
    ensures k >= 1 && s == Pos(row, col, d, k)
    ensures ClearBetween(board, row, col, d, k) && IsEmptyOrEnemy(board, color, s.0, s.1)
  {
    var ray := RayFrom(board, color, row, col, d);
    var i :| 0 <= i < |ray| && ray[i] == s;
    RayFromSquare(board, color, row, col, d, i);
    k := i + 1;
    RayFromComplete(board, color, row, col, d, k);
  }

  /** A ray stops at the first occupied square: it includes that square
      exactly when it holds an enemy, and nothing beyond it. */
  lemma RayStopsAtFirstPiece(board: Board, color: Color, row: int, col: int, d: Direction, k: int)
    requires IsUnitDirection(d) && k >= 1
    requires ClearBetween(board, row, col, d, k)
    requires IsValidPosition(Pos(row, col, d, k).0, Pos(row, col, d, k).1)
    requires board[Pos(row, col, d, k).0][Pos(row, col, d, k).1].Some?
    ensures Pos(row, col, d, k) in RayFrom(board, color, row, col, d) <==>
      board[Pos(row, col, d, k).0][Pos(row, col, d, k).1].value.color != color
    ensures forall m :: m > k ==> Pos(row, col, d, m) !in RayFrom(board, color, row, col, d)
  {
    RayFromComplete(board, color, row, col, d, k);
    forall m | m > k ensures Pos(row, col, d, m) !in RayFrom(board, color, row, col, d) {
      RayFromComplete(board, color, row, col, d, m);
      assert !IsEmptyAt(board, Pos(row, col, d, k));
    }
  }

  /** A ray never repeats a square. */
  lemma RayFromNoDuplicates(board: Board, color: Color, row: int, col: int, d: Direction)
    requires IsUnitDirection(d)
    ensures NoDuplicates(RayFrom(board, color, row, col, d))
  {
    var ray := RayFrom(board, color, row, col, d);
    forall i, j | 0 <= i < j < |ray| ensures ray[i] != ray[j] {
      RayFromSquare(board, color, row, col, d, i);
      RayFromSquare(board, color, row, col, d, j);
      PosInjective(row, col, d, i + 1, j + 1);
    }
  }

  /** The rays along each direction of dirs, in order, concatenated. */
  function Rays(board: Board, color: Color, row: int, col: int, dirs: seq<Direction>): seq<Square>
    requires AllUnitDirections(dirs)
  {
    if dirs == [] then [] else RayFrom(board, color, row, col, dirs[0]) + Rays(board, color, row, col, dirs[1..])
  }

  /** right, left, down, up (piece.py:22) */
  const StraightDirections: seq<Direction> := [(0, 1), (0, -1), (1, 0), (-1, 0)]

  /** the four diagonals (piece.py:41) */
  const DiagonalDirections: seq<Direction> := [(1, 1), (1, -1), (-1, 1), (-1, -1)]

  /** get_straight_moves: the right, left, down and up rays, in that order. */
  function StraightMoves(board: Board, color: Color, row: int, col: int): seq<Square> {
    RayFrom(board, color, row, col, (0, 1)) + RayFrom(board, color, row, col, (0, -1)) +
    RayFrom(board, color, row, col, (1, 0)) + RayFrom(board, color, row, col, (-1, 0))
  }

  /** get_diagonal_moves: the four diagonal rays, in the order of piece.py:41. */
  function DiagonalMoves(board: Board, color: Color, row: int, col: int): seq<Square> {
    RayFrom(board, color, row, col, (1, 1)) + RayFrom(board, color, row, col, (1, -1)) +
    RayFrom(board, color, row, col, (-1, 1)) + RayFrom(board, color, row, col, (-1, -1))
  }

  /** Every square of a concatenation of rays comes from one of its rays. */
  lemma {:induction false} RaysMember(board: Board, color: Color, row: int, col: int, dirs: seq<Direction>, s: Square)
    returns (i: int, k: int)
    requires AllUnitDirections(dirs) && s in Rays(board, color, row, col, dirs)
    ensures 0 <= i < |dirs| && k >= 1 && s == Pos(row, col, dirs[i], k)
    ensures ClearBetween(board, row, col, dirs[i], k) && IsEmptyOrEnemy(board, color, s.0, s.1)
  {
    if s in RayFrom(board, color, row, col, dirs[0]) {
      i := 0;
      k := RayFromMember(board, color, row, col, dirs[0], s);
    } else {
      i, k := RaysMember(board, color, row, col, dirs[1..], s);
      i := i + 1;
    }
  }

  /** With distinct directions, a square along dirs[i] is in the concatenation
      exactly when it is in the ray along dirs[i]. */
  lemma {:induction false} RaysComplete(board: Board, color: Color, row: int, col: int, dirs: seq<Direction>, i: int, k: int)
    requires AllUnitDirections(dirs) && DistinctDirections(dirs) && 0 <= i < |dirs| && k >= 1
    ensures Pos(row, col, dirs[i], k) in Rays(board, color, row, col, dirs) <==>
      Pos(row, col, dirs[i], k) in RayFrom(board, color, row, col, dirs[i])
  {
    var s := Pos(row, col, dirs[i], k);
    var rest := dirs[1..];
    if i == 0 {
      if s in Rays(board, color, row, col, rest) {
        var j, m := RaysMember(board, color, row, col, rest, s);
        PosSameDirection(row, col, dirs[0], rest[j], k, m);
      }
    } else {
      RaysComplete(board, color, row, col, rest, i - 1, k);
      if s in RayFrom(board, color, row, col, dirs[0]) {
        var m := RayFromMember(board, color, row, col, dirs[0], s);
        PosSameDirection(row, col, dirs[0], dirs[i], m, k);
      }
    }
  }

  /** With distinct directions, a concatenation of rays repeats no square. */
  lemma {:induction false} RaysNoDuplicates(board: Board, color: Color, row: int, col: int, dirs: seq<Direction>)
    requires AllUnitDirections(dirs) && DistinctDirections(dirs)
    ensures NoDuplicates(Rays(board, color, row, col, dirs))
  {
    if dirs != [] {
      var first := RayFrom(board, color, row, col, dirs[0]);
      var rest := Rays(board, color, row, col, dirs[1..]);
      RayFromNoDuplicates(board, color, row, col, dirs[0]);
      RaysNoDuplicates(board, color, row, col, dirs[1..]);
      forall s | s in first && s in rest ensures false {
        var m := RayFromMember(board, color, row, col, dirs[0], s);
        var j, k := RaysMember(board, color, row, col, dirs[1..], s);
        PosSameDirection(row, col, dirs[0], dirs[1..][j], m, k);
      }
      NoDuplicatesConcat(first, rest);
    }
  }

  lemma NoDuplicatesConcat(a: seq<Square>, b: seq<Square>)
    requires NoDuplicates(a) && NoDuplicates(b)
    requires forall s :: s in a ==> s !in b
    ensures NoDuplicates(a + b)
  {
    forall i, j | 0 <= i < j < |a + b| ensures (a + b)[i] != (a + b)[j] {
      if j < |a| {
        assert (a + b)[i] == a[i] && (a + b)[j] == a[j];
      } else if i >= |a| {
        assert (a + b)[i] == b[i - |a|] && (a + b)[j] == b[j - |a|];
      } else {
        assert (a + b)[i] == a[i] && a[i] in a;
        assert (a + b)[j] == b[j - |a|] && b[j - |a|] in b;
      }
    }
  }

  /** The loop shared by get_straight_moves and get_diagonal_moves: for each
      direction, cast that direction's ray and append it. */
  method CastRays(board: Board, color: Color, row: int, col: int, dirs: seq<Direction>)
    returns (moves: seq<Square>)
    requires AllUnitDirections(dirs)
    ensures moves == Rays(board, color, row, col, dirs)
  {
    moves := [];
    assert dirs[0..] == dirs;
    for i := 0 to |dirs|
      invariant moves + Rays(board, color, row, col, dirs[i..]) == Rays(board, color, row, col, dirs)
    {
      RaysFrom(board, color, row, col, dirs, i);
      var ray := CastRay(board, color, row, col, dirs[i]);
      moves := moves + ray;
    }
    assert dirs[|dirs|..] == [];
  }

  /** One step of a ray from an on-board square. */
  lemma RayStep(board: Board, color: Color, r: int, c: int, d: Direction)
    requires IsUnitDirection(d) && IsValidPosition(r, c)
    ensures board[r][c].None? ==> Ray(board, color, r, c, d) == [(r, c)] + Ray(board, color, r + d.0, c + d.1, d)
    ensures board[r][c].Some? && board[r][c].value.color != color ==> Ray(board, color, r, c, d) == [(r, c)]
    ensures board[r][c].Some? && board[r][c].value.color == color ==> Ray(board, color, r, c, d) == []
  {
  }

  /** The rays from direction i on: ray i, then the rays from i + 1 on. */
  lemma RaysFrom(board: Board, color: Color, row: int, col: int, dirs: seq<Direction>, i: int)
    requires AllUnitDirections(dirs) && 0 <= i < |dirs|
    ensures Rays(board, color, row, col, dirs[i..]) ==
      RayFrom(board, color, row, col, dirs[i]) + Rays(board, color, row, col, dirs[i + 1..])
  {
    assert dirs[i..][1..] == dirs[i + 1..];
  }

  /** The inner while loop: walk from the neighbouring square while it is on
      the board, appending an empty square and going on, appending an enemy
      square and stopping, or stopping at a friendly square. */
  method CastRay(board: Board, color: Color, row: int, col: int, d: Direction)
    returns (ray: seq<Square>)
    requires IsUnitDirection(d)
    ensures ray == RayFrom(board, color, row, col, d)
  {
    ray := [];
    var r, c := row + d.0, col + d.1;
    while IsValidPosition(r, c)
      invariant ray + Ray(board, color, r, c, d) == RayFrom(board, color, row, col, d)
      decreases StepsLeft(r, d.0) + StepsLeft(c, d.1)
    {
      RayStep(board, color, r, c, d);
      if board[r][c].None? {
        assert ray + [(r, c)] + Ray(board, color, r + d.0, c + d.1, d) == RayFrom(board, color, row, col, d);
        ray := ray + [(r, c)];
      } else if board[r][c].value.color != color {
        ray := ray + [(r, c)];
        break;
      } else {
        break;
      }
      r, c := r + d.0, c + d.1;
    }
  }

  lemma RaysOfFour(board: Board, color: Color, row: int, col: int, dirs: seq<Direction>)
    requires |dirs| == 4 && AllUnitDirections(dirs)
    ensures Rays(board, color, row, col, dirs) ==
      RayFrom(board, color, row, col, dirs[0]) + RayFrom(board, color, row, col, dirs[1]) +
      RayFrom(board, color, row, col, dirs[2]) + RayFrom(board, color, row, col, dirs[3])
  {
    var t1, t2, t3 := dirs[1..], dirs[2..], dirs[3..];
    assert t1[1..] == t2 && t2[1..] == t3 && t3[1..] == [];
    assert Rays(board, color, row, col, t3) == RayFrom(board, color, row, col, dirs[3]);
    assert Rays(board, color, row, col, t2) ==
      RayFrom(board, color, row, col, dirs[2]) + RayFrom(board, color, row, col, dirs[3]);
  }

  method GetStraightMoves(board: Board, color: Color, row: int, col: int) returns (moves: seq<Square>)
    ensures moves == StraightMoves(board, color, row, col)
  {
    moves := CastRays(board, color, row, col, StraightDirections);
    RaysOfFour(board, color, row, col, StraightDirections);
  }

  method GetDiagonalMoves(board: Board, color: Color, row: int, col: int) returns (moves: seq<Square>)
    ensures moves == DiagonalMoves(board, color, row, col)
  {
    moves := CastRays(board, color, row, col, DiagonalDirections);
    RaysOfFour(board, color, row, col, DiagonalDirections);
  }

  function Abs(x: int): nat {
    if x < 0 then -x else x
  }

  /** Every straight move is on the board, empty or an enemy, and shares
      exactly one of row and column with the origin (so it is never the
      origin itself). */
  lemma StraightMovesSound(board: Board, color: Color, row: int, col: int)
    ensures forall s :: s in StraightMoves(board, color, row, col) ==>
      IsEmptyOrEnemy(board, color, s.0, s.1) && ((s.0 == row) != (s.1 == col))
  {
    RaysOfFour(board, color, row, col, StraightDirections);
    forall s | s in StraightMoves(board, color, row, col)
      ensures IsEmptyOrEnemy(board, color, s.0, s.1) && ((s.0 == row) != (s.1 == col))
    {
      var i, k := RaysMember(board, color, row, col, StraightDirections, s);
      assert StraightDirections[i] in StraightDirections;
    }
  }

  /** Completeness of the straight moves: the square k >= 1 steps along any of
      the four straight directions is returned exactly when every square
      strictly between is empty and it is empty or holds an enemy. */
  lemma StraightMovesComplete(board: Board, color: Color, row: int, col: int, i: int, k: int)
    requires 0 <= i < 4 && k >= 1
    ensures var s := Pos(row, col, StraightDirections[i], k);
      s in StraightMoves(board, color, row, col) <==>
      ClearBetween(board, row, col, StraightDirections[i], k) && IsEmptyOrEnemy(board, color, s.0, s.1)
  {
    RaysOfFour(board, color, row, col, StraightDirections);
    RaysComplete(board, color, row, col, StraightDirections, i, k);
    RayFromComplete(board, color, row, col, StraightDirections[i], k);
  }

  lemma StraightMovesNoDuplicates(board: Board, color: Color, row: int, col: int)
    ensures NoDuplicates(StraightMoves(board, color, row, col))
  {
    RaysOfFour(board, color, row, col, StraightDirections);
    RaysNoDuplicates(board, color, row, col, StraightDirections);
  }

  /** Every diagonal move is on the board, empty or an enemy, and as many rows
      as columns away from the origin, at least one. */
  lemma DiagonalMovesSound(board: Board, color: Color, row: int, col: int)
    ensures forall s :: s in DiagonalMoves(board, color, row, col) ==>
      IsEmptyOrEnemy(board, color, s.0, s.1) && Abs(s.0 - row) == Abs(s.1 - col) >= 1
  {
    RaysOfFour(board, color, row, col, DiagonalDirections);
    forall s | s in DiagonalMoves(board, color, row, col)
      ensures IsEmptyOrEnemy(board, color, s.0, s.1) && Abs(s.0 - row) == Abs(s.1 - col) >= 1
    {
      var i, k := RaysMember(board, color, row, col, DiagonalDirections, s);
      assert DiagonalDirections[i] in DiagonalDirections;
    }
  }

  /** Completeness of the diagonal moves, as for the straight ones. */
  lemma DiagonalMovesComplete(board: Board, color: Color, row: int, col: int, i: int, k: int)
    requires 0 <= i < 4 && k >= 1
    ensures var s := Pos(row, col, DiagonalDirections[i], k);
      s in DiagonalMoves(board, color, row, col) <==>
      ClearBetween(board, row, col, DiagonalDirections[i], k) && IsEmptyOrEnemy(board, color, s.0, s.1)
  {
    RaysOfFour(board, color, row, col, DiagonalDirections);
    RaysComplete(board, color, row, col, DiagonalDirections, i, k);
    RayFromComplete(board, color, row, col, DiagonalDirections[i], k);
  }

  lemma DiagonalMovesNoDuplicates(board: Board, color: Color, row: int, col: int)
    ensures NoDuplicates(DiagonalMoves(board, color, row, col))
  {
    RaysOfFour(board, color, row, col, DiagonalDirections);
    RaysNoDuplicates(board, color, row, col, DiagonalDirections);
  }
}
