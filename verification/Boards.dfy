/** The playfield as a value: collision, locking, line clearing and garbage, with the counting laws they obey. */
module Boards {
  import opened Pieces

  const WIDTH := 10
  const HEIGHT := 20
  const GARBAGE_CELL := 8

  /** Rows from top to bottom; 0 is an empty cell, 1..7 a locked piece, 8 garbage. */
  type Row = seq<int>
  type Board = seq<Row>

  /** The raw draws of a garbage insertion: `holes[y]` is the gap of the garbage row that lands on board row y. */
  type Holes = h: seq<nat> | |h| == HEIGHT && forall y :: 0 <= y < HEIGHT ==> h[y] < WIDTH witness seq(HEIGHT, _ => 0)

  ghost predicate Shaped(b: Board) {
    |b| == HEIGHT && forall y :: 0 <= y < HEIGHT ==> |b[y]| == WIDTH
  }

  ghost predicate CellsInRange(b: Board) {
    forall y, x :: 0 <= y < |b| && 0 <= x < |b[y]| ==> 0 <= b[y][x] <= 8
  }

  function EmptyRow(width: nat): (r: Row)
    ensures |r| == width && forall x :: 0 <= x < width ==> r[x] == 0
  {
    seq(width, _ => 0)
  }

  function EmptyRows(n: nat, width: nat): (b: Board)
    ensures |b| == n && forall y :: 0 <= y < n ==> b[y] == EmptyRow(width)
  {
    seq(n, _ => EmptyRow(width))
  }

  // ----- Collision

  /** One block may sit at (x, y): inside the side walls and above the floor, and not on a locked cell. */
  predicate Fits(b: Board, x: int, y: int)
    requires Shaped(b)
  {
    0 <= x < WIDTH && y < HEIGHT && (y >= 0 ==> b[y][x] == 0)
  }

  predicate ValidPos(b: Board, k: Kind, rot: Rotation, x: int, y: int)
    requires Shaped(b)
  {
    forall px, py | 0 <= px < 4 && 0 <= py < 4 && Solid(k, rot, px, py) :: Fits(b, x + px, y + py)
  }

  predicate ValidPiece(b: Board, p: Piece)
    requires Shaped(b)
  {
    ValidPos(b, p.kind, p.rot, p.x, p.y)
  }

  // ----- Locking

  function SetCell(b: Board, x: int, y: int, v: int): (r: Board)
    requires Shaped(b)
    ensures Shaped(r)
    ensures forall y', x' :: 0 <= y' < HEIGHT && 0 <= x' < WIDTH ==> r[y'][x'] == if y' == y && x' == x then v
      else b[y'][x']
  {
    if 0 <= y < HEIGHT && 0 <= x < WIDTH then b[y := b[y][x := v]] else b
  }

  /** Writes the solid cells of box column px, from row py down. */
  function LockColumn(b: Board, p: Piece, px: int, py: int): (r: Board)
    requires Shaped(b) && 0 <= px < 4 && 0 <= py <= 4
    ensures Shaped(r)
    decreases 4 - py
  {
    if py == 4 then b
    else LockColumn(if Solid(p.kind, p.rot, px, py) then SetCell(b, p.x + px, p.y + py, p.kind) else b, p, px, py + 1)
  }

  function LockFrom(b: Board, p: Piece, px: int): (r: Board)
    requires Shaped(b) && 0 <= px <= 4
    ensures Shaped(r)
    decreases 4 - px
  {
    if px == 4 then b else LockFrom(LockColumn(b, p, px, 0), p, px + 1)
  }

  function Lock(b: Board, p: Piece): (r: Board)
    requires Shaped(b)
    ensures Shaped(r)
  {
    LockFrom(b, p, 0)
  }

  /** Board cell (x, y) lies under a solid cell of the piece. */
  predicate Covers(p: Piece, x: int, y: int) {
    0 <= x - p.x < 4 && 0 <= y - p.y < 4 && Solid(p.kind, p.rot, x - p.x, y - p.y)
  }

  lemma {:induction false} LockColumnAt(b: Board, p: Piece, px: int, py: int, x: int, y: int)
    requires Shaped(b) && 0 <= px < 4 && 0 <= py <= 4 && 0 <= x < WIDTH && 0 <= y < HEIGHT
    ensures LockColumn(b, p, px, py)[y][x] ==
            if x - p.x == px && py <= y - p.y < 4 && Solid(p.kind, p.rot, px, y - p.y) then p.kind else b[y][x]
    decreases 4 - py
  {
    hide Solid;
    if py < 4 {
      LockColumnAt(if Solid(p.kind, p.rot, px, py) then SetCell(b, p.x + px, p.y + py, p.kind)
        else b, p, px, py + 1, x, y);
    }
  }

  lemma {:induction false} LockFromAt(b: Board, p: Piece, px: int, x: int, y: int)
    requires Shaped(b) && 0 <= px <= 4 && 0 <= x < WIDTH && 0 <= y < HEIGHT
    ensures LockFrom(b, p, px)[y][x] == if x - p.x >= px && Covers(p, x, y) then p.kind else b[y][x]
    decreases 4 - px
  {
    hide Solid;
    if px < 4 {
      LockColumnAt(b, p, px, 0, x, y);
      LockFromAt(LockColumn(b, p, px, 0), p, px + 1, x, y);
    }
  }

  /** Locking writes the piece's kind under its solid cells and leaves every other board cell alone. */
  lemma LockAt(b: Board, p: Piece, x: int, y: int)
    requires Shaped(b) && 0 <= x < WIDTH && 0 <= y < HEIGHT
    ensures Lock(b, p)[y][x] == if Covers(p, x, y) then p.kind else b[y][x]
  {
    LockFromAt(b, p, 0, x, y);
  }

  // ----- Line clearing

  predicate FullRow(r: Row) {
    forall x :: 0 <= x < |r| ==> r[x] != 0
  }

  predicate NoFullRow(b: Board) {
    forall y :: 0 <= y < |b| ==> !FullRow(b[y])
  }

  function FullCount(b: Board): (n: nat)
    ensures n <= |b|
  {
    if b == [] then 0 else Bit(FullRow(b[0])) + FullCount(b[1..])
  }

  /** The rows that are not full, in order. */
  function Survivors(b: Board): (r: Board)
    ensures |r| == |b| - FullCount(b)
  {
    if b == [] then [] else (if FullRow(b[0]) then [] else [b[0]]) + Survivors(b[1..])
  }

  /** What clearing means: drop every full row, keep the rest in order, pad with empty rows on top. */
  function Cleared(b: Board, width: nat): (r: Board)
    ensures |r| == |b|
  {
    EmptyRows(FullCount(b), width) + Survivors(b)
  }

  lemma {:induction false} SplitFullCount(a: Board, b: Board)
    ensures FullCount(a + b) == FullCount(a) + FullCount(b)
  {
    hide FullRow, Bit;
    if a == [] {
      assert a + b == b;
    } else {
      SplitFullCount(a[1..], b);
      assert (a + b)[1..] == a[1..] + b;
    }
  }

  lemma {:induction false} SplitSurvivors(a: Board, b: Board)
    ensures Survivors(a + b) == Survivors(a) + Survivors(b)
  {
    hide FullRow, FullCount;
    if a == [] {
      assert a + b == b;
    } else {
      var first: Board := if FullRow(a[0]) then [] else [a[0]];
      calc {
        Survivors(a + b);
        { assert (a + b)[1..] == a[1..] + b; }
        first + Survivors(a[1..] + b);
        { SplitSurvivors(a[1..], b); }
        first + (Survivors(a[1..]) + Survivors(b));
        (first + Survivors(a[1..])) + Survivors(b);
        Survivors(a) + Survivors(b);
      }
    }
  }

  lemma {:induction false} NothingToClear(b: Board)
    ensures NoFullRow(b) <==> FullCount(b) == 0
    ensures NoFullRow(b) ==> Survivors(b) == b
  {
    if b != [] {
      NothingToClear(b[1..]);
      if NoFullRow(b) {
        assert forall y :: 0 <= y < |b| - 1 ==> b[1..][y] == b[y + 1];
      } else if NoFullRow(b[1..]) {
        var y :| 0 <= y < |b| && FullRow(b[y]);
        assert y > 0 ==> b[1..][y - 1] == b[y];
      }
    }
  }

  lemma {:induction false} SurvivorsKeep(b: Board, width: nat)
    requires forall y :: 0 <= y < |b| ==> |b[y]| == width
    ensures NoFullRow(Survivors(b))
    ensures forall y :: 0 <= y < |Survivors(b)| ==> Survivors(b)[y] in b && |Survivors(b)[y]| == width
  {
    if b != [] {
      SurvivorsKeep(b[1..], width);
    }
  }

  /** A cleared board has the same shape, holds no full row, and holds no cell value the board did not have. */
  lemma ClearedBoard(b: Board)
    requires Shaped(b) && CellsInRange(b)
    ensures Shaped(Cleared(b, WIDTH)) && NoFullRow(Cleared(b, WIDTH)) && CellsInRange(Cleared(b, WIDTH))
  {
    hide FullCount, Survivors;
    SurvivorsKeep(b, WIDTH);
    var r := Cleared(b, WIDTH);
    var n := FullCount(b);
    forall y | 0 <= y < |r|
      ensures |r[y]| == WIDTH && !FullRow(r[y]) && forall x :: 0 <= x < WIDTH ==> 0 <= r[y][x] <= 8
    {
      if y < n {
        assert r[y] == EmptyRow(WIDTH) && r[y][0] == 0;
      } else {
        assert r[y] == Survivors(b)[y - n];
      }
    }
  }

  /** The full rows from row y down. */
  ghost function FullRows(b: Board, y: nat): set<int> {
    set k | y <= k < |b| && FullRow(b[k])
  }

  lemma {:induction false} FullCountCounts(b: Board, y: nat)
    requires y <= |b|
    ensures FullCount(b[y..]) == |FullRows(b, y)|
    decreases |b| - y
  {
    hide FullRow;
    if y == |b| {
      assert FullRows(b, y) == {};
    } else {
      FullCountCounts(b, y + 1);
      assert b[y..][1..] == b[y + 1..];
      assert FullRows(b, y) == FullRows(b, y + 1) + if FullRow(b[y]) then {y} else {};
    }
  }

  /** Clearing row by row: a row that is not full comes down by as many rows as were full below it, and as many rows as
      were full come in empty at the top. */
  lemma ClearedAt(b: Board, width: nat)
    ensures |FullRows(b, 0)| <= |b| && FullCount(b) == |FullRows(b, 0)|
    ensures forall y :: 0 <= y < |FullRows(b, 0)| ==> Cleared(b, width)[y] == EmptyRow(width)
    ensures forall y :: 0 <= y < |b| && !FullRow(b[y]) ==>
      0 <= y + |FullRows(b, y + 1)| < |b| && Cleared(b, width)[y + |FullRows(b, y + 1)|] == b[y]
  {
    hide FullRow, Survivors, FullCount, FullRows;
    FullCountCounts(b, 0);
    assert b[0..] == b;
    forall y | 0 <= y < |b| && !FullRow(b[y])
      ensures 0 <= y + |FullRows(b, y + 1)| < |b| && Cleared(b, width)[y + |FullRows(b, y + 1)|] == b[y]
    {
      FullCountCounts(b, y + 1);
      SurvivorAt(b, y);
    }
  }

  lemma SurvivorAt(b: Board, y: nat)
    requires y < |b| && !FullRow(b[y])
    ensures 0 <= y + FullCount(b[y + 1..]) - FullCount(b) < |Survivors(b)|
    ensures Survivors(b)[y + FullCount(b[y + 1..]) - FullCount(b)] == b[y]
  {
    var top, rest := b[..y], b[y..];
    assert b == top + rest && rest[1..] == b[y + 1..];
    SplitFullCount(top, rest);
    SplitSurvivors(top, rest);
    assert Survivors(rest) == [b[y]] + Survivors(rest[1..]) && FullCount(rest) == FullCount(rest[1..]);
  }

  // ----- Counting cells

  function RowCount(r: Row): (n: nat)
    ensures n <= |r|
  {
    if r == [] then 0 else Bit(r[0] != 0) + RowCount(r[1..])
  }

  function Occupied(b: Board): nat {
    if b == [] then 0 else RowCount(b[0]) + Occupied(b[1..])
  }

  lemma {:induction false} RowCountSet(r: Row, x: int, v: int)
    requires 0 <= x < |r|
    ensures RowCount(r[x := v]) == RowCount(r) - Bit(r[x] != 0) + Bit(v != 0)
  {
    if x > 0 {
      RowCountSet(r[1..], x - 1, v);
      assert r[x := v][1..] == r[1..][x - 1 := v];
    } else {
      assert r[x := v][1..] == r[1..];
    }
  }

  lemma {:induction false} RowCountFull(r: Row)
    ensures FullRow(r) <==> RowCount(r) == |r|
  {
    if r != [] {
      RowCountFull(r[1..]);
      if FullRow(r[1..]) && r[0] != 0 {
        assert forall x :: 0 < x < |r| ==> r[x] == r[1..][x - 1];
      }
    }
  }

  lemma {:induction false} RowCountEmpty(r: Row)
    ensures (forall x :: 0 <= x < |r| ==> r[x] == 0) ==> RowCount(r) == 0
  {
    if r != [] {
      RowCountEmpty(r[1..]);
    }
  }

  lemma {:induction false} OccupiedSplit(a: Board, b: Board)
    ensures Occupied(a + b) == Occupied(a) + Occupied(b)
  {
    if a == [] {
      assert a + b == b;
    } else {
      OccupiedSplit(a[1..], b);
      assert (a + b)[1..] == a[1..] + b;
    }
  }

  lemma {:induction false} OccupiedEmpty(n: nat, width: nat)
    ensures Occupied(EmptyRows(n, width)) == 0
  {
    if n > 0 {
      OccupiedEmpty(n - 1, width);
      assert EmptyRows(n, width)[1..] == EmptyRows(n - 1, width);
      RowCountEmpty(EmptyRow(width));
    }
  }

  lemma {:induction false} OccupiedSetRow(b: Board, y: int, r: Row)
    requires 0 <= y < |b|
    ensures Occupied(b[y := r]) == Occupied(b) - RowCount(b[y]) + RowCount(r)
  {
    hide RowCount;
    if y > 0 {
      OccupiedSetRow(b[1..], y - 1, r);
      assert b[y := r][1..] == b[1..][y - 1 := r];
    } else {
      assert b[y := r][1..] == b[1..];
    }
  }

  lemma {:induction false} OccupiedSurvivors(b: Board, width: nat)
    requires forall y :: 0 <= y < |b| ==> |b[y]| == width
    ensures Occupied(Survivors(b)) == Occupied(b) - width * FullCount(b)
  {
    hide RowCount, FullRow;
    if b != [] {
      var rest := b[1..];
      OccupiedSurvivors(rest, width);
      if FullRow(b[0]) {
        RowCountFull(b[0]);
        assert FullCount(b) == 1 + FullCount(rest);
        assert width * (1 + FullCount(rest)) == width + width * FullCount(rest);
        assert Survivors(b) == Survivors(rest);
      } else {
        assert FullCount(b) == FullCount(rest);
        assert Survivors(b) == [b[0]] + Survivors(rest);
        assert ([b[0]] + Survivors(rest))[1..] == Survivors(rest);
      }
    }
  }

  /** Clearing removes exactly one board width of cells per full row. */
  lemma OccupiedCleared(b: Board, width: nat)
    requires forall y :: 0 <= y < |b| ==> |b[y]| == width
    ensures Occupied(Cleared(b, width)) == Occupied(b) - width * FullCount(b)
  {
    hide Occupied, Survivors, FullCount;
    OccupiedSplit(EmptyRows(FullCount(b), width), Survivors(b));
    OccupiedEmpty(FullCount(b), width);
    OccupiedSurvivors(b, width);
  }
}
