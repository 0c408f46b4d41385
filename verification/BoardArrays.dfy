/** The playfield updated in place, cell by cell, each routine tied to what it means on board values. */
module BoardArrays {
  import opened Pieces
  import opened Boards
  import Garbage

  ghost function RowAt(a: array2<int>, y: int): (r: Row)
    requires 0 <= y < a.Length0
    reads a
    ensures |r| == a.Length1 && forall x :: 0 <= x < a.Length1 ==> r[x] == a[y, x]
  {
    seq(a.Length1, x requires 0 <= x < a.Length1 reads a => a[y, x])
  }

  /** The board value an array holds. */
  ghost function Rows(a: array2<int>): (b: Board)
    reads a
    ensures |b| == a.Length0 && forall y :: 0 <= y < a.Length0 ==> b[y] == RowAt(a, y)
  {
    seq(a.Length0, y requires 0 <= y < a.Length0 reads a => RowAt(a, y))
  }

  ghost predicate Playfield(a: array2<int>) {
    a.Length0 == HEIGHT && a.Length1 == WIDTH
  }

  // ----- Collision and locking

  method IsValidPos(a: array2<int>, k: Kind, rot: Rotation, x: int, y: int) returns (ok: bool)
    requires Playfield(a)
    ensures ok == ValidPos(Rows(a), k, rot, x, y)
  {
    hide Solid;
    ghost var b := Rows(a);
    for px := 0 to 4
      invariant forall qx, qy | 0 <= qx < px && 0 <= qy < 4 && Solid(k, rot, qx, qy) :: Fits(b, x + qx, y + qy)
    {
      for py := 0 to 4
        invariant forall qx, qy | 0 <= qx < px && 0 <= qy < 4 && Solid(k, rot, qx, qy) :: Fits(b, x + qx, y + qy)
        invariant forall qy | 0 <= qy < py && Solid(k, rot, px, qy) :: Fits(b, x + px, y + qy)
      {
        if Solid(k, rot, px, py) {
          var cx, cy := x + px, y + py;
          if cx < 0 || cx >= WIDTH || cy >= HEIGHT {
            assert !Fits(b, cx, cy);
            return false;
          }
          if cy >= 0 && a[cy, cx] != 0 {
            assert !Fits(b, cx, cy);
            return false;
          }
        }
      }
    }
    return true;
  }

  lemma RowsUpdate(before: Board, after: Board, x: int, y: int, v: int)
    requires Shaped(before) && Shaped(after) && 0 <= y < HEIGHT && 0 <= x < WIDTH
    requires forall y', x' :: 0 <= y' < HEIGHT && 0 <= x' < WIDTH ==> after[y'][x'] == if y' == y && x' == x then v
      else before[y'][x']
    ensures after == SetCell(before, x, y, v)
  {
    var r := SetCell(before, x, y, v);
    forall y' | 0 <= y' < HEIGHT ensures after[y'] == r[y'] {
      assert forall x' :: 0 <= x' < WIDTH ==> after[y'][x'] == r[y'][x'];
    }
  }

  /** One guarded write of a locking piece. */
  method StoreCell(a: array2<int>, x: int, y: int, v: int)
    requires Playfield(a)
    modifies a
    ensures Rows(a) == SetCell(old(Rows(a)), x, y, v)
  {
    if y >= 0 && y < HEIGHT {
      if x >= 0 && x < WIDTH {
        a[y, x] := v;
        RowsUpdate(old(Rows(a)), Rows(a), x, y, v);
      }
    }
  }

  /** Bakes a piece into the playfield. */
  method LockPiece(a: array2<int>, p: Piece)
    requires Playfield(a)
    modifies a
    ensures Rows(a) == Lock(old(Rows(a)), p)
  {
    hide Solid, SetCell;
    for px := 0 to 4
      invariant LockFrom(Rows(a), p, px) == Lock(old(Rows(a)), p)
    {
      ghost var column := Rows(a);
      for py := 0 to 4
        invariant LockColumn(Rows(a), p, px, py) == LockColumn(column, p, px, 0)
      {
        if Solid(p.kind, p.rot, px, py) {
          StoreCell(a, p.x + px, p.y + py, p.kind);
        }
      }
    }
  }

  // ----- Line clearing

  method IsFull(a: array2<int>, y: int) returns (full: bool)
    requires 0 <= y < a.Length0
    ensures full == FullRow(RowAt(a, y))
  {
    for x := 0 to a.Length1
      invariant forall x' :: 0 <= x' < x ==> a[y, x'] != 0
    {
      if a[y, x] == 0 {
        return false;
      }
    }
    return true;
  }

  /** Board b with row y taken out and an empty row added on top. */
  ghost function Collapsed(b: Board, y: int, width: nat): Board
    requires 0 <= y < |b|
  {
    [EmptyRow(width)] + b[..y] + b[y + 1..]
  }

  /** Copies row `from` over row `to`. */
  method CopyRow(a: array2<int>, from: int, to: int)
    requires 0 <= from < a.Length0 && 0 <= to < a.Length0 && from != to
    modifies a
    ensures RowAt(a, to) == old(RowAt(a, from))
    ensures forall y :: 0 <= y < a.Length0 && y != to ==> RowAt(a, y) == old(RowAt(a, y))
  {
    for x := 0 to a.Length1
      invariant forall x' :: 0 <= x' < x ==> a[to, x'] == old(a[from, x'])
      invariant forall y, x' :: 0 <= y < a.Length0 && y != to && 0 <= x' < a.Length1 ==> a[y, x'] == old(a[y, x'])
    {
      a[to, x] := a[from, x];
    }
  }

  method BlankRow(a: array2<int>, y: int)
    requires 0 <= y < a.Length0
    modifies a
    ensures RowAt(a, y) == EmptyRow(a.Length1)
    ensures forall y' :: 0 <= y' < a.Length0 && y' != y ==> RowAt(a, y') == old(RowAt(a, y'))
  {
    for x := 0 to a.Length1
      invariant forall x' :: 0 <= x' < x ==> a[y, x'] == 0
      invariant forall y', x' :: 0 <= y' < a.Length0 && y' != y && 0 <= x' < a.Length1 ==> a[y', x'] == old(a[y', x'])
    {
      a[y, x] := 0;
    }
  }

  /** Shifts everything above row y down by one and blanks the top row. */
  method Collapse(a: array2<int>, y: int)
    requires 0 <= y < a.Length0
    modifies a
    ensures Rows(a) == Collapsed(old(Rows(a)), y, a.Length1)
  {
    hide RowAt;
    var yy := y;
    while yy > 0
      invariant 0 <= yy <= y
      invariant forall i :: yy < i <= y ==> RowAt(a, i) == old(RowAt(a, i - 1))
      invariant forall i :: 0 <= i <= yy || y < i < a.Length0 ==> RowAt(a, i) == old(RowAt(a, i))
    {
      CopyRow(a, yy - 1, yy);
      yy := yy - 1;
    }
    BlankRow(a, 0);
    ghost var b, r := old(Rows(a)), Rows(a);
    forall i | 0 <= i < a.Length0 ensures r[i] == Collapsed(b, y, a.Length1)[i] {
      if 0 < i <= y {
        assert r[i] == b[i - 1];
      }
    }
  }

  lemma EmptyNotFull(width: nat)
    requires width > 0
    ensures !FullRow(EmptyRow(width))
  {
    assert EmptyRow(width)[0] == 0;
  }

  lemma ThreeParts(a: Board, b: Board, c: Board)
    ensures FullCount(a + b + c) == FullCount(a) + FullCount(b) + FullCount(c)
    ensures Survivors(a + b + c) == Survivors(a) + Survivors(b) + Survivors(c)
  {
    hide FullCount, Survivors;
    SplitFullCount(a, b);
    SplitFullCount(a + b, c);
    SplitSurvivors(a, b);
    SplitSurvivors(a + b, c);
  }

  lemma SingleRow(r: Row)
    ensures FullCount([r]) == Bit(FullRow(r)) && Survivors([r]) == if FullRow(r) then [] else [r]
  {
    hide FullRow;
  }

  lemma RowSplit(b: Board, y: int)
    requires 0 <= y < |b|
    ensures b == b[..y] + [b[y]] + b[y + 1..] && b[..y + 1] == b[..y] + [b[y]]
  {
  }

  lemma PartsCount(blank: Row, up: Board, full: Row, down: Board)
    requires !FullRow(blank) && FullRow(full)
    ensures FullCount([blank] + up + down) == FullCount(up + [full] + down) - 1
    ensures FullCount([blank] + up) == FullCount(up + [full]) - 1
  {
    hide FullRow, FullCount, Survivors;
    SingleRow(blank);
    SingleRow(full);
    ThreeParts([blank], up, down);
    ThreeParts(up, [full], down);
    SplitFullCount([blank], up);
    SplitFullCount(up, [full]);
  }

  lemma PartsSurvivors(blank: Row, up: Board, full: Row, down: Board)
    requires !FullRow(blank) && FullRow(full)
    ensures Survivors([blank] + up + down) == [blank] + Survivors(up + [full] + down)
  {
    hide FullRow, FullCount, Survivors;
    SingleRow(blank);
    SingleRow(full);
    ThreeParts([blank], up, down);
    ThreeParts(up, [full], down);
    assert Survivors(up) + [] + Survivors(down) == Survivors(up) + Survivors(down);
    assert [blank] + Survivors(up) + Survivors(down) == [blank] + (Survivors(up) + Survivors(down));
  }

  lemma CollapsedTop(b: Board, y: int, width: nat)
    requires 0 <= y < |b|
    ensures Collapsed(b, y, width)[..y + 1] == [EmptyRow(width)] + b[..y]
  {
  }

  /** Taking out a full row leaves one full row less, in particular among the rows 0..y, and adds one empty survivor on
      top. */
  lemma CollapsedClears(b: Board, y: int, width: nat)
    requires 0 <= y < |b| && FullRow(b[y]) && width > 0
    ensures FullCount(Collapsed(b, y, width)) == FullCount(b) - 1
    ensures FullCount(Collapsed(b, y, width)[..y + 1]) == FullCount(b[..y + 1]) - 1
    ensures Survivors(Collapsed(b, y, width)) == [EmptyRow(width)] + Survivors(b)
  {
    hide FullRow, EmptyRow, FullCount, Survivors;
    EmptyNotFull(width);
    RowSplit(b, y);
    CollapsedTop(b, y, width);
    PartsCount(EmptyRow(width), b[..y], b[y], b[y + 1..]);
    PartsSurvivors(EmptyRow(width), b[..y], b[y], b[y + 1..]);
  }

  lemma FullCountTail(b: Board, y: int)
    requires 0 <= y < |b| && !FullRow(b[y])
    ensures FullCount(b[..y + 1]) == FullCount(b[..y])
  {
    hide FullRow;
    assert b[..y + 1] == b[..y] + [b[y]];
    SplitFullCount(b[..y], [b[y]]);
    assert FullCount([b[y]]) == 0;
  }

  lemma PadMore(n: nat, width: nat, s: Board)
    ensures [EmptyRow(width)] + (EmptyRows(n, width) + s) == EmptyRows(n + 1, width) + s
  {
  }

  /** Scans from the bottom row up; a full row is taken out and the same row is looked at again. Any size of board. */
  method ClearRows(a: array2<int>) returns (cleared: nat)
    requires a.Length1 > 0
    modifies a
    ensures cleared == FullCount(old(Rows(a)))
    ensures Rows(a) == Cleared(old(Rows(a)), a.Length1)
  {
    hide FullRow, RowAt, FullCount, Survivors, EmptyRow, EmptyRows;
    ghost var b0 := Rows(a);
    cleared := 0;
    var y := a.Length0 - 1;
    assert Survivors(b0) == EmptyRows(0, a.Length1) + Survivors(b0);
    while y >= 0
      invariant -1 <= y < a.Length0
      invariant FullCount(Rows(a)) + cleared == FullCount(b0)
      invariant Survivors(Rows(a)) == EmptyRows(cleared, a.Length1) + Survivors(b0)
      invariant forall i :: y < i < a.Length0 ==> !FullRow(Rows(a)[i])
      decreases y + 1 + FullCount(Rows(a)[..y + 1])
    {
      ghost var b := Rows(a);
      var full := IsFull(a, y);
      if full {
        cleared := cleared + 1;
        Collapse(a, y);
        CollapsedClears(b, y, a.Length1);
        PadMore(cleared - 1, a.Length1, Survivors(b0));
      } else {
        FullCountTail(b, y);
        y := y - 1;
      }
    }
    NothingToClear(Rows(a));
  }

  // ----- Garbage

  method FillGarbageRow(a: array2<int>, y: int, hole: nat)
    requires a.Length1 == WIDTH && 0 <= y < a.Length0 && hole < WIDTH
    modifies a
    ensures RowAt(a, y) == Garbage.GarbageRow(hole)
    ensures forall y' :: 0 <= y' < a.Length0 && y' != y ==> RowAt(a, y') == old(RowAt(a, y'))
  {
    for x := 0 to WIDTH
      invariant forall x' :: 0 <= x' < x ==> a[y, x'] == if x' == hole then 0 else GARBAGE_CELL
      invariant forall y', x' :: 0 <= y' < a.Length0 && y' != y && 0 <= x' < WIDTH ==> a[y', x'] == old(a[y', x'])
    {
      if x == hole {
        a[y, x] := 0;
      } else {
        a[y, x] := GARBAGE_CELL;
      }
    }
  }

  /** Pushes the stack up and fills the bottom with holed rows. */
  method AddGarbage(a: array2<int>, lines: int, holes: Holes)
    requires Playfield(a)
    modifies a
    ensures Rows(a) == Garbage.AddGarbage(old(Rows(a)), lines, holes)
    ensures var n := Garbage.Clamp(lines);
            forall y, x :: 0 <= y < HEIGHT && 0 <= x < WIDTH ==>
              a[y, x] == if y + n < HEIGHT then old(a[y + n, x]) else if x == holes[y] then 0 else GARBAGE_CELL
  {
    ShiftCells(a, lines, holes);
    ghost var b := old(Rows(a));
    hide Garbage.AddGarbage;
    Garbage.AddGarbageClamps(b, lines, holes);
    Garbage.AddGarbageAt(b, Garbage.Clamp(lines), holes);
    forall y, x | 0 <= y < HEIGHT && 0 <= x < WIDTH ensures a[y, x] == Rows(a)[y][x] && old(a[y, x]) == b[y][x] {
    }
  }

  method ShiftCells(a: array2<int>, lines: int, holes: Holes)
    requires Playfield(a)
    modifies a
    ensures Rows(a) == Garbage.AddGarbage(old(Rows(a)), lines, holes)
  {
    hide RowAt, Garbage.GarbageRow;
    ghost var b := Rows(a);
    if lines <= 0 {
      assert b == b[0..] + [];
      return;
    }
    var n := if lines > HEIGHT then HEIGHT else lines;
    for y := 0 to HEIGHT - n
      invariant forall i :: 0 <= i < y ==> RowAt(a, i) == b[i + n]
      invariant forall i :: y <= i < HEIGHT ==> RowAt(a, i) == b[i]
    {
      CopyRow(a, y + n, y);
    }
    for y := HEIGHT - n to HEIGHT
      invariant forall i :: 0 <= i < HEIGHT - n ==> RowAt(a, i) == b[i + n]
      invariant forall i :: HEIGHT - n <= i < y ==> RowAt(a, i) == Garbage.GarbageRow(holes[i])
    {
      FillGarbageRow(a, y, holes[y]);
    }
    ghost var r, want := Rows(a), Garbage.AddGarbage(b, lines, holes);
    assert n == Garbage.Clamp(lines);
    forall i | 0 <= i < HEIGHT ensures r[i] == want[i] {
    }
  }
}
