/** What locking a collision-free piece does to the cell count and to the full rows. */
module Locking {
  import opened Pieces
  import opened Boards

  // ----- Locking adds four cells

  lemma SetCellCount(b: Board, x: int, y: int, v: int)
    requires Shaped(b) && 0 <= x < WIDTH && 0 <= y < HEIGHT && b[y][x] == 0 && v != 0
    ensures Occupied(SetCell(b, x, y, v)) == Occupied(b) + 1
  {
    hide Occupied, RowCount;
    RowCountSet(b[y], x, v);
    OccupiedSetRow(b, y, b[y][x := v]);
  }

  /** The solid cells of box column px from row py down are on the board and empty. */
  ghost predicate ColumnFree(b: Board, p: Piece, px: int, py: int)
    requires Shaped(b) && 0 <= px < 4 && 0 <= py <= 4
  {
    forall q | py <= q < 4 && Solid(p.kind, p.rot, px, q) :: Fits(b, p.x + px, p.y + q)
  }

  lemma {:induction false} LockColumnCount(b: Board, p: Piece, px: int, py: int)
    requires Shaped(b) && 0 <= px < 4 && 0 <= py <= 4 && p.y >= 0 && ColumnFree(b, p, px, py)
    ensures Occupied(LockColumn(b, p, px, py)) == Occupied(b) + ColumnCells(p.kind, p.rot, px, py)
    decreases 4 - py
  {
    hide Solid, Occupied;
    if py < 4 {
      if Solid(p.kind, p.rot, px, py) {
        assert Fits(b, p.x + px, p.y + py);
        SetCellCount(b, p.x + px, p.y + py, p.kind);
        LockColumnCount(SetCell(b, p.x + px, p.y + py, p.kind), p, px, py + 1);
      } else {
        LockColumnCount(b, p, px, py + 1);
      }
    }
  }

  lemma LockColumnKeepsOthers(b: Board, p: Piece, px: int, other: int)
    requires Shaped(b) && 0 <= px < other < 4 && p.y >= 0 && ColumnFree(b, p, other, 0)
    ensures ColumnFree(LockColumn(b, p, px, 0), p, other, 0)
  {
    hide Solid, LockColumn;
    forall q | 0 <= q < 4 && Solid(p.kind, p.rot, other, q)
      ensures Fits(LockColumn(b, p, px, 0), p.x + other, p.y + q)
    {
      assert Fits(b, p.x + other, p.y + q);
      LockColumnAt(b, p, px, 0, p.x + other, p.y + q);
    }
  }

  function CellsFrom(k: Kind, rot: Rotation, px: int): nat
    requires 0 <= px <= 4
    decreases 4 - px
  {
    if px == 4 then 0 else ColumnCells(k, rot, px, 0) + CellsFrom(k, rot, px + 1)
  }

  lemma {:induction false} LockFromCount(b: Board, p: Piece, px: int)
    requires Shaped(b) && 0 <= px <= 4 && p.y >= 0 && forall c :: px <= c < 4 ==> ColumnFree(b, p, c, 0)
    ensures Occupied(LockFrom(b, p, px)) == Occupied(b) + CellsFrom(p.kind, p.rot, px)
    decreases 4 - px
  {
    hide Solid, Occupied, LockColumn, ColumnCells, ColumnFree;
    if px < 4 {
      LockColumnCount(b, p, px, 0);
      forall c | px + 1 <= c < 4
        ensures ColumnFree(LockColumn(b, p, px, 0), p, c, 0)
      {
        LockColumnKeepsOthers(b, p, px, c);
      }
      LockFromCount(LockColumn(b, p, px, 0), p, px + 1);
    }
  }

  lemma CellsFromZero(k: Kind, rot: Rotation)
    ensures CellsFrom(k, rot, 0) == 4
  {
    hide ColumnCells;
    FourCells(k, rot);
    assert CellsFrom(k, rot, 2) == ColumnCells(k, rot, 2, 0) + CellsFrom(k, rot, 3);
  }

  /** A collision-free piece that is not above the board adds exactly four cells when it locks. */
  lemma LockAddsFour(b: Board, p: Piece)
    requires Shaped(b) && ValidPiece(b, p) && p.y >= 0
    ensures Occupied(Lock(b, p)) == Occupied(b) + 4
  {
    hide Solid, Occupied, LockFrom, Fits;
    forall c | 0 <= c < 4 ensures ColumnFree(b, p, c, 0) {
    }
    LockFromCount(b, p, 0);
    CellsFromZero(p.kind, p.rot);
  }

  lemma LockCellsInRange(b: Board, p: Piece)
    requires Shaped(b) && CellsInRange(b)
    ensures CellsInRange(Lock(b, p))
  {
    hide Solid, LockFrom, Lock;
    forall y, x | 0 <= y < HEIGHT && 0 <= x < WIDTH
      ensures 0 <= Lock(b, p)[y][x] <= 8
    {
      LockAt(b, p, x, y);
    }
  }

  // ----- Which rows can a lock complete

  ghost function FullSet(b: Board): set<int> {
    set y | 0 <= y < |b| && FullRow(b[y])
  }

  lemma {:induction false} FullSetCount(b: Board)
    ensures |FullSet(b)| == FullCount(b)
  {
    hide FullRow;
    if b == [] {
      assert FullSet(b) == {};
    } else {
      var n := |b| - 1;
      FullSetCount(b[..n]);
      assert b == b[..n] + [b[n]];
      SplitFullCount(b[..n], [b[n]]);
      assert FullCount([b[n]]) == Bit(FullRow(b[n]));
      if FullRow(b[n]) {
        assert FullSet(b) == FullSet(b[..n]) + {n};
      } else {
        assert FullSet(b) == FullSet(b[..n]);
      }
    }
  }

  /** A row that locking completes is one the piece has a cell in. */
  lemma CompletedRowIsTouched(b: Board, p: Piece, y: int)
    requires Shaped(b) && 0 <= y < HEIGHT
    requires !FullRow(b[y]) && FullRow(Lock(b, p)[y])
    ensures 0 <= y - p.y < 4 && TouchesRow(p.kind, p.rot, y - p.y)
  {
    hide Solid, Lock;
    var x :| 0 <= x < |b[y]| && b[y][x] == 0;
    LockAt(b, p, x, y);
    assert Lock(b, p)[y][x] != 0;
    assert Covers(p, x, y);
  }

  lemma SubsetSize(s: set<int>, t: set<int>)
    requires s <= t
    ensures |s| <= |t|
  {
    assert t == s + (t - s);
  }

  /** On a board without full rows a lock completes at most four rows, and at most three unless the piece is an I. */
  lemma LockCompletes(b: Board, p: Piece)
    requires Shaped(b) && NoFullRow(b)
    ensures FullCount(Lock(b, p)) <= 4
    ensures p.kind != PIECE_I ==> FullCount(Lock(b, p)) <= 3
  {
    hide Solid, Lock, FullRow, TouchesRow;
    var full := FullSet(Lock(b, p));
    forall y | y in full ensures 0 <= y - p.y < 4 && TouchesRow(p.kind, p.rot, y - p.y) {
      CompletedRowIsTouched(b, p, y);
    }
    FullSetCount(Lock(b, p));
    var rows := {p.y, p.y + 1, p.y + 2, p.y + 3};
    SubsetSize(full, rows);
    if p.kind != PIECE_I {
      OnlyIFillsFourRows(p.kind, p.rot);
      if TouchesRow(p.kind, p.rot, 0) {
        SubsetSize(full, {p.y, p.y + 1, p.y + 2});
      } else {
        SubsetSize(full, {p.y + 1, p.y + 2, p.y + 3});
      }
    }
  }
}
