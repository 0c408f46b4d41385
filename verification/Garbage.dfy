/** Garbage: pushed in at the bottom of a board, queued in the pending meter, and computed from line clears. */
module Garbage {
  import opened Pieces
  import opened Boards

  function Clamp(lines: int): (n: nat)
    ensures n <= HEIGHT && n <= if lines <= 0 then 0 else lines
  {
    if lines <= 0 then 0 else if lines > HEIGHT then HEIGHT else lines
  }

  function GarbageRow(hole: nat): (r: Row)
    requires hole < WIDTH
    ensures |r| == WIDTH && r[hole] == 0 && forall x :: 0 <= x < WIDTH ==> r[x] == if x == hole then 0 else GARBAGE_CELL
  {
    seq(WIDTH, x => if x == hole then 0 else GARBAGE_CELL)
  }

  function GarbageRows(n: nat, holes: Holes): (b: Board)
    requires n <= HEIGHT
    ensures |b| == n && forall i :: 0 <= i < n ==> b[i] == GarbageRow(holes[HEIGHT - n + i])
  {
    seq(n, i requires 0 <= i < n => GarbageRow(holes[HEIGHT - n + i]))
  }

  /** The stack moves up by the number of lines, capped at the board height, and holed rows fill the bottom. */
  function AddGarbage(b: Board, lines: int, holes: Holes): (r: Board)
    requires Shaped(b)
    ensures Shaped(r)
  {
    var n := Clamp(lines);
    b[n..] + GarbageRows(n, holes)
  }

  /** Cell by cell: the stack is lifted by as many rows as come in, and each row that comes in is garbage with one
      hole. */
  lemma AddGarbageAt(b: Board, lines: nat, holes: Holes)
    requires Shaped(b) && lines <= HEIGHT
    ensures forall y, x :: 0 <= y < HEIGHT && 0 <= x < WIDTH ==>
      AddGarbage(b, lines, holes)[y][x] ==
        if y + lines < HEIGHT then b[y + lines][x] else if x == holes[y] then 0 else GARBAGE_CELL
  {
    var r := AddGarbage(b, lines, holes);
    forall y, x | 0 <= y < HEIGHT && 0 <= x < WIDTH
      ensures r[y][x] == if y + lines < HEIGHT then b[y + lines][x] else if x == holes[y] then 0 else GARBAGE_CELL
    {
      if y + lines < HEIGHT {
        assert r[y] == b[y + lines];
      } else {
        assert r[y] == GarbageRow(holes[y]);
      }
    }
  }

  /** More than a board of lines is a board of lines, and none or fewer is none. */
  lemma AddGarbageClamps(b: Board, lines: int, holes: Holes)
    requires Shaped(b)
    ensures AddGarbage(b, lines, holes) == AddGarbage(b, Clamp(lines), holes)
    ensures Clamp(lines) == if lines < 0 then 0 else if lines < HEIGHT then lines else HEIGHT
  {
  }

  lemma NoneAdded(b: Board, holes: Holes)
    requires Shaped(b)
    ensures AddGarbage(b, 0, holes) == b
  {
    assert b[0..] == b && GarbageRows(0, holes) == [];
  }

  /** Garbage rows keep a hole, so insertion never creates a full row. */
  lemma AddGarbageKeeps(b: Board, lines: int, holes: Holes)
    requires Shaped(b) && CellsInRange(b) && NoFullRow(b)
    ensures CellsInRange(AddGarbage(b, lines, holes)) && NoFullRow(AddGarbage(b, lines, holes))
  {
    var n := Clamp(lines);
    var r := AddGarbage(b, lines, holes);
    forall y | 0 <= y < HEIGHT
      ensures !FullRow(r[y]) && forall x :: 0 <= x < WIDTH ==> 0 <= r[y][x] <= 8
    {
      if y < HEIGHT - n {
        assert r[y] == b[y + n];
      } else {
        assert r[y] == GarbageRow(holes[y]);
        assert r[y][holes[y]] == 0;
      }
    }
  }

  lemma {:induction false} AllSetCount(r: Row)
    requires forall x :: 0 <= x < |r| ==> r[x] != 0
    ensures RowCount(r) == |r|
  {
    RowCountFull(r);
  }

  lemma GarbageRowCount(hole: nat)
    requires hole < WIDTH
    ensures RowCount(GarbageRow(hole)) == WIDTH - 1
  {
    hide RowCount;
    var r := GarbageRow(hole);
    AllSetCount(r[hole := GARBAGE_CELL]);
    RowCountSet(r, hole, GARBAGE_CELL);
  }

  lemma {:induction false} UniformCount(b: Board, each: nat)
    requires forall y :: 0 <= y < |b| ==> RowCount(b[y]) == each
    ensures Occupied(b) == each * |b|
  {
    hide RowCount;
    if b != [] {
      UniformCount(b[1..], each);
      assert each * (1 + (|b| - 1)) == each + each * (|b| - 1);
    }
  }

  /** Inserting n rows adds nine cells each and loses exactly what stood in the top n rows. */
  lemma OccupiedAddGarbage(b: Board, lines: int, holes: Holes)
    requires Shaped(b)
    ensures Occupied(AddGarbage(b, lines, holes))
         == Occupied(b) + 9 * Clamp(lines) - Occupied(b[..Clamp(lines)])
  {
    hide Occupied, RowCount, GarbageRow;
    var n := Clamp(lines);
    assert b == b[..n] + b[n..];
    OccupiedSplit(b[..n], b[n..]);
    OccupiedSplit(b[n..], GarbageRows(n, holes));
    forall i | 0 <= i < n ensures RowCount(GarbageRows(n, holes)[i]) == 9 {
      GarbageRowCount(holes[HEIGHT - n + i]);
    }
    UniformCount(GarbageRows(n, holes), 9);
  }

  /** The pending meter after `lines` more arrive: it saturates at the board height. */
  function Queued(pending: nat, lines: int): nat {
    if lines <= 0 then pending else if pending + lines > HEIGHT then HEIGHT else pending + lines
  }

  /** The meter rises by what arrives, up to the board height; what would not fit is lost. */
  lemma QueuedRises(pending: nat, lines: nat)
    requires pending <= HEIGHT
    ensures Queued(pending, lines) + Excess(pending, lines) == pending + lines
    ensures Queued(pending, lines) <= HEIGHT && (Excess(pending, lines) > 0 ==> Queued(pending, lines) == HEIGHT)
  {
  }

  /** The lines of an attack that the meter has no room for. */
  function Excess(pending: nat, lines: nat): nat {
    if pending + lines > HEIGHT then pending + lines - HEIGHT else 0
  }

  // ----- Damage

  function ComboBonus(combo: int): (bonus: nat)
    ensures bonus <= 5
  {
    if combo <= 0 then 0
    else if combo < 12 then [0, 0, 1, 1, 2, 2, 3, 3, 4, 4, 4, 5][combo]
    else 5
  }

  datatype Damage = Damage(lines: nat, combo: int, b2b: bool)

  /** Lines of damage for a clear, with the combo and back-to-back status it leaves behind. */
  function Calculate(combo: int, b2b: bool, cleared: nat, tSpin: bool): Damage {
    if cleared == 0 then Damage(0, -1, b2b)
    else
      var difficult := tSpin || cleared == 4;
      var base := if tSpin then cleared * 2 else if cleared == 2 then 1 else if cleared == 3 then 3
        else if cleared == 4 then 4 else 0;
      Damage(base + Bit(difficult && b2b) + ComboBonus(combo + 1), combo + 1, difficult)
  }

  /** Twelve lines is the most one lock can deal: a T-spin clears at most three rows, anything else at most four. */
  lemma DamageBound(combo: int, b2b: bool, cleared: nat, tSpin: bool)
    requires cleared <= 4 && (tSpin ==> cleared <= 3)
    ensures Calculate(combo, b2b, cleared, tSpin).lines <= 12
  {
    hide ComboBonus;
  }

  /** ... and it is reached, by a back-to-back T-spin triple deep in a combo. */
  lemma DamageBoundReached()
    ensures Calculate(11, true, 3, true).lines == 12
  {
  }

  /** What an attack does to the pending meter and what is left to send. */
  datatype Exchange = Exchange(outgoing: nat, pending: nat)

  function Cancel(damage: nat, pending: nat): Exchange {
    if damage > 0 && pending > 0 then
      if damage >= pending then Exchange(damage - pending, 0) else Exchange(0, pending - damage)
    else Exchange(damage, pending)
  }

  /** Cancellation is exact: what is not sent was taken off the meter, and one of the two always reaches zero. */
  lemma CancelConserves(damage: nat, pending: nat)
    ensures var e := Cancel(damage, pending);
            damage - e.outgoing == pending - e.pending && (e.outgoing == 0 || e.pending == 0) && e.pending <= pending
  {
  }
}
