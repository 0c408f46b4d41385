/** The seven tetrominoes, their rotations inside a 4x4 box, and the wall-kick tables. */
module Pieces {

  type Kind = k: int | 1 <= k <= 7 witness 1
  type Rotation = r: int | 0 <= r <= 3 witness 0

  const PIECE_I: Kind := 1
  const PIECE_O: Kind := 2
  const PIECE_T: Kind := 3

  /** The active piece: its box sits with its top-left corner at board position (x, y). */
  datatype Piece = Piece(kind: Kind, rot: Rotation, x: int, y: int)

  /** Whether index i of the flattened, unrotated 4x4 grid of a tetromino is solid. */
  predicate Tetromino(k: Kind, i: int)
  {
    match k
    case 1 => i == 4 || i == 5 || i == 6 || i == 7
    case 2 => i == 5 || i == 6 || i == 9 || i == 10
    case 3 => i == 5 || i == 8 || i == 9 || i == 10
    case 4 => i == 6 || i == 7 || i == 9 || i == 10
    case 5 => i == 4 || i == 5 || i == 9 || i == 10
    case 6 => i == 7 || i == 9 || i == 10 || i == 11
    case _ => i == 4 || i == 8 || i == 9 || i == 10
  }

  /** Index into the flattened 4x4 grid of box cell (px, py) when the piece is turned to `rot`. */
  function RotationIndex(px: int, py: int, rot: Rotation): (i: int)
    requires 0 <= px < 4 && 0 <= py < 4
    ensures 0 <= i < 16
  {
    if rot == 0 then px + py * 4
    else if rot == 1 then 12 + py - px * 4
    else if rot == 2 then 15 - py * 4 - px
    else 3 - py + px * 4
  }

  predicate Solid(k: Kind, rot: Rotation, px: int, py: int)
    requires 0 <= px < 4 && 0 <= py < 4
  {
    Tetromino(k, RotationIndex(px, py, rot))
  }

  function Bit(b: bool): nat {
    if b then 1 else 0
  }

  /** Number of solid cells in column px of the box, from row py down. */
  function ColumnCells(k: Kind, rot: Rotation, px: int, py: int): nat
    requires 0 <= px < 4 && 0 <= py <= 4
    decreases 4 - py
  {
    if py == 4 then 0 else Bit(Solid(k, rot, px, py)) + ColumnCells(k, rot, px, py + 1)
  }

  predicate TouchesRow(k: Kind, rot: Rotation, py: int)
    requires 0 <= py < 4
  {
    Solid(k, rot, 0, py) || Solid(k, rot, 1, py) || Solid(k, rot, 2, py) || Solid(k, rot, 3, py)
  }

  lemma ColumnByRows(k: Kind, rot: Rotation, px: int)
    requires 0 <= px < 4
    ensures ColumnCells(k, rot, px, 0) == Bit(Solid(k, rot, px, 0)) + Bit(Solid(k, rot, px, 1)) +
      Bit(Solid(k, rot, px, 2)) + Bit(Solid(k, rot, px, 3))
  {
    hide Solid;
    assert ColumnCells(k, rot, px, 2) == Bit(Solid(k, rot, px, 2)) + ColumnCells(k, rot, px, 3);
  }

  /** Turning once more clockwise is a quarter turn of the box: cell (px, py) shows what (py, 3 - px) showed. */
  lemma QuarterTurn(k: Kind, rot: Rotation, px: int, py: int)
    requires 0 <= px < 4 && 0 <= py < 4
    ensures Solid(k, (rot + 1) % 4, px, py) == Solid(k, rot, py, 3 - px)
  {
    assert RotationIndex(px, py, (rot + 1) % 4) == RotationIndex(py, 3 - px, rot);
  }

  /** The two middle rows of the box of an upright piece; the outer two are empty. */
  function Picture(k: Kind): (rows: seq<string>)
    ensures |rows| == 2 && |rows[0]| == |rows[1]| == 4
  {
    match k
    case 1 => ["####", "...."]
    case 2 => [".##.", ".##."]
    case 3 => [".#..", "###."]
    case 4 => ["..##", ".##."]
    case 5 => ["##..", ".##."]
    case 6 => ["...#", ".###"]
    case _ => ["#...", "###."]
  }

  /** The seven pieces as they appear, I, O, T, S, Z and the two hooks. With quarter turns this fixes every rotation. */
  lemma SevenPieces(k: Kind, px: int, py: int)
    requires 0 <= px < 4 && 0 <= py < 4
    ensures Solid(k, 0, px, py) <==> 1 <= py <= 2 && Picture(k)[py - 1][px] == '#'
  {
  }

  function RowCells(k: Kind, rot: Rotation, py: int): nat
    requires 0 <= py < 4
  {
    Bit(Solid(k, rot, 0, py)) + Bit(Solid(k, rot, 1, py)) + Bit(Solid(k, rot, 2, py)) + Bit(Solid(k, rot, 3, py))
  }

  /** Number of solid cells of the whole box, column by column as locking visits them. */
  function BoxCells(k: Kind, rot: Rotation): nat {
    ColumnCells(k, rot, 0, 0) + ColumnCells(k, rot, 1, 0) + ColumnCells(k, rot, 2, 0) + ColumnCells(k, rot, 3, 0)
  }

  lemma BoxByRows(k: Kind, rot: Rotation)
    ensures BoxCells(k, rot) == RowCells(k, rot, 0) + RowCells(k, rot, 1) + RowCells(k, rot, 2) + RowCells(k, rot, 3)
  {
    hide Solid, ColumnCells, Bit;
    ColumnByRows(k, rot, 0);
    ColumnByRows(k, rot, 1);
    ColumnByRows(k, rot, 2);
    ColumnByRows(k, rot, 3);
  }

  lemma ColumnIsTurnedRow(k: Kind, rot: Rotation, px: int)
    requires 0 <= px < 4 && rot < 3
    ensures ColumnCells(k, rot + 1, px, 0) == RowCells(k, rot, 3 - px)
  {
    hide Solid, ColumnCells, Bit;
    ColumnByRows(k, rot + 1, px);
    QuarterTurn(k, rot, px, 0);
    QuarterTurn(k, rot, px, 1);
    QuarterTurn(k, rot, px, 2);
    QuarterTurn(k, rot, px, 3);
  }

  function TopRowCells(k: Kind): nat {
    if k == 1 then 4 else if k == 3 || k == 6 || k == 7 then 1 else 2
  }

  lemma UprightTopRow(k: Kind)
    ensures RowCells(k, 0, 1) == TopRowCells(k)
  {
  }

  lemma UprightBottomRow(k: Kind)
    ensures RowCells(k, 0, 2) == 4 - TopRowCells(k)
  {
  }

  lemma UprightOuterRows(k: Kind)
    ensures RowCells(k, 0, 0) == 0 && RowCells(k, 0, 3) == 0
  {
    assert !TouchesRow(k, 0, 0);
    assert !TouchesRow(k, 0, 3);
  }

  lemma UprightCells(k: Kind)
    ensures RowCells(k, 0, 0) + RowCells(k, 0, 1) + RowCells(k, 0, 2) + RowCells(k, 0, 3) == 4
  {
    hide RowCells, TopRowCells;
    UprightOuterRows(k);
    UprightTopRow(k);
    UprightBottomRow(k);
  }

  /** Every tetromino has four cells in every rotation. */
  lemma {:induction false} FourCells(k: Kind, rot: Rotation)
    ensures BoxCells(k, rot) == 4
  {
    hide RowCells, ColumnCells;
    if rot == 0 {
      BoxByRows(k, 0);
      UprightCells(k);
    } else {
      FourCells(k, rot - 1);
      BoxByRows(k, rot - 1);
      ColumnIsTurnedRow(k, rot - 1, 0);
      ColumnIsTurnedRow(k, rot - 1, 1);
      ColumnIsTurnedRow(k, rot - 1, 2);
      ColumnIsTurnedRow(k, rot - 1, 3);
    }
  }

  /** Every tetromino except the I leaves the first or the last of the four box rows free, in every rotation. */
  lemma OnlyIFillsFourRows(k: Kind, rot: Rotation)
    requires k != PIECE_I
    ensures !TouchesRow(k, rot, 0) || !TouchesRow(k, rot, 3)
  {
  }
}
