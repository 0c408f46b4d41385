/** Rotation with wall kicks: five candidate offsets are tried in order and the first collision-free one is taken. */
module Rotations {
  import opened Pieces
  import opened Boards

  datatype Offset = Offset(dx: int, dy: int)

  function TransitionIndex(from: Rotation, to: Rotation): (t: nat)
    ensures t < 8
  {
    if from == 0 && to == 1 then 0
    else if from == 1 && to == 0 then 1
    else if from == 1 && to == 2 then 2
    else if from == 2 && to == 1 then 3
    else if from == 2 && to == 3 then 4
    else if from == 3 && to == 2 then 5
    else if from == 3 && to == 0 then 6
    else if from == 0 && to == 3 then 7
    else 0
  }

  function KicksJLSTZ(t: nat): (ks: seq<Offset>)
    ensures |ks| == 5
  {
    match t
    case 0 => [Offset(0, 0), Offset(-1, 0), Offset(-1, -1), Offset(0, 2), Offset(-1, 2)]
    case 1 => [Offset(0, 0), Offset(1, 0), Offset(1, 1), Offset(0, -2), Offset(1, -2)]
    case 2 => [Offset(0, 0), Offset(1, 0), Offset(1, 1), Offset(0, -2), Offset(1, -2)]
    case 3 => [Offset(0, 0), Offset(-1, 0), Offset(-1, -1), Offset(0, 2), Offset(-1, 2)]
    case 4 => [Offset(0, 0), Offset(1, 0), Offset(1, -1), Offset(0, 2), Offset(1, 2)]
    case 5 => [Offset(0, 0), Offset(-1, 0), Offset(-1, 1), Offset(0, -2), Offset(-1, -2)]
    case 6 => [Offset(0, 0), Offset(-1, 0), Offset(-1, 1), Offset(0, -2), Offset(-1, -2)]
    case _ => [Offset(0, 0), Offset(1, 0), Offset(1, -1), Offset(0, 2), Offset(1, 2)]
  }

  function KicksI(t: nat): (ks: seq<Offset>)
    ensures |ks| == 5
  {
    match t
    case 0 => [Offset(0, 0), Offset(-2, 0), Offset(1, 0), Offset(-2, 1), Offset(1, -2)]
    case 1 => [Offset(0, 0), Offset(2, 0), Offset(-1, 0), Offset(2, -1), Offset(-1, 2)]
    case 2 => [Offset(0, 0), Offset(-1, 0), Offset(2, 0), Offset(-1, -2), Offset(2, 1)]
    case 3 => [Offset(0, 0), Offset(1, 0), Offset(-2, 0), Offset(1, 2), Offset(-2, -1)]
    case 4 => [Offset(0, 0), Offset(2, 0), Offset(-1, 0), Offset(2, -1), Offset(-1, 2)]
    case 5 => [Offset(0, 0), Offset(-2, 0), Offset(1, 0), Offset(-2, 1), Offset(1, -2)]
    case 6 => [Offset(0, 0), Offset(1, 0), Offset(-2, 0), Offset(1, 2), Offset(-2, -1)]
    case _ => [Offset(0, 0), Offset(-1, 0), Offset(2, 0), Offset(-1, -2), Offset(2, 1)]
  }

  function Kick(k: Kind, from: Rotation, to: Rotation, i: int): Offset
    requires 0 <= i < 5
  {
    if k == PIECE_I then KicksI(TransitionIndex(from, to))[i]
    else if k == PIECE_O then Offset(0, 0)
    else KicksJLSTZ(TransitionIndex(from, to))[i]
  }

  /** The pose the i-th kick would move the piece to. */
  function Kicked(p: Piece, to: Rotation, i: int): Piece
    requires 0 <= i < 5
  {
    var o := Kick(p.kind, p.rot, to, i);
    Piece(p.kind, to, p.x + o.dx, p.y + o.dy)
  }

  /** Index of the first kick from i on that lands on a collision-free pose, or 5. */
  function FirstKick(b: Board, p: Piece, to: Rotation, i: int): (n: int)
    requires Shaped(b) && 0 <= i <= 5
    ensures i <= n <= 5
    ensures n < 5 ==> ValidPiece(b, Kicked(p, to, n))
    ensures forall j :: i <= j < n ==> !ValidPiece(b, Kicked(p, to, j))
    decreases 5 - i
  {
    if i == 5 || ValidPiece(b, Kicked(p, to, i)) then i else FirstKick(b, p, to, i + 1)
  }

  predicate CanRotate(b: Board, p: Piece, to: Rotation)
    requires Shaped(b)
  {
    FirstKick(b, p, to, 0) < 5
  }

  function Rotated(b: Board, p: Piece, to: Rotation): (r: Piece)
    requires Shaped(b)
    ensures r == p || (ValidPiece(b, r) && r.kind == p.kind && r.rot == to)
  {
    var n := FirstKick(b, p, to, 0);
    if n < 5 then Kicked(p, to, n) else p
  }

  function Clockwise(r: Rotation): Rotation {
    (r + 1) % 4
  }

  function CounterClockwise(r: Rotation): Rotation {
    (r + 3) % 4
  }

  predicate Neighbours(a: Rotation, b: Rotation) {
    b == Clockwise(a) || b == CounterClockwise(a)
  }

  // ----- Facts about the tables

  /** The kick list of the opposite transition is the pointwise negation. */
  lemma OppositeKickI(from: Rotation, to: Rotation, i: int)
    requires Neighbours(from, to) && 0 <= i < 5
    ensures var a, b := KicksI(TransitionIndex(from, to))[i], KicksI(TransitionIndex(to, from))[i];
            b.dx == -a.dx && b.dy == -a.dy
  {
  }

  lemma OppositeKickJLSTZ(from: Rotation, to: Rotation, i: int)
    requires Neighbours(from, to) && 0 <= i < 5
    ensures var a, b := KicksJLSTZ(TransitionIndex(from, to))[i], KicksJLSTZ(TransitionIndex(to, from))[i];
            b.dx == -a.dx && b.dy == -a.dy
  {
  }

  lemma OppositeKick(k: Kind, from: Rotation, to: Rotation, i: int)
    requires Neighbours(from, to) && 0 <= i < 5
    ensures Kick(k, to, from, i).dx == -Kick(k, from, to, i).dx && Kick(k, to, from, i).dy == -Kick(k, from, to, i).dy
  {
    hide KicksI, KicksJLSTZ, TransitionIndex, Neighbours;
    OppositeKickI(from, to, i);
    OppositeKickJLSTZ(from, to, i);
  }

  /** How far each of the five tries shifts a piece that stands in rotation `rot`. */
  function Shifts(k: Kind, rot: Rotation): (os: seq<Offset>)
    ensures |os| == 5
  {
    if k == PIECE_I then
      match rot
      case 0 => [Offset(0, 0), Offset(-1, 0), Offset(2, 0), Offset(-1, 0), Offset(2, 0)]
      case 1 => [Offset(0, 0), Offset(1, 0), Offset(1, 0), Offset(1, -1), Offset(1, 2)]
      case 2 => [Offset(0, 0), Offset(2, 0), Offset(-1, 0), Offset(2, 1), Offset(-1, 1)]
      case _ => [Offset(0, 0), Offset(0, 0), Offset(0, 0), Offset(0, 2), Offset(0, -1)]
    else if k == PIECE_O || rot % 2 == 0 then [Offset(0, 0), Offset(0, 0), Offset(0, 0), Offset(0, 0), Offset(0, 0)]
    else
      var side := if rot == 1 then 1 else -1;
      [Offset(0, 0), Offset(side, 0), Offset(side, 1), Offset(0, -2), Offset(side, -2)]
  }

  /** A kick is the difference of two shifts, one for the rotation left and one for the rotation reached, so kicks
      around a full turn cancel out. */
  lemma KicksAreDifferences(k: Kind, from: Rotation, to: Rotation, i: int)
    requires Neighbours(from, to) && 0 <= i < 5
    ensures Kick(k, from, to, i) ==
      Offset(Shifts(k, from)[i].dx - Shifts(k, to)[i].dx, Shifts(k, from)[i].dy - Shifts(k, to)[i].dy)
  {
  }

  /** A kick climbs at most two rows, and one that changes the row repeats the column of an earlier kick
      that does not. */
  lemma ClimbingKick(k: Kind, from: Rotation, to: Rotation, i: int) returns (j: int)
    requires 0 <= i < 5
    ensures 0 <= j <= i && Kick(k, from, to, j).dy == 0 && Kick(k, from, to, j).dx == Kick(k, from, to, i).dx
    ensures -2 <= Kick(k, from, to, i).dy <= 2
  {
    var t := TransitionIndex(from, to);
    hide TransitionIndex;
    if k == PIECE_O {
      j := i;
    } else if k == PIECE_I {
      j := if i == 3 then 1 else if i == 4 then 2 else i;
    } else {
      j := if i == 2 || i == 4 then 1 else if i == 3 then 0 else i;
    }
  }

  lemma KicksDistinctI(t: nat, i: int, j: int)
    requires 0 <= i < j < 5
    ensures KicksI(t)[i] != KicksI(t)[j]
  {
  }

  lemma KicksDistinctJLSTZ(t: nat, i: int, j: int)
    requires 0 <= i < j < 5
    ensures KicksJLSTZ(t)[i] != KicksJLSTZ(t)[j]
  {
  }

  /** Two kicks of one transition either differ, or the piece is an O and every kick is the same. */
  lemma KicksDistinct(k: Kind, from: Rotation, to: Rotation, i: int, j: int)
    requires 0 <= i < j < 5 && k != PIECE_O
    ensures Kick(k, from, to, i) != Kick(k, from, to, j)
  {
    hide KicksI, KicksJLSTZ, TransitionIndex;
    KicksDistinctI(TransitionIndex(from, to), i, j);
    KicksDistinctJLSTZ(TransitionIndex(from, to), i, j);
  }

  // ----- Rotation can be undone

  /** No kick of the way back that is tried before the n-th lands anywhere but on p itself. */
  ghost predicate NoEarlierLanding(b: Board, q: Piece, p: Piece, n: int)
    requires Shaped(b) && 0 <= n < 5
  {
    forall j :: 0 <= j < n && ValidPiece(b, Kicked(q, p.rot, j)) ==> Kicked(q, p.rot, j) == p
  }

  /** On every board: after a successful rotation of a collision-free piece the opposite rotation succeeds too,
      with the same kick or an earlier one. It restores the exact pose when the first rotation needed no kick,
      and in general exactly when no earlier kick of the way back lands somewhere else. */
  lemma RotationRecoverable(b: Board, p: Piece, to: Rotation)
    requires Shaped(b) && ValidPiece(b, p) && Neighbours(p.rot, to) && CanRotate(b, p, to)
    ensures var n, q := FirstKick(b, p, to, 0), Rotated(b, p, to);
            && CanRotate(b, q, p.rot)
            && FirstKick(b, q, p.rot, 0) <= n
            && (n == 0 ==> Rotated(b, q, p.rot) == p)
            && (Rotated(b, q, p.rot) == p <==> NoEarlierLanding(b, q, p, n))
  {
    hide Kick, ValidPiece, Neighbours;
    var n := FirstKick(b, p, to, 0);
    var q := Rotated(b, p, to);
    OppositeKick(p.kind, p.rot, to, n);
    assert Kicked(q, p.rot, n) == p;
    var m := FirstKick(b, q, p.rot, 0);
    if m < n && Kicked(q, p.rot, m) == p {
      SameLandingIsO(q, p.rot, m, n);
    }
  }

  lemma SameLandingIsO(q: Piece, to: Rotation, m: int, n: int)
    requires 0 <= m < n < 5 && Kicked(q, to, m) == Kicked(q, to, n)
    ensures forall j :: 0 <= j < 5 ==> Kicked(q, to, j) == Kicked(q, to, n)
  {
    if q.kind != PIECE_O {
      hide Kick;
      KicksDistinct(q.kind, q.rot, to, m, n);
    }
  }

  lemma EmptyBoardFits(x: int, y: int)
    requires 0 <= x < WIDTH && y < HEIGHT
    ensures Shaped(EmptyRows(HEIGHT, WIDTH)) && Fits(EmptyRows(HEIGHT, WIDTH), x, y)
  {
  }

  /** Exact restoration does fail: a T on the right wall kicks left when it turns, and turning back does not kick. */
  lemma RotationNotAlwaysRestored()
    ensures var b, p := EmptyRows(HEIGHT, WIDTH), Piece(PIECE_T, 3, 7, 5);
            Shaped(b) && ValidPiece(b, p) && CanRotate(b, p, 2) &&
              Rotated(b, Rotated(b, p, 2), 3) == Piece(PIECE_T, 3, 6, 5)
  {
    var b, p := EmptyRows(HEIGHT, WIDTH), Piece(PIECE_T, 3, 7, 5);
    EmptyBoardFits(0, 0);
    hide EmptyRows;
    forall x, y | 0 <= x < WIDTH && y < HEIGHT ensures Fits(b, x, y) {
      EmptyBoardFits(x, y);
    }
    assert ValidPiece(b, p);
    var q := Piece(PIECE_T, 2, 6, 5);
    assert Kicked(p, 2, 0) == Piece(PIECE_T, 2, 7, 5) && Kicked(p, 2, 1) == q;
    assert !ValidPiece(b, Kicked(p, 2, 0)) by {
      assert Solid(PIECE_T, 2, 3, 1) && !Fits(b, 7 + 3, 5 + 1);
    }
    assert ValidPiece(b, q);
    assert FirstKick(b, p, 2, 0) == 1;
    assert Kicked(q, 3, 0) == Piece(PIECE_T, 3, 6, 5);
    assert ValidPiece(b, Kicked(q, 3, 0));
  }

  /** An I that stands against a wall turns by being pushed two columns off it. */
  lemma TurnsOffTheWall(y: int)
    requires 0 <= y <= 15
    ensures var b := EmptyRows(HEIGHT, WIDTH);
            && Shaped(b) && ValidPiece(b, Piece(PIECE_I, 1, -2, y)) && ValidPiece(b, Piece(PIECE_I, 3, 8, y))
            && Rotated(b, Piece(PIECE_I, 1, -2, y), 2) == Piece(PIECE_I, 2, 0, y)
            && Rotated(b, Piece(PIECE_I, 3, 8, y), 2) == Piece(PIECE_I, 2, 6, y)
  {
    var b := EmptyRows(HEIGHT, WIDTH);
    EmptyBoardFits(0, 0);
    hide EmptyRows;
    forall x, y | 0 <= x < WIDTH && y < HEIGHT ensures Fits(b, x, y) {
      EmptyBoardFits(x, y);
    }
    var left, right := Piece(PIECE_I, 1, -2, y), Piece(PIECE_I, 3, 8, y);
    LyingI(b, -2, y);
    LyingI(b, -3, y);
    LyingI(b, 0, y);
    LyingI(b, 8, y);
    LyingI(b, 6, y);
    assert FirstKick(b, left, 2, 0) == 2;
    assert FirstKick(b, right, 2, 0) == 1;
  }

  lemma LyingI(b: Board, x: int, y: int)
    requires Shaped(b) && 0 <= y <= 15 && forall x, y :: 0 <= x < WIDTH && y < HEIGHT ==> Fits(b, x, y)
    ensures ValidPiece(b, Piece(PIECE_I, 2, x, y)) <==> 0 <= x <= 6
  {
    if ValidPiece(b, Piece(PIECE_I, 2, x, y)) {
      assert Solid(PIECE_I, 2, 0, 2) && Solid(PIECE_I, 2, 3, 2);
      assert Fits(b, x + 0, y + 2) && Fits(b, x + 3, y + 2);
    }
  }

  // ----- Kicks cannot climb

  /** Above the board only the side walls matter, so the row does not. */
  lemma RowIrrelevantAbove(b: Board, k: Kind, rot: Rotation, x: int, y: int, y': int)
    requires Shaped(b) && y < -3 && y' <= y
    ensures ValidPos(b, k, rot, x, y) == ValidPos(b, k, rot, x, y')
  {
    hide Solid;
    if ValidPos(b, k, rot, x, y) {
      forall px, py | 0 <= px < 4 && 0 <= py < 4 && Solid(k, rot, px, py) ensures Fits(b, x + px, y' + py) {
        assert Fits(b, x + px, y + py);
      }
    } else {
      var px, py :| 0 <= px < 4 && 0 <= py < 4 && Solid(k, rot, px, py) && !Fits(b, x + px, y + py);
      assert !Fits(b, x + px, y' + py);
    }
  }

  /** No rotation takes a piece above row -5: a kick that climbs is tried only after the same column failed
      without climbing, and that can only happen while the box still reaches the board. */
  lemma RotationFloor(b: Board, p: Piece, to: Rotation)
    requires Shaped(b) && p.y >= -5
    ensures Rotated(b, p, to).y >= -5
  {
    hide Kick, ValidPos;
    var n := FirstKick(b, p, to, 0);
    if n < 5 {
      var j := ClimbingKick(p.kind, p.rot, to, n);
      var o := Kick(p.kind, p.rot, to, n);
      if o.dy < 0 && p.y < -3 {
        assert j < n && !ValidPiece(b, Kicked(p, to, j));
        RowIrrelevantAbove(b, p.kind, to, p.x + o.dx, p.y, p.y + o.dy);
        assert false;
      }
    }
  }
}
