/** A player on an empty board can send garbage: four pieces, the last a T turned into place at the wall, clear one line
    with a T-spin and send two. One complete game that does it. */
module FirstShots {
  import opened Basics
  import opened Pieces
  import opened Boards
  import opened Engine
  import opened EngineRuns
  import Garbage
  import Locking
  import Rotations
  import Shuffling
  import Targeting

  /** Actions one after another, first to last. */
  function Do(g: Game, actions: seq<Action>, roster: Targeting.Roster, d: Dice): (r: Game)
    requires Sized(g)
    ensures Sized(r)
    decreases |actions|
  {
    if actions == [] then g
    else Do(ApplyAction(g, actions[0], roster, d), actions[1..], roster, d)
  }

  function Inputs(actions: seq<Action>, roster: Targeting.Roster, d: Dice): (inputs: seq<Input>)
    ensures |inputs| == |actions|
  {
    seq(|actions|, i requires 0 <= i < |actions| => Act(actions[i], roster, d))
  }

  lemma {:induction false} DoTwice(g: Game, a: seq<Action>, b: seq<Action>, roster: Targeting.Roster, d: Dice)
    requires Sized(g)
    ensures Do(g, a + b, roster, d) == Do(Do(g, a, roster, d), b, roster, d)
    decreases |a|
  {
    hide ApplyAction, Sized;
    if a == [] {
      assert a + b == b;
    } else {
      assert (a + b)[1..] == a[1..] + b;
      DoTwice(ApplyAction(g, a[0], roster, d), a[1..], b, roster, d);
    }
  }

  lemma DoOne(g: Game, a: Action, roster: Targeting.Roster, d: Dice)
    requires Sized(g)
    ensures Do(g, [a], roster, d) == ApplyAction(g, a, roster, d)
  {
    hide ApplyAction;
    assert [a][1..] == [];
  }

  /** The same as a run of the game. */
  lemma {:induction false} DoIsRun(g: Game, actions: seq<Action>, roster: Targeting.Roster, d: Dice)
    requires Sized(g)
    ensures Run(g, Inputs(actions, roster, d)) == Do(g, actions, roster, d)
  {
    hide ApplyAction, Sized;
    if actions != [] {
      var n := |actions| - 1;
      DoIsRun(g, actions[..n], roster, d);
      assert Inputs(actions, roster, d)[..n] == Inputs(actions[..n], roster, d);
      assert actions == actions[..n] + [actions[n]];
      DoTwice(g, actions[..n], [actions[n]], roster, d);
      DoOne(Do(g, actions[..n], roster, d), actions[n], roster, d);
    }
  }

  // ----- Where the cells of the four pieces are

  /** The I, the J, the O upright, and the T upright, turned once and turned twice. */
  predicate Used(k: Kind, rot: Rotation) {
    (rot == 0 && (k == 1 || k == 7 || k == 2)) || (k == 3 && rot <= 2)
  }

  predicate Looks(k: Kind, rot: Rotation, px: int, py: int)
    requires Used(k, rot)
  {
    if k == 1 then py == 1
    else if k == 7 then (py == 1 && px == 0) || (py == 2 && px <= 2)
    else if k == 2 then 1 <= px <= 2 && 1 <= py <= 2
    else if rot == 0 then (py == 1 && px == 1) || (py == 2 && px <= 2)
    else if rot == 1 then (px == 1 && py <= 2) || (px == 2 && py == 1)
    else (py == 1 && px >= 1) || (py == 2 && px == 2)
  }

  lemma Figure(k: Kind, rot: Rotation, px: int, py: int)
    requires Used(k, rot) && 0 <= px < 4 && 0 <= py < 4
    ensures Solid(k, rot, px, py) == Looks(k, rot, px, py)
  {
  }

  /** The stack after the first n pieces. */
  predicate Pile(n: nat, x: int, y: int) {
    || (n >= 1 && y == 19 && 1 <= x <= 4)
    || (n >= 2 && ((y == 18 && x == 5) || (y == 19 && 5 <= x <= 7)))
    || (n >= 3 && 18 <= y <= 19 && 8 <= x <= 9)
  }

  ghost predicate Holds(b: Board, n: nat) {
    Shaped(b) && forall x, y :: 0 <= x < WIDTH && 0 <= y < HEIGHT ==> (b[y][x] != 0 <==> Pile(n, x, y))
  }

  /** A pose in which every cell is between the walls, above the floor and off the stack. */
  predicate Clear(n: nat, p: Piece)
    requires Used(p.kind, p.rot)
  {
    forall px, py | 0 <= px < 4 && 0 <= py < 4 && Looks(p.kind, p.rot, px, py) ::
      0 <= p.x + px < WIDTH && p.y + py < HEIGHT && !Pile(n, p.x + px, p.y + py)
  }

  lemma ClearIsValid(b: Board, n: nat, p: Piece)
    requires Holds(b, n) && Used(p.kind, p.rot) && Clear(n, p)
    ensures ValidPiece(b, p)
  {
    hide Solid, Looks, Pile;
    forall px, py | 0 <= px < 4 && 0 <= py < 4 && Solid(p.kind, p.rot, px, py) ensures Fits(b, p.x + px, p.y + py) {
      Figure(p.kind, p.rot, px, py);
    }
  }

  lemma BlockedBy(b: Board, n: nat, p: Piece, px: int, py: int)
    requires Holds(b, n) && Used(p.kind, p.rot) && 0 <= px < 4 && 0 <= py < 4 && Looks(p.kind, p.rot, px, py)
    requires p.y + py >= HEIGHT
    ensures !ValidPiece(b, p)
  {
    hide Solid, Looks, Pile;
    Figure(p.kind, p.rot, px, py);
  }

  lemma {:induction false} DropTo(b: Board, p: Piece, y: int)
    requires Shaped(b) && p.y <= y && !ValidPiece(b, p.(y := y + 1))
    requires forall z :: p.y < z <= y ==> ValidPiece(b, p.(y := z))
    ensures DropPiece(b, p) == p.(y := y)
    decreases y - p.y
  {
    hide ValidPiece, Shaped;
    if p.y < y {
      assert Shifted(p, 0, 1) == p.(y := p.y + 1);
      DropTo(b, p.(y := p.y + 1), y);
    }
  }

  // ----- Sliding

  function Times(a: Action, n: nat): (s: seq<Action>)
    ensures |s| == n && forall i :: 0 <= i < n ==> s[i] == a
  {
    seq(n, _ => a)
  }

  function Slid(g: Game, x: int): Game {
    g.(current := g.current.(x := x), lastActionRotation := false, lockTimer := 0)
  }

  lemma OneLeft(g: Game, roster: Targeting.Roster, d: Dice)
    requires Sized(g) && !g.gameOver && ValidPiece(g.board, g.current.(x := g.current.x - 1))
    ensures ApplyAction(g, MoveLeft, roster, d) == Slid(g, g.current.x - 1)
  {
    hide ValidPiece, Shaped;
    assert Shifted(g.current, -1, 0) == g.current.(x := g.current.x - 1);
  }

  lemma OneRight(g: Game, roster: Targeting.Roster, d: Dice)
    requires Sized(g) && !g.gameOver && ValidPiece(g.board, g.current.(x := g.current.x + 1))
    ensures ApplyAction(g, MoveRight, roster, d) == Slid(g, g.current.x + 1)
  {
    hide ValidPiece, Shaped;
    assert Shifted(g.current, 1, 0) == g.current.(x := g.current.x + 1);
  }

  lemma {:induction false} SlideLeft(g: Game, n: nat, roster: Targeting.Roster, d: Dice)
    requires Sized(g) && !g.gameOver && n >= 1
    requires forall z :: g.current.x - n <= z < g.current.x ==> ValidPiece(g.board, g.current.(x := z))
    ensures Do(g, Times(MoveLeft, n), roster, d) == Slid(g, g.current.x - n)
    decreases n
  {
    hide ValidPiece, Shaped, ApplyAction;
    OneLeft(g, roster, d);
    var h := Slid(g, g.current.x - 1);
    assert Times(MoveLeft, n)[1..] == Times(MoveLeft, n - 1);
    if n > 1 {
      forall z | h.current.x - (n - 1) <= z < h.current.x ensures ValidPiece(h.board, h.current.(x := z)) {
        assert h.current.(x := z) == g.current.(x := z);
      }
      SlideLeft(h, n - 1, roster, d);
    }
  }

  lemma {:induction false} SlideRight(g: Game, n: nat, roster: Targeting.Roster, d: Dice)
    requires Sized(g) && !g.gameOver && n >= 1
    requires forall z :: g.current.x < z <= g.current.x + n ==> ValidPiece(g.board, g.current.(x := z))
    ensures Do(g, Times(MoveRight, n), roster, d) == Slid(g, g.current.x + n)
    decreases n
  {
    hide ValidPiece, Shaped, ApplyAction;
    OneRight(g, roster, d);
    var h := Slid(g, g.current.x + 1);
    assert Times(MoveRight, n)[1..] == Times(MoveRight, n - 1);
    if n > 1 {
      forall z | h.current.x < z <= h.current.x + (n - 1) ensures ValidPiece(h.board, h.current.(x := z)) {
        assert h.current.(x := z) == g.current.(x := z);
      }
      SlideRight(h, n - 1, roster, d);
    }
  }

  /** Where nothing is in the way a turn needs no kick. */
  lemma TurnInPlace(g: Game, to: Rotation)
    requires Sized(g) && g.current.kind == PIECE_T && ValidPiece(g.board, g.current.(rot := to))
    ensures Rotate(g, to) == g.(current := g.current.(rot := to), lastActionRotation := true)
  {
    hide ValidPiece, Shaped;
    assert Rotations.Kick(PIECE_T, g.current.rot, to, 0) == Rotations.Offset(0, 0);
    assert Rotations.Kicked(g.current, to, 0) == g.current.(rot := to);
  }

  // ----- Locking the first three pieces

  const ORDER: seq<Kind> := [1, 7, 2, 3, 4, 5, 6]

  function Rest(n: nat): Piece {
    if n == 0 then Piece(1, 0, 1, 18) else if n == 1 then Piece(7, 0, 5, 17) else Piece(2, 0, 7, 17)
  }

  lemma CoversRest(n: nat, x: int, y: int)
    requires n < 3 && 0 <= x < WIDTH && 0 <= y < HEIGHT
    ensures Covers(Rest(n), x, y) <==> Pile(n + 1, x, y) && !Pile(n, x, y)
  {
    hide Solid;
    var p := Rest(n);
    if 0 <= x - p.x < 4 && 0 <= y - p.y < 4 {
      Figure(p.kind, p.rot, x - p.x, y - p.y);
    }
  }

  lemma LockPiles(b: Board, n: nat)
    requires n < 3 && Holds(b, n)
    ensures Holds(Lock(b, Rest(n)), n + 1) && NoFullRow(Lock(b, Rest(n)))
  {
    hide Lock, Covers, Pile, Rest;
    var r := Lock(b, Rest(n));
    forall x, y | 0 <= x < WIDTH && 0 <= y < HEIGHT ensures r[y][x] != 0 <==> Pile(n + 1, x, y) {
      LockAt(b, Rest(n), x, y);
      CoversRest(n, x, y);
      PileGrows(n, x, y);
    }
    forall y | 0 <= y < |r| ensures !FullRow(r[y]) {
      FirstColumnFree(n + 1, y);
      assert r[y][0] == 0;
    }
  }

  lemma PileGrows(n: nat, x: int, y: int)
    ensures Pile(n, x, y) ==> Pile(n + 1, x, y)
  {
  }

  lemma FirstColumnFree(n: nat, y: int)
    ensures !Pile(n, 0, y)
  {
  }

  lemma SpawnFits(b: Board, k: Kind)
    requires Shaped(b) && forall x :: 0 <= x < WIDTH ==> b[0][x] == 0
    ensures ValidPiece(b, Piece(k, 0, SPAWN_X, SPAWN_Y))
  {
    forall px, py | 0 <= px < 4 && 0 <= py < 4 && Solid(k, 0, px, py) ensures Fits(b, SPAWN_X + px, SPAWN_Y + py) {
      assert py <= 2 by { UprightRows(k, px, py); }
    }
  }

  lemma UprightRows(k: Kind, px: int, py: int)
    requires 0 <= px < 4 && 0 <= py < 4 && Solid(k, 0, px, py)
    ensures 1 <= py <= 2
  {
  }

  /** Nothing about the player changes but the board. */
  predicate SameWho(g: Game, g0: Game) {
    g.playerId == g0.playerId && g.targetPlayerId == g0.targetPlayerId && g.targetMode == g0.targetMode &&
      g.lastAttackerId == g0.lastAttackerId
  }

  /** The game after n placed pieces, with this one in play. */
  ghost predicate Stage(g: Game, g0: Game, n: nat, p: Piece) {
    && Sized(g) && !g.gameOver && Holds(g.board, n) && g.current == p
    && g.bag == g0.bag && g.bagIndex == n + 1
    && g.combo == -1 && !g.b2b && g.pendingGarbage == 0 && g.outgoingGarbage == 0 && SameWho(g, g0)
  }

  function Spawned(n: nat): Piece
    requires n < 7
  {
    Piece(ORDER[n], 0, SPAWN_X, SPAWN_Y)
  }

  lemma NothingCleared(b: Board)
    requires Shaped(b) && NoFullRow(b)
    ensures FullCount(b) == 0 && Cleared(b, WIDTH) == b
  {
    hide FullCount, Survivors;
    NothingToClear(b);
    assert EmptyRows(0, WIDTH) + b == b;
  }

  lemma TopRowFree(b: Board, n: nat)
    requires Holds(b, n)
    ensures forall x :: 0 <= x < WIDTH ==> b[0][x] == 0
  {
    assert forall x :: !Pile(n, x, 0);
  }

  lemma SettleStage(g: Game, g0: Game, n: nat, d: Dice)
    requires n < 3 && Stage(g, g0, n, Rest(n)) && |g0.bag| == 14 && g0.bag[..7] == ORDER
    ensures Stage(Settle(g, d).(gravityTimer := 0, lockTimer := 0), g0, n + 1, Spawned(n + 1))
  {
    hide Lock, FullCount, Survivors, Holds, Rest, TSpin, ValidPiece, Garbage.AddGarbage, Refill;
    assert Shaped(g.board) by { HoldsShape(g.board, n); }
    LockPiles(g.board, n);
    var b := Lock(g.board, Rest(n));
    HoldsShape(b, n + 1);
    NothingCleared(b);
    Garbage.NoneAdded(b, d.holes);
    TopRowFree(b, n + 1);
    assert g0.bag[..7][n + 1] == ORDER[n + 1];
    SpawnFits(b, ORDER[n + 1]);
  }

  lemma HoldsShape(b: Board, n: nat)
    requires Holds(b, n)
    ensures Shaped(b)
  {
  }

  lemma Slams(g: Game, p: Piece, roster: Targeting.Roster, d: Dice)
    requires Sized(g) && !g.gameOver && DropPiece(g.board, g.current) == p && p.y >= 0
    ensures ApplyAction(g, HardDrop, roster, d) == Settle(g.(current := p), d).(gravityTimer := 0, lockTimer := 0)
  {
    hide Settle, ValidPiece, Shaped;
  }

  // ----- Bringing the pieces to their places

  function Placing(n: nat): seq<Action> {
    (if n == 0 then Times(MoveLeft, 2) else if n == 1 then Times(MoveRight, 2) else Times(MoveRight, 4)) + [HardDrop]
  }

  /** The way of piece n is free: sideways at the top, then down to its place, and no further. */
  lemma WayFree(n: nat, z: int)
    requires n < 3
    ensures 1 <= z <= (if n == 0 then 6 else 7) ==> Clear(n, Spawned(n).(x := z))
    ensures z <= Rest(n).y ==> Clear(n, Rest(n).(y := z))
  {
  }

  lemma WayEnds(b: Board, n: nat)
    requires n < 3 && Holds(b, n)
    ensures !ValidPiece(b, Rest(n).(y := Rest(n).y + 1))
  {
    hide Holds, ValidPiece;
    var p := Rest(n).(y := Rest(n).y + 1);
    if n == 0 {
      BlockedBy(b, n, p, 0, 1);
    } else {
      BlockedBy(b, n, p, 1, 2);
    }
  }

  lemma Placed(g: Game, g0: Game, n: nat, roster: Targeting.Roster, d: Dice)
    requires n < 3 && Stage(g, g0, n, Spawned(n)) && |g0.bag| == 14 && g0.bag[..7] == ORDER
    ensures Stage(Do(g, Placing(n), roster, d), g0, n + 1, Spawned(n + 1))
  {
    hide Holds, ValidPiece, Clear, Settle, ApplyAction, Shaped, Do;
    forall z | 1 <= z <= (if n == 0 then 6 else 7) ensures ValidPiece(g.board, g.current.(x := z)) {
      WayFree(n, z);
      ClearIsValid(g.board, n, g.current.(x := z));
    }
    var slide := Placing(n)[..|Placing(n)| - 1];
    assert Placing(n) == slide + [HardDrop];
    var h := Slid(g, Rest(n).x);
    if n == 0 {
      SlideLeft(g, 2, roster, d);
      assert slide == Times(MoveLeft, 2);
    } else {
      var steps := if n == 1 then 2 else 4;
      SlideRight(g, steps, roster, d);
      assert slide == Times(MoveRight, steps);
    }
    DoTwice(g, slide, [HardDrop], roster, d);
    DoOne(h, HardDrop, roster, d);
    Dropped(h, g0, n, roster, d);
  }

  lemma Dropped(h: Game, g0: Game, n: nat, roster: Targeting.Roster, d: Dice)
    requires n < 3 && Stage(h, g0, n, Rest(n).(y := SPAWN_Y)) && |g0.bag| == 14 && g0.bag[..7] == ORDER
    ensures Stage(ApplyAction(h, HardDrop, roster, d), g0, n + 1, Spawned(n + 1))
  {
    hide Holds, ValidPiece, Clear, Settle, ApplyAction, Shaped, DropPiece;
    forall z | SPAWN_Y < z <= Rest(n).y ensures ValidPiece(h.board, h.current.(y := z)) {
      WayFree(n, z);
      assert h.current.(y := z) == Rest(n).(y := z);
      ClearIsValid(h.board, n, Rest(n).(y := z));
    }
    WayEnds(h.board, n);
    assert h.current.(y := Rest(n).y + 1) == Rest(n).(y := Rest(n).y + 1);
    DropTo(h.board, h.current, Rest(n).y);
    assert h.current.(y := Rest(n).y) == Rest(n);
    Slams(h, Rest(n), roster, d);
    SettleStage(h.(current := Rest(n)), g0, n, d);
  }

  // ----- The T

  const T_REST := Piece(3, 1, -1, 17)

  function Spinning(): seq<Action> {
    [RotateCw] + Times(MoveLeft, 4) + [RotateCw, RotateCcw, HardDrop]
  }

  lemma CoversT(x: int, y: int)
    requires 0 <= x < WIDTH && 0 <= y < HEIGHT
    ensures Covers(T_REST, x, y) <==> (x == 0 && 17 <= y) || (x == 1 && y == 18)
  {
    hide Solid;
    if 0 <= x + 1 < 4 && 0 <= y - 17 < 4 {
      Figure(3, 1, x + 1, y - 17);
    }
  }

  lemma LineMade(b: Board)
    requires Holds(b, 3)
    ensures FullCount(Lock(b, T_REST)) == 1
  {
    hide Lock, FullCount, FullRow;
    var r := Lock(b, T_REST);
    TLocked(b);
    Locking.FullSetCount(r);
    assert Locking.FullSet(r) == {19};
  }

  /** Two corners are behind the wall and one is on the stack. */
  lemma IsTSpin(g: Game)
    requires Sized(g) && Holds(g.board, 3) && g.current == T_REST && g.lastActionRotation
    ensures TSpin(g)
  {
    assert g.board[19][1] != 0;
  }

  /** The top three rows are empty. */
  ghost predicate Airy(b: Board) {
    Shaped(b) && forall x, y :: 0 <= x < WIDTH && 0 <= y < 3 ==> b[y][x] == 0
  }

  lemma Fires(g: Game, g0: Game, d: Dice)
    requires Stage(g, g0, 3, T_REST) && g.lastActionRotation && |g0.bag| == 14 && g0.bag[..7] == ORDER
    ensures var r := Settle(g, d);
            && r.outgoingGarbage == 2 && r.pendingGarbage == 0 && !r.gameOver && SameWho(r, g0)
            && AtSpawn(r.current) && Airy(r.board)
  {
    hide Lock, FullCount, Survivors, Holds, TSpin, ValidPiece, Garbage.AddGarbage, Refill, Shaped, Cleared;
    LineMade(g.board);
    IsTSpin(g);
    BakedIsAiry(g.board);
    Garbage.NoneAdded(Baked(g), d.holes);
    SpawnFits(Baked(g), g.bag[4]);
  }

  /** Clearing the bottom row moves everything down by one. */
  lemma ClearsBottom(b: Board)
    requires Shaped(b) && FullRow(b[19]) && forall y :: 0 <= y < 19 ==> !FullRow(b[y])
    ensures Cleared(b, WIDTH) == EmptyRows(1, WIDTH) + b[..19]
  {
    hide FullCount, Survivors, FullRow;
    assert b == b[..19] + [b[19]];
    SplitSurvivors(b[..19], [b[19]]);
    SplitFullCount(b[..19], [b[19]]);
    NothingToClear(b[..19]);
    OneFull(b[19]);
    assert b[..19] + [] == b[..19];
  }

  lemma OneFull(r: Row)
    requires FullRow(r)
    ensures FullCount([r]) == 1 && Survivors([r]) == []
  {
    assert [r][1..] == [];
  }

  lemma BakedIsAiry(b: Board)
    requires Holds(b, 3)
    ensures Airy(Cleared(Lock(b, T_REST), WIDTH))
  {
    hide Lock, Covers, Cleared, FullRow, Holds;
    HoldsShape(b, 3);
    var r := Lock(b, T_REST);
    TLocked(b);
    ClearsBottom(r);
    ClearedShape(r);
  }

  lemma TLocked(b: Board)
    requires Holds(b, 3)
    ensures var r := Lock(b, T_REST);
            && Shaped(r) && FullRow(r[19]) && (forall y :: 0 <= y < 19 ==> !FullRow(r[y]))
            && forall x, y :: 0 <= x < WIDTH && 0 <= y < 2 ==> r[y][x] == 0
  {
    hide Lock, Covers;
    var r := Lock(b, T_REST);
    forall x, y | 0 <= x < WIDTH && 0 <= y < HEIGHT
      ensures r[y][x] != 0 <==> Pile(3, x, y) || (x == 0 && 17 <= y) || (x == 1 && y == 18)
    {
      LockAt(b, T_REST, x, y);
      CoversT(x, y);
    }
    forall y | 0 <= y < 19 ensures !FullRow(r[y]) {
      assert r[y][2] == 0;
    }
  }

  lemma TWayFree(z: int)
    ensures -1 <= z <= 3 ==> Clear(3, Piece(3, 1, z, SPAWN_Y))
    ensures Clear(3, Piece(3, 2, -1, SPAWN_Y))
    ensures z <= 17 ==> Clear(3, Piece(3, 1, -1, z))
  {
  }

  lemma TWayEnds(b: Board)
    requires Holds(b, 3)
    ensures !ValidPiece(b, Piece(3, 1, -1, 18))
  {
    hide Holds, ValidPiece;
    BlockedBy(b, 3, Piece(3, 1, -1, 18), 1, 2);
  }

  /** Two lines are to be sent, nothing is pending, and the next piece has just appeared. */
  ghost predicate Fired(g: Game, g0: Game) {
    && g.outgoingGarbage == 2 && g.pendingGarbage == 0 && !g.gameOver && SameWho(g, g0)
    && g.gravityTimer == 0 && g.lockTimer == 0 && AtSpawn(g.current) && Airy(g.board)
  }

  /** The T is turned upright, taken to the wall, turned there and back, and slammed: the last thing it did was turn. */
  lemma Spun(g: Game, g0: Game, roster: Targeting.Roster, d: Dice)
    requires Stage(g, g0, 3, Spawned(3)) && |g0.bag| == 14 && g0.bag[..7] == ORDER
    ensures Fired(Do(g, Spinning(), roster, d), g0)
  {
    hide Holds, ValidPiece, Clear, Settle, ApplyAction, Shaped, Do;
    var left := Times(MoveLeft, 4);
    var g1 := ApplyAction(g, RotateCw, roster, d);
    DoOne(g, RotateCw, roster, d);
    TurnedUp(g, g0, roster, d);
    forall z | -1 <= z < 3 ensures ValidPiece(g1.board, g1.current.(x := z)) {
      TWayFree(z);
      ClearIsValid(g1.board, 3, Piece(3, 1, z, SPAWN_Y));
      assert g1.current.(x := z) == Piece(3, 1, z, SPAWN_Y);
    }
    SlideLeft(g1, 4, roster, d);
    DoTwice(g, [RotateCw], left, roster, d);
    DoTwice(g, [RotateCw] + left, [RotateCw, RotateCcw, HardDrop], roster, d);
    AtTheWall(Slid(g1, -1), g0, roster, d);
  }

  lemma TurnedUp(g: Game, g0: Game, roster: Targeting.Roster, d: Dice)
    requires Stage(g, g0, 3, Spawned(3))
    ensures Stage(ApplyAction(g, RotateCw, roster, d), g0, 3, Piece(3, 1, SPAWN_X, SPAWN_Y))
  {
    hide Holds, ValidPiece, Clear, Shaped, Rotate;
    TWayFree(3);
    ClearIsValid(g.board, 3, Piece(3, 1, SPAWN_X, SPAWN_Y));
    TurnInPlace(g, 1);
  }

  lemma AtTheWall(g: Game, g0: Game, roster: Targeting.Roster, d: Dice)
    requires Stage(g, g0, 3, Piece(3, 1, -1, SPAWN_Y)) && |g0.bag| == 14 && g0.bag[..7] == ORDER
    ensures Fired(Do(g, [RotateCw, RotateCcw, HardDrop], roster, d), g0)
  {
    hide Holds, ValidPiece, Clear, Settle, ApplyAction, Shaped;
    var h := TurnedTwice(g, g0, roster, d);
    assert [RotateCw, RotateCcw, HardDrop][1..] == [RotateCcw, HardDrop] && [RotateCcw, HardDrop][1..] == [HardDrop];
    DoOne(h, HardDrop, roster, d);
    TSlams(h, g0, roster, d);
  }

  lemma TurnedTwice(g: Game, g0: Game, roster: Targeting.Roster, d: Dice) returns (h: Game)
    requires Stage(g, g0, 3, Piece(3, 1, -1, SPAWN_Y))
    ensures Stage(h, g0, 3, Piece(3, 1, -1, SPAWN_Y)) && h.lastActionRotation
    ensures Sized(ApplyAction(g, RotateCw, roster, d))
    ensures h == ApplyAction(ApplyAction(g, RotateCw, roster, d), RotateCcw, roster, d)
  {
    hide Holds, ValidPiece, Clear, Shaped, Rotate;
    TWayFree(-1);
    ClearIsValid(g.board, 3, Piece(3, 2, -1, SPAWN_Y));
    TurnInPlace(g, 2);
    var t := ApplyAction(g, RotateCw, roster, d);
    ClearIsValid(g.board, 3, Piece(3, 1, -1, SPAWN_Y));
    TurnInPlace(t, 1);
    h := ApplyAction(t, RotateCcw, roster, d);
  }

  lemma TSlams(h: Game, g0: Game, roster: Targeting.Roster, d: Dice)
    requires Stage(h, g0, 3, Piece(3, 1, -1, SPAWN_Y)) && h.lastActionRotation && |g0.bag| == 14 && g0.bag[..7] == ORDER
    ensures Fired(ApplyAction(h, HardDrop, roster, d), g0)
  {
    hide Holds, ValidPiece, Clear, Settle, ApplyAction, Shaped, DropPiece;
    forall z | SPAWN_Y < z <= 17 ensures ValidPiece(h.board, h.current.(y := z)) {
      TWayFree(z);
      assert h.current.(y := z) == Piece(3, 1, -1, z);
      ClearIsValid(h.board, 3, Piece(3, 1, -1, z));
    }
    TWayEnds(h.board);
    assert h.current.(y := 18) == Piece(3, 1, -1, 18);
    DropTo(h.board, h.current, 17);
    assert h.current.(y := 17) == T_REST;
    Slams(h, T_REST, roster, d);
    Fires(h.(current := T_REST), g0, d);
  }

  // ----- The whole game

  function Shot(): seq<Action> {
    Placing(0) + (Placing(1) + (Placing(2) + Spinning()))
  }

  lemma OrderPermutes()
    ensures multiset(ORDER) == multiset(SEVEN)
  {
    var one: seq<Kind>, middle: seq<Kind>, last: seq<Kind> := [1], [2, 3, 4, 5, 6], [7];
    assert SEVEN == one + (middle + last);
    assert ORDER == one + (last + middle);
  }

  lemma SevenDistinct()
    ensures Distinct(SEVEN)
  {
  }

  /** Some draws deal the pieces in this order. */
  lemma Dealt() returns (picks: Picks)
    ensures Shuffling.Shuffle(SEVEN, picks) == ORDER
  {
    hide Shuffling.Shuffle, Distinct, Shuffling.Choices;
    OrderPermutes();
    SevenDistinct();
    picks := DealtAs(SEVEN, ORDER);
  }

  lemma DealtAs(s: seq<Kind>, p: seq<Kind>) returns (picks: Picks)
    requires |s| == 7 && Distinct(s) && multiset(p) == multiset(s)
    ensures Shuffling.Shuffle(s, picks) == p
  {
    hide Shuffling.Shuffle, Distinct;
    Shuffling.ShuffleExactlyOnce(s, p);
    var c :| Shuffling.Choices(c, |s|) && Shuffling.Shuffle(s, c) == p;
    picks := c;
  }

  /** A fresh game, whoever plays it and whatever is drawn later. */
  function Opened(first: Picks, second: Picks, id: nat, target: nat, mode: nat): Game {
    StartGame(first, second).(playerId := id, targetPlayerId := target, targetMode := mode)
  }

  lemma OpenedStage(first: Picks, second: Picks, id: nat, target: nat, mode: nat)
    requires Shuffling.Shuffle(SEVEN, first) == ORDER
    ensures var g := Opened(first, second, id, target, mode);
      Stage(g, g, 0, Spawned(0)) && |g.bag| == 14 && g.bag[..7] == ORDER
  {
    hide Shuffling.Shuffle;
    assert (ORDER + Shuffling.Shuffle(SEVEN, second))[..7] == ORDER;
  }

  /** From a fresh game dealt this way the player sends two lines without receiving any. */
  lemma FirstShot(first: Picks, second: Picks, id: nat, target: nat, mode: nat, roster: Targeting.Roster, d: Dice)
    requires Shuffling.Shuffle(SEVEN, first) == ORDER
    ensures var g := Opened(first, second, id, target, mode);
            var r := Do(g, Shot(), roster, d);
            && r == Run(g, Inputs(Shot(), roster, d))
            && Fired(r, g)
  {
    hide Stage, Do, Placing, Spinning, Opened, Run;
    var g := Opened(first, second, id, target, mode);
    OpenedStage(first, second, id, target, mode);
    StageSized(g, g, 0, Spawned(0));
    DoIsRun(g, Shot(), roster, d);
    DoTwice(g, Placing(0), Placing(1) + (Placing(2) + Spinning()), roster, d);
    Placed(g, g, 0, roster, d);
    var g1 := Do(g, Placing(0), roster, d);
    DoTwice(g1, Placing(1), Placing(2) + Spinning(), roster, d);
    Placed(g1, g, 1, roster, d);
    var g2 := Do(g1, Placing(1), roster, d);
    DoTwice(g2, Placing(2), Spinning(), roster, d);
    Placed(g2, g, 2, roster, d);
    Spun(Do(g2, Placing(2), roster, d), g, roster, d);
  }

  lemma StageSized(g: Game, g0: Game, n: nat, p: Piece)
    requires Stage(g, g0, n, p)
    ensures Sized(g)
  {
  }
}
