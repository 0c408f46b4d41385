/** What every step of the engine keeps, from the first piece on. */
module EngineInvariant {
  import opened Pieces
  import opened Boards
  import opened Shuffling
  import opened Engine
  import Locking
  import Garbage
  import Rotations
  import Targeting

  // ----- The invariant

  ghost predicate BoardOk(b: Board) {
    Shaped(b) && CellsInRange(b) && NoFullRow(b)
  }

  /** A piece is collision-free, or stands exactly where pieces appear; it never climbs above row -5. */
  ghost predicate PoseOk(b: Board, p: Piece)
    requires Shaped(b)
  {
    (ValidPiece(b, p) || AtSpawn(p)) && p.y >= -5
  }

  /** Seven pieces, one of each kind. */
  ghost predicate Block(s: seq<Kind>) {
    |s| == 7 && multiset(s) == multiset(SEVEN)
  }

  ghost predicate BagOk(bag: seq<Kind>) {
    |bag| == 14 && Block(bag[..7]) && Block(bag[7..])
  }

  ghost predicate MetersOk(g: Game) {
    && g.level >= 1 && g.combo >= -1
    && g.pendingGarbage <= HEIGHT && g.outgoingGarbage <= 12
  }

  ghost predicate Timeless(g: Game) {
    && Sized(g)
    && BoardOk(g.board)
    && PoseOk(g.board, g.current)
    && BagOk(g.bag)
    && MetersOk(g)
  }

  ghost predicate TimersOk(g: Game) {
    g.gravityTimer < GRAVITY_THRESHOLD_START && g.lockTimer < LOCK_THRESHOLD_START
  }

  ghost predicate Inv(g: Game) {
    Timeless(g) && TimersOk(g)
  }

  // ----- Locking never overwrites

  /** Under the piece every cell is on the board and empty. */
  ghost predicate LandsOnEmpty(b: Board, p: Piece)
    requires Shaped(b)
  {
    forall x, y :: Covers(p, x, y) ==> 0 <= x < WIDTH && 0 <= y < HEIGHT && b[y][x] == 0
  }

  lemma ValidLandsOnEmpty(b: Board, p: Piece)
    requires Shaped(b) && ValidPiece(b, p) && p.y >= 0
    ensures LandsOnEmpty(b, p)
  {
    hide Solid;
    forall x, y | Covers(p, x, y)
      ensures 0 <= x < WIDTH && 0 <= y < HEIGHT && b[y][x] == 0
    {
      assert Fits(b, p.x + (x - p.x), p.y + (y - p.y));
    }
  }

  // ----- Pieces of a step

  lemma ShuffledBlock(picks: Picks)
    ensures Block(Shuffle(SEVEN, picks))
  {
    ShufflePermutes(SEVEN, picks);
  }

  lemma SpawnKeepsBag(g: Game, picks: Picks)
    requires BagOk(g.bag) && g.bagIndex < 7
    ensures BagOk(SpawnPiece(g, picks).bag)
  {
    hide Shuffle, Block;
    ShuffledBlock(picks);
    var r := Refill(g.bag, picks);
    assert r[..7] == g.bag[7..] && r[7..] == Shuffle(SEVEN, picks);
  }

  lemma BakedOk(g: Game)
    requires BoardOk(g.board)
    ensures BoardOk(Baked(g))
  {
    hide Lock, Cleared, CellsInRange, NoFullRow;
    Locking.LockCellsInRange(g.board, g.current);
    ClearedBoard(Lock(g.board, g.current));
  }

  /** At most four rows go at once, at most three with a T, and four only with an I. */
  lemma LinesMadeBound(g: Game)
    requires BoardOk(g.board)
    ensures LinesMade(g) <= 4
    ensures g.current.kind != PIECE_I ==> LinesMade(g) <= 3
    ensures TSpin(g) ==> LinesMade(g) <= 3
  {
    hide FullCount, Lock, CornerBlocked;
    Locking.LockCompletes(g.board, g.current);
  }

  lemma LockDamageBound(g: Game)
    requires BoardOk(g.board) && g.combo >= -1
    ensures LockDamage(g).lines <= 12 && LockDamage(g).combo >= -1
  {
    LinesMadeBound(g);
    hide LinesMade, TSpin;
    Garbage.DamageBound(g.combo, g.b2b, LinesMade(g), TSpin(g));
  }

  lemma SettleKeepsMeters(g: Game, d: Dice)
    requires Sized(g) && BoardOk(g.board) && g.level >= 1 && g.combo >= -1 && g.pendingGarbage <= HEIGHT
    ensures var r := Settle(g, d);
      r.level >= 1 && r.combo >= -1 && r.pendingGarbage <= HEIGHT && r.outgoingGarbage <= 12
  {
    LockDamageBound(g);
    hide Baked, LinesMade, TSpin, Garbage.AddGarbage, Garbage.Calculate, ValidPiece, Refill;
    Garbage.CancelConserves(LockDamage(g).lines, g.pendingGarbage);
  }

  lemma SettleBoard(g: Game, d: Dice)
    requires Sized(g) && BoardOk(g.board) && BagOk(g.bag)
    ensures Settle(g, d).board == Garbage.AddGarbage(Baked(g), RowsLetIn(g), d.holes)
    ensures BoardOk(Settle(g, d).board)
    ensures AtSpawn(Settle(g, d).current) && BagOk(Settle(g, d).bag)
  {
    hide Baked, LinesMade, TSpin, LockExchange, LockDamage, Garbage.AddGarbage, Refill, ValidPiece, BagOk, RowsLetIn,
         CellsInRange, NoFullRow;
    BakedOk(g);
    SpawnKeepsBag(g, d.picks);
    Garbage.AddGarbageKeeps(Baked(g), RowsLetIn(g), d.holes);
  }

  // ----- Every step keeps the invariant

  lemma SettleKeeps(g: Game, d: Dice)
    requires Timeless(g)
    ensures Timeless(Settle(g, d))
  {
    hide Settle, BagOk, BoardOk, ValidPiece, Baked, Garbage.AddGarbage;
    SettleBoard(g, d);
    SettleKeepsMeters(g, d);
    assert Sized(Settle(g, d));
  }

  lemma TickGameKeeps(g: Game, d: Dice)
    requires Timeless(g)
    ensures Timeless(TickGame(g, d))
  {
    hide Settle, BagOk, BoardOk, ValidPiece;
    if Locks(g) {
      assert TickGame(g, d) == Settle(g, d);
      SettleKeeps(g, d);
    }
  }

  /** Of the timers only the caller disposes. */
  lemma TickGameTimers(g: Game, d: Dice)
    requires Sized(g)
    ensures TickGame(g, d).gravityTimer == g.gravityTimer && TickGame(g, d).lockTimer == g.lockTimer
  {
    hide Baked, LinesMade, TSpin, Garbage.AddGarbage, Garbage.Calculate, ValidPiece, Refill;
  }

  lemma TimelessIgnoresTimers(g: Game, gravity: nat, lock: nat)
    requires Timeless(g)
    ensures Timeless(g.(gravityTimer := gravity, lockTimer := lock))
  {
    hide BoardOk, BagOk, PoseOk;
  }

  lemma HoldKeeps(g: Game, picks: Picks)
    requires Timeless(g)
    ensures Timeless(HoldPiece(g, picks))
  {
    hide BoardOk, BagOk, ValidPiece, Refill;
    SpawnKeepsBag(g, picks);
  }

  lemma UpdateTimersKeeps(g: Game, d: Dice)
    requires Inv(g)
    ensures Inv(UpdateTimers(g, d))
  {
    hide Timeless, TickGame, CanShift;
    var resting := g.(lockTimer := g.lockTimer + 1);
    var falling := g.(lockTimer := 0, gravityTimer := g.gravityTimer + 1);
    TimelessIgnoresTimers(g, g.gravityTimer, g.lockTimer + 1);
    TimelessIgnoresTimers(g, g.gravityTimer + 1, 0);
    TimelessMeters(g);
    TickGameKeeps(resting, d);
    TickGameKeeps(falling, d);
    TickGameTimers(resting, d);
    TickGameTimers(falling, d);
    TimelessIgnoresTimers(TickGame(resting, d), 0, 0);
    TimelessIgnoresTimers(TickGame(falling, d), 0, 0);
  }

  lemma TimelessMeters(g: Game)
    requires Timeless(g)
    ensures Sized(g) && MetersOk(g)
  {
  }

  lemma HardDropKeeps(g: Game, d: Dice)
    requires Timeless(g)
    ensures Timeless(TickGame(HardDropped(g), d).(gravityTimer := 0, lockTimer := 0))
  {
    assert Timeless(HardDropped(g)) by {
      hide BoardOk, BagOk, TickGame, ValidPiece, DropPiece;
    }
    hide Timeless, TickGame, HardDropped;
    TickGameKeeps(HardDropped(g), d);
    TimelessIgnoresTimers(TickGame(HardDropped(g), d), 0, 0);
  }

  lemma HardDropInv(g: Game)
    requires Inv(g)
    ensures Inv(HardDropped(g))
  {
    hide BoardOk, BagOk, ValidPiece, DropPiece;
  }

  lemma RotateKeeps(g: Game, to: Rotation)
    requires Timeless(g)
    ensures Timeless(Rotate(g, to).(lockTimer := 0))
  {
    hide BoardOk, BagOk, ValidPiece, Rotations.Rotated, Rotations.CanRotate;
    Rotations.RotationFloor(g.board, g.current, to);
  }

  lemma MoveKeeps(g: Game, dx: int, dy: int)
    requires Timeless(g) && dy >= 0
    ensures Timeless(Move(g, dx, dy).(lockTimer := 0))
  {
    hide BoardOk, BagOk, ValidPiece;
  }

  lemma RetargetKeeps(g: Game, mode: nat, target: nat, over: bool)
    requires Timeless(g)
    ensures Timeless(g.(targetMode := mode)) && Timeless(g.(targetPlayerId := target)) && Timeless(g.(gameOver := over))
  {
    hide BoardOk, BagOk, PoseOk;
  }

  lemma ActionKeeps(g: Game, a: Action, roster: Targeting.Roster, d: Dice)
    requires Inv(g)
    ensures Inv(ApplyAction(g, a, roster, d))
  {
    hide Timeless, TickGame, Rotate, HoldPiece, HardDropped, Targeting.CycleTarget, Move, CanShift;
    TimelessMeters(g);
    match a
    case RotateCw => RotateKeeps(g, Rotations.Clockwise(g.current.rot));
      RotateTimers(g, Rotations.Clockwise(g.current.rot));
    case RotateCcw => RotateKeeps(g, Rotations.CounterClockwise(g.current.rot));
      RotateTimers(g, Rotations.CounterClockwise(g.current.rot));
    case MoveLeft => MoveKeeps(g, -1, 0); MoveTimers(g, -1, 0);
    case MoveRight => MoveKeeps(g, 1, 0); MoveTimers(g, 1, 0);
    case SoftDrop => MoveKeeps(g, 0, 1); MoveTimers(g, 0, 1);
    case HardDrop => HardDropKeeps(g, d);
    case Hold =>
      HoldKeeps(g, d.picks);
      HoldTimers(g, d.picks);
      TimelessIgnoresTimers(HoldPiece(g, d.picks), 0, g.lockTimer);
    case CycleTargetMode => RetargetKeeps(g, Targeting.NextMode(g.targetMode), 0, true);
    case CycleTarget => RetargetKeeps(g, 0, Targeting.CycleTarget(roster, g.playerId, g.targetPlayerId), true);
    case Quit => RetargetKeeps(g, 0, 0, true);
    case None =>
  }

  lemma RotateTimers(g: Game, to: Rotation)
    requires Sized(g)
    ensures Rotate(g, to).gravityTimer == g.gravityTimer && Rotate(g, to).lockTimer == g.lockTimer
  {
  }

  lemma MoveTimers(g: Game, dx: int, dy: int)
    requires Sized(g)
    ensures Move(g, dx, dy).gravityTimer == g.gravityTimer && Move(g, dx, dy).lockTimer == g.lockTimer
  {
  }

  lemma HoldTimers(g: Game, picks: Picks)
    requires Sized(g)
    ensures HoldPiece(g, picks).gravityTimer == g.gravityTimer && HoldPiece(g, picks).lockTimer == g.lockTimer
  {
  }

  lemma StepKeeps(g: Game, i: Input)
    requires Inv(g)
    ensures Inv(Step(g, i))
  {
    hide ApplyAction, UpdateTimers, BoardOk, BagOk, PoseOk;
    match i
    case Act(a, roster, d) => ActionKeeps(g, a, roster, d);
    case Tick(d) => UpdateTimersKeeps(g, d);
    case Receive(_, _) =>
    case Consume =>
  }

  lemma {:induction false} RunKeeps(g: Game, inputs: seq<Input>)
    requires Inv(g)
    ensures Inv(Run(g, inputs))
  {
    hide Inv, Step;
    if inputs != [] {
      InvSized(g);
      RunKeeps(g, inputs[..|inputs| - 1]);
      StepKeeps(Run(g, inputs[..|inputs| - 1]), inputs[|inputs| - 1]);
    }
  }

  lemma InvSized(g: Game)
    requires Inv(g)
    ensures Sized(g)
  {
  }

  lemma EmptyBoardOk()
    ensures BoardOk(EmptyRows(HEIGHT, WIDTH))
  {
    var b := EmptyRows(HEIGHT, WIDTH);
    forall y | 0 <= y < HEIGHT ensures !FullRow(b[y]) {
      assert b[y][0] == 0;
    }
  }

  lemma StartInv(first: Picks, second: Picks)
    ensures Inv(StartGame(first, second))
  {
    hide Shuffle, BoardOk, BagOk, Shaped, EmptyRows, ValidPiece;
    EmptyBoardOk();
    assert Shaped(EmptyRows(HEIGHT, WIDTH)) by { BoardOkShaped(EmptyRows(HEIGHT, WIDTH)); }
    StartBag(first, second);
  }

  lemma BoardOkShaped(b: Board)
    requires BoardOk(b)
    ensures Shaped(b)
  {
  }

  lemma StartBag(first: Picks, second: Picks)
    ensures BagOk(Shuffle(SEVEN, first) + Shuffle(SEVEN, second))
  {
    hide Shuffle, Block;
    ShuffledBlock(first);
    ShuffledBlock(second);
    var bag := Shuffle(SEVEN, first) + Shuffle(SEVEN, second);
    assert bag[..7] == Shuffle(SEVEN, first) && bag[7..] == Shuffle(SEVEN, second);
  }

  /** Every state of every run from the first piece on satisfies the invariant. */
  lemma ReachableInv(first: Picks, second: Picks, inputs: seq<Input>)
    ensures Inv(Run(StartGame(first, second), inputs))
  {
    hide Inv, Run;
    StartInv(first, second);
    RunKeeps(StartGame(first, second), inputs);
  }
}
