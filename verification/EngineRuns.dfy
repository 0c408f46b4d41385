/** Safety and conservation over whole runs of one board. */
module EngineRuns {
  import opened Pieces
  import opened Boards
  import opened Shuffling
  import opened Engine
  import opened EngineInvariant
  import Locking
  import Garbage
  import Rotations
  import Targeting

  // ----- When a step locks a piece

  /** Whether this step locks the piece, rather than moving it, ending the game or doing nothing to it. */
  predicate StepLocks(g: Game, i: Input)
    requires Sized(g)
  {
    && !g.gameOver
    && match i
       case Act(a, _, _) => a == HardDrop && DropPiece(g.board, g.current).y >= 0
       case Tick(_) => Locks(g) && g.lockTimer + 1 >= LOCK_THRESHOLD_START
       case _ => false
  }

  /** The state in which the locking happens: dropped all the way, or resting with its timer run out. */
  function AtLock(g: Game, i: Input): (h: Game)
    requires Sized(g)
    ensures Sized(h) && h.board == g.board && h.bag == g.bag && h.bagIndex == g.bagIndex
    ensures h.current == g.current.(y := h.current.y)
  {
    if i.Act? then HardDropped(g) else g.(lockTimer := g.lockTimer + 1)
  }

  function DiceOf(i: Input): Dice
    requires i.Act? || i.Tick?
  {
    match i
    case Act(_, _, d) => d
    case Tick(d) => d
  }

  lemma LockingStep(g: Game, i: Input)
    requires Sized(g) && StepLocks(g, i)
    ensures Locks(AtLock(g, i))
    ensures Step(g, i) == Settle(AtLock(g, i), DiceOf(i)).(gravityTimer := 0, lockTimer := 0)
  {
    hide Settle, ValidPiece, DropPiece;
  }

  /** What a step that locks nothing leaves alone. */
  lemma QuietStep(g: Game, i: Input)
    requires Sized(g) && !StepLocks(g, i)
    ensures var r := Step(g, i);
            r.board == g.board && r.piecesPlaced == g.piecesPlaced && r.linesCleared == g.linesCleared
  {
    hide ValidPiece, DropPiece, Settle, Rotations.CanRotate, Rotations.Rotated, Refill, Targeting.CycleTarget;
    if i.Tick? && !g.gameOver {
      QuietTick(g, i.dice);
    }
  }

  lemma QuietTick(g: Game, d: Dice)
    requires Sized(g) && !g.gameOver && !StepLocks(g, Tick(d))
    ensures var r := UpdateTimers(g, d);
            r.board == g.board && r.piecesPlaced == g.piecesPlaced && r.linesCleared == g.linesCleared
            && r.bag == g.bag && r.bagIndex == g.bagIndex && r.current.kind == g.current.kind &&
               r.heldType == g.heldType
  {
    hide ValidPiece, Settle;
  }

  // ----- Locking never overwrites

  /** In every reachable state, whatever happens next: if it locks a piece, all four of its cells are on the
      board and empty. Holding moves pieces unchecked, but a piece it has put on top of blocks cannot lock. */
  lemma LockingNeverOverwrites(first: Picks, second: Picks, before: seq<Input>, next: Input)
    ensures var g := Run(StartGame(first, second), before);
            StepLocks(g, next) ==>
              ValidPiece(g.board, AtLock(g, next).current) && LandsOnEmpty(g.board, AtLock(g, next).current)
  {
    hide Run, StartGame;
    ReachableInv(first, second, before);
    var g := Run(StartGame(first, second), before);
    if StepLocks(g, next) {
      InvLandsOnEmpty(g, next);
    }
  }

  lemma InvLockPose(g: Game, i: Input)
    requires Inv(g) && StepLocks(g, i)
    ensures AtLock(g, i).current.y >= 0 && ValidPiece(g.board, AtLock(g, i).current) && (i.Act? || i.Tick?)
  {
    hide ValidPiece, DropPiece, Settle, BoardOk, BagOk;
  }

  lemma InvLandsOnEmpty(g: Game, i: Input)
    requires Inv(g) && StepLocks(g, i)
    ensures ValidPiece(g.board, AtLock(g, i).current) && LandsOnEmpty(g.board, AtLock(g, i).current)
  {
    InvLockPose(g, i);
    ValidLandsOnEmpty(g.board, AtLock(g, i).current);
  }

  // ----- Books kept beside a run

  /** Garbage rows inserted, cells they pushed off the top, pieces drawn in order, pieces locked. */
  datatype Books = Books(garbageRows: nat, pushed: nat, drawn: seq<Kind>, locked: multiset<Kind>)

  predicate StepDraws(g: Game, i: Input)
    requires Sized(g)
  {
    StepLocks(g, i) || (!g.gameOver && i.Act? && i.action == Hold && !g.hasHeld && g.heldType == 0)
  }

  function Record(l: Books, g: Game, i: Input): Books
    requires Sized(g)
  {
    var drawn := if StepDraws(g, i) then l.drawn + [g.bag[g.bagIndex]] else l.drawn;
    if StepLocks(g, i) then
      var rows := Garbage.Clamp(RowsLetIn(AtLock(g, i)));
      Books(l.garbageRows + rows, l.pushed + Occupied(Baked(AtLock(g, i))[..rows]), drawn,
        l.locked + multiset{g.current.kind})
    else l.(drawn := drawn)
  }

  function Account(g: Game, l: Books, inputs: seq<Input>): Books
    requires Sized(g)
  {
    if inputs == [] then l
    else
      var n := |inputs| - 1;
      Record(Account(g, l, inputs[..n]), Run(g, inputs[..n]), inputs[n])
  }

  function OpeningBooks(g: Game): Books {
    Books(0, 0, [g.current.kind], multiset{})
  }

  // ----- Cell conservation

  ghost predicate CellsBalance(g: Game, l: Books) {
    Occupied(g.board) == 4 * g.piecesPlaced - 10 * g.linesCleared + 9 * l.garbageRows - l.pushed
  }

  lemma SettleCounters(g: Game, d: Dice)
    requires Sized(g)
    ensures Settle(g, d).piecesPlaced == g.piecesPlaced + 1
    ensures Settle(g, d).linesCleared == g.linesCleared + LinesMade(g)
    ensures Settle(g, d).board == Garbage.AddGarbage(Baked(g), RowsLetIn(g), d.holes)
  {
    hide Baked, LinesMade, TSpin, LockExchange, LockDamage, Garbage.AddGarbage, Refill, ValidPiece, RowsLetIn;
  }

  lemma BakedCount(g: Game)
    requires Shaped(g.board) && ValidPiece(g.board, g.current) && g.current.y >= 0
    ensures Occupied(Baked(g)) == Occupied(g.board) + 4 - 10 * LinesMade(g)
  {
    hide Occupied, Lock, ValidPiece, Cleared, FullCount;
    Locking.LockAddsFour(g.board, g.current);
    OccupiedCleared(Lock(g.board, g.current), WIDTH);
  }

  lemma SettleCellCount(g: Game, d: Dice)
    requires Sized(g) && ValidPiece(g.board, g.current) && g.current.y >= 0
    ensures var rows := Garbage.Clamp(RowsLetIn(g));
            Occupied(Settle(g, d).board) == Occupied(g.board) + 4 - 10 * LinesMade(g) +
              9 * rows - Occupied(Baked(g)[..rows])
  {
    hide Occupied, Settle, Baked, LinesMade, RowsLetIn, ValidPiece, Garbage.AddGarbage;
    SettleCounters(g, d);
    BakedCount(g);
    Garbage.OccupiedAddGarbage(Baked(g), RowsLetIn(g), d.holes);
  }

  lemma StepKeepsCells(g: Game, l: Books, i: Input)
    requires Inv(g) && CellsBalance(g, l)
    ensures Sized(g) && CellsBalance(Step(g, i), Record(l, g, i))
  {
    hide Inv, Sized, Occupied, Settle, Step, Baked, LinesMade, RowsLetIn, ValidPiece, StepDraws, AtLock, StepLocks,
         Garbage.Clamp;
    InvSized(g);
    if StepLocks(g, i) {
      var h := AtLock(g, i);
      InvLockPose(g, i);
      LockingStep(g, i);
      SettleCounters(h, DiceOf(i));
      SettleCellCount(h, DiceOf(i));
      LockCounters(g, i);
    } else {
      QuietStep(g, i);
    }
  }

  lemma LockCounters(g: Game, i: Input)
    requires Sized(g)
    ensures AtLock(g, i).piecesPlaced == g.piecesPlaced && AtLock(g, i).linesCleared == g.linesCleared
  {
  }

  lemma {:induction false} RunKeepsCells(g: Game, l: Books, inputs: seq<Input>)
    requires Inv(g) && CellsBalance(g, l)
    ensures Sized(g) && CellsBalance(Run(g, inputs), Account(g, l, inputs))
  {
    InvSized(g);
    hide Inv, CellsBalance, Step, Record;
    if inputs != [] {
      var n := |inputs| - 1;
      RunKeepsCells(g, l, inputs[..n]);
      RunKeeps(g, inputs[..n]);
      StepKeepsCells(Run(g, inputs[..n]), Account(g, l, inputs[..n]), inputs[n]);
    }
  }

  /** In every reachable state the occupied cells are four per locked piece, less ten per cleared line, plus nine
      per garbage row, less what garbage pushed off the top. */
  lemma CellConservation(first: Picks, second: Picks, inputs: seq<Input>)
    ensures var s := StartGame(first, second); CellsBalance(Run(s, inputs), Account(s, OpeningBooks(s), inputs))
  {
    var s := StartGame(first, second);
    StartInv(first, second);
    assert s.board == EmptyRows(HEIGHT, WIDTH);
    hide StartGame, Run, Account, Occupied, Inv;
    OccupiedEmpty(HEIGHT, WIDTH);
    StartCounters(first, second);
    assert CellsBalance(s, OpeningBooks(s));
    RunKeepsCells(s, OpeningBooks(s), inputs);
  }

  lemma StartCounters(first: Picks, second: Picks)
    ensures StartGame(first, second).piecesPlaced == 0 && StartGame(first, second).linesCleared == 0
  {
  }

  // ----- Damage accounting per lock

  /** Per lock the computed damage splits exactly into what is sent and what came off the pending meter, at most
      four rows go, four only with an I, and never more than twelve lines are sent. */
  lemma LockDamageConserved(first: Picks, second: Picks, before: seq<Input>, next: Input)
    ensures var g := Run(StartGame(first, second), before);
            StepLocks(g, next) ==>
              var h, r := AtLock(g, next), Step(g, next);
              && LockDamage(h).lines == r.outgoingGarbage + (g.pendingGarbage - LockExchange(h).pending)
              && r.pendingGarbage == (if LinesMade(h) == 0 then 0 else LockExchange(h).pending)
              && r.pendingGarbage <= g.pendingGarbage <= HEIGHT
              && r.outgoingGarbage <= 12
              && LinesMade(h) <= 4 && (LinesMade(h) == 4 ==> g.current.kind == PIECE_I)
              && NoFullRow(r.board)
  {
    hide Run, StartGame;
    ReachableInv(first, second, before);
    var g := Run(StartGame(first, second), before);
    if StepLocks(g, next) {
      InvDamage(g, next);
    }
  }

  lemma SettleMeters(g: Game, d: Dice)
    requires Sized(g)
    ensures Settle(g, d).outgoingGarbage == LockExchange(g).outgoing
    ensures Settle(g, d).pendingGarbage == if RowsLetIn(g) > 0 then 0 else LockExchange(g).pending
  {
    hide Baked, LinesMade, TSpin, LockExchange, LockDamage, Garbage.AddGarbage, Refill, ValidPiece, RowsLetIn;
  }

  lemma InvDamage(g: Game, i: Input)
    requires Inv(g) && StepLocks(g, i)
    ensures var h, r := AtLock(g, i), Step(g, i);
            && LockDamage(h).lines == r.outgoingGarbage + (g.pendingGarbage - LockExchange(h).pending)
            && r.pendingGarbage == (if LinesMade(h) == 0 then 0 else LockExchange(h).pending)
            && r.pendingGarbage <= g.pendingGarbage <= HEIGHT
            && r.outgoingGarbage <= 12
            && LinesMade(h) <= 4 && (LinesMade(h) == 4 ==> g.current.kind == PIECE_I)
            && NoFullRow(r.board)
  {
    InvSized(g);
    var h := AtLock(g, i);
    assert h.pendingGarbage == g.pendingGarbage;
    assert BoardOk(g.board) && g.pendingGarbage <= HEIGHT;
    hide Inv, Settle, Step, LinesMade, LockDamage, NoFullRow, CellsInRange, AtLock, StepLocks, ValidPiece;
    InvLockPose(g, i);
    LockingStep(g, i);
    SettleMeters(h, DiceOf(i));
    Garbage.CancelConserves(LockDamage(h).lines, h.pendingGarbage);
    LinesMadeBound(h);
    StepKeeps(g, i);
    InvBounds(Step(g, i));
  }

  lemma InvBounds(g: Game)
    requires Inv(g)
    ensures NoFullRow(g.board) && g.outgoingGarbage <= 12 && g.pendingGarbage <= HEIGHT
  {
  }
}
