/** What a lock does to the board, cell by cell, and where incoming garbage goes over whole games. */
module LockRuns {
  import opened Pieces
  import opened Boards
  import opened Engine
  import opened EngineInvariant
  import opened EngineRuns
  import Garbage
  import Rotations
  import Targeting

  // ----- The board after a lock

  /** `stack` is `b` with the piece baked in: its kind under its four cells, everything else as it was. */
  ghost predicate BakedIn(b: Board, p: Piece, stack: Board)
    requires Shaped(b) && Shaped(stack)
  {
    forall y, x :: 0 <= y < HEIGHT && 0 <= x < WIDTH ==> stack[y][x] == if Covers(p, x, y) then p.kind else b[y][x]
  }

  /** The full rows of `stack` are gone in `r`: every other row came down by the number of full rows below it, and empty
      rows came in at the top. */
  ghost predicate Collapsed(stack: Board, r: Board)
    requires Shaped(stack) && Shaped(r)
  {
    && (forall y :: 0 <= y < HEIGHT && !FullRow(stack[y]) ==>
          0 <= y + |FullRows(stack, y + 1)| < HEIGHT && r[y + |FullRows(stack, y + 1)|] == stack[y])
    && forall y, x :: 0 <= y < |FullRows(stack, 0)| && y < HEIGHT && 0 <= x < WIDTH ==> r[y][x] == 0
  }

  /** `stack` was lifted by n rows, and rows of garbage with one hole each came in below it. */
  ghost predicate Lifted(stack: Board, n: nat, holes: Holes, r: Board)
    requires Shaped(stack) && Shaped(r)
  {
    forall y, x :: 0 <= y < HEIGHT && 0 <= x < WIDTH ==>
      r[y][x] == if y + n < HEIGHT then stack[y + n][x] else if x == holes[y] then 0 else GARBAGE_CELL
  }

  lemma LockBakesIn(b: Board, p: Piece)
    requires Shaped(b)
    ensures BakedIn(b, p, Lock(b, p))
  {
    hide Lock, Covers;
    forall y, x | 0 <= y < HEIGHT && 0 <= x < WIDTH
      ensures Lock(b, p)[y][x] == if Covers(p, x, y) then p.kind else b[y][x]
    {
      LockAt(b, p, x, y);
    }
  }

  /** Garbage comes in only when no row was full, and then all of it. */
  lemma LetsIn(g: Game)
    requires Shaped(g.board)
    ensures RowsLetIn(g) == if LinesMade(g) == 0 then g.pendingGarbage else 0
    ensures LinesMade(g) == 0 ==> LockDamage(g).lines == 0 && LockExchange(g).pending == g.pendingGarbage
  {
    hide LinesMade, TSpin;
  }

  lemma NoLines(g: Game)
    requires Shaped(g.board)
    ensures LinesMade(g) == 0 <==> NoFullRow(Lock(g.board, g.current))
  {
    hide Lock, FullCount;
    NothingToClear(Lock(g.board, g.current));
  }

  lemma SettledBoard(g: Game, d: Dice)
    requires Sized(g) && g.pendingGarbage <= HEIGHT
    ensures var stack, r := Lock(g.board, g.current), Settle(g, d).board;
            if NoFullRow(stack) then Lifted(stack, g.pendingGarbage, d.holes, r) else Collapsed(stack, r)
  {
    var stack := Lock(g.board, g.current);
    hide Lock, NoFullRow, Settle, Garbage.AddGarbage, Cleared, LinesMade, RowsLetIn, Collapsed;
    SettleCounters(g, d);
    LetsIn(g);
    NoLines(g);
    if NoFullRow(stack) {
      ClearedNothing(stack);
      Garbage.AddGarbageAt(stack, g.pendingGarbage, d.holes);
    } else {
      ClearingCollapses(stack);
      Garbage.NoneAdded(Baked(g), d.holes);
    }
  }

  lemma ClearingCollapses(b: Board)
    requires Shaped(b)
    ensures Shaped(Cleared(b, WIDTH)) && Collapsed(b, Cleared(b, WIDTH))
  {
    hide FullRow, Cleared, FullRows;
    ClearedShape(b);
    ClearedAt(b, WIDTH);
  }

  lemma ClearedNothing(b: Board)
    requires NoFullRow(b)
    ensures Cleared(b, WIDTH) == b
  {
    NothingToClear(b);
    assert EmptyRows(0, WIDTH) + b == b;
  }

  /** In every run, whenever a step locks a piece: the piece is baked in where it came to rest, and then either the full
      rows collapse, or, if there is none, all pending garbage comes in from below. */
  lemma BoardAfterLock(first: Picks, second: Picks, before: seq<Input>, next: Input)
    ensures var g := Run(StartGame(first, second), before);
            StepLocks(g, next) ==>
              exists stack: Board :: Shaped(stack) && BakedIn(g.board, AtLock(g, next).current, stack) &&
                var r := Step(g, next).board;
                if NoFullRow(stack) then Lifted(stack, g.pendingGarbage, DiceOf(next).holes, r)
                else Collapsed(stack, r)
  {
    hide Run, StartGame, NoFullRow, Lifted, Collapsed, BakedIn;
    ReachableInv(first, second, before);
    var g := Run(StartGame(first, second), before);
    if StepLocks(g, next) {
      LockedBoard(g, next);
    }
  }

  lemma LockedBoard(g: Game, i: Input)
    requires Inv(g) && StepLocks(g, i)
    ensures exists stack: Board :: Shaped(stack) && BakedIn(g.board, AtLock(g, i).current, stack) &&
              var r := Step(g, i).board;
              if NoFullRow(stack) then Lifted(stack, g.pendingGarbage, DiceOf(i).holes, r) else Collapsed(stack, r)
  {
    var h := AtLock(g, i);
    LockFields(g, i);
    hide Inv, Lock, NoFullRow, Lifted, Collapsed, BakedIn, Settle, Step, AtLock, StepLocks, Shaped;
    InvSized(g);
    InvLockPose(g, i);
    LockingStep(g, i);
    LockBakesIn(g.board, h.current);
    SettledBoard(h, DiceOf(i));
  }

  // ----- Where incoming garbage goes

  /** Lines that reached the board, lines the full meter lost, lines cancelled by own damage, rows let in. */
  datatype Intake = Intake(received: nat, lost: nat, cancelled: nat, letIn: nat)

  function Min(a: nat, b: nat): nat {
    if a < b then a else b
  }

  function Lines(i: Input): nat
    requires i.Receive?
  {
    if i.lines > 0 then i.lines else 0
  }

  function Enter(l: Intake, g: Game, i: Input): Intake
    requires Sized(g)
  {
    if StepLocks(g, i) then
      var h := AtLock(g, i);
      if LinesMade(h) == 0 then l.(letIn := l.letIn + g.pendingGarbage)
      else l.(cancelled := l.cancelled + Min(LockDamage(h).lines, g.pendingGarbage))
    else if i.Receive? && !g.gameOver then
      l.(received := l.received + Lines(i), lost := l.lost + Garbage.Excess(g.pendingGarbage, Lines(i)))
    else l
  }

  function Taken(g: Game, inputs: seq<Input>): Intake
    requires Sized(g)
  {
    if inputs == [] then Intake(0, 0, 0, 0)
    else
      var n := |inputs| - 1;
      Enter(Taken(g, inputs[..n]), Run(g, inputs[..n]), inputs[n])
  }

  ghost predicate Balanced(g: Game, l: Intake) {
    l.received == g.pendingGarbage + l.lost + l.cancelled + l.letIn
  }

  lemma QuietPending(g: Game, i: Input)
    requires Sized(g) && !StepLocks(g, i)
    ensures (i.Receive? && !g.gameOver) || Step(g, i).pendingGarbage == g.pendingGarbage
  {
    hide ValidPiece, DropPiece, Settle, Rotations.CanRotate, Rotations.Rotated, Refill, Targeting.CycleTarget;
    if i.Tick? && !g.gameOver {
      QuietTickPending(g, i.dice);
    }
  }

  lemma QuietTickPending(g: Game, d: Dice)
    requires Sized(g) && !g.gameOver && !StepLocks(g, Tick(d))
    ensures UpdateTimers(g, d).pendingGarbage == g.pendingGarbage
  {
    hide ValidPiece, Settle;
  }

  lemma LockPending(g: Game, i: Input)
    requires Inv(g) && StepLocks(g, i)
    ensures var h := AtLock(g, i);
            Step(g, i).pendingGarbage ==
              if LinesMade(h) == 0 then 0 else g.pendingGarbage - Min(LockDamage(h).lines, g.pendingGarbage)
  {
    hide Inv, Shaped, Step, StepLocks, AtLock, LinesMade, LockDamage, NoFullRow;
    InvSized(g);
    LockFields(g, i);
    InvDamage(g, i);
  }

  /** Coming to rest changes no meter and no streak. */
  lemma LockFields(g: Game, i: Input)
    requires Sized(g)
    ensures var h := AtLock(g, i);
            h.pendingGarbage == g.pendingGarbage && h.combo == g.combo && h.b2b == g.b2b &&
            h.lastActionRotation == g.lastActionRotation
  {
  }

  lemma StepIntake(g: Game, l: Intake, i: Input)
    requires Inv(g) && Balanced(g, l)
    ensures Sized(g) && Balanced(Step(g, i), Enter(l, g, i))
  {
    hide Inv, Sized, StepLocks, AtLock, LinesMade, LockDamage, ApplyAction, UpdateTimers, NoFullRow;
    InvSized(g);
    InvBounds(g);
    if StepLocks(g, i) {
      LockPending(g, i);
    } else if i.Receive? && !g.gameOver {
      Garbage.QueuedRises(g.pendingGarbage, Lines(i));
    } else {
      QuietPending(g, i);
    }
  }

  lemma {:induction false} RunIntake(g: Game, inputs: seq<Input>)
    requires Inv(g) && g.pendingGarbage == 0
    ensures Sized(g) && Balanced(Run(g, inputs), Taken(g, inputs))
  {
    InvSized(g);
    hide Inv, Step, Enter, Sized;
    if inputs != [] {
      var n := |inputs| - 1;
      RunIntake(g, inputs[..n]);
      RunKeeps(g, inputs[..n]);
      StepIntake(Run(g, inputs[..n]), Taken(g, inputs[..n]), inputs[n]);
    }
  }

  /** Over every run of a game: every line that reached the board is on the meter, was lost because the meter was full,
      was cancelled by the player's own damage, or came in as a row of garbage. */
  lemma GarbageConserved(first: Picks, second: Picks, inputs: seq<Input>)
    ensures var s := StartGame(first, second);
            var l := Taken(s, inputs);
            l.received == Run(s, inputs).pendingGarbage + l.lost + l.cancelled + l.letIn
  {
    hide StartGame, Run, Taken, Inv;
    StartInv(first, second);
    assert StartGame(first, second).pendingGarbage == 0 by { StartsEmpty(first, second); }
    RunIntake(StartGame(first, second), inputs);
  }

  lemma StartsEmpty(first: Picks, second: Picks)
    ensures StartGame(first, second).pendingGarbage == 0
  {
  }
}
