/** What the record of a game's locks determines: the damage each lock deals, and every counter the player sees. */
module ClearRuns {
  import opened Pieces
  import opened Boards
  import opened Engine
  import opened EngineInvariant
  import opened EngineRuns
  import LockRuns
  import Garbage
  import Rotations
  import Targeting

  // ----- T-spins

  type Cell = (int, int)

  ghost function Diagonals(x: int, y: int): set<Cell> {
    {(x - 1, y - 1), (x + 1, y - 1), (x - 1, y + 1), (x + 1, y + 1)}
  }

  /** The cell is off the board or taken. */
  predicate Blocked(b: Board, c: Cell)
    requires Shaped(b)
  {
    !(0 <= c.0 < WIDTH && 0 <= c.1 < HEIGHT && b[c.1][c.0] == 0)
  }

  ghost function BlockedDiagonals(b: Board, x: int, y: int): set<Cell>
    requires Shaped(b)
  {
    set c | c in Diagonals(x, y) && Blocked(b, c)
  }

  ghost function IfBlocked(b: Board, c: Cell): set<Cell>
    requires Shaped(b)
  {
    if Blocked(b, c) then {c} else {}
  }

  lemma OneCorner(b: Board, s: set<Cell>, x: int, y: int)
    requires Shaped(b) && (x, y) !in s
    ensures |s + IfBlocked(b, (x, y))| == |s| + CornerBlocked(b, x, y)
  {
    assert s + {} == s;
  }

  lemma FourCorners(b: Board, x: int, y: int)
    requires Shaped(b)
    ensures BlockedDiagonals(b, x, y) ==
      {} + IfBlocked(b, (x - 1, y - 1)) + IfBlocked(b, (x + 1, y - 1)) + IfBlocked(b, (x - 1, y + 1)) +
        IfBlocked(b, (x + 1, y + 1))
  {
    hide Shaped, Blocked;
  }

  lemma NotYet(b: Board, s: set<Cell>, c: Cell, d: Cell)
    requires Shaped(b) && c != d && d !in s
    ensures d !in s + IfBlocked(b, c)
  {
  }

  lemma CornersCounted(b: Board, x: int, y: int)
    requires Shaped(b)
    ensures |BlockedDiagonals(b, x, y)| ==
      CornerBlocked(b, x - 1, y - 1) + CornerBlocked(b, x + 1, y - 1) + CornerBlocked(b, x - 1, y + 1) +
        CornerBlocked(b, x + 1, y + 1)
  {
    hide Shaped, IfBlocked, CornerBlocked, BlockedDiagonals;
    FourCorners(b, x, y);
    var s1 := {} + IfBlocked(b, (x - 1, y - 1));
    var s2 := s1 + IfBlocked(b, (x + 1, y - 1));
    var s3 := s2 + IfBlocked(b, (x - 1, y + 1));
    OneCorner(b, {}, x - 1, y - 1);
    NotYet(b, {}, (x - 1, y - 1), (x + 1, y - 1));
    OneCorner(b, s1, x + 1, y - 1);
    NotYet(b, {}, (x - 1, y - 1), (x - 1, y + 1));
    NotYet(b, s1, (x + 1, y - 1), (x - 1, y + 1));
    OneCorner(b, s2, x - 1, y + 1);
    NotYet(b, {}, (x - 1, y - 1), (x + 1, y + 1));
    NotYet(b, s1, (x + 1, y - 1), (x + 1, y + 1));
    NotYet(b, s2, (x - 1, y + 1), (x + 1, y + 1));
    OneCorner(b, s3, x + 1, y + 1);
  }

  /** The piece locks as a T-spin: a T, last moved by a turn, with three of the tested corners blocked. */
  ghost predicate Spun(b: Board, p: Piece, turned: bool)
    requires Shaped(b)
  {
    p.kind == PIECE_T && turned && |BlockedDiagonals(b, p.x + 1, p.y + 1)| >= 3
  }

  lemma SpinIsSpun(g: Game)
    requires Shaped(g.board)
    ensures TSpin(g) <==> Spun(g.board, g.current, g.lastActionRotation)
  {
    hide CornerBlocked, BlockedDiagonals;
    CornersCounted(g.board, g.current.x + 1, g.current.y + 1);
  }

  /** Box cell (px, py) is the middle of the T: the other three cells are next to it. */
  ghost predicate Middle(rot: Rotation, px: int, py: int) {
    && 0 <= px < 4 && 0 <= py < 4 && Solid(PIECE_T, rot, px, py)
    && forall qx, qy :: 0 <= qx < 4 && 0 <= qy < 4 && Solid(PIECE_T, rot, qx, qy) && (qx, qy) != (px, py) ==>
         (qx == px && (qy == py - 1 || qy == py + 1)) || (qy == py && (qx == px - 1 || qx == px + 1))
  }

  /** The corners tested are those around the middle of the T in one rotation only. */
  lemma CornersAreAroundTheMiddle(rot: Rotation)
    ensures Middle(rot, 1, 1) <==> rot == 1
    ensures Middle(0, 1, 2) && Middle(1, 1, 1) && Middle(2, 2, 1) && Middle(3, 2, 2)
  {
    if rot == 0 {
      assert Solid(PIECE_T, 0, 0, 2);
    } else if rot == 2 {
      assert Solid(PIECE_T, 2, 3, 1);
    } else if rot == 3 {
      assert Solid(PIECE_T, 3, 2, 3);
    }
  }

  lemma {:induction false} AtMostTwo(b: Board, x: int, y: int)
    requires Shaped(b) && !Blocked(b, (x - 1, y + 1)) && !Blocked(b, (x + 1, y + 1))
    ensures |BlockedDiagonals(b, x, y)| <= 2
  {
    hide Blocked;
    var two := {(x - 1, y - 1), (x + 1, y - 1)};
    assert BlockedDiagonals(b, x, y) <= two;
    Fewer(BlockedDiagonals(b, x, y), two);
  }

  lemma {:induction false} Fewer(a: set<Cell>, b: set<Cell>)
    requires a <= b
    ensures |a| <= |b|
  {
    assert b == a + (b - a);
  }

  /** In every run an upright T never locks as a T-spin: two of the corners tested are its own cells. */
  lemma UprightNeverSpins(first: Picks, second: Picks, before: seq<Input>, next: Input)
    ensures var g := Run(StartGame(first, second), before);
            StepLocks(g, next) && g.current.rot == 0 ==> !TSpin(AtLock(g, next))
  {
    hide Run, StartGame, TSpin;
    ReachableInv(first, second, before);
    var g := Run(StartGame(first, second), before);
    if StepLocks(g, next) && g.current.rot == 0 {
      UprightSpin(g, next);
    }
  }

  lemma UprightSpin(g: Game, i: Input)
    requires Inv(g) && StepLocks(g, i) && g.current.rot == 0
    ensures !TSpin(AtLock(g, i))
  {
    hide Inv, StepLocks, AtLock, LandsOnEmpty, BlockedDiagonals, TSpin;
    InvSized(g);
    var h := AtLock(g, i);
    var p := h.current;
    SpinIsSpun(h);
    if p.kind == PIECE_T {
      InvLandsOnEmpty(g, i);
      UprightCorners(g.board, p);
      AtMostTwo(g.board, p.x + 1, p.y + 1);
    }
  }

  lemma UprightCorners(b: Board, p: Piece)
    requires Shaped(b) && LandsOnEmpty(b, p) && p.kind == PIECE_T && p.rot == 0
    ensures !Blocked(b, (p.x, p.y + 2)) && !Blocked(b, (p.x + 2, p.y + 2))
  {
    assert Covers(p, p.x, p.y + 2) && Covers(p, p.x + 2, p.y + 2);
  }

  // ----- The record

  /** One lock: how many rows it completed, and whether it was a T-spin. */
  datatype Clear = Clear(lines: nat, spin: bool)

  predicate IsTurn(a: Action) {
    a == RotateCw || a == RotateCcw
  }

  predicate IsSlide(a: Action) {
    a == MoveLeft || a == MoveRight || a == SoftDrop
  }

  /** Of the requests that moved a piece, the last was a turn. */
  ghost predicate LastWasTurn(g: Game, inputs: seq<Input>)
    requires Sized(g)
  {
    inputs != [] &&
    var n := |inputs| - 1;
    var h, i := Run(g, inputs[..n]), inputs[n];
    if i.Act? && (IsTurn(i.action) || IsSlide(i.action)) && Step(h, i).current != h.current then IsTurn(i.action)
    else LastWasTurn(g, inputs[..n])
  }

  ghost function Locked(g: Game, i: Input): Board
    requires Sized(g)
  {
    Lock(g.board, AtLock(g, i).current)
  }

  ghost function ClearOf(g: Game, i: Input, turned: bool): Clear
    requires Sized(g)
  {
    Clear(|FullRows(Locked(g, i), 0)|, Spun(g.board, AtLock(g, i).current, turned))
  }

  /** All locks of a run, in order. */
  ghost function Clears(g: Game, inputs: seq<Input>): seq<Clear>
    requires Sized(g)
  {
    if inputs == [] then []
    else
      var n := |inputs| - 1;
      var before := inputs[..n];
      var h := Run(g, before);
      Clears(g, before) + if StepLocks(h, inputs[n]) then [ClearOf(h, inputs[n], LastWasTurn(g, before))] else []
  }

  // ----- What the record says

  /** How many locks directly before now cleared something. */
  function Streak(cs: seq<Clear>): nat {
    if cs == [] || cs[|cs| - 1].lines == 0 then 0 else 1 + Streak(cs[..|cs| - 1])
  }

  predicate Difficult(c: Clear) {
    c.spin || c.lines == 4
  }

  /** The last lock that cleared something was a difficult one. */
  predicate LastDifficult(cs: seq<Clear>) {
    cs != [] && if cs[|cs| - 1].lines == 0 then LastDifficult(cs[..|cs| - 1]) else Difficult(cs[|cs| - 1])
  }

  /** What a clear is worth by itself. */
  function Worth(c: Clear): nat {
    if c.spin then 2 * c.lines else if c.lines <= 1 then 0 else if c.lines == 2 then 1 else c.lines
  }

  /** One more for every second clear in a row, up to four, and a fifth from the twelfth clear on. */
  function StreakBonus(streak: nat): nat {
    (if streak < 10 then streak / 2 else 4) + Bit(streak >= 11)
  }

  /** The damage a lock owes after the locks `cs`. */
  function Owed(cs: seq<Clear>, c: Clear): nat {
    if c.lines == 0 then 0
    else Worth(c) + Bit(Difficult(c) && LastDifficult(cs)) + StreakBonus(Streak(cs))
  }

  function LinesOf(cs: seq<Clear>): nat {
    if cs == [] then 0 else LinesOf(cs[..|cs| - 1]) + cs[|cs| - 1].lines
  }

  function SpinsOf(cs: seq<Clear>): nat {
    if cs == [] then 0 else SpinsOf(cs[..|cs| - 1]) + Bit(cs[|cs| - 1].spin)
  }

  function FoursOf(cs: seq<Clear>): nat {
    if cs == [] then 0 else FoursOf(cs[..|cs| - 1]) + Bit(cs[|cs| - 1].lines == 4)
  }

  ghost predicate Streaks(g: Game, cs: seq<Clear>) {
    g.combo == Streak(cs) - 1 && g.b2b == LastDifficult(cs)
  }

  ghost predicate Counters(g: Game, cs: seq<Clear>) {
    && g.piecesPlaced == |cs| && g.linesCleared == LinesOf(cs) && g.score == 100 * LinesOf(cs)
    && g.level == LinesOf(cs) / 10 + 1 && g.tetrises == FoursOf(cs) && g.tSpins == SpinsOf(cs)
  }

  ghost predicate Told(g: Game, cs: seq<Clear>) {
    Streaks(g, cs) && Counters(g, cs)
  }

  // ----- Every step keeps to the record

  lemma QuietCounters(g: Game, i: Input)
    requires Sized(g) && !StepLocks(g, i)
    ensures var r := Step(g, i);
            && r.combo == g.combo && r.b2b == g.b2b && r.piecesPlaced == g.piecesPlaced
            && r.linesCleared == g.linesCleared && r.score == g.score && r.level == g.level
            && r.tetrises == g.tetrises && r.tSpins == g.tSpins
  {
    hide Shaped, ValidPiece, DropPiece, Settle, Rotations.CanRotate, Rotations.Rotated, Refill, Targeting.CycleTarget;
    if i.Tick? && !g.gameOver {
      QuietTickCounters(g, i.dice);
    }
  }

  lemma QuietTickCounters(g: Game, d: Dice)
    requires Sized(g) && !g.gameOver && !StepLocks(g, Tick(d))
    ensures var r := UpdateTimers(g, d);
            && r.combo == g.combo && r.b2b == g.b2b && r.piecesPlaced == g.piecesPlaced
            && r.linesCleared == g.linesCleared && r.score == g.score && r.level == g.level
            && r.tetrises == g.tetrises && r.tSpins == g.tSpins
  {
    hide Shaped, ValidPiece, Settle;
  }

  lemma SettledCounters(g: Game, d: Dice)
    requires Sized(g)
    ensures var r, n, dmg := Settle(g, d), LinesMade(g), LockDamage(g);
            && r.combo == dmg.combo && r.b2b == dmg.b2b && r.piecesPlaced == g.piecesPlaced + 1
            && r.linesCleared == g.linesCleared + n && r.score == g.score + 100 * n
            && r.level == (if n > 0 then (g.linesCleared + n) / 10 + 1 else g.level)
            && r.tetrises == g.tetrises + Bit(n == 4) && r.tSpins == g.tSpins + Bit(TSpin(g))
  {
    hide Baked, LinesMade, TSpin, LockExchange, LockDamage, Garbage.AddGarbage, Refill, ValidPiece, RowsLetIn;
  }

  /** The table in the code is the rule of the record. */
  lemma DamageIsOwed(cs: seq<Clear>, c: Clear)
    requires c.lines <= 4
    ensures var d := Garbage.Calculate(Streak(cs) - 1, LastDifficult(cs), c.lines, c.spin);
            d.lines == Owed(cs, c) && d.combo == Streak(cs + [c]) - 1 && d.b2b == LastDifficult(cs + [c])
  {
    hide Streak, LastDifficult, StreakBonus, Garbage.ComboBonus;
    BonusIsTable(Streak(cs));
    StreakGrows(cs, c);
  }

  /** After any locks that leave this streak, the damage is what the record owes, and the streak it leaves is the
      record's. */
  ghost predicate OwedBy(combo: int, b2b: bool, c: Clear, d: Garbage.Damage) {
    forall cs: seq<Clear> :: Streak(cs) == combo + 1 && LastDifficult(cs) == b2b ==>
      d == Garbage.Damage(Owed(cs, c), Streak(cs + [c]) - 1, LastDifficult(cs + [c]))
  }

  lemma DamageFits(combo: int, b2b: bool, cleared: nat, tSpin: bool)
    ensures cleared <= 4 ==> OwedBy(combo, b2b, Clear(cleared, tSpin), Garbage.Calculate(combo, b2b, cleared, tSpin))
  {
    hide Streak, LastDifficult, Owed, Garbage.Calculate;
    forall cs: seq<Clear> | Streak(cs) == combo + 1 && LastDifficult(cs) == b2b && cleared <= 4
      ensures Garbage.Calculate(combo, b2b, cleared, tSpin) ==
        Garbage.Damage(Owed(cs, Clear(cleared, tSpin)), Streak(cs + [Clear(cleared, tSpin)]) - 1,
          LastDifficult(cs + [Clear(cleared, tSpin)]))
    {
      DamageIsOwed(cs, Clear(cleared, tSpin));
    }
  }

  lemma StreakGrows(cs: seq<Clear>, c: Clear)
    ensures Streak(cs + [c]) == if c.lines == 0 then 0 else 1 + Streak(cs)
    ensures LastDifficult(cs + [c]) == if c.lines == 0 then LastDifficult(cs) else Difficult(c)
  {
    assert (cs + [c])[..|cs|] == cs;
  }

  lemma BonusIsTable(streak: nat)
    ensures Garbage.ComboBonus(streak) == StreakBonus(streak)
  {
  }

  lemma TotalsGrow(cs: seq<Clear>, c: Clear)
    ensures LinesOf(cs + [c]) == LinesOf(cs) + c.lines && FoursOf(cs + [c]) == FoursOf(cs) + Bit(c.lines == 4)
    ensures SpinsOf(cs + [c]) == SpinsOf(cs) + Bit(c.spin)
  {
    assert (cs + [c])[..|cs|] == cs;
  }

  /** What the engine counts at a lock is what the record says of it. */
  lemma ClearCounted(g: Game, i: Input)
    requires Inv(g) && StepLocks(g, i)
    ensures var h, c := AtLock(g, i), ClearOf(g, i, g.lastActionRotation);
            c == Clear(LinesMade(h), TSpin(h)) && c.lines <= 4
  {
    hide Inv, StepLocks, AtLock, TSpin, Spun, Lock, FullRow, FullRows, NoFullRow, FullCount;
    InvSized(g);
    var h := AtLock(g, i);
    LockRuns.LockFields(g, i);
    SpinIsSpun(h);
    ClearedAt(Lock(h.board, h.current), WIDTH);
    InvBoard(g);
    LinesMadeBound(h);
  }

  lemma InvBoard(g: Game)
    requires Inv(g)
    ensures BoardOk(g.board)
  {
  }

  lemma LockDeals(g: Game, i: Input, cs: seq<Clear>)
    requires Inv(g) && StepLocks(g, i) && Streaks(g, cs)
    ensures var c := ClearOf(g, i, g.lastActionRotation);
            LockDamage(AtLock(g, i)) == Garbage.Damage(Owed(cs, c), Streak(cs + [c]) - 1, LastDifficult(cs + [c]))
  {
    hide Inv, StepLocks, AtLock, TSpin, LinesMade, ClearOf, Streak, LastDifficult, Owed, Garbage.Calculate;
    InvSized(g);
    LockRuns.LockFields(g, i);
    ClearCounted(g, i);
    DamageIsOwed(cs, ClearOf(g, i, g.lastActionRotation));
  }

  lemma LockTold(g: Game, i: Input, cs: seq<Clear>)
    requires Inv(g) && StepLocks(g, i) && Told(g, cs)
    ensures Sized(g) && Told(Step(g, i), cs + [ClearOf(g, i, g.lastActionRotation)])
  {
    hide Inv, StepLocks, AtLock, TSpin, LinesMade, ClearOf, Streak, LastDifficult, Owed, LinesOf, FoursOf, SpinsOf,
         Settle, Step, LockDamage;
    InvSized(g);
    InvLockPose(g, i);
    LockingStep(g, i);
    LockDeals(g, i, cs);
    ClearCounted(g, i);
    TotalsGrow(cs, ClearOf(g, i, g.lastActionRotation));
    SettledCounters(AtLock(g, i), DiceOf(i));
    AtLockCounters(g, i);
  }

  lemma AtLockCounters(g: Game, i: Input)
    requires Sized(g)
    ensures var h := AtLock(g, i);
            && h.piecesPlaced == g.piecesPlaced && h.linesCleared == g.linesCleared && h.score == g.score
            && h.level == g.level && h.tetrises == g.tetrises && h.tSpins == g.tSpins
  {
  }

  /** A successful turn changes the rotation, and a successful slide the place. */
  lemma FlagFollows(g: Game, i: Input)
    requires Sized(g)
    ensures var r := Step(g, i);
            r.lastActionRotation ==
              if i.Act? && (IsTurn(i.action) || IsSlide(i.action)) && r.current != g.current then IsTurn(i.action)
              else g.lastActionRotation
  {
    hide ValidPiece, DropPiece, Settle, Refill, Targeting.CycleTarget, Rotations.FirstKick, Rotations.Kick;
    if StepLocks(g, i) {
      FlagAtLock(g, i);
    } else if i.Tick? && !g.gameOver {
      QuietTickFlag(g, i.dice);
    }
  }

  lemma FlagAtLock(g: Game, i: Input)
    requires Sized(g) && StepLocks(g, i)
    ensures Step(g, i).lastActionRotation == g.lastActionRotation && !(i.Act? && i.action != HardDrop)
  {
    hide Step, Settle, AtLock, ValidPiece, DropPiece;
    LockingStep(g, i);
    LockRuns.LockFields(g, i);
    SettleFlag(AtLock(g, i), DiceOf(i));
  }

  lemma SettleFlag(g: Game, d: Dice)
    requires Sized(g)
    ensures Settle(g, d).lastActionRotation == g.lastActionRotation
  {
    hide Baked, LinesMade, TSpin, LockExchange, LockDamage, Garbage.AddGarbage, Refill, ValidPiece, RowsLetIn;
  }

  lemma QuietTickFlag(g: Game, d: Dice)
    requires Sized(g) && !g.gameOver && !StepLocks(g, Tick(d))
    ensures UpdateTimers(g, d).lastActionRotation == g.lastActionRotation
  {
    hide ValidPiece, Settle;
  }

  lemma {:induction false} RunTurns(g: Game, inputs: seq<Input>)
    requires Sized(g) && !g.lastActionRotation
    ensures Run(g, inputs).lastActionRotation == LastWasTurn(g, inputs)
  {
    hide Step, Sized;
    if inputs != [] {
      var n := |inputs| - 1;
      RunTurns(g, inputs[..n]);
      FlagFollows(Run(g, inputs[..n]), inputs[n]);
    }
  }

  lemma StepTold(g: Game, i: Input, cs: seq<Clear>)
    requires Inv(g) && Told(g, cs)
    ensures Sized(g)
    ensures Told(Step(g, i), cs + if StepLocks(g, i) then [ClearOf(g, i, g.lastActionRotation)] else [])
  {
    hide Inv, Step, Sized, StepLocks, ClearOf, Streak, LastDifficult, LinesOf, FoursOf, SpinsOf;
    InvSized(g);
    if StepLocks(g, i) {
      LockTold(g, i, cs);
    } else {
      QuietCounters(g, i);
      assert cs + [] == cs;
    }
  }

  lemma {:induction false} RunTold(g: Game, inputs: seq<Input>)
    requires Inv(g) && Told(g, []) && !g.lastActionRotation
    ensures Sized(g) && Told(Run(g, inputs), Clears(g, inputs))
  {
    hide Inv, Step, Sized, StepLocks, ClearOf, LastWasTurn, Told;
    InvSized(g);
    if inputs != [] {
      var n := |inputs| - 1;
      RunTold(g, inputs[..n]);
      RunKeeps(g, inputs[..n]);
      RunTurns(g, inputs[..n]);
      StepTold(Run(g, inputs[..n]), inputs[n], Clears(g, inputs[..n]));
    }
  }

  lemma StartTold(first: Picks, second: Picks)
    ensures Told(StartGame(first, second), []) && !StartGame(first, second).lastActionRotation
  {
  }

  /** In every state of every run the counters say what the record of locks says: pieces, lines, a hundred points a
      line, a level for every ten lines, fours and T-spins. */
  lemma CountersTell(first: Picks, second: Picks, inputs: seq<Input>)
    ensures var s := StartGame(first, second);
            var g, cs := Run(s, inputs), Clears(s, inputs);
            && g.piecesPlaced == |cs| && g.linesCleared == LinesOf(cs) && g.score == 100 * LinesOf(cs)
            && g.level == LinesOf(cs) / 10 + 1 && g.tetrises == FoursOf(cs) && g.tSpins == SpinsOf(cs)
  {
    hide StartGame, Run, Clears, Inv, LinesOf, FoursOf, SpinsOf;
    StartInv(first, second);
    StartTold(first, second);
    RunTold(StartGame(first, second), inputs);
  }

  function Less(a: nat, b: nat): nat {
    if a > b then a - b else 0
  }

  /** In every run a lock deals what the record owes: the worth of the clear, one more if it and the last clear before
      it were difficult, and the bonus for the clears in a row. That first cancels pending garbage; the rest is sent. */
  lemma LockDealsOwed(first: Picks, second: Picks, before: seq<Input>, next: Input)
    ensures var s := StartGame(first, second);
            var g := Run(s, before);
            StepLocks(g, next) ==>
              var c := ClearOf(g, next, LastWasTurn(s, before));
              var owed, r := Owed(Clears(s, before), c), Step(g, next);
              && c.lines <= 4 && LockDamage(AtLock(g, next)).lines == owed
              && r.outgoingGarbage == Less(owed, g.pendingGarbage)
              && r.pendingGarbage == if c.lines == 0 then 0 else Less(g.pendingGarbage, owed)
  {
    hide StartGame, Run, Clears, Inv, StepLocks, Step, LastWasTurn, ClearOf, Owed, LockDamage, AtLock, Streak,
         LastDifficult, Counters;
    var s := StartGame(first, second);
    var g := Run(s, before);
    StartInv(first, second);
    StartTold(first, second);
    RunTold(s, before);
    RunTurns(s, before);
    ReachableInv(first, second, before);
    if StepLocks(g, next) {
      LockDeals(g, next, Clears(s, before));
      LockSends(g, next);
      ClearCounted(g, next);
    }
  }

  lemma LockSends(g: Game, i: Input)
    requires Inv(g) && StepLocks(g, i)
    ensures var h, r := AtLock(g, i), Step(g, i);
            && r.outgoingGarbage == Less(LockDamage(h).lines, g.pendingGarbage)
            && r.pendingGarbage == if LinesMade(h) == 0 then 0 else Less(g.pendingGarbage, LockDamage(h).lines)
  {
    hide Inv, Shaped, Step, StepLocks, AtLock, LinesMade, LockDamage, NoFullRow;
    InvSized(g);
    LockRuns.LockFields(g, i);
    InvDamage(g, i);
  }
}
