/** Pieces cannot hang: with no player input every piece locks, or the game ends, within a fixed number of ticks. */
module Timers {
  import opened Pieces
  import opened Boards
  import opened Engine
  import opened EngineInvariant
  import opened EngineRuns
  import ClearRuns
  import Rotations
  import Targeting

  /** How many more ticks the piece can last: fifty for each row it can still fall, or what is left of
      the lock delay. */
  ghost function Patience(g: Game): int
    requires Sized(g)
  {
    if CanShift(g, 0, 1) then 50 * (19 - g.current.y) + 50 - g.gravityTimer else 50 - g.lockTimer
  }

  lemma PatienceBounds(g: Game)
    requires Inv(g)
    ensures 1 <= Patience(g) <= 50 * (20 - g.current.y) <= 1250
    ensures CanShift(g, 0, 1) ==> g.current.y <= 18
  {
    hide ValidPiece, BoardOk, BagOk;
    if ValidPiece(g.board, g.current) {
      ValidBounds(g.board, g.current);
    }
    if CanShift(g, 0, 1) {
      ValidBounds(g.board, Shifted(g.current, 0, 1));
    }
  }

  /** The tick after which the piece is gone or the game is over. */
  predicate Resolves(g: Game, d: Dice)
    requires Sized(g)
  {
    StepLocks(g, Tick(d)) || Step(g, Tick(d)).gameOver
  }

  lemma RestingTick(g: Game, d: Dice)
    requires Inv(g) && !g.gameOver && !CanShift(g, 0, 1) && !Resolves(g, d)
    ensures Step(g, Tick(d)) == g.(lockTimer := g.lockTimer + 1)
  {
    hide ValidPiece, BoardOk, BagOk, PoseOk, Settle;
  }

  lemma FallingTick(g: Game, d: Dice)
    requires Inv(g) && !g.gameOver && CanShift(g, 0, 1)
    ensures var r := Step(g, Tick(d));
            || r == g.(lockTimer := 0, gravityTimer := g.gravityTimer + 1)
            || r == g.(lockTimer := 0, gravityTimer := 0, current := Shifted(g.current, 0, 1))
  {
    hide ValidPiece, BoardOk, BagOk, PoseOk, Settle;
  }

  lemma InvTimers(g: Game)
    requires Inv(g)
    ensures g.gravityTimer < 50 && g.lockTimer < 50
  {
  }

  lemma TickProgress(g: Game, d: Dice)
    requires Inv(g) && !g.gameOver && !Resolves(g, d)
    ensures Inv(Step(g, Tick(d))) && Patience(Step(g, Tick(d))) < Patience(g)
  {
    hide Inv, ValidPiece, Step, Resolves, Shaped;
    InvSized(g);
    InvTimers(g);
    StepKeeps(g, Tick(d));
    InvSized(Step(g, Tick(d)));
    PatienceBounds(g);
    if CanShift(g, 0, 1) {
      FallingTick(g, d);
    } else {
      RestingTick(g, d);
    }
  }

  /** Garbage arriving or being taken away between ticks. */
  predicate Passive(i: Input) {
    i.Receive? || i.Consume?
  }

  /** It neither moves the piece nor the timers. */
  lemma PassiveStep(g: Game, i: Input)
    requires Inv(g) && Passive(i)
    ensures Inv(Step(g, i)) && Step(g, i).gameOver == g.gameOver && Patience(Step(g, i)) == Patience(g)
  {
    hide Inv, ValidPiece, Shaped;
    InvSized(g);
    StepKeeps(g, i);
    InvSized(Step(g, i));
  }

  predicate NoActions(inputs: seq<Input>) {
    forall j :: 0 <= j < |inputs| ==> !inputs[j].Act?
  }

  function TickCount(inputs: seq<Input>): nat {
    if inputs == [] then 0 else Bit(inputs[0].Tick?) + TickCount(inputs[1..])
  }

  lemma RunStep(g: Game, inputs: seq<Input>, n: nat)
    requires Sized(g) && n < |inputs|
    ensures Run(g, inputs[..n + 1]) == Step(Run(g, inputs[..n]), inputs[n])
  {
    hide Step;
    assert inputs[..n + 1][..n] == inputs[..n];
  }

  lemma {:induction false} NoHangFrom(g: Game, inputs: seq<Input>, n: nat) returns (k: nat)
    requires Inv(g) && n <= |inputs| && NoActions(inputs)
    requires Sized(g) && Inv(Run(g, inputs[..n])) && !Run(g, inputs[..n]).gameOver
    requires TickCount(inputs[n..]) >= Patience(Run(g, inputs[..n]))
    ensures n <= k < |inputs| && inputs[k].Tick? && Resolves(Run(g, inputs[..k]), inputs[k].dice)
    decreases |inputs| - n
  {
    hide Inv, Run, Resolves, Patience, Shaped, Step;
    var h := Run(g, inputs[..n]);
    PatienceBounds(h);
    assert inputs[n..] != [];
    assert inputs[n..][1..] == inputs[n + 1..];
    RunStep(g, inputs, n);
    if !inputs[n].Tick? {
      PassiveStep(h, inputs[n]);
      k := NoHangFrom(g, inputs, n + 1);
    } else if Resolves(h, inputs[n].dice) {
      k := n;
    } else {
      TickProgress(h, inputs[n].dice);
      NotOver(h, inputs[n].dice);
      k := NoHangFrom(g, inputs, n + 1);
    }
  }

  lemma NotOver(g: Game, d: Dice)
    requires Sized(g) && !Resolves(g, d)
    ensures !Step(g, Tick(d)).gameOver
  {
    hide Step;
  }

  /** From any reachable state that is not over, 50 * (20 - y) ticks, never more than 1250, are enough
      for the piece to lock or the game to end, however much garbage arrives or is sent between them, as
      long as the player does nothing. */
  lemma PieceCannotHang(first: Picks, second: Picks, before: seq<Input>, after: seq<Input>)
    ensures var g := Run(StartGame(first, second), before);
            && g.current.y >= -5 && 50 * (20 - g.current.y) <= 1250
            && (!g.gameOver && NoActions(after) && TickCount(after) >= 50 * (20 - g.current.y) ==>
                  exists k :: 0 <= k < |after| && after[k].Tick? && Resolves(Run(g, after[..k]), after[k].dice))
  {
    hide Run, StartGame, Inv, Resolves, Patience, Shaped;
    ReachableInv(first, second, before);
    var g := Run(StartGame(first, second), before);
    InvSized(g);
    PatienceBounds(g);
    if !g.gameOver && NoActions(after) && TickCount(after) >= 50 * (20 - g.current.y) {
      NoInputs(g);
      assert after[..0] == [] && after[0..] == after;
      var k := NoHangFrom(g, after, 0);
    }
  }

  lemma NoInputs(g: Game)
    requires Sized(g)
    ensures Run(g, []) == g
  {
  }

  // ----- To the tick

  lemma {:induction false} TickCountLast(inputs: seq<Input>)
    requires inputs != []
    ensures TickCount(inputs) == TickCount(inputs[..|inputs| - 1]) + Bit(inputs[|inputs| - 1].Tick?)
  {
    var n := |inputs| - 1;
    if n > 0 {
      TickCountLast(inputs[1..]);
      assert inputs[1..][..n - 1] == inputs[..n][1..] && inputs[1..][n - 1] == inputs[n];
    }
  }

  /** Nothing has happened to the piece or the board. */
  ghost predicate SamePlay(g: Game, r: Game) {
    && r.current == g.current && r.board == g.board && r.gameOver == g.gameOver && r.piecesPlaced == g.piecesPlaced
    && r.level == g.level
  }

  lemma WaitStep(g: Game, i: Input)
    requires Inv(g) && !g.gameOver && !i.Act?
    requires i.Tick? ==> !TimerFires(g)
    ensures Sized(g)
    ensures var r := Step(g, i);
            && SamePlay(g, r)
            && if CanShift(g, 0, 1) then r.gravityTimer == g.gravityTimer + Bit(i.Tick?)
               else r.lockTimer == g.lockTimer + Bit(i.Tick?)
  {
    hide BoardOk, BagOk, PoseOk, CanShift, TickGame, Gravity;
  }

  /** Waiting until just before the timer runs out. */
  lemma {:induction false} Waits(g: Game, inputs: seq<Input>)
    requires Inv(g) && !g.gameOver && NoActions(inputs)
    requires CanShift(g, 0, 1) ==> g.gravityTimer + TickCount(inputs) < Gravity(g.level)
    requires !CanShift(g, 0, 1) ==> g.lockTimer + TickCount(inputs) < 50
    ensures var r := Run(g, inputs);
            && Inv(r) && SamePlay(g, r)
            && if CanShift(g, 0, 1) then r.gravityTimer == g.gravityTimer + TickCount(inputs)
               else r.lockTimer == g.lockTimer + TickCount(inputs)
  {
    hide Inv, Step, ValidPiece, Shaped, Gravity;
    InvSized(g);
    if inputs != [] {
      var n := |inputs| - 1;
      TickCountLast(inputs);
      Waits(g, inputs[..n]);
      var h := Run(g, inputs[..n]);
      assert CanShift(h, 0, 1) == CanShift(g, 0, 1);
      WaitStep(h, inputs[n]);
      StepKeeps(h, inputs[n]);
    }
  }

  /** Ticks for one row: fifty at first, five fewer for every ten lines, and never fewer than five. */
  function Pace(lines: nat): int {
    if lines < 90 then 50 - 5 * (lines / 10) else 5
  }

  lemma LevelPace(first: Picks, second: Picks, before: seq<Input>)
    ensures var g := Run(StartGame(first, second), before); Gravity(g.level) == Pace(g.linesCleared)
  {
    hide Run, StartGame, ClearRuns.Clears, ClearRuns.LinesOf, ClearRuns.FoursOf, ClearRuns.SpinsOf;
    ClearRuns.CountersTell(first, second, before);
  }

  lemma GravityBelow(g: Game, i: Input)
    requires Inv(g) && g.gravityTimer < Gravity(g.level)
    ensures Sized(g) && Step(g, i).gravityTimer < Gravity(Step(g, i).level)
  {
    hide Inv, StepLocks, Gravity;
    InvSized(g);
    if StepLocks(g, i) {
      hide Step, Settle;
      LockingStep(g, i);
    } else {
      QuietGravity(g, i);
    }
  }

  lemma QuietGravity(g: Game, i: Input)
    requires Sized(g) && !StepLocks(g, i) && g.gravityTimer < Gravity(g.level)
    ensures Step(g, i).level == g.level && Step(g, i).gravityTimer < Gravity(g.level)
  {
    hide ValidPiece, DropPiece, Settle, Rotations.CanRotate, Rotations.Rotated, Refill, Targeting.CycleTarget, Gravity;
    ClearRuns.QuietCounters(g, i);
    if i.Tick? && !g.gameOver {
      QuietTickGravity(g, i.dice);
    }
  }

  lemma QuietTickGravity(g: Game, d: Dice)
    requires Sized(g) && !g.gameOver && !StepLocks(g, Tick(d)) && g.gravityTimer < Gravity(g.level)
    ensures UpdateTimers(g, d).gravityTimer < Gravity(g.level)
  {
    hide ValidPiece, Settle, Gravity;
  }

  lemma {:induction false} RunGravity(g: Game, inputs: seq<Input>)
    requires Inv(g) && g.gravityTimer < Gravity(g.level)
    ensures Sized(g) && Run(g, inputs).gravityTimer < Gravity(Run(g, inputs).level)
  {
    hide Inv, Step, Sized, Gravity;
    InvSized(g);
    if inputs != [] {
      var n := |inputs| - 1;
      RunGravity(g, inputs[..n]);
      RunKeeps(g, inputs[..n]);
      GravityBelow(Run(g, inputs[..n]), inputs[n]);
    }
  }

  lemma StartGravity(first: Picks, second: Picks)
    ensures StartGame(first, second).gravityTimer < Gravity(StartGame(first, second).level)
  {
  }

  lemma NextTick(g: Game, d: Dice)
    requires Inv(g) && !g.gameOver
    ensures Sized(g)
    ensures CanShift(g, 0, 1) && g.gravityTimer == Gravity(g.level) - 1 ==>
              Step(g, Tick(d)).current == Shifted(g.current, 0, 1)
    ensures !CanShift(g, 0, 1) && g.lockTimer == 49 ==> Resolves(g, d)
  {
    hide BoardOk, BagOk, PoseOk, ValidPiece, Settle, Gravity;
  }

  /** From every reachable state that is not over, while the player does nothing: a piece that can fall stays where it
      is until the tick its pace says and falls one row in that tick; a piece that cannot fall stays until the fiftieth
      tick of the lock delay, and in that tick it locks or the game ends. No sooner and no later. */
  lemma FallsAndLocksOnTime(first: Picks, second: Picks, before: seq<Input>, after: seq<Input>, d: Dice)
    ensures var g := Run(StartGame(first, second), before);
            var r := Run(g, after);
            var left := if CanShift(g, 0, 1) then Pace(g.linesCleared) - g.gravityTimer else 50 - g.lockTimer;
            && left >= 1
            && (!g.gameOver && NoActions(after) && TickCount(after) < left ==> SamePlay(g, r))
            && (!g.gameOver && NoActions(after) && TickCount(after) == left - 1 ==>
                  if CanShift(g, 0, 1) then Step(r, Tick(d)).current == Shifted(g.current, 0, 1) else Resolves(r, d))
  {
    hide Run, Step, StartGame, Inv, Resolves, Gravity, Shaped, ValidPiece, NoActions;
    ReachableInv(first, second, before);
    var g := Run(StartGame(first, second), before);
    InvSized(g);
    InvTimers(g);
    LevelPace(first, second, before);
    StartInv(first, second);
    StartGravity(first, second);
    RunGravity(StartGame(first, second), before);
    var left := if CanShift(g, 0, 1) then Pace(g.linesCleared) - g.gravityTimer else 50 - g.lockTimer;
    if !g.gameOver && NoActions(after) && TickCount(after) < left {
      Waits(g, after);
      NextTick(Run(g, after), d);
    }
  }
}
