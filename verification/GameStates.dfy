/** The game state as the server keeps it: one object with fields and arrays updated in place. */
module GameStates {
  import opened Pieces
  import opened Boards
  import opened Shuffling
  import opened Engine
  import BoardArrays
  import ClearRuns
  import Garbage
  import Rotations
  import Targeting

  class GameState {
    const cells: array2<int>
    const bag: array<Kind>
    var current: Piece
    var bagIndex: nat
    var heldType: int
    var hasHeld: bool
    var lastActionRotation: bool
    var gravityTimer: nat
    var lockTimer: nat
    var piecesPlaced: nat
    var tetrises: nat
    var tSpins: nat
    var score: nat
    var linesCleared: nat
    var level: nat
    var combo: int
    var b2b: bool
    var pendingGarbage: nat
    var outgoingGarbage: nat
    var gameOver: bool
    var playerId: nat
    var targetPlayerId: nat
    var targetMode: nat
    var lastAttackerId: nat
    var winnerId: nat

    ghost predicate Valid()
      reads this
    {
      BoardArrays.Playfield(cells) && bag.Length == 14 && bagIndex < 7 && 0 <= heldType <= 7
    }

    ghost function Field(): (b: Board)
      requires BoardArrays.Playfield(cells)
      reads cells
      ensures Shaped(b)
    {
      BoardArrays.Rows(cells)
    }

    /** The value this object stands for. */
    ghost function Abs(): (g: Game)
      requires Valid()
      reads this, cells, bag
      ensures Sized(g) && g.board == Field() && g.current == current && g.gameOver == gameOver && g.hasHeld == hasHeld
    {
      Game(Field(), current, bag[..], bagIndex, heldType, hasHeld, lastActionRotation, gravityTimer, lockTimer,
           piecesPlaced, tetrises, tSpins, score, linesCleared, level, combo, b2b, pendingGarbage, outgoingGarbage,
             gameOver,
           playerId, targetPlayerId, targetMode, lastAttackerId, winnerId)
    }

    /** A fresh game: cleared fields, two shuffled bags, first piece drawn. */
    constructor (first: Picks, second: Picks)
      ensures Valid() && fresh(cells) && fresh(bag)
      ensures Abs() == StartGame(first, second)
    {
      cells := new int[HEIGHT, WIDTH]((_, _) => 0);
      bag := new Kind[14](_ => 1);
      current := Piece(1, 0, 0, 0);
      bagIndex, heldType, hasHeld, lastActionRotation := 0, 0, false, false;
      gravityTimer, lockTimer, piecesPlaced, tetrises, tSpins, score, linesCleared := 0, 0, 0, 0, 0, 0, 0;
      level, combo, b2b, pendingGarbage, outgoingGarbage, gameOver := 1, -1, false, 0, 0, false;
      playerId, targetPlayerId, targetMode, lastAttackerId, winnerId := 0, 0, Targeting.TARGET_MANUAL, 0, 0;
      new;
      hide Shuffle, EmptyRows;
      EmptyPlayfield(cells);
      FillBags(first, second);
      StartSpawn(first, second);
    }

    /** Loads the two opening bags. */
    method FillBags(first: Picks, second: Picks)
      requires Valid()
      modifies bag
      ensures bag[..] == Shuffle(SEVEN, first) + Shuffle(SEVEN, second)
    {
      hide Shuffle;
      var bag1 := FreshBag(first);
      var bag2 := FreshBag(second);
      for i := 0 to 7
        invariant forall j :: 0 <= j < i ==> bag[j] == bag1[j]
      {
        bag[i] := bag1[i];
      }
      for i := 0 to 7
        invariant forall j :: 0 <= j < 7 ==> bag[j] == bag1[j]
        invariant forall j :: 0 <= j < i ==> bag[j + 7] == bag2[j]
      {
        bag[i + 7] := bag2[i];
      }
    }

    method StartSpawn(first: Picks, second: Picks)
      requires Valid() && Abs() == Blank(first, second)
      modifies this, bag
      ensures Valid() && Abs() == StartGame(first, second)
    {
      hide SpawnPiece, Blank, Abs;
      SpawnNewPiece(first);
    }

    // ----- Bag and hold

    /** The second bag moves down and a fresh one follows it. */
    method RenewBag(picks: Picks)
      requires Valid()
      modifies bag
      ensures bag[..] == Refill(old(bag[..]), picks)
    {
      hide Shuffle;
      ghost var b := bag[..];
      for i := 0 to 7
        invariant forall j :: 0 <= j < i ==> bag[j] == b[j + 7]
        invariant forall j :: 7 <= j < 14 ==> bag[j] == b[j]
      {
        bag[i] := bag[i + 7];
      }
      var newBag := FreshBag(picks);
      for i := 0 to 7
        invariant forall j :: 0 <= j < 7 ==> bag[j] == b[j + 7]
        invariant forall j :: 0 <= j < i ==> bag[j + 7] == newBag[j]
      {
        bag[i + 7] := newBag[i];
      }
    }

    method RefillBag(picks: Picks)
      requires Valid()
      modifies bag, this`bagIndex
      ensures Valid() && Abs() == old(Abs()).(bag := Refill(old(bag[..]), picks), bagIndex := 0)
    {
      hide Refill, Field;
      RenewBag(picks);
      bagIndex := 0;
    }

    method SpawnNewPiece(picks: Picks)
      requires Valid()
      modifies this, bag
      ensures Valid() && Abs() == SpawnPiece(old(Abs()), picks)
    {
      hide Refill, Field;
      var kind := bag[bagIndex];
      if bagIndex + 1 >= 7 {
        RefillBag(picks);
      } else {
        bagIndex := bagIndex + 1;
      }
      current := Piece(kind, 0, SPAWN_X, SPAWN_Y);
      hasHeld := false;
    }

    method HoldPiece(picks: Picks)
      requires Valid()
      modifies this, bag
      ensures Valid() && Abs() == Engine.HoldPiece(old(Abs()), picks)
      ensures var g := old(Abs());
              if g.hasHeld then Abs() == g
              else Abs().hasHeld && Abs().heldType == g.current.kind &&
                   Abs().current == Piece(if g.heldType == 0 then g.bag[g.bagIndex] else g.heldType, 0, 3, -2)
    {
      hide Refill, Field, SpawnPiece;
      if hasHeld {
        return;
      }
      HoldTakes(Abs(), picks);
      if heldType == 0 {
        heldType := current.kind;
        SpawnNewPiece(picks);
      } else {
        var temp := current.kind;
        current := Piece(heldType, 0, SPAWN_X, SPAWN_Y);
        heldType := temp;
      }
      hasHeld := true;
    }

    // ----- Movement

    method Free(p: Piece) returns (ok: bool)
      requires Valid()
      ensures ok == ValidPiece(Field(), p)
    {
      hide ValidPos;
      ok := BoardArrays.IsValidPos(cells, p.kind, p.rot, p.x, p.y);
    }

    method Shift(dx: int, dy: int) returns (moved: bool)
      requires Valid()
      modifies this`current, this`lastActionRotation
      ensures Valid() && Abs() == Move(old(Abs()), dx, dy) && moved == CanShift(old(Abs()), dx, dy)
    {
      hide ValidPiece, Field;
      moved := Free(Shifted(current, dx, dy));
      if moved {
        current := Shifted(current, dx, dy);
        lastActionRotation := false;
      }
    }

    method HardDrop() returns (rows: nat)
      requires Valid()
      modifies this`current
      ensures Valid() && Abs() == HardDropped(old(Abs()))
      ensures rows == current.y - old(current.y)
    {
      hide ValidPiece, Field;
      ghost var b := Field();
      rows := 0;
      var falls := Free(Shifted(current, 0, 1));
      while falls
        invariant Valid() && Abs() == old(Abs()).(current := current)
        invariant DropPiece(b, current) == DropPiece(b, old(current)) && rows == current.y - old(current.y)
        invariant falls == ValidPiece(b, Shifted(current, 0, 1))
        decreases HEIGHT - current.y
      {
        ValidBounds(b, Shifted(current, 0, 1));
        current := Shifted(current, 0, 1);
        rows := rows + 1;
        falls := Free(Shifted(current, 0, 1));
      }
    }

    method TestRotate(to: Rotation) returns (turned: bool)
      requires Valid()
      modifies this`current, this`lastActionRotation
      ensures Valid() && Abs() == Rotate(old(Abs()), to)
      ensures turned == Rotations.CanRotate(old(Abs()).board, old(current), to)
    {
      hide ValidPiece, Rotations.Kick, Field;
      ghost var b := Field();
      for i := 0 to 5
        invariant Valid() && Abs() == old(Abs())
        invariant Rotations.FirstKick(b, current, to, 0) == Rotations.FirstKick(b, current, to, i)
      {
        var o := Rotations.Kick(current.kind, current.rot, to, i);
        var kicked := Piece(current.kind, to, current.x + o.dx, current.y + o.dy);
        var ok := Free(kicked);
        if ok {
          assert Rotations.FirstKick(b, current, to, 0) == i;
          current := kicked;
          lastActionRotation := true;
          return true;
        }
      }
      return false;
    }

    // ----- Locking

    method Corner(x: int, y: int) returns (n: nat)
      requires Valid()
      ensures n == CornerBlocked(Field(), x, y)
    {
      if x < 0 || x >= WIDTH || y >= HEIGHT || y < 0 {
        n := 1;
      } else if cells[y, x] != 0 {
        n := 1;
      } else {
        n := 0;
      }
    }

    method CheckTSpin() returns (spin: bool)
      requires Valid()
      ensures spin == TSpin(Abs())
    {
      hide CornerBlocked, Field;
      if current.kind != PIECE_T || !lastActionRotation {
        return false;
      }
      var x, y := current.x + 1, current.y + 1;
      var a := Corner(x - 1, y - 1);
      var b := Corner(x + 1, y - 1);
      var c := Corner(x - 1, y + 1);
      var d := Corner(x + 1, y + 1);
      return a + b + c + d >= 3;
    }

    method ClearLines() returns (n: nat)
      requires Valid()
      modifies cells, this`linesCleared, this`level, this`score
      ensures Valid()
      ensures n == FullCount(old(Abs()).board)
      ensures Abs() == old(Abs()).(
        board := Cleared(old(Abs()).board, WIDTH), linesCleared := old(Abs()).linesCleared + n,
        level := if n > 0 then (old(Abs()).linesCleared + n) / 10 + 1
          else old(Abs()).level, score := old(Abs()).score + n * 100)
    {
      hide FullCount, Cleared, Field;
      n := ClearField();
      if n > 0 {
        linesCleared := linesCleared + n;
        level := linesCleared / 10 + 1;
        score := score + n * 100;
      }
    }

    method ClearField() returns (n: nat)
      requires Valid()
      modifies cells
      ensures n == FullCount(old(Field())) && Field() == Cleared(old(Field()), WIDTH)
    {
      hide FullCount, Cleared;
      n := BoardArrays.ClearRows(cells);
    }

    method Bake()
      requires Valid()
      modifies cells, this`piecesPlaced
      ensures Valid()
      ensures Abs() == old(Abs()).(board := Lock(old(Abs()).board, old(Abs()).current),
        piecesPlaced := old(Abs()).piecesPlaced + 1)
    {
      hide Lock;
      BoardArrays.LockPiece(cells, current);
      piecesPlaced := piecesPlaced + 1;
    }

    method CalculateGarbage(cleared: nat, tSpin: bool) returns (damage: nat)
      requires Valid()
      modifies this`combo, this`b2b
      ensures Valid()
      ensures var d := Garbage.Calculate(old(Abs()).combo, old(Abs()).b2b, cleared, tSpin);
              damage == d.lines && Abs() == old(Abs()).(combo := d.combo, b2b := d.b2b)
      ensures cleared <= 4 ==>
                ClearRuns.OwedBy(old(combo), old(b2b), ClearRuns.Clear(cleared, tSpin),
                  Garbage.Damage(damage, combo, b2b))
    {
      hide Field, ClearRuns.OwedBy;
      ClearRuns.DamageFits(combo, b2b, cleared, tSpin);
      if cleared == 0 {
        combo := -1;
        return 0;
      }
      combo := combo + 1;
      var difficult := tSpin || cleared == 4;
      var base := 0;
      if tSpin {
        base := cleared * 2;
      } else if cleared == 2 {
        base := 1;
      } else if cleared == 3 {
        base := 3;
      } else if cleared == 4 {
        base := 4;
      }
      if difficult {
        if b2b {
          base := base + 1;
        }
        b2b := true;
      } else {
        b2b := false;
      }
      return base + Garbage.ComboBonus(combo);
    }

    method QueueGarbage(lines: int)
      requires Valid()
      modifies this`pendingGarbage
      ensures Valid() && Abs() == old(Abs()).(pendingGarbage := Garbage.Queued(old(Abs()).pendingGarbage, lines))
      ensures lines > 0 ==> pendingGarbage == if old(pendingGarbage) + lines < HEIGHT then old(pendingGarbage) + lines
                                              else HEIGHT
    {
      hide Field;
      if lines <= 0 {
        return;
      }
      var pending := pendingGarbage + lines;
      if pending > HEIGHT {
        pending := HEIGHT;
      }
      pendingGarbage := pending;
    }

    /** Bakes the piece in, clears rows and counts. */
    method LockAndClear(tSpin: bool) returns (n: nat)
      requires Valid() && tSpin == TSpin(Abs())
      modifies this, cells
      ensures Valid() && Abs() == Engine.LockAndClear(old(Abs())) && n == LinesMade(old(Abs()))
    {
      hide TSpin, Lock, FullCount, Cleared, Abs;
      CountTSpin(tSpin);
      Bake();
      n := ClearLines();
      CountTetris(n);
    }

    method CountTSpin(tSpin: bool)
      requires Valid()
      modifies this`tSpins
      ensures Valid() && Abs() == old(Abs()).(tSpins := old(Abs()).tSpins + Bit(tSpin))
    {
      hide Field;
      if tSpin {
        tSpins := tSpins + 1;
      }
    }

    method CountTetris(n: nat)
      requires Valid()
      modifies this`tetrises
      ensures Valid() && Abs() == old(Abs()).(tetrises := old(Abs()).tetrises + Bit(n == 4))
    {
      hide Field;
      if n == 4 {
        tetrises := tetrises + 1;
      }
    }

    method PushGarbage(lines: nat, holes: Holes)
      requires Valid()
      modifies cells
      ensures Valid() && Abs() == old(Abs()).(board := Garbage.AddGarbage(old(Abs()).board, lines, holes))
    {
      hide Garbage.AddGarbage;
      BoardArrays.AddGarbage(cells, lines, holes);
    }

    /** Cancels pending garbage against the damage, sends the rest, and takes what is left when nothing was cleared. */
    method TradeGarbage(dealt: nat, cleared: nat, holes: Holes)
      requires Valid()
      modifies this`pendingGarbage, this`outgoingGarbage, cells
      ensures Valid()
      ensures var e := Garbage.Cancel(dealt, old(Abs()).pendingGarbage);
              var taken := if cleared == 0 then e.pending else 0;
              Abs() == old(Abs()).(
                outgoingGarbage := e.outgoing,
                pendingGarbage := if taken > 0 then 0 else e.pending,
                board := Garbage.AddGarbage(old(Abs()).board, taken, holes))
    {
      hide Garbage.AddGarbage, Field;
      var damage := dealt;
      if damage > 0 && pendingGarbage > 0 {
        if damage >= pendingGarbage {
          damage := damage - pendingGarbage;
          pendingGarbage := 0;
        } else {
          pendingGarbage := pendingGarbage - damage;
          damage := 0;
        }
      }
      outgoingGarbage := damage;
      if cleared == 0 && pendingGarbage > 0 {
        PushGarbage(pendingGarbage, holes);
        pendingGarbage := 0;
      } else {
        Garbage.NoneAdded(Field(), holes);
      }
    }

    method EndIfBlocked()
      requires Valid()
      modifies this`gameOver
      ensures Valid()
      ensures Abs() == old(Abs()).(gameOver := old(Abs()).gameOver || !ValidPiece(old(Abs()).board, old(Abs()).current))
    {
      hide Field, ValidPiece;
      var ok := Free(current);
      if !ok {
        gameOver := true;
      }
    }

    /** Lock, clear, trade garbage, spawn. */
    method Settle(d: Dice) returns (cleared: nat)
      requires Valid()
      modifies this, cells, bag
      ensures Valid() && Abs() == Engine.Settle(old(Abs()), d) && cleared == LinesMade(old(Abs()))
    {
      hide Abs, ValidPiece, LinesMade, TSpin, Baked, Garbage.Calculate, Garbage.Cancel, Garbage.AddGarbage, Refill,
           SpawnPiece;
      var tSpin := CheckTSpin();
      cleared := LockAndClear(tSpin);
      var damage := CalculateGarbage(cleared, tSpin);
      TradeGarbage(damage, cleared, d.holes);
      SpawnNewPiece(d.picks);
      EndIfBlocked();
      SpawnKeepsOver(old(Abs()), d);
    }

    method Fall()
      requires Valid()
      modifies this`current
      ensures Valid() && Abs() == old(Abs()).(current := Shifted(old(Abs()).current, 0, 1))
    {
      hide Field;
      current := Shifted(current, 0, 1);
    }

    method EndGame()
      requires Valid()
      modifies this`gameOver
      ensures Valid() && Abs() == old(Abs()).(gameOver := true)
    {
      hide Field;
      gameOver := true;
    }

    method TickGame(d: Dice) returns (cleared: nat)
      requires Valid()
      modifies this, cells, bag
      ensures Valid() && Abs() == Engine.TickGame(old(Abs()), d)
      ensures cleared == if Locks(old(Abs())) then LinesMade(old(Abs())) else 0
    {
      hide Abs, Field, ValidPiece, LinesMade, Engine.Settle;
      cleared := 0;
      var falls := Free(Shifted(current, 0, 1));
      if falls {
        Fall();
      } else if current.y < 0 {
        EndGame();
      } else {
        cleared := Settle(d);
      }
    }

    method SetTimers(gravity: nat, lock: nat)
      requires Valid()
      modifies this`gravityTimer, this`lockTimer
      ensures Valid() && Abs() == old(Abs()).(gravityTimer := gravity, lockTimer := lock)
    {
      hide Field;
      gravityTimer, lockTimer := gravity, lock;
    }

    /** One tick of gravity and lock delay; true when the piece fell or locked. */
    method UpdateTimers(d: Dice) returns (moved: bool)
      requires Valid()
      modifies this, cells, bag
      ensures Valid() && Abs() == Engine.UpdateTimers(old(Abs()), d) && moved == TimerFires(old(Abs()))
    {
      hide Field, ValidPiece, Engine.TickGame;
      var gravity := GRAVITY_THRESHOLD_START - (level - 1) * 5;
      if gravity < 5 {
        gravity := 5;
      }
      var falls := Free(Shifted(current, 0, 1));
      if !falls {
        lockTimer := lockTimer + 1;
        if lockTimer >= LOCK_THRESHOLD_START {
          var _ := TickGame(d);
          SetTimers(0, 0);
          return true;
        }
      } else {
        lockTimer := 0;
        gravityTimer := gravityTimer + 1;
        if gravityTimer >= gravity {
          var _ := TickGame(d);
          gravityTimer := 0;
          return true;
        }
      }
      return false;
    }

    // ----- Player requests

    method Nudge(dx: int, dy: int)
      requires Valid()
      modifies this
      ensures Valid()
      ensures Abs() == if CanShift(old(Abs()), dx, dy) then Move(old(Abs()), dx, dy).(lockTimer := 0) else old(Abs())
    {
      hide Field, ValidPiece;
      var moved := Shift(dx, dy);
      if moved {
        lockTimer := 0;
      }
    }

    method Turn(to: Rotation)
      requires Valid()
      modifies this
      ensures Valid() && Abs() == Rotate(old(Abs()), to).(lockTimer := 0)
    {
      hide Field, Rotate, Rotations.CanRotate;
      var _ := TestRotate(to);
      lockTimer := 0;
    }

    method Slam(d: Dice)
      requires Valid()
      modifies this, cells, bag
      ensures Valid() && Abs() == Engine.TickGame(HardDropped(old(Abs())), d).(gravityTimer := 0, lockTimer := 0)
    {
      hide Abs, Engine.TickGame, HardDropped, LinesMade, Locks;
      var _ := HardDrop();
      var _ := TickGame(d);
      SetTimers(0, 0);
    }

    method HoldOnce(d: Dice)
      requires Valid()
      modifies this, bag
      ensures Valid()
      ensures Abs() == if old(Abs()).hasHeld then old(Abs())
        else Engine.HoldPiece(old(Abs()), d.picks).(gravityTimer := 0)
    {
      hide Field, Engine.HoldPiece;
      if !hasHeld {
        HoldPiece(d.picks);
        gravityTimer := 0;
      }
    }

    method Retarget(mode: bool, roster: Targeting.Roster)
      requires Valid()
      modifies this`targetMode, this`targetPlayerId
      ensures Valid()
      ensures var g := old(Abs());
              Abs() == if mode then g.(targetMode := Targeting.NextMode(g.targetMode))
                       else g.(targetPlayerId := Targeting.CycleTarget(roster, g.playerId, g.targetPlayerId))
    {
      hide Field, Targeting.CycleTarget;
      if mode {
        targetMode := Targeting.NextMode(targetMode);
      } else {
        targetPlayerId := Targeting.CycleManualTarget(roster, playerId, targetPlayerId);
      }
    }

    /** Performs a player's request; nothing happens once the game is over. */
    method ApplyAction(a: Action, roster: Targeting.Roster, d: Dice)
      requires Valid()
      modifies this, cells, bag
      ensures Valid() && Abs() == Engine.ApplyAction(old(Abs()), a, roster, d)
    {
      hide Abs, Field, CanShift, Move, Engine.TickGame, Engine.HoldPiece, Rotate, HardDropped, Targeting.CycleTarget;
      if gameOver {
        return;
      }
      match a {
        case None =>
        case MoveLeft => Nudge(-1, 0);
        case MoveRight => Nudge(1, 0);
        case SoftDrop => Nudge(0, 1);
        case RotateCw => Turn(Rotations.Clockwise(current.rot));
        case RotateCcw => Turn(Rotations.CounterClockwise(current.rot));
        case HardDrop => Slam(d);
        case Hold => HoldOnce(d);
        case CycleTargetMode => Retarget(true, roster);
        case CycleTarget => Retarget(false, roster);
        case Quit => EndGame();
      }
    }
  }

  lemma SpawnKeepsOver(g: Game, d: Dice)
    requires Sized(g)
    ensures var damage, e, taken := LockDamage(g), LockExchange(g), RowsLetIn(g);
            var traded := LockAndClear(g).(combo := damage.combo, b2b := damage.b2b, outgoingGarbage := e.outgoing,
              pendingGarbage := if taken > 0 then 0 else e.pending,
              board := Garbage.AddGarbage(LockAndClear(g).board, taken, d.holes));
            SpawnPiece(traded, d.picks).gameOver == g.gameOver
  {
    hide LinesMade, TSpin, Baked, Garbage.Calculate, Garbage.Cancel, Garbage.AddGarbage, Refill, LockDamage, RowsLetIn,
         LockExchange;
  }

  lemma EmptyPlayfield(a: array2<int>)
    requires BoardArrays.Playfield(a) && forall y, x :: 0 <= y < HEIGHT && 0 <= x < WIDTH ==> a[y, x] == 0
    ensures BoardArrays.Rows(a) == EmptyRows(HEIGHT, WIDTH)
  {
    forall y | 0 <= y < HEIGHT ensures BoardArrays.RowAt(a, y) == EmptyRow(WIDTH) {
    }
  }

  /** The seven pieces in the order the draws put them. */
  method FreshBag(picks: Picks) returns (r: seq<Kind>)
    ensures r == Shuffle(SEVEN, picks)
  {
    hide Shuffle;
    var a := new Kind[7](i => if 0 <= i < 7 then i + 1 else 1);
    assert a[..] == SEVEN;
    ShuffleArray(a, picks);
    r := a[..];
  }
}
