/** What the player's requests do to the piece, and exactly when a game ends. */
module PlayRuns {
  import opened Pieces
  import opened Boards
  import opened Engine
  import opened EngineInvariant
  import opened EngineRuns
  import Garbage
  import Rotations
  import Targeting

  // ----- Requests

  /** Where the five tries of a turn put the piece, in order. */
  function Tries(p: Piece, to: Rotation): (ps: seq<Piece>)
    ensures |ps| == 5
  {
    seq(5, i requires 0 <= i < 5 =>
      Piece(p.kind, to, p.x + Rotations.Shifts(p.kind, p.rot)[i].dx - Rotations.Shifts(p.kind, to)[i].dx,
        p.y + Rotations.Shifts(p.kind, p.rot)[i].dy - Rotations.Shifts(p.kind, to)[i].dy))
  }

  /** `q` is the first of these poses that is free. */
  ghost predicate FirstFree(b: Board, ps: seq<Piece>, q: Piece)
    requires Shaped(b)
  {
    exists n :: 0 <= n < |ps| && ps[n] == q && ValidPiece(b, q) && forall j :: 0 <= j < n ==> !ValidPiece(b, ps[j])
  }

  /** A request to slide one cell: done if the place is free, and then the lock delay starts again; else nothing. */
  ghost predicate Slid(g: Game, r: Game, dx: int, dy: int)
    requires Sized(g)
  {
    var q := Piece(g.current.kind, g.current.rot, g.current.x + dx, g.current.y + dy);
    if ValidPiece(g.board, q) then r == g.(current := q, lastActionRotation := false, lockTimer := 0) else r == g
  }

  /** A request to turn: the first free try is taken, if there is one; the lock delay starts again in any case. */
  ghost predicate Turned(g: Game, r: Game, to: Rotation)
    requires Sized(g)
  {
    var ps := Tries(g.current, to);
    if forall n :: 0 <= n < 5 ==> !ValidPiece(g.board, ps[n]) then r == g.(lockTimer := 0)
    else FirstFree(g.board, ps, r.current) && r == g.(current := r.current, lastActionRotation := true, lockTimer := 0)
  }

  /** Straight down from where the piece is, row y is the last before something is in the way. */
  ghost predicate FallsTo(b: Board, p: Piece, y: int)
    requires Shaped(b)
  {
    p.y <= y && (forall n :: p.y < n <= y ==> ValidPiece(b, p.(y := n))) && !ValidPiece(b, p.(y := y + 1))
  }

  /** A request to drop: the piece goes straight down as far as it can and locks there, or the game ends if that is
      above the board. */
  ghost predicate Dropped(g: Game, r: Game)
    requires Sized(g)
  {
    exists y :: FallsTo(g.board, g.current, y) &&
      if y < 0 then r == g.(current := g.current.(y := y), gameOver := true, gravityTimer := 0, lockTimer := 0)
      else r.piecesPlaced == g.piecesPlaced + 1
  }

  lemma TriesAreKicks(p: Piece, to: Rotation, i: int)
    requires 0 <= i < 5 && Rotations.Neighbours(p.rot, to)
    ensures Tries(p, to)[i] == Rotations.Kicked(p, to, i)
  {
    hide Rotations.Kick, Rotations.Shifts, Rotations.Neighbours;
    Rotations.KicksAreDifferences(p.kind, p.rot, to, i);
  }

  lemma TurnTakesFirst(g: Game, to: Rotation)
    requires Sized(g) && Rotations.Neighbours(g.current.rot, to)
    ensures Turned(g, Rotate(g, to).(lockTimer := 0), to)
  {
    hide ValidPiece, Shaped, Tries, Rotations.Kicked, Rotations.Neighbours;
    var ps := Tries(g.current, to);
    forall i | 0 <= i < 5 ensures ps[i] == Rotations.Kicked(g.current, to, i) {
      TriesAreKicks(g.current, to, i);
    }
    var n := Rotations.FirstKick(g.board, g.current, to, 0);
    if n < 5 {
      assert ps[n] == Rotations.Rotated(g.board, g.current, to) && ValidPiece(g.board, ps[n]);
    }
  }

  lemma DropGoesDown(g: Game, d: Dice)
    requires Sized(g) && !g.gameOver
    ensures Dropped(g, TickGame(HardDropped(g), d).(gravityTimer := 0, lockTimer := 0))
  {
    hide ValidPiece, Shaped, Settle, DropPiece;
    var q := DropPiece(g.board, g.current);
    assert Shifted(q, 0, 1) == g.current.(y := q.y + 1);
    assert FallsTo(g.board, g.current, q.y);
    SettlePlaces(HardDropped(g), d);
  }

  /** What each request that moves a piece does, in every state that is not over. */
  lemma RequestsMove(g: Game, roster: Targeting.Roster, d: Dice)
    requires Sized(g) && !g.gameOver
    ensures Slid(g, Step(g, Act(MoveLeft, roster, d)), -1, 0)
    ensures Slid(g, Step(g, Act(MoveRight, roster, d)), 1, 0)
    ensures Slid(g, Step(g, Act(SoftDrop, roster, d)), 0, 1)
    ensures Turned(g, Step(g, Act(RotateCw, roster, d)), (g.current.rot + 1) % 4)
    ensures Turned(g, Step(g, Act(RotateCcw, roster, d)), (g.current.rot + 3) % 4)
    ensures Dropped(g, Step(g, Act(HardDrop, roster, d)))
  {
    hide ValidPiece, Shaped, Rotate, TickGame, HardDropped, HoldPiece, Targeting.CycleTarget, Turned, Dropped;
    TurnTakesFirst(g, (g.current.rot + 1) % 4);
    TurnTakesFirst(g, (g.current.rot + 3) % 4);
    DropGoesDown(g, d);
  }

  /** Requests that aim change the aim and nothing else: the mode goes round the three modes, and the target moves to
      the next living opponent after it, if there is one. */
  lemma RequestsAim(g: Game, roster: Targeting.Roster, d: Dice)
    requires Sized(g) && !g.gameOver
    ensures var r := Step(g, Act(CycleTargetMode, roster, d));
            && r == g.(targetMode := r.targetMode)
            && (g.targetMode == 0 ==> r.targetMode == 1) && (g.targetMode == 1 ==> r.targetMode == 2)
            && (g.targetMode == 2 ==> r.targetMode == 0)
    ensures var r := Step(g, Act(CycleTarget, roster, d));
            && r == g.(targetPlayerId := r.targetPlayerId)
            && if |roster| > 1 && exists i :: 0 <= i < |roster| && Targeting.Candidate(g.playerId, roster[i])
               then Targeting.Nearest(roster, g.playerId, Targeting.IndexFrom(roster, g.targetPlayerId, 0), 1,
                      r.targetPlayerId)
               else r.targetPlayerId == g.targetPlayerId
  {
    hide Shaped, Targeting.CycleTarget, Targeting.Nearest;
    Targeting.CycleTargetSound(roster, g.playerId, g.targetPlayerId);
  }

  // ----- The end of a game

  /** The next piece does not fit: one of the cells it needs in the top row is taken. */
  predicate BlockedOut(b: Board, k: Kind)
    requires Shaped(b)
  {
    exists px :: 0 <= px < 4 && Picture(k)[1][px] == '#' && b[0][3 + px] != 0
  }

  lemma FitsAtTop(b: Board, k: Kind)
    requires Shaped(b)
    ensures ValidPiece(b, Piece(k, 0, SPAWN_X, SPAWN_Y)) <==> !BlockedOut(b, k)
  {
    hide Solid, Picture;
    forall px, py | 0 <= px < 4 && 0 <= py < 4
      ensures Solid(k, 0, px, py) <==> 1 <= py <= 2 && Picture(k)[py - 1][px] == '#'
    {
      SevenPieces(k, px, py);
    }
    if !BlockedOut(b, k) {
      forall px, py | 0 <= px < 4 && 0 <= py < 4 && Solid(k, 0, px, py) ensures Fits(b, SPAWN_X + px, SPAWN_Y + py) {
      }
    } else {
      var px :| 0 <= px < 4 && Picture(k)[1][px] == '#' && b[0][3 + px] != 0;
      assert Solid(k, 0, px, 2) && !Fits(b, SPAWN_X + px, SPAWN_Y + 2);
    }
  }

  /** The piece comes to rest above the board: it is dropped and stays there, or its lock delay runs out there. */
  predicate TopsOut(g: Game, i: Input)
    requires Sized(g)
  {
    match i
    case Act(a, _, _) => a == HardDrop && DropPiece(g.board, g.current).y < 0
    case Tick(_) => !CanShift(g, 0, 1) && g.lockTimer == 49 && g.current.y < 0
    case _ => false
  }

  lemma LockEnds(g: Game, i: Input)
    requires Sized(g) && StepLocks(g, i)
    ensures var r := Step(g, i);
            r.current == Piece(g.bag[g.bagIndex], 0, 3, -2) && (r.gameOver <==> BlockedOut(r.board, g.bag[g.bagIndex]))
    ensures !TopsOut(g, i) && !(i.Act? && i.action == Quit)
  {
    var h := AtLock(g, i);
    assert !h.gameOver;
    hide Settle, Step, AtLock, ValidPiece, DropPiece, BlockedOut;
    LockingStep(g, i);
    SettleEnds(h, DiceOf(i));
    FitsAtTop(Step(g, i).board, g.bag[g.bagIndex]);
  }

  lemma SettleEnds(g: Game, d: Dice)
    requires Sized(g) && !g.gameOver
    ensures var r := Settle(g, d);
            r.current == Piece(g.bag[g.bagIndex], 0, SPAWN_X, SPAWN_Y) && r.gameOver == !ValidPiece(r.board, r.current)
  {
    hide Baked, LinesMade, TSpin, LockExchange, LockDamage, Garbage.AddGarbage, Refill, ValidPiece, RowsLetIn;
  }

  lemma QuietEnds(g: Game, i: Input)
    requires Inv(g) && !g.gameOver && !StepLocks(g, i)
    ensures Step(g, i).gameOver <==> (i.Act? && i.action == Quit) || TopsOut(g, i)
  {
    hide BoardOk, BagOk, PoseOk, ValidPiece, DropPiece, Settle, Rotations.CanRotate, Rotations.Rotated, Refill,
         Targeting.CycleTarget;
    if i.Tick? {
      QuietTickEnds(g, i.dice);
    }
  }

  lemma QuietTickEnds(g: Game, d: Dice)
    requires Inv(g) && !g.gameOver && !StepLocks(g, Tick(d))
    ensures UpdateTimers(g, d).gameOver <==> TopsOut(g, Tick(d))
  {
    hide BoardOk, BagOk, PoseOk, ValidPiece, Settle;
  }

  /** In every run a step ends the game if and only if the player quits, the piece comes to rest above the board, or a
      piece locks and the next one finds one of its cells in the top row taken. */
  lemma EndsExactlyWhen(first: Picks, second: Picks, before: seq<Input>, next: Input)
    ensures var g := Run(StartGame(first, second), before);
            !g.gameOver ==>
              (Step(g, next).gameOver <==>
                 || (next.Act? && next.action == Quit) || TopsOut(g, next)
                 || (StepLocks(g, next) && BlockedOut(Step(g, next).board, g.bag[g.bagIndex])))
  {
    hide Run, StartGame, Step, Inv, TopsOut, StepLocks, BlockedOut;
    ReachableInv(first, second, before);
    var g := Run(StartGame(first, second), before);
    InvSized(g);
    if !g.gameOver {
      if StepLocks(g, next) {
        LockEnds(g, next);
      } else {
        QuietEnds(g, next);
      }
    }
  }

  lemma OverStep(g: Game, i: Input)
    requires Sized(g) && g.gameOver
    ensures Step(g, i) == if i == Consume then g.(outgoingGarbage := 0) else g
  {
    hide Shaped;
  }

  /** A game that is over stays as it is; only garbage still waiting is taken away. */
  lemma {:induction false} OverIsFinal(g: Game, inputs: seq<Input>)
    requires Sized(g) && g.gameOver
    ensures Run(g, inputs) == g.(outgoingGarbage := if Consume in inputs then 0 else g.outgoingGarbage)
  {
    hide Sized, Step;
    if inputs != [] {
      var n := |inputs| - 1;
      OverIsFinal(g, inputs[..n]);
      OverStep(Run(g, inputs[..n]), inputs[n]);
      assert inputs == inputs[..n] + [inputs[n]];
    }
  }
}
