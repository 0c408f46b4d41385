/** Who is out of the game and whom a room's own roster shows as out: not quite the same. */
module OutPlayers {
  import opened Hub
  import opened Masters
  import opened Rooms
  import opened Systems
  import opened LiveRuns
  import opened Scenes
  import opened Pieces
  import opened Boards
  import Engine
  import EngineInvariant
  import EngineRuns
  import LockRuns
  import PlayRuns
  import Bounce
  import FirstShots
  import RoomBoards
  import Targeting

  // ----- Over whole runs

  ghost predicate ShownTruly(p: Proc) {
    p.Playing? ==> forall k :: 0 <= k < |p.slots| && p.slots[k].eliminated ==> p.slots[k].over
  }

  /** What a step may do to one player: one who is out stays out and is shown as before; one who goes out is shown as
      out unless it was a request of their own that ended their game; and only who quits leaves the room. */
  ghost predicate GoesOut(request: bool, quit: bool, s: Slot, t: Slot) {
    && t.id == s.id
    && (s.over ==> t.over && t.eliminated == s.eliminated)
    && (!s.over && t.over ==> (t.eliminated <==> !request))
    && (!t.over ==> t.eliminated == s.eliminated)
    && (t.active == if quit && !s.over then false else s.active)
    && (quit && s.active ==> t.over)
  }

  ghost predicate AllGoOut(step: Step, taken: bool, i: nat, p: Proc, p': Proc) {
    p.Playing? && p'.Playing? ==>
      |p'.slots| == |p.slots| && forall k :: 0 <= k < |p.slots| ==>
        GoesOut(step.Request? && step.i == i, taken && step == Quit(i, k), p.slots[k], p'.slots[k])
  }

  lemma TickGoesOut(slots: seq<Slot>, boards: seq<Slot>)
    requires Ticked(slots, boards) && forall k :: 0 <= k < |slots| && slots[k].eliminated ==> slots[k].over
    ensures |boards| == |slots| && forall k :: 0 <= k < |slots| ==> GoesOut(false, false, slots[k], boards[k])
  {
    forall k | 0 <= k < |slots| ensures GoesOut(false, false, slots[k], boards[k]) {
      assert TickedSlot(slots[k], boards[k]);
    }
  }

  lemma WorkerGoesOut(c: Config, n: Node, down: seq<HubMsg>, step: Step, b: Books)
    requires WorkerCan(c, n, down, step) && ShownTruly(n.proc)
    ensures AllGoOut(step, true, step.i, n.proc, WorkerStep(c, n, down, step, b).node.proc)
  {
    hide FateOf, Ticked, FreshId, Landing, OpeningSlots;
    match step
    case Tick(_, boards) => TickGoesOut(n.proc.slots, boards);
    case _ =>
  }

  lemma WorkerShows(c: Config, n: Node, down: seq<HubMsg>, step: Step, b: Books)
    requires WorkerCan(c, n, down, step) && ShownTruly(n.proc)
    ensures ShownTruly(WorkerStep(c, n, down, step, b).node.proc)
  {
    if n.proc.Playing? {
      hide WorkerStep, WorkerCan;
      WorkerGoesOut(c, n, down, step, b);
    } else {
      hide FreshId, FateOf, Ticked, BoardStep;
    }
  }

  ghost predicate AllShown(s: System) {
    forall i :: 0 <= i < |s.nodes| ==> ShownTruly(s.nodes[i].proc)
  }

  lemma StepShows(c: Config, s: System, step: Step)
    requires |s.m.rooms| == |s.nodes| && AllShown(s)
    ensures AllShown(Apply(c, s, step))
  {
    hide StartFrom, HandleMsg, CloseRoom, WorkerStep, WorkerCan, Garbages, Target, Winner, Finished, FillingFrom,
         FreeFrom, ShownTruly;
    assert ShownTruly(Lobby(false, [], false, [])) by { NobodyShown(); }
    if Enabled(c, s, step) && !step.Accept? && !step.Operator? && !step.MasterRecv? && !step.MasterClose? {
      WorkerShows(c, s.nodes[step.i], s.m.rooms[step.i].down, step, s.books);
    }
  }

  lemma NobodyShown()
    ensures ShownTruly(Lobby(false, [], false, []))
  {
  }

  lemma {:induction false} ReachableShown(c: Config, steps: seq<Step>)
    ensures AllShown(Run(c, steps))
  {
    hide Apply, AllShown;
    if steps == [] {
      NewShown(c);
    } else {
      ReachableShown(c, steps[..|steps| - 1]);
      StepShows(c, Run(c, steps[..|steps| - 1]), steps[|steps| - 1]);
    }
  }

  lemma NewShown(c: Config)
    ensures AllShown(NewSystem(c))
  {
  }

  /** In every run whoever a room shows as out is out. Whoever goes out is shown so from then on, if and only if it was
      not in a request of their own. */
  lemma ShownOutExactlyWhen(c: Config, steps: seq<Step>, next: Step, i: nat)
    ensures var s := Run(c, steps);
            var s' := Apply(c, s, next);
            i < |s.nodes| ==>
              ShownTruly(s.nodes[i].proc) &&
              (s.nodes[i].proc.Playing? && s'.nodes[i].proc.Playing? ==>
                 AllGoOut(next, Enabled(c, s, next), i, s.nodes[i].proc, s'.nodes[i].proc))
  {
    hide Run, ShownTruly, AllGoOut;
    var s := Run(c, steps);
    ReachableShown(c, steps);
    if i < |s.nodes| {
      NodeGoesOut(c, s, next, i);
    }
  }

  lemma NodeGoesOut(c: Config, s: System, step: Step, i: nat)
    requires |s.m.rooms| == |s.nodes| && i < |s.nodes| && ShownTruly(s.nodes[i].proc)
    ensures var p, p' := s.nodes[i].proc, Apply(c, s, step).nodes[i].proc;
            p.Playing? && p'.Playing? ==> AllGoOut(step, Enabled(c, s, step), i, p, p')
  {
    hide StartFrom, HandleMsg, CloseRoom, WorkerStep, WorkerCan, Garbages, Target, Winner, Finished, FillingFrom,
         FreeFrom, ShownTruly;
    if Enabled(c, s, step) && !step.Accept? && !step.Operator? && !step.MasterRecv? && !step.MasterClose? &&
      step.i == i {
      WorkerGoesOut(c, s.nodes[i], s.m.rooms[i].down, step, s.books);
    }
  }

  // ----- It does happen

  /** A pile of n pieces in the middle of the board, clear of its last column, with a fresh piece above it. */
  ghost predicate Piling(g: Engine.Game, n: nat) {
    && EngineInvariant.Inv(g) && !g.gameOver && g.pendingGarbage == 0 && g.current.x == Engine.SPAWN_X
    && (forall y :: 0 <= y < HEIGHT ==> g.board[y][9] == 0) && Occupied(g.board) == 4 * n
  }

  lemma LastColumnClear(b: Board, p: Piece, stack: Board)
    requires Shaped(b) && Shaped(stack) && LockRuns.BakedIn(b, p, stack) && p.x == Engine.SPAWN_X
    requires forall y :: 0 <= y < HEIGHT ==> b[y][9] == 0
    ensures NoFullRow(stack) && forall y :: 0 <= y < HEIGHT ==> stack[y][9] == 0
  {
    forall y | 0 <= y < HEIGHT ensures stack[y][9] == 0 && !FullRow(stack[y]) {
      assert !Covers(p, 9, y);
    }
  }

  lemma PileGrows(g: Engine.Game, n: nat, d: Engine.Dice)
    requires Piling(g, n) && g.current.y >= 0 && Engine.Sized(g) && ValidPiece(g.board, g.current)
    ensures var r := Engine.Settle(g, d);
            && (forall y :: 0 <= y < HEIGHT ==> r.board[y][9] == 0)
            && Occupied(r.board) == 4 * (n + 1) && r.pendingGarbage == 0
  {
    var stack := Lock(g.board, g.current);
    hide EngineInvariant.Inv, Lock, Occupied, Engine.Settle, ValidPiece, Engine.RowsLetIn, Engine.LinesMade,
         Engine.LockExchange, Engine.LockDamage;
    LockRuns.LockBakesIn(g.board, g.current);
    LastColumnClear(g.board, g.current, stack);
    LockRuns.SettledBoard(g, d);
    LockRuns.NoLines(g);
    LockRuns.LetsIn(g);
    EngineRuns.SettleCellCount(g, d);
    EngineRuns.SettleMeters(g, d);
    NothingPushed(Engine.Baked(g));
  }

  lemma NothingPushed(b: Board)
    ensures Occupied(b[..0]) == 0
  {
  }

  /** One slam: the pile is a piece higher, or the game is over. */
  lemma Slams(g: Engine.Game, n: nat, roster: Targeting.Roster, d: Engine.Dice)
    requires Piling(g, n)
    ensures Engine.Sized(g)
    ensures var r := Engine.ApplyAction(g, Engine.HardDrop, roster, d); r.gameOver || Piling(r, n + 1)
  {
    hide EngineInvariant.Inv, Engine.DropPiece, Engine.Settle, Occupied, PlayRuns.TopsOut, ValidPiece,
         PlayRuns.BlockedOut;
    EngineInvariant.InvSized(g);
    var i := Engine.Act(Engine.HardDrop, roster, d);
    EngineInvariant.StepKeeps(g, i);
    if EngineRuns.StepLocks(g, i) {
      var h := EngineRuns.AtLock(g, i);
      EngineInvariant.HardDropInv(g);
      EngineRuns.InvLockPose(g, i);
      EngineRuns.LockingStep(g, i);
      PileGrows(h, n, d);
      PlayRuns.LockEnds(g, i);
    } else {
      PlayRuns.QuietEnds(g, i);
    }
  }

  lemma {:induction false} Capacity(b: Board)
    requires forall y :: 0 <= y < |b| ==> |b[y]| == WIDTH
    ensures Occupied(b) <= WIDTH * |b|
  {
    hide RowCount;
    if b != [] {
      Capacity(b[1..]);
    }
  }

  /** Whoever only slams is out after at most fifty-one pieces: none of them completes a row, and the board has room for
      fifty. */
  lemma {:induction false} SlammingEnds(g: Engine.Game, n: nat, m: nat, roster: Targeting.Roster, d: Engine.Dice)
    requires Engine.Sized(g) && (g.gameOver || (Piling(g, n) && n + m > 50))
    ensures FirstShots.Do(g, FirstShots.Times(Engine.HardDrop, m), roster, d).gameOver
    decreases m
  {
    hide Engine.ApplyAction, Piling, Engine.Sized;
    if m == 0 {
      if !g.gameOver {
        PileFits(g, n);
      }
    } else {
      if g.gameOver {
        RoomBoards.OverIsOver(g, Engine.HardDrop, roster, d);
      } else {
        Slams(g, n, roster, d);
      }
      assert FirstShots.Times(Engine.HardDrop, m)[1..] == FirstShots.Times(Engine.HardDrop, m - 1);
      SlammingEnds(Engine.ApplyAction(g, Engine.HardDrop, roster, d), n + 1, m - 1, roster, d);
    }
  }

  lemma PileFits(g: Engine.Game, n: nat)
    requires Piling(g, n)
    ensures n <= 50
  {
    hide Occupied;
    Capacity(g.board);
  }

  lemma OpeningFields(first: Engine.Picks)
    ensures var g := Engine.StartGame(first, first);
            && g.board == EmptyRows(HEIGHT, WIDTH) && g.current.x == Engine.SPAWN_X && !g.gameOver
            && g.pendingGarbage == 0
  {
    hide Shaped;
  }

  lemma AnyPlayer(g: Engine.Game, id: nat, target: nat)
    requires EngineInvariant.Inv(g)
    ensures EngineInvariant.Inv(g.(playerId := id, targetPlayerId := target))
  {
    hide EngineInvariant.BoardOk, EngineInvariant.PoseOk, EngineInvariant.BagOk;
  }

  lemma OpeningPile(first: Engine.Picks, id: nat, target: nat)
    ensures var g := Engine.StartGame(first, first).(playerId := id, targetPlayerId := target);
            Engine.Sized(g) && Piling(g, 0)
  {
    hide EngineInvariant.Inv, Occupied, Engine.StartGame;
    var s := Engine.StartGame(first, first);
    EngineInvariant.StartInv(first, first);
    AnyPlayer(s, id, target);
    EngineInvariant.InvSized(s.(playerId := id, targetPlayerId := target));
    OpeningFields(first);
    OccupiedEmpty(HEIGHT, WIDTH);
    assert forall y :: 0 <= y < HEIGHT ==> s.board[y] == EmptyRow(WIDTH);
  }

  /** A run of the server with its real boards and sizes after which a room shows someone as still in the game who is
      out. */
  lemma OutButNotShown()
    ensures exists moves ::
              var s := Live(C, moves).s;
              && s == Run(C, Trace(C, moves)) && |s.nodes| == 32 && s.nodes[0].proc.Playing?
              && |s.nodes[0].proc.slots| == 1 && s.nodes[0].proc.slots[0].over && !s.nodes[0].proc.slots[0].eliminated
  {
    hide Leads, Live, Trace, Run, FirstShots.Do, Piling, Engine.StartGame, Bounce.Showing;
    var first := FirstShots.Dealt();
    var d := Engine.Dice(seq(20, _ => 0), first);
    var moves := Bounce.UpToTheSecondRoom();
    var t: Scene;
    moves, t := Bounce.LoneStarts(moves, first);
    var g := FreshBoard([5], 0, Bags(first, first));
    OpeningPile(first, 5, FirstOther([5], 5, 0));
    var slams := FirstShots.Times(Engine.HardDrop, 51);
    moves := Bounce.Plays(moves, t, g, slams, d);
    SlammingEnds(g, 0, 51, Bounce.ALONE, d);
    Seen(moves, t, FirstShots.Do(g, slams, Bounce.ALONE, d));
  }

  lemma Seen(moves: seq<Move>, t: Scene, g: Engine.Game)
    requires Bounce.Showing(moves, t, g) && g.gameOver
    ensures var s := Live(C, moves).s;
              && s == Run(C, Trace(C, moves)) && |s.nodes| == 32 && s.nodes[0].proc.Playing?
              && |s.nodes[0].proc.slots| == 1 && s.nodes[0].proc.slots[0].over && !s.nodes[0].proc.slots[0].eliminated
  {
    hide Live, Trace, Run;
    LiveRunIsRun(C, moves);
    SysNode(t.(n0 := Bounce.Second(RoomBoards.Shadow(Bounce.S5, g), Input)));
  }
}
