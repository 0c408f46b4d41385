/** The server with its real boards: every player of every running room has a game of the engine, and what the step
    system knows of a player is at all times what that game shows. */
module LiveRuns {
  import opened Hub
  import opened Masters
  import opened Rooms
  import opened Systems
  import opened RoomBoards
  import Engine
  import EngineInvariant

  /** The step system's state, and a game for each player of each slot's room. */
  datatype World = World(s: System, boards: seq<seq<Engine.Game>>)

  /** The draws of a player's first two bags. */
  datatype Bags = Bags(first: Engine.Picks, second: Engine.Picks)

  datatype Move =
    | Server(step: Step)                                            // everything the boards have no say in
    | Open(i: nat, bags: seq<Bags>)                                 // room i begins, with these bags
    | Play(i: nat, k: nat, action: Engine.Action, dice: Engine.Dice) // player k of room i acts
    | TickAll(i: nat, rolls: seq<Engine.Dice>)                      // room i advances its boards by one tick

  // ----- What boards do

  function FreshBoard(ids: seq<nat>, k: nat, b: Bags): Engine.Game
    requires k < |ids|
  {
    Engine.StartGame(b.first, b.second).(playerId := ids[k], targetPlayerId := FirstOther(ids, ids[k], 0))
  }

  function FreshBoards(ids: seq<nat>, bags: seq<Bags>): (bs: seq<Engine.Game>)
    requires |bags| == |ids|
    ensures |bs| == |ids|
  {
    seq(|ids|, k requires 0 <= k < |ids| => FreshBoard(ids, k, bags[k]))
  }

  ghost predicate TiedRoom(p: Proc, bs: seq<Engine.Game>) {
    p.Playing? ==> |bs| == |p.slots| && forall k :: 0 <= k < |bs| ==> Shows(p.slots[k], bs[k])
  }

  ghost predicate Tied(w: World) {
    |w.s.m.rooms| == |w.s.nodes| == |w.boards| && forall i :: 0 <= i < |w.boards| ==>
      TiedRoom(w.s.nodes[i].proc, w.boards[i])
  }

  ghost function Acted(p: Proc, bs: seq<Engine.Game>, k: nat, a: Engine.Action, d: Engine.Dice): Engine.Game
    requires p.Playing? && TiedRoom(p, bs) && k < |bs|
  {
    assert Shows(p.slots[k], bs[k]);
    Bounded(bs[k]);
    Engine.ApplyAction(bs[k], a, LocalRoster(p.slots), d)
  }

  ghost function TickedBoard(s: Slot, g: Engine.Game, d: Engine.Dice): Engine.Game
    requires Shows(s, g)
  {
    Bounded(g);
    if s.active then Engine.Step(g, Engine.Tick(d)) else g
  }

  /** What the room sees of a player after the tick; one who just topped out leaves the targeting roster. */
  ghost function TickedView(s: Slot, g: Engine.Game, d: Engine.Dice): Slot
    requires Shows(s, g)
  {
    if !s.active then s
    else
      var g' := TickedBoard(s, g, d);
      Shadow(s, g').(eliminated := s.eliminated || (!g.gameOver && g'.gameOver))
  }

  ghost function TickedBoards(p: Proc, bs: seq<Engine.Game>, ds: seq<Engine.Dice>): (r: seq<Engine.Game>)
    requires p.Playing? && TiedRoom(p, bs) && |ds| == |bs|
    ensures |r| == |bs|
    ensures forall k :: 0 <= k < |bs| ==> Shows(p.slots[k], bs[k]) && r[k] == TickedBoard(p.slots[k], bs[k], ds[k])
  {
    hide Shows, TickedBoard;
    seq(|bs|, k requires 0 <= k < |bs| => assert Shows(p.slots[k], bs[k]); TickedBoard(p.slots[k], bs[k], ds[k]))
  }

  ghost function TickedViews(p: Proc, bs: seq<Engine.Game>, ds: seq<Engine.Dice>): (r: seq<Slot>)
    requires p.Playing? && TiedRoom(p, bs) && |ds| == |bs|
    ensures |r| == |bs|
    ensures forall k :: 0 <= k < |bs| ==> Shows(p.slots[k], bs[k]) && r[k] == TickedView(p.slots[k], bs[k], ds[k])
  {
    hide Shows, TickedView;
    seq(|bs|, k requires 0 <= k < |bs| => assert Shows(p.slots[k], bs[k]); TickedView(p.slots[k], bs[k], ds[k]))
  }

  ghost function Struck(s: Slot, g: Engine.Game, a: HubAttack): Engine.Game
    requires Shows(s, g)
  {
    Bounded(g);
    Engine.Step(g, Engine.Receive(a.attacker, a.lines))
  }

  /** Forwarded garbage reaches its victim's game, if the victim is here and alive. */
  ghost function LandedBoards(p: Proc, bs: seq<Engine.Game>, a: HubAttack): (r: seq<Engine.Game>)
    requires p.Playing? && TiedRoom(p, bs)
    ensures |r| == |bs|
  {
    hide Shows, Struck;
    var v := Landing(p.slots, a);
    if v == -1 then bs else
    assert Shows(p.slots[v], bs[v]);
    bs[v := Struck(p.slots[v], bs[v], a)]
  }

  /** Player k's garbage is taken off its game, and reaches the victim's if that is in the room. */
  ghost function RoutedBoards(p: Proc, bs: seq<Engine.Game>, k: nat, f: Fate): (r: seq<Engine.Game>)
    requires p.Playing? && TiedRoom(p, bs) && k < |bs| && (f.Local? ==> f.v < |bs| && f.v != k)
    ensures |r| == |bs|
  {
    hide Struck;
    assert Shows(p.slots[k], bs[k]);
    Bounded(bs[k]);
    var spent := bs[k := Engine.Step(bs[k], Engine.Consume)];
    if f.Local? then
      assert Shows(p.slots[f.v], bs[f.v]);
      spent[f.v := Struck(p.slots[f.v], bs[f.v], f.attack)]
    else spent
  }

  ghost function LeftBoards(p: Proc, bs: seq<Engine.Game>, k: nat): (r: seq<Engine.Game>)
    requires p.Playing? && TiedRoom(p, bs) && k < |bs|
    ensures |r| == |bs|
  {
    if p.slots[k].active && !p.slots[k].over then bs[k := bs[k].(gameOver := true)] else bs
  }

  // ----- Moves

  ghost predicate InputTime(w: World, i: nat) {
    i < |w.s.nodes| == |w.s.m.rooms| && w.s.m.rooms[i].used && w.s.nodes[i].proc.Playing? &&
      w.s.nodes[i].proc.phase.Input?
  }

  /** When a move can happen. Of boards it asks nothing: whatever they do is possible. */
  ghost predicate Can(c: Config, w: World, move: Move)
    requires Tied(w)
  {
    match move
    case Server(step) => Enabled(c, w.s, step) && !step.Request? && !step.Tick? && !step.Begin?
    case Open(i, bags) => Enabled(c, w.s, Begin(i)) && |bags| == |w.s.nodes[i].proc.ids|
    case Play(i, k, a, _) => InputTime(w, i) && k < |w.s.nodes[i].proc.slots| && w.s.nodes[i].proc.slots[k].active &&
      !a.Quit?
    case TickAll(i, ds) => InputTime(w, i) && !w.s.nodes[i].proc.matchOver && |ds| == |w.s.nodes[i].proc.slots|
  }

  /** The step of the step system that a move is. */
  ghost function AsStep(c: Config, w: World, move: Move): Step
    requires Tied(w) && Can(c, w, move)
  {
    match move
    case Server(step) => step
    case Open(i, _) => Begin(i)
    case Play(i, k, a, d) =>
      assert TiedRoom(w.s.nodes[i].proc, w.boards[i]);
      Request(i, k, Shadow(w.s.nodes[i].proc.slots[k], Acted(w.s.nodes[i].proc, w.boards[i], k, a, d)))
    case TickAll(i, ds) =>
      assert TiedRoom(w.s.nodes[i].proc, w.boards[i]);
      Tick(i, TickedViews(w.s.nodes[i].proc, w.boards[i], ds))
  }

  /** The games of room j after a move. */
  ghost function BoardsOf(c: Config, w: World, move: Move, j: nat): seq<Engine.Game>
    requires Tied(w) && Can(c, w, move) && j < |w.boards|
  {
    var p, bs := w.s.nodes[j].proc, w.boards[j];
    assert TiedRoom(p, bs);
    match move
    case Open(i, bags) => if i == j then FreshBoards(p.ids, bags) else bs
    case Play(i, k, a, d) => if i == j then bs[k := Acted(p, bs, k, a, d)] else bs
    case TickAll(i, ds) => if i == j then TickedBoards(p, bs, ds) else bs
    case Server(Quit(i, k)) => if i == j then LeftBoards(p, bs, k) else bs
    case Server(RoomRecv(i)) =>
      var down := w.s.m.rooms[j].down;
      if i == j && down[0].Garbage? then LandedBoards(p, bs, down[0].attack) else bs
    case Server(Route(i, roll)) =>
      if i == j && p.phase.next < |p.slots| then
        RoutedBoards(p, bs, p.phase.next, FateOf(p.slots, p.phase.next, p.global, roll)) else bs
    case _ => bs
  }

  ghost function Next(c: Config, w: World, move: Move): (r: World)
    requires Tied(w)
    ensures |r.s.m.rooms| == |r.s.nodes| == |r.boards| == |w.boards|
  {
    if !Can(c, w, move) then w
    else World(Apply(c, w.s, AsStep(c, w, move)),
      seq(|w.boards|, j requires 0 <= j < |w.boards| => BoardsOf(c, w, move, j)))
  }

  // ----- Whatever boards do is a step, and the views stay exact

  lemma PlayIsStep(c: Config, w: World, i: nat, k: nat, a: Engine.Action, d: Engine.Dice)
    requires Tied(w) && Can(c, w, Play(i, k, a, d))
    ensures Enabled(c, w.s, AsStep(c, w, Play(i, k, a, d)))
  {
    hide Shows, Shadow, BoardStep, Engine.ApplyAction;
    var p, bs := w.s.nodes[i].proc, w.boards[i];
    assert TiedRoom(p, bs);
    assert Shows(p.slots[k], bs[k]);
    RequestRefines(p.slots[k], bs[k], a, LocalRoster(p.slots), d);
  }

  lemma TickIsStep(c: Config, w: World, i: nat, ds: seq<Engine.Dice>)
    requires Tied(w) && Can(c, w, TickAll(i, ds))
    ensures Enabled(c, w.s, AsStep(c, w, TickAll(i, ds)))
  {
    hide Shows, TickedSlot;
    var p, bs := w.s.nodes[i].proc, w.boards[i];
    assert TiedRoom(p, bs);
    var to := TickedViews(p, bs, ds);
    forall k | 0 <= k < |p.slots| ensures TickedSlot(p.slots[k], to[k]) {
      TickShows(p.slots[k], bs[k], ds[k]);
    }
  }

  lemma TickShows(s: Slot, g: Engine.Game, d: Engine.Dice)
    requires Shows(s, g)
    ensures TickedSlot(s, TickedView(s, g, d)) && Shows(TickedView(s, g, d), TickedBoard(s, g, d))
  {
    hide Shows, Shadow, Engine.Step, BoardStep;
    if s.active {
      TickRefines(s, g, d);
    }
  }

  /** Whatever a move does is a possible step of the step system. */
  lemma MoveIsStep(c: Config, w: World, move: Move)
    requires Tied(w) && Can(c, w, move)
    ensures Enabled(c, w.s, AsStep(c, w, move))
  {
    hide Tied, Enabled, InputTime;
    match move
    case Play(i, k, a, d) => PlayIsStep(c, w, i, k, a, d);
    case TickAll(i, ds) => TickIsStep(c, w, i, ds);
    case _ =>
  }

  lemma FreshTied(ids: seq<nat>, bags: seq<Bags>, p: Proc)
    requires |bags| == |ids| && p.Playing? && p.slots == OpeningSlots(ids)
    ensures TiedRoom(p, FreshBoards(ids, bags))
  {
    hide Shows, Engine.StartGame;
    var bs := FreshBoards(ids, bags);
    forall k | 0 <= k < |bs| ensures Shows(p.slots[k], bs[k]) {
      StartShows(p.slots[k], ids[k], bags[k].first, bags[k].second);
    }
  }

  lemma ActedTied(p: Proc, bs: seq<Engine.Game>, k: nat, a: Engine.Action, d: Engine.Dice)
    requires p.Playing? && TiedRoom(p, bs) && k < |bs|
    ensures var g := Acted(p, bs, k, a, d); TiedRoom(p.(slots := p.slots[k := Shadow(p.slots[k], g)]), bs[k := g])
  {
    hide Shows, Shadow, BoardStep, Engine.ApplyAction;
    assert Shows(p.slots[k], bs[k]);
    RequestRefines(p.slots[k], bs[k], a, LocalRoster(p.slots), d);
  }

  lemma TickedTied(p: Proc, bs: seq<Engine.Game>, ds: seq<Engine.Dice>, p': Proc)
    requires p.Playing? && TiedRoom(p, bs) && |ds| == |bs| && p'.Playing? && p'.slots == TickedViews(p, bs, ds)
    ensures TiedRoom(p', TickedBoards(p, bs, ds))
  {
    hide Shows, TickedView, TickedBoard;
    forall k | 0 <= k < |bs| ensures Shows(p'.slots[k], TickedBoards(p, bs, ds)[k]) {
      TickShows(p.slots[k], bs[k], ds[k]);
    }
  }

  lemma LandedTied(p: Proc, bs: seq<Engine.Game>, a: HubAttack)
    requires p.Playing? && TiedRoom(p, bs)
    ensures TiedRoom(p.(slots := ApplyGarbage(p.slots, a)), LandedBoards(p, bs, a))
  {
    hide Shows, Landing, Hit;
    var v := Landing(p.slots, a);
    if v != -1 {
      assert Shows(p.slots[v], bs[v]);
      StruckShows(p.slots[v], bs[v], a);
    }
  }

  lemma StruckShows(s: Slot, g: Engine.Game, a: HubAttack)
    requires Shows(s, g) && !s.over
    ensures Shows(Hit(s, a), Struck(s, g, a))
  {
    hide Shows, Hit, Engine.Step;
    HitRefines(s, g, a);
  }

  lemma RoutedTied(p: Proc, bs: seq<Engine.Game>, k: nat, roll: nat, phase: Phase)
    requires p.Playing? && TiedRoom(p, bs) && k < |bs|
    ensures var f := FateOf(p.slots, k, p.global, roll);
            TiedRoom(p.(slots := RoutedSlots(p.slots, k, f), phase := phase), RoutedBoards(p, bs, k, f))
  {
    hide Shows, FateOf, Hit, Engine.Step, Struck;
    var f := FateOf(p.slots, k, p.global, roll);
    assert Shows(p.slots[k], bs[k]);
    ConsumeRefines(p.slots[k], bs[k]);
    if f.Local? {
      assert Shows(p.slots[f.v], bs[f.v]);
      StruckShows(p.slots[f.v], bs[f.v], f.attack);
    }
  }

  lemma LeftTied(p: Proc, bs: seq<Engine.Game>, k: nat)
    requires p.Playing? && TiedRoom(p, bs) && k < |bs|
    ensures TiedRoom(p.(slots := p.slots[k := QuitSlot(p.slots[k])]), LeftBoards(p, bs, k))
  {
    hide Shows, QuitSlot;
    assert Shows(p.slots[k], bs[k]);
    QuitShows(p.slots[k], bs[k]);
    QuitStays(p.slots[k]);
  }

  lemma QuitStays(s: Slot)
    ensures !(s.active && !s.over) ==> QuitSlot(s) == s
  {
  }

  lemma QuitShows(s: Slot, g: Engine.Game)
    requires Shows(s, g)
    ensures s.active && !s.over ==> Shows(QuitSlot(s), g.(gameOver := true))
  {
    hide EngineInvariant.BoardOk, EngineInvariant.PoseOk, EngineInvariant.BagOk;
  }

  lemma ReportedTied(p: Proc, bs: seq<Engine.Game>, k: nat, phase: Phase)
    requires p.Playing? && TiedRoom(p, bs) && k < |bs|
    ensures TiedRoom(p.(slots := ReportedSlots(p.slots, k), phase := phase), bs)
  {
    hide EngineInvariant.Inv;
    assert Shows(p.slots[k], bs[k]);
  }

  /** A step in the step system that is not one of worker j's leaves its players alone. */
  predicate StepOf(step: Step, j: nat) {
    !step.Accept? && !step.Operator? && !step.MasterRecv? && !step.MasterClose? && step.i == j
  }

  lemma Elsewhere(c: Config, s: System, step: Step, j: nat)
    requires |s.m.rooms| == |s.nodes| && j < |s.nodes| && !StepOf(step, j)
    ensures var p := Apply(c, s, step).nodes[j].proc; p == s.nodes[j].proc || p.Lobby?
  {
    hide WorkerStep, WorkerCan, HandleMsg, CloseRoom, StartFrom, DealInto, SpawnRoom, FillingFrom, FreeFrom, Base,
         Winner, Target, Garbages, Finished;
  }

  lemma Here(c: Config, s: System, step: Step, j: nat)
    requires |s.m.rooms| == |s.nodes| && j < |s.nodes| && StepOf(step, j) && Enabled(c, s, step)
    ensures Apply(c, s, step).nodes[j] == WorkerStep(c, s.nodes[j], s.m.rooms[j].down, step, s.books).node
  {
    hide WorkerStep, WorkerCan, Finished;
  }

  lemma RoomTied(c: Config, w: World, move: Move, j: nat)
    requires Tied(w) && Can(c, w, move) && j < |w.boards| && StepOf(AsStep(c, w, move), j)
    requires Enabled(c, w.s, AsStep(c, w, move))
    ensures TiedRoom(WorkerStep(c, w.s.nodes[j], w.s.m.rooms[j].down, AsStep(c, w, move), w.s.books).node.proc,
      BoardsOf(c, w, move, j))
  {
    hide Shows, Shadow, ApplyGarbage, RoutedSlots, FateOf, QuitSlot, ReportedSlots, OpeningSlots, FreshBoards,
         BoardStep, Ticked, FreshId, Landing,
         LandedBoards, RoutedBoards, LeftBoards, Acted, TickedBoards, TickedViews, ReportMsgs, RoutedMsgs;
    var p, bs, n := w.s.nodes[j].proc, w.boards[j], w.s.nodes[j];
    assert TiedRoom(p, bs);
    match move
    case Open(_, bags) => FreshTied(p.ids, bags, Playing(OpeningSlots(p.ids), p.seen, Input, false, 0));
    case Play(_, k, a, d) => ActedTied(p, bs, k, a, d);
    case TickAll(_, ds) => TickedTied(p, bs, ds, p.(slots := TickedViews(p, bs, ds), phase := Reporting(0)));
    case Server(Quit(_, k)) => LeftTied(p, bs, k);
    case Server(RoomRecv(_)) =>
      if w.s.m.rooms[j].down[0].Garbage? {
        LandedTied(p, bs, w.s.m.rooms[j].down[0].attack);
      }
    case Server(Route(_, roll)) =>
      if p.phase.next < |p.slots| {
        RoutedTied(p, bs, p.phase.next, roll, AfterRoute(p, p.phase.next));
      }
    case Server(Report(_)) =>
      if p.phase.next < |p.slots| {
        ReportedTied(p, bs, p.phase.next, AfterReport(p, p.phase.next));
      }
    case _ =>
  }

  lemma NextTied(c: Config, w: World, move: Move)
    requires Tied(w)
    ensures Tied(Next(c, w, move))
  {
    hide TiedRoom, BoardsOf, AsStep, Can, Apply, WorkerStep;
    if Can(c, w, move) {
      MoveIsStep(c, w, move);
      var step, w' := AsStep(c, w, move), Next(c, w, move);
      forall j | 0 <= j < |w.boards| ensures TiedRoom(w'.s.nodes[j].proc, w'.boards[j]) {
        if StepOf(step, j) {
          Here(c, w.s, step, j);
          RoomTied(c, w, move, j);
        } else {
          Elsewhere(c, w.s, step, j);
          BoardsElsewhere(c, w, move, j);
          assert TiedRoom(w.s.nodes[j].proc, w.boards[j]);
          LobbyTied(w'.s.nodes[j].proc, w.boards[j]);
        }
      }
    }
  }

  lemma BoardsElsewhere(c: Config, w: World, move: Move, j: nat)
    requires Tied(w) && Can(c, w, move) && j < |w.boards| && !StepOf(AsStep(c, w, move), j)
    ensures BoardsOf(c, w, move, j) == w.boards[j]
  {
    hide Tied, Enabled, InputTime, Acted, TickedViews, Shadow, FateOf, LandedBoards, RoutedBoards, LeftBoards,
         TickedBoards, FreshBoards, TiedRoom;
  }

  lemma LobbyTied(p: Proc, bs: seq<Engine.Game>)
    ensures p.Lobby? ==> TiedRoom(p, bs)
  {
  }

  // ----- Whole runs

  function NewWorld(c: Config): World {
    World(NewSystem(c), seq(c.rooms, _ => []))
  }

  lemma NewTied(c: Config)
    ensures Tied(NewWorld(c))
  {
  }

  ghost function Live(c: Config, moves: seq<Move>): (w: World)
    ensures Tied(w)
  {
    hide Tied, Next;
    if moves == [] then
      NewTied(c);
      NewWorld(c)
    else
      NextTied(c, Live(c, moves[..|moves| - 1]), moves[|moves| - 1]);
      Next(c, Live(c, moves[..|moves| - 1]), moves[|moves| - 1])
  }

  /** The steps that the moves of a run are. */
  ghost function Trace(c: Config, moves: seq<Move>): seq<Step> {
    if moves == [] then []
    else
      var w, move := Live(c, moves[..|moves| - 1]), moves[|moves| - 1];
      Trace(c, moves[..|moves| - 1]) + if Can(c, w, move) then [AsStep(c, w, move)] else []
  }

  /** Every run of the server with its real boards is a run of the step system, in which every room knows of each of its
      players exactly what the player's game shows. So all that holds of the runs of the step system holds of the
      server. */
  lemma {:induction false} LiveRunIsRun(c: Config, moves: seq<Move>)
    ensures Live(c, moves).s == Run(c, Trace(c, moves)) && Tied(Live(c, moves))
  {
    hide Tied, Apply, AsStep, Can, BoardsOf;
    if moves != [] {
      var before, move := moves[..|moves| - 1], moves[|moves| - 1];
      LiveRunIsRun(c, before);
      var w := Live(c, before);
      if Can(c, w, move) {
        var steps := Trace(c, before);
        assert (steps + [AsStep(c, w, move)])[..|steps|] == steps;
      } else {
        assert Trace(c, before) + [] == Trace(c, before);
      }
    }
  }
}
