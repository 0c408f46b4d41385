/** After a match has ended an attack can be sent back to the room it came from: a slot is used again while the winner
    of its earlier room is still on record as alive there. One complete run of the server with its real boards that does
    it. */
module Bounce {
  import opened Hub
  import opened Masters
  import opened Rooms
  import opened Systems
  import opened LiveRuns
  import opened Scenes
  import Engine
  import EngineInvariant
  import FirstShots
  import RoomBoards
  import Shuffling
  import Targeting

  /** Four clients connect: slots 0 and 1 are taken and take nobody else. */
  lemma Dealing() returns (moves: seq<Move>)
    ensures Leads(moves, Scene(FULL, EmptyLobby(1), FULL, EmptyLobby(3), [], 2, false, false, NO_BOOKS))
  {
    hide Leads, LeadsTo, Sys, Apply, Enabled, Base;
    Beginning();
    Bases();
    AcceptSpawns(BARE, 0);
    var t1 := BARE.(r0 := NEW_ROOM, n0 := EmptyLobby(1), roomSeq := 1);
    Serve([], BARE, Accept(true), t1);
    moves := [] + [Server(Accept(true))];
    AcceptFills(t1, 0);
    var t2 := t1.(r0 := FULL);
    Serve(moves, t1, Accept(true), t2);
    moves := moves + [Server(Accept(true))];
    AcceptSpawns(t2, 1);
    var t3 := t2.(r1 := NEW_ROOM, n1 := EmptyLobby(3), roomSeq := 2);
    Serve(moves, t2, Accept(true), t3);
    moves := moves + [Server(Accept(true))];
    AcceptFills(t3, 1);
    Serve(moves, t3, Accept(true), t3.(r1 := FULL));
    moves := moves + [Server(Accept(true))];
  }

  /** Both workers open their lobbies, and the two players of slot 0 join. Nobody joins slot 1. */
  lemma Joining(before: seq<Move>) returns (moves: seq<Move>)
    requires Leads(before, Scene(FULL, EmptyLobby(1), FULL, EmptyLobby(3), [], 2, false, false, NO_BOOKS))
    ensures Leads(moves, Scene(FULL, Node(1, Lobby(true, [1, 2], false, []), [Ready, Joined(1), Joined(2)]),
                               FULL, Node(3, Lobby(true, [], false, []), [Ready]), [], 2, false, false, NO_BOOKS))
  {
    hide Leads;
    var t := Scene(FULL, EmptyLobby(1), FULL, EmptyLobby(3), [], 2, false, false, NO_BOOKS);
    Binds(before, t, 0, 1);
    moves := before + [Server(Bind(0))];
    t := t.(n0 := Node(1, Lobby(true, [], false, []), [Ready]));
    Binds(moves, t, 1, 3);
    moves := moves + [Server(Bind(1))];
    t := t.(n1 := Node(3, Lobby(true, [], false, []), [Ready]));
    Joins(moves, t, 0, 1, [], 1, [Ready]);
    moves := moves + [Server(Join(0, 1))];
    assert [] + [1] == [1] && [Ready] + [Joined(1)] == [Ready, Joined(1)];
    t := t.(n0 := Node(1, Lobby(true, [1], false, []), [Ready, Joined(1)]));
    Joins(moves, t, 0, 1, [1], 2, [Ready, Joined(1)]);
    moves := moves + [Server(Join(0, 2))];
    assert [1] + [2] == [1, 2] && [Ready, Joined(1)] + [Joined(2)] == [Ready, Joined(1), Joined(2)];
  }

  /** The master hears of it. */
  lemma Recording(before: seq<Move>) returns (moves: seq<Move>)
    requires Leads(before, Scene(FULL, Node(1, Lobby(true, [1, 2], false, []), [Ready, Joined(1), Joined(2)]),
                                 FULL, Node(3, Lobby(true, [], false, []), [Ready]), [], 2, false, false, NO_BOOKS))
    ensures Leads(moves, Scene(READY.(joined := 2), Node(1, Lobby(true, [1, 2], false, []), []),
                               READY, Node(3, Lobby(true, [], false, []), []), [P1, P2], 2, false, false, NO_BOOKS))
  {
    hide Leads, LeadsTo, Sys, Apply, Enabled;
    var n, n1 := Node(1, Lobby(true, [1, 2], false, []), [Ready, Joined(1), Joined(2)]),
      Node(3, Lobby(true, [], false, []), [Ready]);
    var t := Scene(FULL, n, FULL, n1, [], 2, false, false, NO_BOOKS);
    RecvReady(t, 0);
    assert n.up[1..] == [Joined(1), Joined(2)] && [Joined(1), Joined(2)][1..] == [Joined(2)] && [Joined(2)][1..] == [];
    var t1 := t.(r0 := READY, n0 := n.(up := [Joined(1), Joined(2)]));
    Serve(before, t, MasterRecv(0), t1);
    moves := before + [Server(MasterRecv(0))];
    RecvJoined(t1, 0, 1);
    assert [] + [P1] == [P1] && [P1] + [P2] == [P1, P2];
    var t2 := t1.(r0 := READY.(joined := 1), n0 := n.(up := [Joined(2)]), players := [P1]);
    Serve(moves, t1, MasterRecv(0), t2);
    moves := moves + [Server(MasterRecv(0))];
    RecvJoined(t2, 0, 2);
    var t3 := t2.(r0 := READY.(joined := 2), n0 := n.(up := []), players := [P1, P2]);
    Serve(moves, t2, MasterRecv(0), t3);
    moves := moves + [Server(MasterRecv(0))];
    RecvReady(t3, 1);
    assert n1.up[1..] == [];
    Serve(moves, t3, MasterRecv(1), t3.(r1 := READY, n1 := n1.(up := [])));
    moves := moves + [Server(MasterRecv(1))];
  }

  // ----- A match begins

  lemma Opens(moves: seq<Move>, t: Scene, base: nat, ids: seq<nat>, view: HubRoster, bags: seq<Bags>)
    requires Leads(moves, t) && t.r0.used && t.n0 == Node(base, Lobby(true, ids, true, view), []) && ids != []
    requires |bags| == |ids|
    ensures LeadsTo(moves + [Open(0, bags)],
      t.(n0 := Node(base, Playing(OpeningSlots(ids), view, Input, false, 0), [])), FreshBoards(ids, bags))
  {
    hide Live, Tied, OpeningSlots, FreshBoards, Apply, Sys;
    var n := Node(base, Playing(OpeningSlots(ids), view, Input, false, 0), []);
    var w, move := Live(C, moves), Open(0, bags);
    WorkerScene(t, 0, Begin(0), n, false, t.b);
    SysNode(t);
    TiedSize(w);
    Take(moves, move, Sys(t.(n0 := n)));
    assert Live(C, moves + [move]).boards[0] == BoardsOf(C, w, move, 0);
  }

  lemma TiedSize(w: World)
    requires Tied(w)
    ensures |w.s.m.rooms| == |w.s.nodes| == |w.boards|
  {
  }

  /** The operator starts slot 0, and its worker reads its two messages and begins. */
  lemma Starting(before: seq<Move>, t: Scene, base: nat, ids: seq<nat>, bags: seq<Bags>) returns (moves: seq<Move>)
    requires Leads(before, t) && t.r0.used && !t.r0.started && t.r0.joined >= 1 && t.r0.down == [] && t.r1.joined == 0
    requires !t.r1.started
    requires t.n0 == Node(base, Lobby(true, ids, false, []), []) && ids != [] && |bags| == |ids|
    ensures LeadsTo(moves, t.(r0 := t.r0.(started := true), started := true,
                              n0 := Node(base, Playing(OpeningSlots(ids), View(t.players), Input, false, 0), [])),
                                FreshBoards(ids, bags))
  {
    hide Leads, LeadsTo, Sys, Apply, Enabled, View, OpeningSlots, FreshBoards;
    var view := View(t.players);
    var r := t.r0.(started := true);
    OperatorScene(t);
    assert [] + [Start(r.redirected)] + [Roster(view)] == [Start(r.redirected), Roster(view)];
    var t1 := t.(r0 := r.(down := [Start(r.redirected), Roster(view)]), started := true);
    Serve(before, t, Operator, t1);
    moves := before + [Server(Operator)];
    Reads(moves, t1, 0, t.n0.proc.(ordered := true));
    assert t1.r0.down[1..] == [Roster(view)] && [Roster(view)][1..] == [];
    var t2 := t1.(r0 := r.(down := [Roster(view)]), n0 := Node(base, Lobby(true, ids, true, []), []));
    moves := moves + [Server(LobbyRecv(0))];
    Reads(moves, t2, 0, Lobby(true, ids, true, view));
    var t3 := t2.(r0 := r.(down := []), n0 := Node(base, Lobby(true, ids, true, view), []));
    moves := moves + [Server(LobbyRecv(0))];
    Opens(moves, t3, base, ids, view, bags);
    moves := moves + [Open(0, bags)];
  }

  // ----- The first match: player 1 quits

  const S1 := Slot(1, true, false, false, false, 0, 0, 0, 2, 0)
  const S2 := Slot(2, true, false, false, false, 0, 0, 0, 1, 0)
  const S1_QUIT := Slot(1, false, true, false, true, 0, 0, 0, 2, 0)
  const S1_OUT := S1_QUIT.(elimReported := true)
  const VIEW_12 := [PlayerView(1, true), PlayerView(2, true)]

  lemma OpeningPair()
    ensures OpeningSlots([1, 2]) == [S1, S2] && View([P1, P2]) == VIEW_12
  {
    assert FirstOther([1, 2], 1, 0) == FirstOther([1, 2], 1, 1) == 2;
  }

  function Match(slots: seq<Slot>, phase: Phase): Proc {
    Playing(slots, VIEW_12, phase, false, 0)
  }

  lemma Leaves(moves: seq<Move>, t: Scene, bs: seq<Engine.Game>)
    requires LeadsTo(moves, t, bs) && |bs| == 2 && t.r0.used && t.n0 == Node(1, Match([S1, S2], Input), [])
    ensures exists g :: LeadsTo(moves + [Server(Quit(0, 0))], t.(n0 := Node(1, Match([S1_QUIT, S2], Input), [])),
      [g, bs[1]])
  {
    hide Live, Tied, Apply, Sys, Enabled;
    var n := Node(1, Match([S1_QUIT, S2], Input), []);
    var w, step := Live(C, moves), Quit(0, 0);
    assert [S1, S2][0 := S1_QUIT] == [S1_QUIT, S2];
    WorkerScene(t, 0, step, n, false, t.b);
    Take(moves, Server(step), Sys(t.(n0 := n)));
    SysNode(t);
    LeftGames(w, bs);
  }

  lemma LeftGames(w: World, bs: seq<Engine.Game>)
    requires Tied(w) && Can(C, w, Server(Quit(0, 0))) && |w.boards| > 0 && w.boards[0] == bs && |bs| == 2
    ensures exists g :: BoardsOf(C, w, Server(Quit(0, 0)), 0) == [g, bs[1]]
  {
    hide Enabled, Tied, TiedRoom;
    var r := BoardsOf(C, w, Server(Quit(0, 0)), 0);
    assert r == [r[0], bs[1]];
  }

  // ----- A tick that moves nothing

  /** With both timers at zero a tick only advances one of them. */
  lemma IdleTick(g: Engine.Game, d: Engine.Dice)
    requires Engine.Sized(g) && g.gravityTimer == 0 && g.lockTimer == 0
    ensures var r := Engine.Step(g, Engine.Tick(d));
            r == g.(gravityTimer := r.gravityTimer, lockTimer := r.lockTimer)
  {
    hide Engine.CanShift, Engine.UpdateTimers, Engine.Gravity;
    Engine.TickShows(g, d);
  }

  lemma IdleView(s: Slot, g: Engine.Game, d: Engine.Dice)
    requires RoomBoards.Shows(s, g) && g.gravityTimer == 0 && g.lockTimer == 0
    ensures TickedView(s, g, d) == s
  {
    hide Engine.Step, EngineInvariant.Inv;
    RoomBoards.Bounded(g);
    IdleTick(g, d);
  }

  /** Every game either stopped or has both timers at zero. */
  predicate AllIdle(slots: seq<Slot>, bs: seq<Engine.Game>) {
    |bs| == |slots| && forall k :: 0 <= k < |bs| ==>
      !slots[k].active || (bs[k].gravityTimer == 0 && bs[k].lockTimer == 0)
  }

  lemma IdleViews(p: Proc, bs: seq<Engine.Game>, ds: seq<Engine.Dice>)
    requires p.Playing? && TiedRoom(p, bs) && |ds| == |bs| && AllIdle(p.slots, bs)
    ensures TickedViews(p, bs, ds) == p.slots
  {
    hide RoomBoards.Shows, TickedView, TickedViews;
    forall k | 0 <= k < |bs| ensures TickedViews(p, bs, ds)[k] == p.slots[k] {
      assert RoomBoards.Shows(p.slots[k], bs[k]);
      if p.slots[k].active {
        IdleView(p.slots[k], bs[k], ds[k]);
      } else {
        StoppedView(p.slots[k], bs[k], ds[k]);
      }
    }
  }

  lemma StoppedView(s: Slot, g: Engine.Game, d: Engine.Dice)
    requires RoomBoards.Shows(s, g) && !s.active
    ensures TickedView(s, g, d) == s
  {
  }

  lemma Ticks(moves: seq<Move>, t: Scene, bs: seq<Engine.Game>, ds: seq<Engine.Dice>)
    requires LeadsTo(moves, t, bs) && t.r0.used && t.n0.proc.Playing? && t.n0.proc.phase == Input
    requires !t.n0.proc.matchOver
    requires |ds| == |bs| && AllIdle(t.n0.proc.slots, bs)
    ensures Leads(moves + [TickAll(0, ds)], t.(n0 := t.n0.(proc := t.n0.proc.(phase := Reporting(0)))))
  {
    hide Live, Tied, Apply, Sys, Enabled, TickedViews, TiedRoom, AllIdle, Ticked;
    var w, move, p := Live(C, moves), TickAll(0, ds), t.n0.proc;
    SysNode(t);
    TiedAt(w, 0);
    IdleViews(p, bs, ds);
    MoveCan(w, ds);
    MoveIsStep(C, w, move);
    assert AsStep(C, w, move) == Tick(0, p.slots);
    EnabledTick(t);
    WorkerScene(t, 0, Tick(0, p.slots), t.n0.(proc := p.(phase := Reporting(0))), false, t.b);
    Take(moves, move, Sys(t.(n0 := t.n0.(proc := p.(phase := Reporting(0))))));
  }

  lemma TiedAt(w: World, i: nat)
    requires Tied(w) && i < |w.boards|
    ensures |w.s.nodes| == |w.boards| && TiedRoom(w.s.nodes[i].proc, w.boards[i])
  {
  }

  lemma MoveCan(w: World, ds: seq<Engine.Dice>)
    requires Tied(w) && InputTime(w, 0) && !w.s.nodes[0].proc.matchOver && |ds| == |w.s.nodes[0].proc.slots|
    ensures Can(C, w, TickAll(0, ds))
  {
  }

  lemma EnabledTick(t: Scene)
    requires t.n0.proc.Playing? && Enabled(C, Sys(t), Tick(0, t.n0.proc.slots))
    ensures WorkerCan(C, t.n0, t.r0.down, Tick(0, t.n0.proc.slots))
  {
    hide WorkerCan;
  }

  lemma FreshIdle(ids: seq<nat>, bags: seq<Bags>, k: nat)
    requires |bags| == |ids| && k < |ids|
    ensures FreshBoards(ids, bags)[k].gravityTimer == 0 && FreshBoards(ids, bags)[k].lockTimer == 0
  {
  }

  /** Player 1 quits; after the next tick the room reports it and has no garbage to route. */
  lemma FirstMatch(before: seq<Move>, t: Scene, bags: seq<Bags>, d: Engine.Dice) returns (moves: seq<Move>)
    requires |bags| == 2 && LeadsTo(before, t, FreshBoards([1, 2], bags)) && t.r0.used
    requires t.n0 == Node(1, Match([S1, S2], Input), [])
    ensures Leads(moves, t.(n0 := Node(1, Match([S1_OUT, S2], Input), [Eliminated(1)])))
  {
    hide Leads, LeadsTo, FreshBoards;
    var bs := FreshBoards([1, 2], bags);
    Leaves(before, t, bs);
    var t1 := t.(n0 := Node(1, Match([S1_QUIT, S2], Input), []));
    moves := before + [Server(Quit(0, 0))];
    var g :| LeadsTo(moves, t1, [g, bs[1]]);
    FreshIdle([1, 2], bags, 1);
    Ticks(moves, t1, [g, bs[1]], [d, d]);
    moves := moves + [TickAll(0, [d, d])];
    moves := Reporting12(moves, t1.(n0 := Node(1, Match([S1_QUIT, S2], Reporting(0)), [])));
    moves := Routing12(moves, t1.(n0 := Node(1, Match([S1_OUT, S2], Routing(0)), [Eliminated(1)])));
  }

  lemma Reporting12(before: seq<Move>, t: Scene) returns (moves: seq<Move>)
    requires Leads(before, t) && t.r0.used && t.n0 == Node(1, Match([S1_QUIT, S2], Reporting(0)), [])
    ensures Leads(moves, t.(n0 := Node(1, Match([S1_OUT, S2], Routing(0)), [Eliminated(1)])))
  {
    hide Leads, LeadsTo;
    var n1 := Node(1, Match([S1_OUT, S2], Reporting(1)), [Eliminated(1)]);
    assert [S1_QUIT, S2][0 := S1_OUT] == [S1_OUT, S2] && [] + [Eliminated(1)] == [Eliminated(1)];
    Work(before, t, 0, Report(0), n1, false, t.b);
    moves := before + [Server(Report(0))];
    assert [Eliminated(1)] + [] == [Eliminated(1)];
    Work(moves, t.(n0 := n1), 0, Report(0), Node(1, Match([S1_OUT, S2], Routing(0)), [Eliminated(1)]), false, t.b);
    moves := moves + [Server(Report(0))];
  }

  lemma Routing12(before: seq<Move>, t: Scene) returns (moves: seq<Move>)
    requires Leads(before, t) && t.r0.used && t.n0 == Node(1, Match([S1_OUT, S2], Routing(0)), [Eliminated(1)])
    ensures Leads(moves, t.(n0 := Node(1, Match([S1_OUT, S2], Input), [Eliminated(1)])))
  {
    hide Leads, LeadsTo, ResolveVictim;
    var n1 := Node(1, Match([S1_OUT, S2], Routing(1)), [Eliminated(1)]);
    assert [S1_OUT, S2][0 := S1_OUT] == [S1_OUT, S2] && [S1_OUT, S2][1 := S2] == [S1_OUT, S2];
    assert [Eliminated(1)] + [] == [Eliminated(1)];
    Work(before, t, 0, Route(0, 0), n1, false, t.b);
    moves := before + [Server(Route(0, 0))];
    Work(moves, t.(n0 := n1), 0, Route(0, 0), Node(1, Match([S1_OUT, S2], Input), [Eliminated(1)]), false, t.b);
    moves := moves + [Server(Route(0, 0))];
  }

  // ----- The match ends

  const P1_DEAD := PlayerRec(1, 0, false)
  const WON := Books(multiset{}, multiset{}, multiset{}, [2])
  const RUNNING := MRoom(true, true, true, 2, 2, 0, [])
  const WAITING := Node(3, Lobby(true, [], false, []), [])

  lemma OneRemains()
    ensures KillId([P1, P2], 1) == [P1_DEAD, P2] && Decided([P1_DEAD, P2]) && Winner([P1_DEAD, P2]) == 2
  {
    assert [P1_DEAD, P2][..1] == [P1_DEAD] && [P1_DEAD][..0] == [];
    assert AliveCount([P1_DEAD]) == 0;
  }

  /** The master hears of the death, which decides the match; both rooms are told. */
  lemma EliminationEnds(n: Node)
    requires n.up == [Eliminated(1)]
    ensures var t := Scene(RUNNING, n, READY, WAITING, [P1, P2], 2, true, false, NO_BOOKS);
            && Enabled(C, Sys(t), MasterRecv(0))
            && Apply(C, Sys(t), MasterRecv(0)) ==
               Sys(Scene(RUNNING.(down := [Roster(View([P1_DEAD, P2])), GameOver(2)]), n.(up := []),
                 READY.(down := [GameOver(2)]), WAITING,
                         [P1_DEAD, P2], 2, true, true, WON))
  {
    hide Post, Decided, Winner, KillId, View, Slots, Workers, Apply, Enabled;
    var t := Scene(RUNNING, n, READY, WAITING, [P1, P2], 2, true, false, NO_BOOKS);
    var view := Roster(View([P1_DEAD, P2]));
    OneRemains();
    PostSlots(RUNNING, READY, Started, view);
    assert [] + [view] == [view] && [view] + [GameOver(2)] == [view, GameOver(2)] &&
      [] + [GameOver(2)] == [GameOver(2)];
    PostSlots(RUNNING.(down := [view]), READY, Used, GameOver(2));
    assert n.up[1..] == [] && [] + [2] == [2];
    RecvOf(t, 0, HandleMsg(C, Sys(t).m, 0, Eliminated(1)), n.(up := []));
  }

  lemma CloseScene(t: Scene)
    requires t.r0.used && t.r0.down == [] && t.n0.proc == Gone && t.n0.up == [] && t.ended
    ensures Enabled(C, Sys(t), MasterClose(0))
    ensures Apply(C, Sys(t), MasterClose(0)) == Sys(t.(r0 := t.r0.(used := false)))
  {
    hide Slots, Workers, Finished;
    SetSlot(t.r0, t.r1, t.r0.(used := false, down := []));
    assert Garbages([]) == multiset{} && t.b.dropped + multiset{} == t.b.dropped;
  }

  /** The master hears of the death and tells both rooms; the lobby of slot 1 drops the news. */
  lemma Deciding(before: seq<Move>) returns (moves: seq<Move>)
    requires Leads(before,
      Scene(RUNNING, Node(1, Match([S1_OUT, S2], Input), [Eliminated(1)]), READY, WAITING, [P1, P2], 2, true, false,
      NO_BOOKS))
    ensures Leads(moves,
      Scene(RUNNING.(down := [Roster(View([P1_DEAD, P2])), GameOver(2)]), Node(1, Match([S1_OUT, S2], Input), []),
                               READY, WAITING, [P1_DEAD, P2], 2, true, true, WON))
  {
    hide Leads, LeadsTo, Sys, Apply, Enabled, View;
    var n := Node(1, Match([S1_OUT, S2], Input), [Eliminated(1)]);
    EliminationEnds(n);
    var r1 := RUNNING.(down := [Roster(View([P1_DEAD, P2])), GameOver(2)]);
    var t1 := Scene(r1, n.(up := []), READY.(down := [GameOver(2)]), WAITING, [P1_DEAD, P2], 2, true, true, WON);
    Serve(before, Scene(RUNNING, n, READY, WAITING, [P1, P2], 2, true, false, NO_BOOKS), MasterRecv(0), t1);
    moves := before + [Server(MasterRecv(0))];
    Reads(moves, t1, 1, WAITING.proc);
    assert [GameOver(2)][1..] == [];
    moves := moves + [Server(LobbyRecv(1))];
  }

  /** Room 0 reads both messages, winds down, and its slot is closed. Player 2 stays on record as alive in slot 0. */
  lemma Closing(before: seq<Move>, view: HubRoster) returns (moves: seq<Move>)
    requires Leads(before, Scene(RUNNING.(down := [Roster(view), GameOver(2)]), Node(1, Match([S1_OUT, S2], Input), []),
                                 READY, WAITING, [P1_DEAD, P2], 2, true, true, WON))
    ensures Leads(moves,
      Scene(RUNNING.(used := false), Node(1, Gone, []), READY, WAITING, [P1_DEAD, P2], 2, true, true, WON))
  {
    hide Leads, LeadsTo, Sys, Apply, Enabled;
    var r1, r2 := RUNNING.(down := [Roster(view), GameOver(2)]), RUNNING.(down := [GameOver(2)]);
    assert [GameOver(2)][1..] == [] && r1.down[1..] == [GameOver(2)];
    var t2 := Scene(r1, Node(1, Match([S1_OUT, S2], Input), []), READY, WAITING, [P1_DEAD, P2], 2, true, true, WON);
    var n2 := Node(1, Playing([S1_OUT, S2], view, Input, false, 0), []);
    Work(before, t2, 0, RoomRecv(0), n2, true, WON);
    moves := before + [Server(RoomRecv(0))];
    var n3 := Node(1, Playing([S1_OUT, S2], view, Input, true, 2), []);
    Work(moves, t2.(r0 := r2, n0 := n2), 0, RoomRecv(0), n3, true, WON);
    moves := moves + [Server(RoomRecv(0))];
    var t4 := t2.(r0 := RUNNING, n0 := n3);
    Work(moves, t4, 0, Exit(0), Node(1, Gone, []), false, WON);
    moves := moves + [Server(Exit(0))];
    var t5 := t4.(n0 := Node(1, Gone, []));
    CloseScene(t5);
    Serve(moves, t5, MasterClose(0), t5.(r0 := RUNNING.(used := false)));
    moves := moves + [Server(MasterClose(0))];
  }

  // ----- A new room in the same slot

  const P5 := PlayerRec(5, 0, true)
  const ROSTER := [P1_DEAD, P2, P5]
  const SECOND := MRoom(true, true, true, 1, 1, 0, [])

  /** A new client finds slot 1 full and gets a new room in slot 0; player 5 joins it. */
  lemma Reopening(before: seq<Move>) returns (moves: seq<Move>)
    requires Leads(before,
      Scene(RUNNING.(used := false), Node(1, Gone, []), READY, WAITING, [P1_DEAD, P2], 2, true, true, WON))
    ensures Leads(moves,
      Scene(SECOND.(started := false), Node(5, Lobby(true, [5], false, []), []), READY, WAITING, ROSTER, 3, true, true,
      WON))
  {
    hide Leads, LeadsTo, Sys, Apply, Enabled, Base;
    var t0 := Scene(RUNNING.(used := false), Node(1, Gone, []), READY, WAITING, [P1_DEAD, P2], 2, true, true, WON);
    Bases();
    AcceptSpawns(t0, 0);
    var t1 := t0.(r0 := NEW_ROOM, n0 := EmptyLobby(5), roomSeq := 3);
    Serve(before, t0, Accept(true), t1);
    moves := before + [Server(Accept(true))];
    Binds(moves, t1, 0, 5);
    moves := moves + [Server(Bind(0))];
    var t2 := t1.(n0 := Node(5, Lobby(true, [], false, []), [Ready]));
    Joins(moves, t2, 0, 5, [], 5, [Ready]);
    moves := moves + [Server(Join(0, 5))];
    assert [] + [5] == [5] && [Ready] + [Joined(5)] == [Ready, Joined(5)];
    var n := Node(5, Lobby(true, [5], false, []), [Ready, Joined(5)]);
    var t3 := t2.(n0 := n);
    RecvReady(t3, 0);
    assert n.up[1..] == [Joined(5)] && [Joined(5)][1..] == [];
    var t4 := t3.(r0 := NEW_ROOM.(ready := true, pending := 0), n0 := n.(up := [Joined(5)]));
    Serve(moves, t3, MasterRecv(0), t4);
    moves := moves + [Server(MasterRecv(0))];
    RecvJoined(t4, 0, 5);
    assert [P1_DEAD, P2] + [P5] == ROSTER;
    Serve(moves, t4, MasterRecv(0), t4.(r0 := SECOND.(started := false), n0 := n.(up := []), players := ROSTER));
    moves := moves + [Server(MasterRecv(0))];
  }

  // ----- Player 5 plays

  const S5 := Slot(5, true, false, false, false, 0, 0, 0, 0, 0)
  const S5_ARMED := Slot(5, true, false, false, false, 2, 0, 1, 0, 0)
  const VIEW_125 := [PlayerView(1, false), PlayerView(2, true), PlayerView(5, true)]
  const SHOT := HubAttack(5, 2, 2)
  const ALONE: Targeting.Roster := [Targeting.Entry(5, false)]

  lemma OpeningLone()
    ensures OpeningSlots([5]) == [S5] && View(ROSTER) == VIEW_125
  {
    assert FirstOther([5], 5, 0) == FirstOther([5], 5, 1) == 0;
  }

  function Second(slot: Slot, phase: Phase): Node {
    Node(5, Playing([slot], VIEW_125, phase, false, 0), [])
  }

  /** The second room while player 5's board is this one. */
  ghost predicate Showing(moves: seq<Move>, t: Scene, g: Engine.Game) {
    LeadsTo(moves, t.(n0 := Second(RoomBoards.Shadow(S5, g), Input)), [g])
  }

  lemma Acts(moves: seq<Move>, t: Scene, g: Engine.Game, a: Engine.Action, d: Engine.Dice)
    requires Showing(moves, t, g) && t.r0.used && !a.Quit?
    ensures Engine.Sized(g) && Showing(moves + [Play(0, 0, a, d)], t, Engine.ApplyAction(g, a, ALONE, d))
  {
    hide Live, Tied, Apply, Sys, Enabled, RoomBoards.Shows, Engine.ApplyAction;
    var w, move := Live(C, moves), Play(0, 0, a, d);
    var slot := RoomBoards.Shadow(S5, g);
    var t0 := t.(n0 := Second(slot, Input));
    SysNode(t0);
    TiedSize(w);
    TiedAt(w, 0);
    assert w.s.nodes[0].proc.slots[0] == slot && w.boards[0][0] == g;
    RoomBoards.ShownSized(slot, g);
    assert LocalRoster([slot]) == ALONE;
    var g' := Engine.ApplyAction(g, a, ALONE, d);
    var slot' := RoomBoards.Shadow(S5, g');
    MoveIsStep(C, w, move);
    assert AsStep(C, w, move) == Request(0, 0, slot');
    var n := Second(slot', Input);
    assert [slot][0 := slot'] == [slot'];
    EnabledRequest(t0, slot');
    WorkerScene(t0, 0, Request(0, 0, slot'), n, false, t.b);
    Take(moves, move, Sys(t.(n0 := n)));
    assert Live(C, moves + [move]).boards[0] == BoardsOf(C, w, move, 0);
    assert [g][0 := g'] == [g'];
  }

  lemma EnabledRequest(t: Scene, to: Slot)
    requires Enabled(C, Sys(t), Request(0, 0, to))
    ensures WorkerCan(C, t.n0, t.r0.down, Request(0, 0, to))
  {
    hide WorkerCan;
  }

  lemma {:induction false} Plays(before: seq<Move>, t: Scene, g: Engine.Game, actions: seq<Engine.Action>,
      d: Engine.Dice) returns (moves: seq<Move>)
    requires Showing(before, t, g) && t.r0.used && Engine.Sized(g)
    requires forall j :: 0 <= j < |actions| ==> !actions[j].Quit?
    ensures Showing(moves, t, FirstShots.Do(g, actions, ALONE, d))
    decreases |actions|
  {
    hide Showing, Engine.ApplyAction, Engine.Sized;
    moves := before;
    if actions != [] {
      Acts(before, t, g, actions[0], d);
      moves := Plays(before + [Play(0, 0, actions[0], d)], t, Engine.ApplyAction(g, actions[0], ALONE, d),
        actions[1..], d);
    }
  }

  lemma NoQuitting()
    ensures forall j :: 0 <= j < |FirstShots.Shot()| ==> !FirstShots.Shot()[j].Quit?
  {
    hide FirstShots.Times;
    forall j | 0 <= j < |FirstShots.Shot()| ensures !FirstShots.Shot()[j].Quit? {
      PlacingNoQuit(0);
      PlacingNoQuit(1);
      PlacingNoQuit(2);
      SpinningNoQuit();
      hide FirstShots.Placing, FirstShots.Spinning;
    }
  }

  predicate NoQuit(actions: seq<Engine.Action>) {
    forall j :: 0 <= j < |actions| ==> !actions[j].Quit?
  }

  lemma PlacingNoQuit(n: nat)
    ensures NoQuit(FirstShots.Placing(n))
  {
  }

  lemma SpinningNoQuit()
    ensures NoQuit(FirstShots.Spinning())
  {
  }

  /** Player 5 aims at random and then sends two lines. */
  lemma Arming(before: seq<Move>, t: Scene, first: Engine.Picks, second: Engine.Picks,
      d: Engine.Dice) returns (moves: seq<Move>, g: Engine.Game)
    requires Showing(before, t, FreshBoard([5], 0, Bags(first, second))) && t.r0.used
    requires Shuffling.Shuffle(Engine.SEVEN, first) == FirstShots.ORDER
    ensures Showing(moves, t, g) && RoomBoards.Shadow(S5, g) == S5_ARMED && g.gravityTimer == 0 && g.lockTimer == 0
  {
    hide Showing, FirstShots.Do, FirstShots.Shot, Engine.StartGame, Shuffling.Shuffle;
    var g0 := FreshBoard([5], 0, Bags(first, second));
    Acts(before, t, g0, Engine.CycleTargetMode, d);
    var g1 := FirstShots.Opened(first, second, 5, 0, 1);
    Aimed(first, second, d);
    moves := before + [Play(0, 0, Engine.CycleTargetMode, d)];
    NoQuitting();
    moves := Plays(moves, t, g1, FirstShots.Shot(), d);
    FirstShots.FirstShot(first, second, 5, 0, 1, ALONE, d);
    Unattacked(first, second);
    g := FirstShots.Do(g1, FirstShots.Shot(), ALONE, d);
  }

  lemma Aimed(first: Engine.Picks, second: Engine.Picks, d: Engine.Dice)
    ensures var g0 := FreshBoard([5], 0, Bags(first, second));
            && Engine.Sized(g0) && Engine.Sized(FirstShots.Opened(first, second, 5, 0, 1))
            && Engine.ApplyAction(g0, Engine.CycleTargetMode, ALONE, d) == FirstShots.Opened(first, second, 5, 0, 1)
  {
    assert FirstOther([5], 5, 0) == FirstOther([5], 5, 1) == 0;
  }

  lemma Unattacked(first: Engine.Picks, second: Engine.Picks)
    ensures Engine.StartGame(first, second).lastAttackerId == 0
  {
  }

  lemma ShotFate()
    ensures FateOf([S5_ARMED], 0, VIEW_125, 0) == Remote(SHOT)
  {
    assert VIEW_125[..2] == [PlayerView(1, false), PlayerView(2, true)];
    assert VIEW_125[..2][..1] == [PlayerView(1, false)] && [PlayerView(1, false)][..0] == [];
    assert GlobalCandidates([PlayerView(1, false)], 5) == [];
    assert GlobalCandidates(VIEW_125[..2], 5) == [2];
    assert GlobalCandidates(VIEW_125, 5) == [2];
  }

  /** The tick ends, there is no death to report, and the room sends the garbage to the only other living player on
      record. */
  lemma Firing(before: seq<Move>, t: Scene, g: Engine.Game, d: Engine.Dice) returns (moves: seq<Move>, n: Node,
      b: Systems.Books)
    requires Showing(before, t, g) && t.r0.used && RoomBoards.Shadow(S5, g) == S5_ARMED && g.gravityTimer == 0
    requires g.lockTimer == 0
    ensures Leads(moves, t.(n0 := n, b := b)) && n.up == [Attack(SHOT), Feed(SHOT)] && n.base == 5
  {
    hide Leads, LeadsTo, FateOf, RoutedSlots;
    Ticks(before, t.(n0 := Second(S5_ARMED, Input)), [g], [d]);
    moves := before + [TickAll(0, [d])];
    assert [] + ReportMsgs([S5_ARMED], 0) == [];
    Work(moves, t.(n0 := Second(S5_ARMED, Reporting(0))), 0, Report(0), Second(S5_ARMED, Routing(0)), false, t.b);
    moves := moves + [Server(Report(0))];
    ShotFate();
    var o := WorkerStep(C, Second(S5_ARMED, Routing(0)), t.r0.down, Route(0, 0), t.b);
    n, b := o.node, o.books;
    Work(moves, t.(n0 := Second(S5_ARMED, Routing(0))), 0, Route(0, 0), n, false, b);
    moves := moves + [Server(Route(0, 0))];
    assert [] + [Attack(SHOT), Feed(SHOT)] == [Attack(SHOT), Feed(SHOT)];
  }

  // ----- The whole run

  const LONE := Scene(SECOND.(started := false), Node(5, Lobby(true, [5], false, []), []), READY, WAITING, ROSTER, 3,
    true, true, WON)

  /** Player 5's room begins. */
  lemma LoneStarts(before: seq<Move>, first: Engine.Picks) returns (moves: seq<Move>, t: Scene)
    requires Leads(before, LONE)
    ensures Showing(moves, t, FreshBoard([5], 0, Bags(first, first)))
    ensures t == LONE.(r0 := SECOND, n0 := Second(S5, Input))
  {
    hide Leads, LeadsTo, OpeningSlots, View, Shuffling.Shuffle;
    OpeningLone();
    moves := Starting(before, LONE, 5, [5], [Bags(first, first)]);
    t := LONE.(r0 := SECOND, n0 := Second(S5, Input));
    assert FreshBoards([5], [Bags(first, first)]) == [FreshBoard([5], 0, Bags(first, first))];
    FreshShadow(first, first);
  }

  lemma SecondMatch(before: seq<Move>, d: Engine.Dice) returns (moves: seq<Move>, t: Scene)
    requires Leads(before, LONE)
    ensures Leads(moves, t) && t.r0 == SECOND && t.players == ROSTER && t.ended && t.n0.up == [Attack(SHOT), Feed(SHOT)]
    ensures t.n0.base == 5
  {
    hide Leads, Showing, Shuffling.Shuffle;
    var first := FirstShots.Dealt();
    var t1: Scene;
    moves, t1 := LoneStarts(before, first);
    var g: Engine.Game;
    moves, g := Arming(moves, t1, first, first, d);
    var n: Node, b: Systems.Books;
    moves, n, b := Firing(moves, t1, g, d);
    t := t1.(n0 := n, b := b);
  }

  lemma FreshShadow(first: Engine.Picks, second: Engine.Picks)
    ensures RoomBoards.Shadow(S5, FreshBoard([5], 0, Bags(first, second))) == S5
  {
    assert FirstOther([5], 5, 0) == FirstOther([5], 5, 1) == 0;
  }

  lemma TargetIsHome(t: Scene)
    requires t.r0 == SECOND && t.players == ROSTER
    ensures Target(Sys(t).m, 2) == 0
  {
    assert LivingIndex(ROSTER, 2, 0) == LivingIndex(ROSTER, 2, 1) == 1;
  }

  /** A first match is played and decided, its slot is closed and used again, and player 5 joins there. */
  lemma UpToTheSecondRoom() returns (moves: seq<Move>)
    ensures Leads(moves, LONE)
  {
    hide Leads, LeadsTo, Live, OpeningSlots, View, Shuffling.Shuffle;
    var picks := FirstShots.Dealt();
    var d := Engine.Dice(seq(20, _ => 0), picks);
    var bags := [Bags(picks, picks), Bags(picks, picks)];
    moves := Dealing();
    moves := Joining(moves);
    moves := Recording(moves);
    var t1 := Scene(READY.(joined := 2), Node(1, Lobby(true, [1, 2], false, []), []), READY, WAITING, [P1, P2], 2,
      false, false, NO_BOOKS);
    OpeningPair();
    moves := Starting(moves, t1, 1, [1, 2], bags);
    var t2 := Scene(RUNNING, Node(1, Match([S1, S2], Input), []), READY, WAITING, [P1, P2], 2, true, false, NO_BOOKS);
    moves := FirstMatch(moves, t2, bags, d);
    moves := Deciding(moves);
    moves := Closing(moves, View([P1_DEAD, P2]));
    moves := Reopening(moves);
  }

  /** There is a run of the server with its real boards and its real sizes, so also a run of the step system, after
      whose match has ended the next thing the master does is send an attack of slot 0 back to slot 0: the rule that
      attacks do not bounce home needs the match to be running. */
  lemma BouncesAfterTheEnd()
    ensures exists moves ::
              var s := Live(C, moves).s;
              && s == Run(C, Trace(C, moves))
              && |s.nodes| == |s.m.rooms| == 32 && s.m.matchEnded && s.m.rooms[0].used
              && s.nodes[0].up != [] && s.nodes[0].up[0] == Attack(SHOT) && InBlock(C, s.nodes[0].base, SHOT.attacker)
              && Target(s.m, SHOT.victim) == 0
  {
    hide Leads, Live, Target, Trace, Run;
    var picks := FirstShots.Dealt();
    var d := Engine.Dice(seq(20, _ => 0), picks);
    var moves := UpToTheSecondRoom();
    var t: Scene;
    moves, t := SecondMatch(moves, d);
    TargetIsHome(t);
    Arrived(moves, t);
  }

  lemma Arrived(moves: seq<Move>, t: Scene)
    requires Leads(moves, t) && t.r0 == SECOND && t.ended && t.n0.up == [Attack(SHOT), Feed(SHOT)] && t.n0.base == 5
    requires Target(Sys(t).m, 2) == 0
    ensures var s := Live(C, moves).s;
            && s == Run(C, Trace(C, moves))
            && |s.nodes| == |s.m.rooms| == 32 && s.m.matchEnded && s.m.rooms[0].used
            && s.nodes[0].up != [] && s.nodes[0].up[0] == Attack(SHOT) && InBlock(C, s.nodes[0].base, SHOT.attacker)
            && Target(s.m, SHOT.victim) == 0
  {
    hide Live, Target, Trace, Run;
    LiveRunIsRun(C, moves);
  }
}
