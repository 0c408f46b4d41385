/** What the master tells reaches the rooms: starts, rosters and the verdict, over whole runs of the server. */
module Tidings {
  import opened Hub
  import opened Masters
  import opened Rooms
  import opened Systems
  import opened SystemInvariant

  // ----- The roster a room will have when its channel is read

  /** The last roster in a channel, or `first` if it carries none. */
  function LastRoster(first: HubRoster, msgs: seq<HubMsg>): HubRoster {
    if msgs == [] then first
    else
      var n := |msgs| - 1;
      if msgs[n].Roster? then msgs[n].roster else LastRoster(first, msgs[..n])
  }

  lemma LastAppend(first: HubRoster, msgs: seq<HubMsg>, msg: HubMsg)
    ensures LastRoster(first, msgs + [msg]) == if msg.Roster? then msg.roster else LastRoster(first, msgs)
  {
    assert (msgs + [msg])[..|msgs|] == msgs;
  }

  lemma {:induction false} LastPop(first: HubRoster, msgs: seq<HubMsg>)
    requires msgs != []
    ensures LastRoster(first, msgs) == LastRoster(if msgs[0].Roster? then msgs[0].roster else first, msgs[1..])
  {
    var n := |msgs| - 1;
    if n > 0 {
      LastPop(first, msgs[..n]);
      assert msgs[1..][..n - 1] == msgs[..n][1..];
      assert msgs[1..][n - 1] == msgs[n];
    } else {
      assert msgs[..0] == [] && msgs[1..] == [];
    }
  }

  /** The worker has been told to start, or the order is in its channel. */
  ghost predicate Ordered(p: Proc, down: seq<HubMsg>) {
    p.Playing? || (p.Lobby? && p.ordered) || exists k :: 0 <= k < |down| && down[k].Start?
  }

  /** What the master and a live worker know of each other: the worker is or will be ordered to start if and only if the
      master has started it, and once started it will have the master's own record when it has read its channel. */
  ghost predicate RoomTold(view: HubRoster, room: MRoom, p: Proc) {
    room.used && !p.Gone? ==>
      && (room.started <==> Ordered(p, room.down))
      && (room.started ==> LastRoster(Seen(p), room.down) == view)
  }

  ghost predicate AllTold(view: HubRoster, rooms: seq<MRoom>, nodes: seq<Node>) {
    |rooms| == |nodes| && forall i :: 0 <= i < |rooms| ==> RoomTold(view, rooms[i], nodes[i].proc)
  }

  // ----- What the master does

  lemma OrderAppend(p: Proc, down: seq<HubMsg>, msg: HubMsg)
    ensures Ordered(p, down + [msg]) <==> Ordered(p, down) || msg.Start?
  {
    if Ordered(p, down) && !p.Playing? && !(p.Lobby? && p.ordered) {
      var k :| 0 <= k < |down| && down[k].Start?;
      assert (down + [msg])[k].Start?;
    }
    if msg.Start? {
      assert (down + [msg])[|down|].Start?;
    }
  }

  lemma PostTold(view: HubRoster, rooms: seq<MRoom>, nodes: seq<Node>, a: Audience, msg: HubMsg)
    requires AllTold(view, rooms, nodes) && !msg.Roster? && !msg.Start?
    ensures AllTold(view, Post(rooms, a, msg), nodes)
  {
    hide LastRoster, Seen, Ordered;
    var rooms' := Post(rooms, a, msg);
    forall i | 0 <= i < |rooms| ensures RoomTold(view, rooms'[i], nodes[i].proc) {
      assert RoomTold(view, rooms[i], nodes[i].proc);
      LastAppend(Seen(nodes[i].proc), rooms[i].down, msg);
      OrderAppend(nodes[i].proc, rooms[i].down, msg);
    }
  }

  /** All rooms agree with the master on what has started. */
  ghost predicate AllOrdered(rooms: seq<MRoom>, nodes: seq<Node>) {
    |rooms| == |nodes| && forall i :: 0 <= i < |rooms| && rooms[i].used && !nodes[i].proc.Gone? ==>
      (rooms[i].started <==> Ordered(nodes[i].proc, rooms[i].down))
  }

  /** A broadcast brings every started room up to date, whatever it was told before. */
  lemma BroadcastTold(m: Master, nodes: seq<Node>)
    requires AllOrdered(m.rooms, nodes)
    ensures AllTold(View(m.players), BroadcastRoster(m).rooms, nodes)
  {
    hide LastRoster, View, Seen;
    var view := View(m.players);
    var rooms := BroadcastRoster(m).rooms;
    forall i | 0 <= i < |rooms| ensures RoomTold(view, rooms[i], nodes[i].proc) {
      LastAppend(Seen(nodes[i].proc), m.rooms[i].down, Roster(view));
      if m.rooms[i].used && !nodes[i].proc.Gone? {
        OrderAppend(nodes[i].proc, m.rooms[i].down, Roster(view));
      }
    }
  }

  lemma ToldOrdered(view: HubRoster, rooms: seq<MRoom>, nodes: seq<Node>)
    requires AllTold(view, rooms, nodes)
    ensures AllOrdered(rooms, nodes)
  {
    hide Ordered, LastRoster, Seen;
    forall i | 0 <= i < |rooms| && rooms[i].used && !nodes[i].proc.Gone?
      ensures rooms[i].started <==> Ordered(nodes[i].proc, rooms[i].down)
    {
      assert RoomTold(view, rooms[i], nodes[i].proc);
    }
  }

  lemma StartTold(m: Master, nodes: seq<Node>, slot: nat)
    requires slot < |m.rooms| && AllTold(View(m.players), m.rooms, nodes)
    ensures AllTold(View(m.players), StartRoom(m, slot).rooms, nodes)
  {
    hide LastRoster, View, Seen, Ordered, BroadcastRoster;
    ToldOrdered(View(m.players), m.rooms, nodes);
    var room := m.rooms[slot];
    if room.used && !room.started && room.joined >= 1 {
      var told := Post(m.rooms, Only(slot), Start(room.redirected));
      var m1 := m.(rooms := told[slot := told[slot].(started := true)], anyStarted := true);
      OrderAppend(nodes[slot].proc, room.down, Start(room.redirected));
      assert AllOrdered(m1.rooms, nodes);
      BroadcastTold(m1, nodes);
    }
  }

  lemma {:induction false} StartAllTold(m: Master, nodes: seq<Node>, slot: nat)
    requires slot <= |m.rooms| && AllTold(View(m.players), m.rooms, nodes)
    ensures AllTold(View(m.players), StartFrom(m, slot).rooms, nodes)
    decreases |m.rooms| - slot
  {
    hide AllTold, View, StartRoom;
    if slot < |m.rooms| {
      StartTold(m, nodes, slot);
      StartAllTold(StartRoom(m, slot), nodes, slot + 1);
    }
  }

  lemma CheckEndTold(m: Master, nodes: seq<Node>)
    requires AllTold(View(m.players), m.rooms, nodes)
    ensures AllTold(View(m.players), CheckGlobalEnd(m).rooms, nodes)
  {
    hide AllTold, View, Decided, Winner;
    PostTold(View(m.players), m.rooms, nodes, Used, GameOver(Winner(m.players)));
  }

  /** A room's flags and counters other than these are nobody else's business. */
  lemma FlagsTold(view: HubRoster, rooms: seq<MRoom>, nodes: seq<Node>, i: nat, room: MRoom)
    requires AllTold(view, rooms, nodes) && i < |rooms|
    requires room.down == rooms[i].down && room.started == rooms[i].started && room.used == rooms[i].used
    ensures AllTold(view, rooms[i := room], nodes)
  {
    hide Ordered, LastRoster, Seen;
    forall j | 0 <= j < |rooms| ensures RoomTold(view, rooms[i := room][j], nodes[j].proc) {
      assert RoomTold(view, rooms[j], nodes[j].proc);
    }
  }

  lemma HandleTold(c: Config, m: Master, nodes: seq<Node>, slot: nat, msg: HubMsg)
    requires slot < |m.rooms| && AllTold(View(m.players), m.rooms, nodes)
    ensures var r := HandleMsg(c, m, slot, msg); AllTold(View(r.players), r.rooms, nodes)
  {
    hide AllTold, AllOrdered, View, StartFrom, CheckGlobalEnd, BroadcastRoster, KillId, AddPlayer, Target;
    var view := View(m.players);
    match msg
    case Ready => FlagsTold(view, m.rooms, nodes, slot, m.rooms[slot].(ready := true, pending := 0));
    case Joined(id) =>
      var room := m.rooms[slot].(joined := m.rooms[slot].joined + 1);
      var m1 := m.(players := AddPlayer(c, m.players, id, slot), rooms := m.rooms[slot := room]);
      FlagsTold(view, m.rooms, nodes, slot, room);
      ToldOrdered(view, m1.rooms, nodes);
      BroadcastTold(m1, nodes);
      StartAllTold(BroadcastRoster(m1), nodes, 0);
    case Eliminated(id) =>
      var m1 := m.(players := KillId(m.players, id));
      ToldOrdered(view, m.rooms, nodes);
      BroadcastTold(m1, nodes);
      CheckEndTold(BroadcastRoster(m1), nodes);
    case Attack(attack) =>
      if Target(m, attack.victim) != -1 {
        PostTold(view, m.rooms, nodes, Only(Target(m, attack.victim)), Garbage(attack));
      }
    case Feed(attack) => PostTold(view, m.rooms, nodes, StartedExcept(slot), Feed(attack));
    case _ =>
  }

  lemma CloseTold(m: Master, nodes: seq<Node>, slot: nat)
    requires slot < |m.rooms| && AllTold(View(m.players), m.rooms, nodes)
    ensures var r := CloseRoom(m, slot); AllTold(View(r.players), r.rooms, nodes)
  {
    hide View, CheckGlobalEnd, BroadcastRoster, KillRoom, Ordered, LastRoster, Seen;
    var closed := m.rooms[slot := m.rooms[slot].(used := false, down := [])];
    forall j | 0 <= j < |closed| ensures RoomTold(View(m.players), closed[j], nodes[j].proc) {
      assert RoomTold(View(m.players), m.rooms[j], nodes[j].proc);
    }
    ClosedTold(m.(rooms := closed, players := KillRoom(m.players, slot)), View(m.players), nodes);
  }

  lemma ClosedTold(m: Master, view: HubRoster, nodes: seq<Node>)
    requires AllTold(view, m.rooms, nodes)
    ensures AllTold(View(m.players), CheckGlobalEnd(BroadcastRoster(m)).rooms, nodes)
  {
    hide AllTold, AllOrdered, View, CheckGlobalEnd, BroadcastRoster;
    ToldOrdered(view, m.rooms, nodes);
    BroadcastTold(m, nodes);
    CheckEndTold(BroadcastRoster(m), nodes);
  }

  // ----- What workers do

  lemma ReadTold(p: Proc, p': Proc, down: seq<HubMsg>)
    requires down != [] && !p.Gone?
    requires p' == if p.Lobby? then LobbyRead(p, down[0]) else RoomRead(p, down[0])
    ensures Ordered(p', down[1..]) <==> Ordered(p, down)
    ensures LastRoster(Seen(p'), down[1..]) == LastRoster(Seen(p), down)
  {
    hide LastRoster, ApplyGarbage;
    LastPop(Seen(p), down);
    if Ordered(p', down[1..]) && !p'.Playing? && !p'.ordered {
      var k :| 0 <= k < |down[1..]| && down[1..][k].Start?;
      assert down[k + 1].Start?;
    }
    if Ordered(p, down) && !p.Playing? && !p.ordered {
      var k :| 0 <= k < |down| && down[k].Start?;
      assert k > 0 ==> down[1..][k - 1].Start?;
    }
  }

  lemma WorkerTold(c: Config, view: HubRoster, room: MRoom, n: Node, step: Step, b: Books)
    requires WorkerCan(c, n, room.down, step) && RoomTold(view, room, n.proc)
    ensures var o := WorkerStep(c, n, room.down, step, b);
            (o.pop ==> room.down != []) &&
            RoomTold(view, if o.pop then room.(down := room.down[1..]) else room, o.node.proc)
  {
    hide LastRoster, FateOf, RoutedSlots, ReportedSlots, OpeningSlots, ApplyGarbage, Ticked, BoardStep, FreshId,
         Landing,
         LobbyRead, RoomRead;
    if step.LobbyRecv? {
      ReadTold(n.proc, LobbyRead(n.proc, room.down[0]), room.down);
    } else if step.RoomRecv? {
      ReadTold(n.proc, RoomRead(n.proc, room.down[0]), room.down);
    }
  }

  lemma WorkerApplyTold(c: Config, s: System, step: Step, i: nat)
    requires |s.m.rooms| == |s.nodes| && i < |s.nodes| && WorkerCan(c, s.nodes[i], s.m.rooms[i].down, step)
    requires AllTold(View(s.m.players), s.m.rooms, s.nodes)
    ensures var s' := WorkerApply(c, s, step, i); AllTold(View(s'.m.players), s'.m.rooms, s'.nodes)
  {
    hide RoomTold, WorkerCan, WorkerStep, View;
    WorkerTold(c, View(s.m.players), s.m.rooms[i], s.nodes[i], step, s.books);
  }

  lemma AcceptTold(c: Config, s: System, canFork: bool)
    requires |s.m.rooms| == |s.nodes| && AllTold(View(s.m.players), s.m.rooms, s.nodes)
    ensures var s' := AcceptStep(c, s, canFork); AllTold(View(s'.m.players), s'.m.rooms, s'.nodes)
  {
    hide View, FillingFrom, FreeFrom, LastRoster, Seen, Base;
    var s' := AcceptStep(c, s, canFork);
    forall j | 0 <= j < |s'.nodes| ensures RoomTold(View(s'.m.players), s'.m.rooms[j], s'.nodes[j].proc) {
      assert RoomTold(View(s.m.players), s.m.rooms[j], s.nodes[j].proc);
    }
  }

  lemma StepTold(c: Config, s: System, step: Step)
    requires |s.m.rooms| == |s.nodes| && AllTold(View(s.m.players), s.m.rooms, s.nodes)
    ensures var s' := Apply(c, s, step); AllTold(View(s'.m.players), s'.m.rooms, s'.nodes)
  {
    hide AcceptStep, StartFrom, HandleMsg, CloseRoom, WorkerApply, WorkerCan, View, RoomTold, Garbages, Target, Winner,
         Finished;
    if Enabled(c, s, step) {
      match step
      case Accept(canFork) => AcceptTold(c, s, canFork);
      case Operator => StartAllTold(s.m, s.nodes, 0);
      case MasterRecv(i) => HandleTold(c, s.m, s.nodes, i, s.nodes[i].up[0]);
      case MasterClose(i) => CloseTold(s.m, s.nodes, i);
      case _ => WorkerApplyTold(c, s, step, step.i);
    }
  }

  lemma {:induction false} ReachableTold(c: Config, steps: seq<Step>)
    ensures var s := Run(c, steps); AllTold(View(s.m.players), s.m.rooms, s.nodes)
  {
    hide Apply, AllTold, View;
    if steps == [] {
      NewTold(c);
    } else {
      ReachableTold(c, steps[..|steps| - 1]);
      StepTold(c, Run(c, steps[..|steps| - 1]), steps[|steps| - 1]);
    }
  }

  lemma NewTold(c: Config)
    ensures var s := NewSystem(c); AllTold(View(s.m.players), s.m.rooms, s.nodes)
  {
  }

  /** In every reachable state: the master has started a room if and only if its worker plays, has the order, or has it
      in its channel; and a started room that has read its channel to the end holds exactly the master's record. */
  lemma RoomsCatchUp(c: Config, steps: seq<Step>, i: nat)
    ensures var s := Run(c, steps);
            i < |s.nodes| && s.m.rooms[i].used && !s.nodes[i].proc.Gone? ==>
              && (s.m.rooms[i].started <==> Ordered(s.nodes[i].proc, s.m.rooms[i].down))
              && (s.m.rooms[i].started ==> LastRoster(Seen(s.nodes[i].proc), s.m.rooms[i].down) == View(s.m.players))
              && (s.m.rooms[i].started && s.m.rooms[i].down == [] ==> Seen(s.nodes[i].proc) == View(s.m.players))
  {
    hide Run, View, Seen, Ordered;
    ReachableTold(c, steps);
    var s := Run(c, steps);
    assert i < |s.nodes| ==> RoomTold(View(s.m.players), s.m.rooms[i], s.nodes[i].proc);
  }

  // ----- The verdict

  /** A playing room has been told that the match is over, or will be. */
  ghost predicate Learns(p: Proc, down: seq<HubMsg>) {
    p.Gone? || (p.Playing? && (p.matchOver || exists k :: 0 <= k < |down| && down[k].GameOver?))
  }

  lemma EndTells(m: Master, i: nat)
    requires i < |m.rooms| && m.rooms[i].used && !m.matchEnded && CheckGlobalEnd(m).matchEnded
    ensures CheckGlobalEnd(m).rooms[i].down == m.rooms[i].down + [GameOver(Winner(m.players))]
  {
    hide Winner, Decided;
  }

  /** The step that ends the match puts the verdict into the channel of every room in use. */
  lemma EndingTellsAll(c: Config, s: System, step: Step, i: nat)
    requires |s.m.rooms| == |s.nodes| && i < |s.nodes|
    ensures var s' := Apply(c, s, step);
            !s.m.matchEnded && s'.m.matchEnded && s'.m.rooms[i].used ==>
              s'.m.rooms[i].down != [] &&
              s'.m.rooms[i].down[|s'.m.rooms[i].down| - 1] == GameOver(Winner(s'.m.players))
  {
    hide WorkerStep, WorkerCan, View, Winner, Decided, KillId, KillRoom, Target, StartFrom, FillingFrom, FreeFrom,
         Garbages, CheckGlobalEnd, Finished, AddPlayer;
    var s' := Apply(c, s, step);
    if !s.m.matchEnded && s'.m.matchEnded && s'.m.rooms[i].used {
      StartKeepsEnd(s.m, 0);
      if step.MasterRecv? {
        var msg := s.nodes[step.i].up[0];
        if msg.Joined? {
          var room := s.m.rooms[step.i];
          StartKeepsEnd(BroadcastRoster(s.m.(players := AddPlayer(c, s.m.players, msg.id, step.i),
            rooms := s.m.rooms[step.i := room.(joined := room.joined + 1)])), 0);
        } else if msg.Eliminated? {
          CheckKeepsUsed(BroadcastRoster(s.m.(players := KillId(s.m.players, msg.id))));
          EndTells(BroadcastRoster(s.m.(players := KillId(s.m.players, msg.id))), i);
        }
      } else if step.MasterClose? {
        var closed := s.m.(rooms := s.m.rooms[step.i := s.m.rooms[step.i].(used := false, down := [])]);
        CheckKeepsUsed(BroadcastRoster(closed.(players := KillRoom(s.m.players, step.i))));
        EndTells(BroadcastRoster(closed.(players := KillRoom(s.m.players, step.i))), i);
      }
    }
  }

  lemma CheckKeepsUsed(m: Master)
    ensures forall i :: 0 <= i < |m.rooms| ==> CheckGlobalEnd(m).rooms[i].used == m.rooms[i].used
  {
    hide Winner, Decided;
  }

  lemma {:induction false} StartKeepsEnd(m: Master, slot: nat)
    requires slot <= |m.rooms|
    ensures StartFrom(m, slot).matchEnded == m.matchEnded
    decreases |m.rooms| - slot
  {
    hide View;
    if slot < |m.rooms| {
      StartKeepsEnd(StartRoom(m, slot), slot + 1);
    }
  }

  /** Slot i is used as before, and its channel has at most grown. */
  ghost predicate Grew(rooms: seq<MRoom>, rooms': seq<MRoom>, i: nat) {
    i < |rooms| == |rooms'| && rooms'[i].used == rooms[i].used && rooms[i].down <= rooms'[i].down
  }

  lemma StartRoomGrew(m: Master, slot: nat, i: nat)
    requires slot < |m.rooms| && i < |m.rooms|
    ensures Grew(m.rooms, StartRoom(m, slot).rooms, i)
  {
    hide View;
  }

  lemma {:induction false} StartGrew(m: Master, slot: nat, i: nat)
    requires slot <= |m.rooms| && i < |m.rooms|
    ensures Grew(m.rooms, StartFrom(m, slot).rooms, i)
    decreases |m.rooms| - slot
  {
    hide StartRoom;
    if slot < |m.rooms| {
      StartRoomGrew(m, slot, i);
      StartGrew(StartRoom(m, slot), slot + 1, i);
    }
  }

  lemma CheckEndGrew(m: Master, i: nat)
    requires i < |m.rooms|
    ensures Grew(m.rooms, CheckGlobalEnd(m).rooms, i)
  {
    hide Decided, Winner;
  }

  lemma HandleGrew(c: Config, m: Master, slot: nat, msg: HubMsg, i: nat)
    requires slot < |m.rooms| && i < |m.rooms|
    ensures Grew(m.rooms, HandleMsg(c, m, slot, msg).rooms, i)
  {
    hide StartFrom, CheckGlobalEnd, View, KillId, AddPlayer, Target;
    if msg.Joined? {
      var room := m.rooms[slot];
      StartGrew(BroadcastRoster(m.(players := AddPlayer(c, m.players, msg.id, slot),
        rooms := m.rooms[slot := room.(joined := room.joined + 1)])), 0, i);
    } else if msg.Eliminated? {
      CheckEndGrew(BroadcastRoster(m.(players := KillId(m.players, msg.id))), i);
    }
  }

  lemma CloseGrew(m: Master, slot: nat, i: nat)
    requires slot < |m.rooms| && i < |m.rooms| && i != slot
    ensures Grew(m.rooms, CloseRoom(m, slot).rooms, i)
  {
    hide CheckGlobalEnd, View, KillRoom;
    var closed := m.(rooms := m.rooms[slot := m.rooms[slot].(used := false, down := [])]);
    CheckEndGrew(BroadcastRoster(closed.(players := KillRoom(m.players, slot))), i);
  }

  lemma GrowsAndLearns(p: Proc, down: seq<HubMsg>, down': seq<HubMsg>)
    requires Learns(p, down) && down <= down'
    ensures Learns(p, down')
  {
    if p.Playing? && !p.matchOver {
      var k :| 0 <= k < |down| && down[k].GameOver?;
      assert down'[k].GameOver?;
    }
  }

  lemma WorkerLearns(c: Config, n: Node, down: seq<HubMsg>, step: Step, b: Books)
    requires WorkerCan(c, n, down, step) && Learns(n.proc, down)
    ensures var o := WorkerStep(c, n, down, step, b);
            (o.pop ==> down != []) && Learns(o.node.proc, if o.pop then down[1..] else down)
  {
    hide FateOf, RoutedSlots, ReportedSlots, OpeningSlots, ApplyGarbage, Ticked, BoardStep, FreshId, Landing;
    if step.RoomRecv? && !n.proc.matchOver && !down[0].GameOver? {
      var k :| 0 <= k < |down| && down[k].GameOver?;
      assert down[1..][k - 1].GameOver?;
    }
  }

  lemma MasterLearns(c: Config, s: System, step: Step, i: nat)
    requires |s.m.rooms| == |s.nodes| && i < |s.nodes| && s.m.rooms[i].used && step != MasterClose(i)
    requires Enabled(c, s, step) && (step.Accept? || step.Operator? || step.MasterRecv? || step.MasterClose?)
    ensures Grew(s.m.rooms, Apply(c, s, step).m.rooms, i) && Apply(c, s, step).nodes[i].proc == s.nodes[i].proc
  {
    hide AcceptStep, StartFrom, HandleMsg, CloseRoom, Garbages, Target, Winner, Finished, Grew;
    match step
    case Accept(canFork) => AcceptLeaves(c, s, canFork, i);
    case Operator => StartGrew(s.m, 0, i);
    case MasterRecv(j) => HandleGrew(c, s.m, j, s.nodes[j].up[0], i);
    case MasterClose(j) => CloseGrew(s.m, j, i);
  }

  lemma WorkerApplyLearns(c: Config, s: System, step: Step, j: nat, i: nat)
    requires |s.m.rooms| == |s.nodes| && i < |s.nodes| && j < |s.nodes| && s.m.rooms[i].used
    requires WorkerCan(c, s.nodes[j], s.m.rooms[j].down, step) && Learns(s.nodes[i].proc, s.m.rooms[i].down)
    ensures var s' := WorkerApply(c, s, step, j); s'.m.rooms[i].used && Learns(s'.nodes[i].proc, s'.m.rooms[i].down)
  {
    hide WorkerStep, WorkerCan, Learns;
    if i == j {
      WorkerLearns(c, s.nodes[i], s.m.rooms[i].down, step, s.books);
    }
  }

  lemma StepLearns(c: Config, s: System, step: Step, i: nat)
    requires |s.m.rooms| == |s.nodes| && i < |s.nodes| && s.m.rooms[i].used && step != MasterClose(i)
    requires Learns(s.nodes[i].proc, s.m.rooms[i].down)
    ensures var s' := Apply(c, s, step); s'.m.rooms[i].used && Learns(s'.nodes[i].proc, s'.m.rooms[i].down)
  {
    hide AcceptStep, StartFrom, MasterRecvStep, MasterCloseStep, WorkerApply, WorkerCan, Learns, Finished;
    if Enabled(c, s, step) {
      if step.Accept? || step.Operator? || step.MasterRecv? || step.MasterClose? {
        MasterLearns(c, s, step, i);
        GrowsAndLearns(s.nodes[i].proc, s.m.rooms[i].down, Apply(c, s, step).m.rooms[i].down);
      } else {
        WorkerApplyLearns(c, s, step, step.i, i);
      }
    }
  }

  lemma AcceptLeaves(c: Config, s: System, canFork: bool, i: nat)
    requires |s.m.rooms| == |s.nodes| && i < |s.nodes| && s.m.rooms[i].used
    ensures Grew(s.m.rooms, AcceptStep(c, s, canFork).m.rooms, i) && AcceptStep(c, s, canFork).nodes[i] == s.nodes[i]
  {
    hide FillingFrom, FreeFrom;
  }

  lemma RunOneMore(c: Config, steps: seq<Step>, step: Step)
    ensures Run(c, steps + [step]) == Apply(c, Run(c, steps), step)
  {
    hide Apply;
    assert (steps + [step])[..|steps|] == steps;
  }

  /** In every run: a room that plays when the match ends and is not closed since is gone, or has been told of the end,
      or has the message in its channel. */
  lemma {:induction false} VerdictArrives(c: Config, before: seq<Step>, next: Step, after: seq<Step>, i: nat)
    requires forall j :: 0 <= j < |after| ==> after[j] != MasterClose(i)
    ensures var s, s1, s2 := Run(c, before), Run(c, before + [next]), Run(c, before + [next] + after);
            i < |s.nodes| && !s.m.matchEnded && s1.m.matchEnded && s1.m.rooms[i].used && s1.nodes[i].proc.Playing? ==>
              s2.m.rooms[i].used && Learns(s2.nodes[i].proc, s2.m.rooms[i].down)
    decreases |after|
  {
    hide Run, Apply, Learns;
    var s, s1 := Run(c, before), Run(c, before + [next]);
    if i < |s.nodes| && !s.m.matchEnded && s1.m.matchEnded && s1.m.rooms[i].used && s1.nodes[i].proc.Playing? {
      RunOneMore(c, before, next);
      if after == [] {
        assert before + [next] + after == before + [next];
        EndingTellsAll(c, s, next, i);
        NewsLearnt(s1.nodes[i].proc, s1.m.rooms[i].down);
      } else {
        var n := |after| - 1;
        VerdictArrives(c, before, next, after[..n], i);
        var soFar := before + [next] + after[..n];
        assert before + [next] + after == soFar + [after[n]];
        RunOneMore(c, soFar, after[n]);
        StepLearns(c, Run(c, soFar), after[n], i);
      }
    }
  }

  lemma NewsLearnt(p: Proc, down: seq<HubMsg>)
    requires p.Playing? && down != [] && down[|down| - 1].GameOver?
    ensures Learns(p, down)
  {
  }

  // ----- The rest of what the master passes on

  /** When the master reads a feed entry, every other started room is sent it, and nothing else happens. When a worker
      reports that it is ready, those who wait for it are sent on. */
  lemma PassedOn(c: Config, s: System, i: nat)
    requires |s.m.rooms| == |s.nodes| && i < |s.nodes| && s.m.rooms[i].used && s.nodes[i].up != []
    ensures var s', msg := Apply(c, s, MasterRecv(i)), s.nodes[i].up[0];
            && s'.nodes == s.nodes[i := s.nodes[i].(up := s.nodes[i].up[1..])]
            && (msg.Feed? ==>
                  && s'.books == s.books && s'.m == s.m.(rooms := s'.m.rooms)
                  && forall j :: 0 <= j < |s.m.rooms| ==>
                       s'.m.rooms[j] == if j != i && s.m.rooms[j].used && s.m.rooms[j].started
                                        then s.m.rooms[j].(down := s.m.rooms[j].down + [msg]) else s.m.rooms[j])
            && (msg.Ready? ==>
                  s' == s.(nodes := s'.nodes,
                           m := s.m.(rooms := s.m.rooms[i := s.m.rooms[i].(ready := true, pending := 0)])))
  {
    hide HandleJoined, HandleEliminated, Target;
  }
}
