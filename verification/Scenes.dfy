/** States of the server in which only two slots were ever used, and what its steps make of them: the pieces that
    concrete runs are put together from. */
module Scenes {
  import opened Hub
  import opened Masters
  import opened Rooms
  import opened Systems
  import opened LiveRuns
  import Engine

  /** The server's own sizes. */
  const C := Config(32, 2, 2, 64)

  const NO_BOOKS := Books(multiset{}, multiset{}, multiset{}, [])

  /** A state in which only slots 0 and 1 were ever used. */
  datatype Scene = Scene(
    r0: MRoom, n0: Node, r1: MRoom, n1: Node,
    players: seq<PlayerRec>, roomSeq: nat, started: bool, ended: bool, b: Systems.Books)

  function Slots(r0: MRoom, r1: MRoom): (rooms: seq<MRoom>)
    ensures |rooms| == 32 && rooms[0] == r0 && rooms[1] == r1 && forall i :: 2 <= i < 32 ==> rooms[i] == FREE_ROOM
  {
    NewMaster(C).rooms[0 := r0][1 := r1]
  }

  function Workers(n0: Node, n1: Node): (nodes: seq<Node>)
    ensures |nodes| == 32 && nodes[0] == n0 && nodes[1] == n1
    ensures forall i :: 2 <= i < 32 ==> nodes[i] == Node(0, Gone, [])
  {
    NewSystem(C).nodes[0 := n0][1 := n1]
  }

  function Sys(t: Scene): System {
    System(Master(Slots(t.r0, t.r1), t.players, t.roomSeq, t.started, t.ended), Workers(t.n0, t.n1), t.b)
  }

  lemma SetSlot(r0: MRoom, r1: MRoom, r: MRoom)
    ensures Slots(r0, r1)[0 := r] == Slots(r, r1) && Slots(r0, r1)[1 := r] == Slots(r0, r)
  {
  }

  lemma SetWorker(n0: Node, n1: Node, n: Node)
    ensures Workers(n0, n1)[0 := n] == Workers(n, n1) && Workers(n0, n1)[1 := n] == Workers(n0, n)
  {
  }

  /** The moves lead to this scene. */
  ghost predicate Leads(moves: seq<Move>, t: Scene) {
    Live(C, moves).s == Sys(t)
  }

  /** ... with these games in slot 0. */
  ghost predicate LeadsTo(moves: seq<Move>, t: Scene, bs: seq<Engine.Game>) {
    Leads(moves, t) && |Live(C, moves).boards| > 0 && Live(C, moves).boards[0] == bs
  }

  lemma OneMove(moves: seq<Move>, move: Move)
    ensures Live(C, moves + [move]) == Next(C, Live(C, moves), move)
  {
    hide Next, Tied;
    assert (moves + [move])[..|moves|] == moves;
  }

  /** A move that can happen takes its step. */
  lemma Take(moves: seq<Move>, move: Move, s': System)
    requires Can(C, Live(C, moves), move) && Apply(C, Live(C, moves).s, AsStep(C, Live(C, moves), move)) == s'
    ensures Live(C, moves + [move]).s == s'
    ensures |Live(C, moves + [move]).boards| == |Live(C, moves).boards|
    ensures forall j :: 0 <= j < |Live(C, moves).boards| ==>
      Live(C, moves + [move]).boards[j] == BoardsOf(C, Live(C, moves), move, j)
  {
    hide Can, Tied, Apply, AsStep, BoardsOf, Live;
    OneMove(moves, move);
  }

  predicate Quiet(step: Step) {
    !step.Request? && !step.Tick? && !step.Begin?
  }

  predicate LeavesBoards(step: Step) {
    !step.Quit? && !step.RoomRecv? && !step.Route?
  }

  lemma BoardsStay(w: World, step: Step)
    requires Tied(w) && Can(C, w, Server(step)) && LeavesBoards(step) && |w.boards| > 0
    ensures BoardsOf(C, w, Server(step), 0) == w.boards[0]
  {
    hide Enabled, Tied;
  }

  lemma Serve(moves: seq<Move>, t: Scene, step: Step, t': Scene)
    requires Leads(moves, t) && Quiet(step) && Enabled(C, Sys(t), step) && Apply(C, Sys(t), step) == Sys(t')
    ensures Leads(moves + [Server(step)], t')
    ensures forall bs :: LeavesBoards(step) && LeadsTo(moves, t, bs) ==> LeadsTo(moves + [Server(step)], t', bs)
  {
    hide Tied, Apply, Enabled, Live, Sys, BoardsOf;
    var w := Live(C, moves);
    Take(moves, Server(step), Sys(t'));
    if LeavesBoards(step) && |w.boards| > 0 {
      BoardsStay(w, step);
    }
  }

  // ----- Worker steps

  function RoomOf(t: Scene, i: nat): MRoom {
    if i == 0 then t.r0 else t.r1
  }

  function NodeOf(t: Scene, i: nat): Node {
    if i == 0 then t.n0 else t.n1
  }

  function Put(t: Scene, i: nat, r: MRoom, n: Node, b: Systems.Books): Scene {
    if i == 0 then t.(r0 := r, n0 := n, b := b) else t.(r1 := r, n1 := n, b := b)
  }

  function Read(r: MRoom, pop: bool): MRoom {
    if pop && r.down != [] then r.(down := r.down[1..]) else r
  }

  lemma WorkerScene(t: Scene, i: nat, step: Step, n: Node, pop: bool, b: Systems.Books)
    requires i < 2 && RoomOf(t, i).used && StepOf(step, i) && WorkerCan(C, NodeOf(t, i), RoomOf(t, i).down, step)
    requires WorkerStep(C, NodeOf(t, i), RoomOf(t, i).down, step, t.b) == Outcome(n, pop, b)
    ensures Enabled(C, Sys(t), step) && Apply(C, Sys(t), step) == Sys(Put(t, i, Read(RoomOf(t, i), pop), n, b))
  {
    hide WorkerStep, WorkerCan, Finished, Slots, Workers;
    PopsWhatIsThere(C, NodeOf(t, i), RoomOf(t, i).down, step, t.b);
    SetWorker(t.n0, t.n1, n);
    SetSlot(t.r0, t.r1, Read(RoomOf(t, i), pop));
  }

  /** One step of the worker in slot i. */
  lemma Work(moves: seq<Move>, t: Scene, i: nat, step: Step, n: Node, pop: bool, b: Systems.Books)
    requires Leads(moves, t) && i < 2 && RoomOf(t, i).used && StepOf(step, i) && Quiet(step)
    requires WorkerCan(C, NodeOf(t, i), RoomOf(t, i).down, step)
    requires WorkerStep(C, NodeOf(t, i), RoomOf(t, i).down, step, t.b) == Outcome(n, pop, b)
    ensures Leads(moves + [Server(step)], Put(t, i, Read(RoomOf(t, i), pop), n, b))
    ensures forall bs :: LeavesBoards(step) && LeadsTo(moves, t, bs) ==>
      LeadsTo(moves + [Server(step)], Put(t, i, Read(RoomOf(t, i), pop), n, b), bs)
  {
    hide WorkerStep, WorkerCan, Leads, LeadsTo, Enabled, Apply, Sys;
    WorkerScene(t, i, step, n, pop, b);
    Serve(moves, t, step, Put(t, i, Read(RoomOf(t, i), pop), n, b));
  }

  // ----- Master steps

  function Heard(a: Audience, i: nat, r: MRoom, msg: HubMsg): MRoom {
    if Hears(a, i, r) then r.(down := r.down + [msg]) else r
  }

  lemma PostSlots(r0: MRoom, r1: MRoom, a: Audience, msg: HubMsg)
    requires a == Used || a == Started || a == Only(0)
    ensures Post(Slots(r0, r1), a, msg) == Slots(Heard(a, 0, r0, msg), Heard(a, 1, r1, msg))
  {
  }

  lemma {:induction false} StartRest(m: Master, slot: nat)
    requires slot <= |m.rooms| && forall j :: slot <= j < |m.rooms| ==> !m.rooms[j].used || m.rooms[j].joined == 0
    ensures StartFrom(m, slot) == m
    decreases |m.rooms| - slot
  {
    if slot < |m.rooms| {
      StartRest(m, slot + 1);
    }
  }

  /** ENTER starts slot 0; nobody has joined slot 1. */
  lemma OperatorScene(t: Scene)
    requires t.r0.used && !t.r0.started && t.r0.joined >= 1 && t.r1.joined == 0 && !t.r1.started
    ensures Enabled(C, Sys(t), Operator)
    ensures var down := t.r0.down + [Start(t.r0.redirected)] + [Roster(View(t.players))];
            Apply(C, Sys(t), Operator) == Sys(t.(r0 := t.r0.(started := true, down := down), started := true))
  {
    hide Post, View, Slots, Workers;
    var m := Sys(t).m;
    var r1 := t.r0.(down := t.r0.down + [Start(t.r0.redirected)]);
    PostSlots(t.r0, t.r1, Only(0), Start(t.r0.redirected));
    SetSlot(r1, t.r1, r1.(started := true));
    PostSlots(r1.(started := true), t.r1, Started, Roster(View(t.players)));
    StartRest(StartRoom(m, 0), 1);
  }

  const NEW_ROOM := MRoom(true, false, false, 1, 0, 1, [])

  function NewNode(roomSeq: nat): Node {
    Node(Base(C, roomSeq), Lobby(false, [], false, []), [])
  }

  /** No room takes players, so a client gets a new room in the first free slot. */
  lemma AcceptSpawns(t: Scene, i: nat)
    requires !Filling(C, t.r0) && !Filling(C, t.r1) && (t.r0.used || t.r1.used || !t.started)
    requires (i == 0 && !t.r0.used) || (i == 1 && t.r0.used && !t.r1.used)
    ensures Enabled(C, Sys(t), Accept(true))
    ensures Apply(C, Sys(t), Accept(true)) ==
      Sys(Put(t, i, NEW_ROOM, NewNode(t.roomSeq), t.b).(roomSeq := t.roomSeq + 1))
  {
    hide Slots, Workers, FillingFrom, NewNode;
    var rooms := Slots(t.r0, t.r1);
    assert FreeFrom(rooms, 0) == i;
    var r0 := FREE_ROOM.(used := true);
    SetSlot(t.r0, t.r1, r0);
    SetSlot(if i == 0 then r0 else t.r0, if i == 1 then r0 else t.r1, NEW_ROOM);
    SpawnedNode(t.roomSeq);
    SetWorker(t.n0, t.n1, NewNode(t.roomSeq));
    assert !Finished(Sys(t).m) by {
      assert rooms[0].used || rooms[1].used || !t.started;
    }
  }

  lemma SpawnedNode(roomSeq: nat)
    ensures NewNode(roomSeq) == Node(Base(C, roomSeq), Lobby(false, [], false, []), [])
  {
  }

  /** A client is parked for a room that still takes players and is not ready. */
  lemma AcceptFills(t: Scene, i: nat)
    requires (i == 0 && Filling(C, t.r0)) || (i == 1 && !Filling(C, t.r0) && Filling(C, t.r1))
    requires !RoomOf(t, i).ready && RoomOf(t, i).pending < 2
    ensures Enabled(C, Sys(t), Accept(true))
    ensures var r := RoomOf(t, i);
            Apply(C, Sys(t), Accept(true)) ==
              Sys(Put(t, i, r.(pending := r.pending + 1, redirected := r.redirected + 1), NodeOf(t, i), t.b))
  {
    hide Slots, Workers;
    var rooms, r := Slots(t.r0, t.r1), RoomOf(t, i);
    assert FillingFrom(C, rooms, 0) == i;
    SetSlot(t.r0, t.r1, r.(pending := r.pending + 1, redirected := r.redirected + 1));
    assert !Finished(Sys(t).m) by { assert rooms[i].used; }
  }

  // ----- Messages to the master

  lemma RecvOf(t: Scene, i: nat, m': Master, n: Node)
    requires i < 2 && RoomOf(t, i).used && NodeOf(t, i).up != [] && !NodeOf(t, i).up[0].Attack?
    requires m' == HandleMsg(C, Sys(t).m, i, NodeOf(t, i).up[0]) && n == NodeOf(t, i).(up := NodeOf(t, i).up[1..])
    ensures Enabled(C, Sys(t), MasterRecv(i))
    ensures Apply(C, Sys(t), MasterRecv(i)) ==
            System(m', if i == 0 then Workers(n, t.n1)
              else Workers(t.n0, n), t.b.(announced := Announce(Sys(t).m, m', t.b.announced)))
  {
    hide HandleMsg, Target, Winner, Slots, Workers, Finished;
    SetWorker(t.n0, t.n1, n);
    assert t.b.dropped + multiset{} == t.b.dropped;
  }

  function Popped1(n: Node): Node
    requires n.up != []
  {
    n.(up := n.up[1..])
  }

  lemma RecvReady(t: Scene, i: nat)
    requires i < 2 && RoomOf(t, i).used && NodeOf(t, i).up != [] && NodeOf(t, i).up[0] == Ready
    ensures Enabled(C, Sys(t), MasterRecv(i))
    ensures Apply(C, Sys(t), MasterRecv(i)) ==
      Sys(Put(t, i, RoomOf(t, i).(ready := true, pending := 0), Popped1(NodeOf(t, i)), t.b))
  {
    hide Slots, Workers, Apply, Enabled, Winner;
    SetSlot(t.r0, t.r1, RoomOf(t, i).(ready := true, pending := 0));
    RecvOf(t, i, HandleMsg(C, Sys(t).m, i, Ready), Popped1(NodeOf(t, i)));
  }

  /** A join that does not fill the record: nobody has started, so nobody is told. */
  lemma RecvJoined(t: Scene, i: nat, id: nat)
    requires i < 2 && RoomOf(t, i).used && !t.r0.started && !t.r1.started && |t.players| < 63
    requires NodeOf(t, i).up != [] && NodeOf(t, i).up[0] == Joined(id)
    ensures Enabled(C, Sys(t), MasterRecv(i))
    ensures var r, n := RoomOf(t, i).(joined := RoomOf(t, i).joined + 1), Popped1(NodeOf(t, i));
            Apply(C, Sys(t), MasterRecv(i)) ==
              Sys(Put(t, i, r, n, t.b).(players := t.players + [PlayerRec(id, i, true)]))
  {
    hide Slots, Workers, Apply, Enabled, Winner, Post, View;
    var r := RoomOf(t, i).(joined := RoomOf(t, i).joined + 1);
    var r0, r1 := if i == 0 then r else t.r0, if i == 1 then r else t.r1;
    SetSlot(t.r0, t.r1, r);
    PostSlots(r0, r1, Started, Roster(View(t.players + [PlayerRec(id, i, true)])));
    RecvOf(t, i, HandleMsg(C, Sys(t).m, i, Joined(id)), Popped1(NodeOf(t, i)));
  }

  // ----- Lobbies

  function EmptyLobby(base: nat): Node {
    Node(base, Lobby(false, [], false, []), [])
  }

  lemma Binds(moves: seq<Move>, t: Scene, i: nat, base: nat)
    requires Leads(moves, t) && i < 2 && RoomOf(t, i).used && NodeOf(t, i) == EmptyLobby(base)
    ensures Leads(moves + [Server(Bind(i))],
      Put(t, i, RoomOf(t, i), Node(base, Lobby(true, [], false, []), [Ready]), t.b))
  {
    hide Leads, LeadsTo;
    var n := Node(base, Lobby(true, [], false, []), [Ready]);
    assert [] + [Ready] == [Ready];
    Work(moves, t, i, Bind(i), n, false, t.b);
  }

  lemma Joins(moves: seq<Move>, t: Scene, i: nat, base: nat, ids: seq<nat>, id: nat, up: seq<HubMsg>)
    requires Leads(moves, t) && i < 2 && RoomOf(t, i).used
    requires NodeOf(t, i) == Node(base, Lobby(true, ids, false, []), up)
    requires InBlock(C, base, id) && forall k :: 0 <= k < |ids| ==> ids[k] < id
    ensures var n := Node(base, Lobby(true, ids + [id], false, []), up + [Joined(id)]);
            Leads(moves + [Server(Join(i, id))], Put(t, i, RoomOf(t, i), n, t.b))
  {
    hide Leads, LeadsTo;
    Work(moves, t, i, Join(i, id), Node(base, Lobby(true, ids + [id], false, []), up + [Joined(id)]), false, t.b);
  }

  /** A lobby reads the start order and the roster, or something it has no use for. */
  lemma Reads(moves: seq<Move>, t: Scene, i: nat, p: Proc)
    requires Leads(moves, t) && i < 2 && RoomOf(t, i).used && NodeOf(t, i).proc.Lobby? && NodeOf(t, i).proc.bound
    requires RoomOf(t, i).down != [] && !RoomOf(t, i).down[0].Garbage?
    requires p == LobbyRead(NodeOf(t, i).proc, RoomOf(t, i).down[0])
    ensures Leads(moves + [Server(LobbyRecv(i))],
                  Put(t, i, RoomOf(t, i).(down := RoomOf(t, i).down[1..]), NodeOf(t, i).(proc := p), t.b))
  {
    hide Leads, LeadsTo, LobbyRead;
    Work(moves, t, i, LobbyRecv(i), NodeOf(t, i).(proc := p), true, t.b);
  }

  // ----- The run, part by part

  const P1 := PlayerRec(1, 0, true)
  const P2 := PlayerRec(2, 0, true)
  const FULL := MRoom(true, false, false, 2, 0, 2, [])
  const READY := MRoom(true, true, false, 2, 0, 0, [])
  const VACANT := Node(0, Gone, [])
  const BARE := Scene(FREE_ROOM, VACANT, FREE_ROOM, VACANT, [], 0, false, false, NO_BOOKS)

  lemma Beginning()
    ensures Leads([], BARE)
  {
    hide Tied, Next;
    assert NewMaster(C).rooms[0 := FREE_ROOM][1 := FREE_ROOM] == NewMaster(C).rooms;
    assert NewSystem(C).nodes[0 := VACANT][1 := VACANT] == NewSystem(C).nodes;
  }

  lemma Bases()
    ensures Base(C, 0) == 1 && Base(C, 1) == 3 && Base(C, 2) == 5
  {
  }

  lemma SysNode(t: Scene)
    ensures |Sys(t).m.rooms| == |Sys(t).nodes| == 32 && Sys(t).nodes[0] == t.n0 && Sys(t).m.rooms[0] == t.r0
  {
  }
}
