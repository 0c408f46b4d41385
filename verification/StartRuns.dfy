/** Two runs that show the start rule: a full room that waits for the operator, and a half-full one that starts by
    itself because the players who have left still count. */
module StartRuns {
  import opened Hub
  import opened Masters
  import opened Rooms
  import opened Systems
  import opened LiveRuns
  import opened Scenes
  import opened StartRules

  const HOST := MRoom(true, true, false, 2, 2, 0, [])
  const HOST_NODE := Node(1, Lobby(true, [1, 2], false, []), [])

  /** Slot 0 holds a full room that has not started. */
  predicate Hosting(t: Scene) {
    && t.r0 == HOST && t.n0 == HOST_NODE && !t.r1.used && !t.started && !t.ended && t.b == NO_BOOKS
    && !t.r1.started && t.n1.proc == Gone && t.n1.up == []
  }

  // ----- A full room

  const HOSTED := Scene(HOST, HOST_NODE, FREE_ROOM, VACANT, [P1, P2], 1, false, false, NO_BOOKS)

  lemma PairConnects() returns (moves: seq<Move>)
    ensures Leads(moves, BARE.(r0 := FULL, n0 := EmptyLobby(1), roomSeq := 1))
  {
    hide Leads, LeadsTo, Sys, Apply, Enabled, Base;
    Beginning();
    Bases();
    AcceptSpawns(BARE, 0);
    var t := BARE.(r0 := NEW_ROOM, n0 := EmptyLobby(1), roomSeq := 1);
    Serve([], BARE, Accept(true), t);
    moves := [] + [Server(Accept(true))];
    AcceptFills(t, 0);
    Serve(moves, t, Accept(true), t.(r0 := FULL));
    moves := moves + [Server(Accept(true))];
  }

  lemma PairJoins(before: seq<Move>) returns (moves: seq<Move>)
    requires Leads(before, BARE.(r0 := FULL, n0 := EmptyLobby(1), roomSeq := 1))
    ensures Leads(moves, BARE.(r0 := FULL, n0 := HOST_NODE.(up := [Ready, Joined(1), Joined(2)]), roomSeq := 1))
  {
    hide Leads;
    var t := BARE.(r0 := FULL, n0 := EmptyLobby(1), roomSeq := 1);
    Binds(before, t, 0, 1);
    moves := before + [Server(Bind(0))];
    var t1 := t.(n0 := Node(1, Lobby(true, [], false, []), [Ready]));
    Joins(moves, t1, 0, 1, [], 1, [Ready]);
    moves := moves + [Server(Join(0, 1))];
    assert [] + [1] == [1] && [Ready] + [Joined(1)] == [Ready, Joined(1)];
    var t2 := t.(n0 := Node(1, Lobby(true, [1], false, []), [Ready, Joined(1)]));
    Joins(moves, t2, 0, 1, [1], 2, [Ready, Joined(1)]);
    moves := moves + [Server(Join(0, 2))];
    assert [1] + [2] == [1, 2] && [Ready, Joined(1)] + [Joined(2)] == [Ready, Joined(1), Joined(2)];
  }

  lemma PairIsRecorded(before: seq<Move>) returns (moves: seq<Move>)
    requires Leads(before, BARE.(r0 := FULL, n0 := HOST_NODE.(up := [Ready, Joined(1), Joined(2)]), roomSeq := 1))
    ensures Leads(moves, HOSTED)
  {
    hide Leads, LeadsTo, Sys, Apply, Enabled;
    var n := HOST_NODE.(up := [Ready, Joined(1), Joined(2)]);
    var t := BARE.(r0 := FULL, n0 := n, roomSeq := 1);
    RecvReady(t, 0);
    assert n.up[1..] == [Joined(1), Joined(2)] && [Joined(1), Joined(2)][1..] == [Joined(2)] && [Joined(2)][1..] == [];
    var t1 := t.(r0 := READY, n0 := n.(up := [Joined(1), Joined(2)]));
    Serve(before, t, MasterRecv(0), t1);
    moves := before + [Server(MasterRecv(0))];
    RecvJoined(t1, 0, 1);
    assert [] + [P1] == [P1] && [P1] + [P2] == [P1, P2];
    var t2 := t1.(r0 := READY.(joined := 1), n0 := n.(up := [Joined(2)]), players := [P1]);
    Serve(moves, t1, MasterRecv(0), t2);
    moves := moves + [Server(MasterRecv(0))];
    RecvJoined(t2, 0, 2);
    Serve(moves, t2, MasterRecv(0), HOSTED);
    moves := moves + [Server(MasterRecv(0))];
  }

  /** There is a run of the server with its real sizes after which a room holds as many players as it takes, the master
      has heard of every one of them, and it has not started: by the start rule it waits for the operator or for the
      rest of the server. */
  lemma FullRoomWaits()
    ensures exists moves ::
              var s := Live(C, moves).s;
              && s == Run(C, Trace(C, moves)) && |s.nodes| == |s.m.rooms| == 32
              && s.m.rooms[0].used && s.m.rooms[0].joined == s.m.rooms[0].redirected == C.roomSize &&
                 !s.m.rooms[0].started
              && s.nodes[0].up == [] && s.nodes[0].proc == Lobby(true, [1, 2], false, [])
  {
    hide Leads, Live, Trace, Run;
    var moves := PairConnects();
    moves := PairJoins(moves);
    moves := PairIsRecorded(moves);
    Settled(moves, HOSTED);
  }

  lemma Settled(moves: seq<Move>, t: Scene)
    requires Leads(moves, t)
    ensures var s := Live(C, moves).s;
            && s == Run(C, Trace(C, moves)) && |s.nodes| == |s.m.rooms| == 32 && s == Sys(t)
            && s.m.rooms[0] == t.r0 && s.nodes[0] == t.n0 && s.m.rooms[1] == t.r1 && s.nodes[1] == t.n1
  {
    hide Live, Trace, Run;
    LiveRunIsRun(C, moves);
  }

  // ----- A visitor

  const VISITED := MRoom(true, true, false, 1, 0, 0, [])

  function Visitor(base: nat, up: seq<HubMsg>): Node {
    Node(base, Lobby(true, [base], false, []), up)
  }

  /** A client finds slot 0 full and gets a new room in slot 1; its join is on its way. */
  lemma Knocks(before: seq<Move>, t: Scene) returns (moves: seq<Move>)
    requires Leads(before, t) && Hosting(t)
    ensures var base := Base(C, t.roomSeq);
            Leads(moves, t.(r1 := VISITED, n1 := Visitor(base, [Joined(base)]), roomSeq := t.roomSeq + 1))
  {
    hide Leads, LeadsTo, Sys, Apply, Enabled, Base;
    var base := Base(C, t.roomSeq);
    AcceptSpawns(t, 1);
    var t1 := t.(r1 := NEW_ROOM, n1 := EmptyLobby(base), roomSeq := t.roomSeq + 1);
    Serve(before, t, Accept(true), t1);
    moves := before + [Server(Accept(true))];
    Binds(moves, t1, 1, base);
    moves := moves + [Server(Bind(1))];
    var t2 := t1.(n1 := Node(base, Lobby(true, [], false, []), [Ready]));
    assert [] + [base] == [base] && [Ready] + [Joined(base)] == [Ready, Joined(base)];
    Joins(moves, t2, 1, base, [], base, [Ready]);
    moves := moves + [Server(Join(1, base))];
    var t3 := t1.(n1 := Visitor(base, [Ready, Joined(base)]));
    RecvReady(t3, 1);
    assert [Ready, Joined(base)][1..] == [Joined(base)];
    Serve(moves, t3, MasterRecv(1), t3.(r1 := VISITED, n1 := Visitor(base, [Joined(base)])));
    moves := moves + [Server(MasterRecv(1))];
  }

  // ----- ... and leaves

  /** The two players of slot 0, then visitors of slot 1 who have all gone. */
  predicate Departed(players: seq<PlayerRec>) {
    && |players| >= 2 && players[0] == P1 && players[1] == P2
    && forall j :: 2 <= j < |players| ==> players[j].room == 1 && !players[j].alive
  }

  lemma {:induction false} TwoAlive(players: seq<PlayerRec>)
    requires Departed(players)
    ensures AliveCount(players) == 2
  {
    if |players| == 2 {
      assert players[..1] == [P1] && [P1][..0] == [];
      assert AliveCount([P1]) == 1;
    } else {
      TwoAlive(players[..|players| - 1]);
    }
  }

  lemma CrashKillsVisitor(players: seq<PlayerRec>, id: nat)
    requires Departed(players)
    ensures KillRoom(players + [PlayerRec(id, 1, true)], 1) == players + [PlayerRec(id, 1, false)]
    ensures Departed(players + [PlayerRec(id, 1, false)])
    ensures KillRoom(players + [PlayerRec(id, 1, true)], 1) != players + [PlayerRec(id, 1, true)]
  {
    var a, b := players + [PlayerRec(id, 1, true)], players + [PlayerRec(id, 1, false)];
    assert KillRoom(a, 1) == b;
    assert b[|players|] != a[|players|];
  }

  /** The worker of slot 1 is gone and its slot is closed; the visitor dies with it, and two are still alive. */
  lemma CrashScene(t: Scene, players: seq<PlayerRec>, id: nat)
    requires t.r0 == HOST && t.r1 == VISITED.(joined := 1) && t.n1.proc == Gone && t.n1.up == [] && !t.ended
    requires t.b == NO_BOOKS
    requires Departed(players) && t.players == players + [PlayerRec(id, 1, true)]
    ensures Enabled(C, Sys(t), MasterClose(1))
    ensures Apply(C, Sys(t), MasterClose(1)) ==
      Sys(t.(r1 := VISITED.(joined := 1, used := false), players := players + [PlayerRec(id, 1, false)]))
  {
    hide Slots, Workers, Finished, Post, View, KillRoom, AliveCount, Departed, Winner;
    var dead := players + [PlayerRec(id, 1, false)];
    var closed := VISITED.(joined := 1, used := false);
    CrashKillsVisitor(players, id);
    TwoAlive(dead);
    SetSlot(t.r0, t.r1, closed);
    PostSlots(HOST, closed, Started, Roster(View(dead)));
    assert Garbages([]) == multiset{} && NO_BOOKS.dropped + multiset{} == NO_BOOKS.dropped;
  }

  /** A visitor comes, is recorded, and is lost with its room. */
  lemma Visits(before: seq<Move>, t: Scene) returns (moves: seq<Move>, t': Scene)
    requires Leads(before, t) && Hosting(t) && Departed(t.players) && |t.players| < 63
    ensures Leads(moves, t') && Hosting(t') && Departed(t'.players) && |t'.players| == |t.players| + 1
  {
    hide Leads, LeadsTo, Sys, Apply, Enabled, Base, Departed;
    var base := Base(C, t.roomSeq);
    moves := Knocks(before, t);
    var t1 := t.(r1 := VISITED, n1 := Visitor(base, [Joined(base)]), roomSeq := t.roomSeq + 1);
    RecvJoined(t1, 1, base);
    assert [Joined(base)][1..] == [];
    var t2 := t1.(r1 := VISITED.(joined := 1), n1 := Visitor(base, []),
      players := t.players + [PlayerRec(base, 1, true)]);
    Serve(moves, t1, MasterRecv(1), t2);
    moves := moves + [Server(MasterRecv(1))];
    Work(moves, t2, 1, Exit(1), Node(base, Gone, []), false, NO_BOOKS);
    moves := moves + [Server(Exit(1))];
    var t3 := t2.(n1 := Node(base, Gone, []));
    CrashScene(t3, t.players, base);
    CrashKillsVisitor(t.players, base);
    t' := t3.(r1 := VISITED.(joined := 1, used := false), players := t.players + [PlayerRec(base, 1, false)]);
    Serve(moves, t3, MasterClose(1), t');
    moves := moves + [Server(MasterClose(1))];
  }

  lemma {:induction false} ManyVisits(before: seq<Move>, t: Scene, n: nat) returns (moves: seq<Move>, t': Scene)
    requires Leads(before, t) && Hosting(t) && Departed(t.players) && |t.players| + n <= 63
    ensures Leads(moves, t') && Hosting(t') && Departed(t'.players) && |t'.players| == |t.players| + n
    decreases n
  {
    hide Leads, Departed, Hosting;
    moves, t' := before, t;
    if n > 0 {
      moves, t' := Visits(moves, t');
      moves, t' := ManyVisits(moves, t', n - 1);
    }
  }

  // ----- The visitor who starts the server

  /** There is a run of the server with its real sizes in which no room has ever started, two players are waiting and
      sixty-one have come and gone; the next step brings the join of one more, who is alone in a room for two, and
      starts that room. */
  lemma DepartedPlayersStartARoom()
    ensures exists moves ::
              var s := Live(C, moves).s;
              && s == Run(C, Trace(C, moves)) && |s.nodes| == |s.m.rooms| == 32
              && !s.m.anyStarted && !s.m.matchEnded && AliveCount(s.m.players) == 2 && |s.m.players| == 63
              && s.m.rooms[1].used && !s.m.rooms[1].started && s.m.rooms[1].redirected == 1 && s.m.rooms[1].joined == 0
              && Apply(C, s, MasterRecv(1)).m.rooms[1].started &&
                 Apply(C, s, MasterRecv(1)).m.rooms[1].joined == 1 < C.roomSize
  {
    hide Leads, Live, Trace, Run, Departed, Apply, AliveCount;
    var moves := PairConnects();
    moves := PairJoins(moves);
    moves := PairIsRecorded(moves);
    assert Departed([P1, P2]) by { NoneYet(); }
    var t: Scene;
    moves, t := ManyVisits(moves, HOSTED, 61);
    moves := Knocks(moves, t);
    TwoAlive(t.players);
    var base := Base(C, t.roomSeq);
    var t1 := t.(r1 := VISITED, n1 := Visitor(base, [Joined(base)]), roomSeq := t.roomSeq + 1);
    Settled(moves, t1);
    LastJoin(t1, base);
  }

  lemma NoneYet()
    ensures Departed([P1, P2])
  {
  }

  lemma LastJoin(t: Scene, base: nat)
    requires t.r1 == VISITED && t.n1 == Visitor(base, [Joined(base)]) && |t.players| == 63
    ensures var s := Sys(t);
            |s.m.rooms| == |s.nodes| == 32 && var s' := Apply(C, s, MasterRecv(1));
              s'.m.rooms[1].started && s'.m.rooms[1].joined == 1
  {
    hide HandleJoined, Target, Finished, Slots, Workers;
    var s := Sys(t);
    StepStarts(C, s, MasterRecv(1), 1);
    JoinStarts(C, s.m, 1, base);
  }
}
