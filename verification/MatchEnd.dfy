/** How a match ends: once, for a good reason, and with the same winner everywhere. */
module MatchEnd {
  import opened Hub
  import opened Masters
  import opened Rooms
  import opened Systems
  import opened UniqueIds
  import SystemInvariant

  ghost predicate AllAlive(players: seq<PlayerRec>) {
    forall j :: 0 <= j < |players| ==> players[j].alive
  }

  /** Nobody has died, or at least two are left. */
  ghost predicate Undecided(players: seq<PlayerRec>) {
    AllAlive(players) || AliveCount(players) >= 2
  }

  /** The only living player on record. */
  ghost predicate SoleSurvivor(players: seq<PlayerRec>, id: nat) {
    exists j :: 0 <= j < |players| && players[j].alive && players[j].id == id
             && forall k :: 0 <= k < |players| && players[k].alive ==> k == j
  }

  // ----- Counting the living

  lemma {:induction false} NoneAlive(players: seq<PlayerRec>)
    ensures AliveCount(players) == 0 <==> forall j :: 0 <= j < |players| ==> !players[j].alive
  {
    if players != [] {
      var n := |players| - 1;
      NoneAlive(players[..n]);
      assert forall j :: 0 <= j < n ==> players[..n][j] == players[j];
    }
  }

  lemma {:induction false} OneAlive(players: seq<PlayerRec>)
    requires AliveCount(players) == 1
    ensures SoleSurvivor(players, LastAlive(players))
  {
    var n := |players| - 1;
    assert forall j :: 0 <= j < n ==> players[..n][j] == players[j];
    if players[n].alive {
      NoneAlive(players[..n]);
    } else {
      OneAlive(players[..n]);
      var j :| 0 <= j < n && players[..n][j].alive && players[..n][j].id == LastAlive(players[..n])
              && forall k :: 0 <= k < n && players[..n][k].alive ==> k == j;
      assert players[j].alive && players[j].id == LastAlive(players);
    }
  }

  lemma {:induction false} EveryoneCounts(players: seq<PlayerRec>)
    requires AllAlive(players)
    ensures AliveCount(players) == |players|
  {
    if players != [] {
      EveryoneCounts(players[..|players| - 1]);
    }
  }

  lemma {:induction false} AddCounts(players: seq<PlayerRec>, r: PlayerRec)
    ensures AliveCount(players + [r]) == AliveCount(players) + if r.alive then 1 else 0
  {
    assert (players + [r])[..|players|] == players;
  }

  /** One record fewer alive: the count drops by at most one. */
  lemma {:induction false} KillCounts(players: seq<PlayerRec>, players': seq<PlayerRec>)
    requires |players'| == |players| && forall j :: 0 <= j < |players| ==> (players'[j].alive ==> players[j].alive)
    requires forall j, k :: 0 <= j < k < |players| ==>
               (players[j].alive == players'[j].alive || players[k].alive == players'[k].alive)
    ensures AliveCount(players') >= AliveCount(players) - 1
  {
    if players != [] {
      var n := |players| - 1;
      if players[n].alive == players'[n].alive {
        KillCounts(players[..n], players'[..n]);
      } else {
        assert forall j :: 0 <= j < n ==> players[j].alive == players'[j].alive;
        SameCount(players[..n], players'[..n]);
      }
    }
  }

  lemma {:induction false} SameCount(players: seq<PlayerRec>, players': seq<PlayerRec>)
    requires |players'| == |players| && forall j :: 0 <= j < |players| ==> players[j].alive == players'[j].alive
    ensures AliveCount(players) == AliveCount(players')
  {
    if players != [] {
      SameCount(players[..|players| - 1], players'[..|players| - 1]);
    }
  }

  // ----- The master's verdict

  /** Decided is the negation of undecided, for every record that has players. */
  lemma DecidedIff(players: seq<PlayerRec>)
    ensures Decided(players) ==> AliveCount(players) <= 1
    ensures players != [] && !Decided(players) ==> Undecided(players)
    ensures players == [] ==> AllAlive(players)
  {
    if |players| == 1 && !Decided(players) {
      assert players[..0] == [];
      assert AliveCount(players) == 1;
      NoneAlive(players);
    }
  }

  ghost predicate MasterOk(m: Master) {
    !m.matchEnded ==> Undecided(m.players)
  }

  lemma CheckEndSettles(m: Master)
    ensures MasterOk(CheckGlobalEnd(m))
    ensures CheckGlobalEnd(m).matchEnded <==> m.matchEnded || Decided(m.players)
  {
    DecidedIff(m.players);
    hide Decided, Winner, Post;
  }

  lemma {:induction false} StartKeepsVerdict(m: Master, slot: nat)
    requires slot <= |m.rooms|
    ensures StartFrom(m, slot).matchEnded == m.matchEnded && StartFrom(m, slot).players == m.players
    decreases |m.rooms| - slot
  {
    hide Post, View;
    if slot < |m.rooms| {
      StartKeepsVerdict(StartRoom(m, slot), slot + 1);
    }
  }

  lemma AddKeepsUndecided(c: Config, players: seq<PlayerRec>, id: nat, slot: nat)
    requires Undecided(players)
    ensures Undecided(AddPlayer(c, players, id, slot))
  {
    AddCounts(players, PlayerRec(id, slot, true));
  }

  lemma HandleKeepsMaster(c: Config, m: Master, slot: nat, msg: HubMsg)
    requires slot < |m.rooms| && MasterOk(m)
    ensures MasterOk(HandleMsg(c, m, slot, msg))
  {
    hide Undecided, Post, View, AddPlayer, StartFrom, CheckGlobalEnd, Target, KillId;
    match msg
    case Joined(id) =>
      var room := m.rooms[slot];
      var told := BroadcastRoster(m.(players := AddPlayer(c, m.players, id, slot),
        rooms := m.rooms[slot := room.(joined := room.joined + 1)]));
      StartKeepsVerdict(told, 0);
      if !m.matchEnded {
        AddKeepsUndecided(c, m.players, id, slot);
      }
    case Eliminated(id) => CheckEndSettles(BroadcastRoster(m.(players := KillId(m.players, id))));
    case _ =>
  }

  lemma CloseKeepsMaster(m: Master, slot: nat)
    requires slot < |m.rooms| && MasterOk(m)
    ensures MasterOk(CloseRoom(m, slot))
  {
    hide Undecided, Post, View, CheckGlobalEnd, KillRoom;
    var closed := m.(rooms := m.rooms[slot := m.rooms[slot].(used := false, down := [])],
      players := KillRoom(m.players, slot));
    CheckEndSettles(BroadcastRoster(closed));
  }

  // ----- The verdict reaches every room unchanged

  ghost predicate NoVerdict(msgs: seq<HubMsg>) {
    forall k :: 0 <= k < |msgs| ==> !msgs[k].GameOver?
  }

  /** A channel carries at most one end-of-match message, and it names the announced winner. */
  ghost predicate VerdictsAgree(msgs: seq<HubMsg>, announced: seq<nat>) {
    && (forall k :: 0 <= k < |msgs| && msgs[k].GameOver? ==> announced == [msgs[k].winner])
    && (forall j, k :: 0 <= j < k < |msgs| && msgs[j].GameOver? ==> !msgs[k].GameOver?)
  }

  /** A room that has been told of the end was told the announced winner, and is not told again. */
  ghost predicate RoomAgrees(p: Proc, down: seq<HubMsg>, announced: seq<nat>) {
    p.Playing? && p.matchOver ==> announced == [p.winner] && NoVerdict(down)
  }

  ghost predicate EndInv(s: System) {
    && |s.m.rooms| == |s.nodes|
    && MasterOk(s.m)
    && (if s.m.matchEnded then |s.books.announced| == 1 else s.books.announced == [])
    && (forall i :: 0 <= i < |s.nodes| ==> VerdictsAgree(s.m.rooms[i].down, s.books.announced))
    && (forall i :: 0 <= i < |s.nodes| ==> RoomAgrees(s.nodes[i].proc, s.m.rooms[i].down, s.books.announced))
  }

  lemma PostAgrees(rooms: seq<MRoom>, a: Audience, msg: HubMsg, announced: seq<nat>)
    requires forall i :: 0 <= i < |rooms| ==> VerdictsAgree(rooms[i].down, announced)
    requires msg.GameOver? ==> announced == [msg.winner] && forall i :: 0 <= i < |rooms| ==> NoVerdict(rooms[i].down)
    ensures forall i :: 0 <= i < |rooms| ==> VerdictsAgree(Post(rooms, a, msg)[i].down, announced)
  {
    forall i | 0 <= i < |rooms| ensures VerdictsAgree(Post(rooms, a, msg)[i].down, announced) {
      assert VerdictsAgree(rooms[i].down, announced);
    }
  }

  lemma {:induction false} StartAgrees(m: Master, slot: nat, announced: seq<nat>)
    requires slot <= |m.rooms| && forall i :: 0 <= i < |m.rooms| ==> VerdictsAgree(m.rooms[i].down, announced)
    ensures forall i :: 0 <= i < |m.rooms| ==> VerdictsAgree(StartFrom(m, slot).rooms[i].down, announced)
    decreases |m.rooms| - slot
  {
    hide VerdictsAgree, View, Post;
    if slot < |m.rooms| {
      var room := m.rooms[slot];
      if room.used && !room.started && room.joined >= 1 {
        var told := Post(m.rooms, Only(slot), Start(room.redirected));
        PostAgrees(m.rooms, Only(slot), Start(room.redirected), announced);
        var m1 := m.(rooms := told[slot := told[slot].(started := true)], anyStarted := true);
        PostAgrees(m1.rooms, Started, Roster(View(m.players)), announced);
      }
      StartAgrees(StartRoom(m, slot), slot + 1, announced);
    }
  }

  lemma NothingAnnounced(rooms: seq<MRoom>, announced: seq<nat>)
    requires forall i :: 0 <= i < |rooms| ==> VerdictsAgree(rooms[i].down, [])
    ensures forall i :: 0 <= i < |rooms| ==> VerdictsAgree(rooms[i].down, announced) && NoVerdict(rooms[i].down)
  {
    forall i | 0 <= i < |rooms| ensures VerdictsAgree(rooms[i].down, announced) && NoVerdict(rooms[i].down) {
      assert VerdictsAgree(rooms[i].down, []);
    }
  }

  lemma CheckEndAgrees(m: Master, announced: seq<nat>)
    requires forall i :: 0 <= i < |m.rooms| ==> VerdictsAgree(m.rooms[i].down, announced)
    requires !m.matchEnded ==> announced == []
    ensures var r := CheckGlobalEnd(m);
            forall i :: 0 <= i < |m.rooms| ==> VerdictsAgree(r.rooms[i].down, Announce(m, r, announced))
  {
    hide VerdictsAgree, NoVerdict, Decided, Winner, Post;
    if !m.matchEnded && Decided(m.players) {
      var announced' := [Winner(m.players)];
      assert announced + announced' == announced';
      NothingAnnounced(m.rooms, announced');
      PostAgrees(m.rooms, Used, GameOver(Winner(m.players)), announced');
    }
  }

  lemma HandleAgrees(c: Config, m: Master, slot: nat, msg: HubMsg, announced: seq<nat>)
    requires slot < |m.rooms| && forall i :: 0 <= i < |m.rooms| ==> VerdictsAgree(m.rooms[i].down, announced)
    requires !m.matchEnded ==> announced == []
    ensures var r := HandleMsg(c, m, slot, msg);
            forall i :: 0 <= i < |m.rooms| ==> VerdictsAgree(r.rooms[i].down, Announce(m, r, announced))
  {
    hide VerdictsAgree, View, Post, Decided, Winner, CheckGlobalEnd, StartFrom, Target, KillId;
    match msg
    case Joined(id) =>
      var room := m.rooms[slot];
      var m1 := m.(players := AddPlayer(c, m.players, id, slot),
        rooms := m.rooms[slot := room.(joined := room.joined + 1)]);
      PostAgrees(m1.rooms, Started, Roster(View(m1.players)), announced);
      var told := BroadcastRoster(m1);
      StartAgrees(told, 0, announced);
      StartKeepsVerdict(told, 0);
    case Eliminated(id) =>
      var m1 := m.(players := KillId(m.players, id));
      PostAgrees(m1.rooms, Started, Roster(View(m1.players)), announced);
      CheckEndAgrees(BroadcastRoster(m1), announced);
    case Attack(attack) =>
      if Target(m, attack.victim) != -1 {
        PostAgrees(m.rooms, Only(Target(m, attack.victim)), Garbage(attack), announced);
      }
    case Feed(attack) => PostAgrees(m.rooms, StartedExcept(slot), Feed(attack), announced);
    case _ =>
  }

  lemma CloseAgrees(m: Master, slot: nat, announced: seq<nat>)
    requires slot < |m.rooms| && forall i :: 0 <= i < |m.rooms| ==> VerdictsAgree(m.rooms[i].down, announced)
    requires !m.matchEnded ==> announced == []
    ensures var r := CloseRoom(m, slot);
            forall i :: 0 <= i < |m.rooms| ==> VerdictsAgree(r.rooms[i].down, Announce(m, r, announced))
  {
    hide View, Post, Decided, Winner, CheckGlobalEnd, KillRoom;
    var m1 := m.(rooms := m.rooms[slot := m.rooms[slot].(used := false, down := [])]);
    var m2 := m1.(players := KillRoom(m.players, slot));
    PostAgrees(m2.rooms, Started, Roster(View(m2.players)), announced);
    CheckEndAgrees(BroadcastRoster(m2), announced);
  }

  /** Whatever end-of-match messages the channels carry now, they carried before. */
  ghost predicate NoNewVerdict(rooms: seq<MRoom>, rooms': seq<MRoom>) {
    |rooms'| == |rooms| && forall i :: 0 <= i < |rooms| && NoVerdict(rooms[i].down) ==> NoVerdict(rooms'[i].down)
  }

  lemma NoNewTwice(a: seq<MRoom>, b: seq<MRoom>, c: seq<MRoom>)
    requires NoNewVerdict(a, b) && NoNewVerdict(b, c)
    ensures NoNewVerdict(a, c)
  {
    hide NoVerdict;
  }

  lemma PostNoNew(rooms: seq<MRoom>, a: Audience, msg: HubMsg)
    requires !msg.GameOver?
    ensures NoNewVerdict(rooms, Post(rooms, a, msg))
  {
    forall i | 0 <= i < |rooms| && NoVerdict(rooms[i].down) ensures NoVerdict(Post(rooms, a, msg)[i].down) {
      assert NoVerdict(rooms[i].down + [msg]);
    }
  }

  lemma {:induction false} StartNoNew(m: Master, slot: nat)
    requires slot <= |m.rooms|
    ensures NoNewVerdict(m.rooms, StartFrom(m, slot).rooms)
    decreases |m.rooms| - slot
  {
    hide NoVerdict, View, Post;
    if slot < |m.rooms| {
      var room := m.rooms[slot];
      if room.used && !room.started && room.joined >= 1 {
        var told := Post(m.rooms, Only(slot), Start(room.redirected));
        PostNoNew(m.rooms, Only(slot), Start(room.redirected));
        var m1 := m.(rooms := told[slot := told[slot].(started := true)], anyStarted := true);
        PostNoNew(m1.rooms, Started, Roster(View(m.players)));
        NoNewTwice(m.rooms, m1.rooms, StartRoom(m, slot).rooms);
      }
      StartNoNew(StartRoom(m, slot), slot + 1);
      NoNewTwice(m.rooms, StartRoom(m, slot).rooms, StartFrom(m, slot).rooms);
    }
  }

  /** Once the match is over the master never announces an end again. */
  lemma HandleNoNew(c: Config, m: Master, slot: nat, msg: HubMsg)
    requires slot < |m.rooms| && m.matchEnded
    ensures NoNewVerdict(m.rooms, HandleMsg(c, m, slot, msg).rooms)
  {
    hide NoVerdict, View, Post, Decided, StartFrom, Target, KillId, AddPlayer;
    match msg
    case Joined(id) =>
      var room := m.rooms[slot];
      var m1 := m.(players := AddPlayer(c, m.players, id, slot),
        rooms := m.rooms[slot := room.(joined := room.joined + 1)]);
      var told := BroadcastRoster(m1);
      PostNoNew(m1.rooms, Started, Roster(View(m1.players)));
      NoNewTwice(m.rooms, m1.rooms, told.rooms);
      StartNoNew(told, 0);
      NoNewTwice(m.rooms, told.rooms, StartFrom(told, 0).rooms);
    case Eliminated(id) => PostNoNew(m.rooms, Started, Roster(View(KillId(m.players, id))));
    case Attack(attack) =>
      if Target(m, attack.victim) != -1 {
        PostNoNew(m.rooms, Only(Target(m, attack.victim)), Garbage(attack));
      }
    case Feed(attack) => PostNoNew(m.rooms, StartedExcept(slot), Feed(attack));
    case _ =>
  }

  lemma CloseNoNew(m: Master, slot: nat)
    requires slot < |m.rooms| && m.matchEnded
    ensures NoNewVerdict(m.rooms, CloseRoom(m, slot).rooms)
  {
    hide KillRoom;
  }

  lemma RoomsStillAgree(s: System, rooms: seq<MRoom>, announced: seq<nat>)
    requires EndInv(s) && |rooms| == |s.nodes|
    requires s.m.matchEnded ==> announced == s.books.announced && NoNewVerdict(s.m.rooms, rooms)
    ensures forall i :: 0 <= i < |s.nodes| ==> RoomAgrees(s.nodes[i].proc, rooms[i].down, announced)
  {
    hide NoVerdict;
    forall i | 0 <= i < |s.nodes| ensures RoomAgrees(s.nodes[i].proc, rooms[i].down, announced) {
      assert RoomAgrees(s.nodes[i].proc, s.m.rooms[i].down, s.books.announced);
    }
  }

  lemma {:induction false} VerdictKept(c: Config, m: Master, slot: nat, msg: HubMsg)
    requires slot < |m.rooms|
    ensures m.matchEnded ==> HandleMsg(c, m, slot, msg).matchEnded
  {
    hide View, Post, Decided, Winner, StartFrom, Target, KillId, AddPlayer;
    if msg.Joined? {
      var room := m.rooms[slot];
      StartKeepsVerdict(BroadcastRoster(m.(players := AddPlayer(c, m.players, msg.id, slot),
        rooms := m.rooms[slot := room.(joined := room.joined + 1)])), 0);
    }
  }

  lemma RecvKeepsEnd(c: Config, s: System, i: nat)
    requires EndInv(s) && i < |s.nodes| && s.nodes[i].up != []
    ensures EndInv(MasterRecvStep(c, s, i))
  {
    hide MasterOk, VerdictsAgree, HandleMsg, Target, Winner, RoomAgrees;
    var msg := s.nodes[i].up[0];
    HandleKeepsMaster(c, s.m, i, msg);
    HandleAgrees(c, s.m, i, msg, s.books.announced);
    VerdictKept(c, s.m, i, msg);
    if s.m.matchEnded {
      HandleNoNew(c, s.m, i, msg);
    }
    var m := HandleMsg(c, s.m, i, msg);
    RoomsStillAgree(s, m.rooms, Announce(s.m, m, s.books.announced));
  }

  lemma CloseKeepsEnd(s: System, i: nat)
    requires EndInv(s) && i < |s.nodes|
    ensures EndInv(MasterCloseStep(s, i))
  {
    hide MasterOk, VerdictsAgree, CloseRoom, Winner, RoomAgrees, Garbages;
    CloseKeepsMaster(s.m, i);
    CloseAgrees(s.m, i, s.books.announced);
    ClosedKept(s.m, i);
    if s.m.matchEnded {
      CloseNoNew(s.m, i);
    }
    RoomsStillAgree(s, CloseRoom(s.m, i).rooms, Announce(s.m, CloseRoom(s.m, i), s.books.announced));
  }

  lemma ClosedKept(m: Master, slot: nat)
    requires slot < |m.rooms|
    ensures m.matchEnded ==> CloseRoom(m, slot).matchEnded
  {
    hide View, Post, Decided, Winner, KillRoom;
  }

  lemma StartKeepsEnd(s: System)
    requires EndInv(s)
    ensures EndInv(s.(m := StartFrom(s.m, 0)))
  {
    hide Undecided, VerdictsAgree, RoomAgrees, StartFrom;
    StartKeepsVerdict(s.m, 0);
    StartAgrees(s.m, 0, s.books.announced);
    StartNoNew(s.m, 0);
    RoomsStillAgree(s, StartFrom(s.m, 0).rooms, s.books.announced);
  }

  lemma AcceptKeepsEnd(c: Config, s: System, canFork: bool)
    requires EndInv(s)
    ensures EndInv(AcceptStep(c, s, canFork))
  {
    hide Undecided, Base, FillingFrom, FreeFrom;
    var s' := AcceptStep(c, s, canFork);
    forall i | 0 <= i < |s.nodes| ensures VerdictsAgree(s'.m.rooms[i].down, s.books.announced) {
      assert VerdictsAgree(s.m.rooms[i].down, s.books.announced);
    }
    forall i | 0 <= i < |s.nodes| ensures RoomAgrees(s'.nodes[i].proc, s'.m.rooms[i].down, s.books.announced) {
      assert RoomAgrees(s.nodes[i].proc, s.m.rooms[i].down, s.books.announced);
    }
  }

  lemma WorkerAgrees(c: Config, n: Node, down: seq<HubMsg>, step: Step, b: Systems.Books)
    requires WorkerCan(c, n, down, step) && VerdictsAgree(down, b.announced) && RoomAgrees(n.proc, down, b.announced)
    ensures var o := WorkerStep(c, n, down, step, b);
            o.books.announced == b.announced &&
              RoomAgrees(o.node.proc, if o.pop && down != [] then down[1..] else down, b.announced)
  {
    if down != [] {
      assert forall k :: 0 <= k < |down| - 1 ==> down[1..][k] == down[k + 1];
    }
    hide ApplyGarbage, FateOf, RoutedSlots, ReportedSlots, OpeningSlots, BoardStep, Ticked, FreshId, Landing;
  }

  lemma PopAgrees(down: seq<HubMsg>, announced: seq<nat>)
    requires down != [] && VerdictsAgree(down, announced)
    ensures VerdictsAgree(down[1..], announced)
  {
    assert forall k :: 0 <= k < |down| - 1 ==> down[1..][k] == down[k + 1];
  }

  lemma WorkerKeepsEnd(c: Config, s: System, step: Step, i: nat)
    requires EndInv(s) && i < |s.nodes| && WorkerCan(c, s.nodes[i], s.m.rooms[i].down, step)
    ensures EndInv(WorkerApply(c, s, step, i))
  {
    hide MasterOk, WorkerStep, WorkerCan, VerdictsAgree, RoomAgrees;
    WorkerAgrees(c, s.nodes[i], s.m.rooms[i].down, step, s.books);
    var s' := WorkerApply(c, s, step, i);
    assert s'.m.players == s.m.players && s'.m.matchEnded == s.m.matchEnded;
    assert MasterOk(s'.m) by { SameMaster(s.m, s'.m); }
    PopsWhatIsThere(c, s.nodes[i], s.m.rooms[i].down, step, s.books);
    forall j | 0 <= j < |s.nodes| ensures VerdictsAgree(s'.m.rooms[j].down, s.books.announced) {
      assert VerdictsAgree(s.m.rooms[j].down, s.books.announced);
      if j == i && s'.m.rooms[i].down != s.m.rooms[i].down {
        PopAgrees(s.m.rooms[i].down, s.books.announced);
      }
    }
  }

  lemma SameMaster(m: Master, m': Master)
    requires MasterOk(m) && m'.players == m.players && m'.matchEnded == m.matchEnded
    ensures MasterOk(m')
  {
  }

  lemma StepKeepsEnd(c: Config, s: System, step: Step)
    requires EndInv(s)
    ensures EndInv(Apply(c, s, step))
  {
    hide EndInv, AcceptStep, StartFrom, MasterRecvStep, MasterCloseStep, WorkerApply, WorkerCan;
    assert |s.m.rooms| == |s.nodes| by { EndSizes(s); }
    if Enabled(c, s, step) {
      match step
      case Accept(canFork) => AcceptKeepsEnd(c, s, canFork);
      case Operator => StartKeepsEnd(s);
      case MasterRecv(i) => RecvKeepsEnd(c, s, i);
      case MasterClose(i) => CloseKeepsEnd(s, i);
      case _ => WorkerKeepsEnd(c, s, step, step.i);
    }
  }

  lemma EndSizes(s: System)
    requires EndInv(s)
    ensures |s.m.rooms| == |s.nodes|
  {
  }

  lemma {:induction false} ReachableEnd(c: Config, steps: seq<Step>)
    ensures EndInv(Run(c, steps))
  {
    hide EndInv, Apply;
    if steps == [] {
      NewSystemEnd(c);
    } else {
      ReachableEnd(c, steps[..|steps| - 1]);
      StepKeepsEnd(c, Run(c, steps[..|steps| - 1]), steps[|steps| - 1]);
    }
  }

  lemma NewSystemEnd(c: Config)
    ensures EndInv(NewSystem(c))
  {
  }

  // ----- What it comes to

  /** In every run: until the match is over nobody has died or two are left, and no channel carries an end-of-match
      message; afterwards each channel carries at most one, none behind a room that has been told already; and every
      room that has been told, and every message still telling one, names the one winner announced. */
  lemma MatchEndSound(c: Config, steps: seq<Step>)
    ensures var s := Run(c, steps);
            && (!s.m.matchEnded ==> Undecided(s.m.players))
            && |s.books.announced| <= 1 && (|s.books.announced| == 1 <==> s.m.matchEnded)
            && (forall i :: 0 <= i < |s.nodes| ==> VerdictsAgree(s.m.rooms[i].down, s.books.announced))
            && (forall i :: 0 <= i < |s.nodes| ==> RoomAgrees(s.nodes[i].proc, s.m.rooms[i].down, s.books.announced))
            && (!s.m.matchEnded ==> forall i :: 0 <= i < |s.nodes| ==> NoVerdict(s.m.rooms[i].down))
  {
    hide Run, Undecided, RoomAgrees;
    ReachableEnd(c, steps);
  }

  /** In every run: a step taken after the end puts no end-of-match message on any channel, so there is
      one broadcast. */
  lemma AnnouncedOnce(c: Config, steps: seq<Step>, next: Step)
    ensures var s := Run(c, steps);
            var s' := Apply(c, s, next);
            s.m.matchEnded ==> s'.m.matchEnded && NoNewVerdict(s.m.rooms, s'.m.rooms)
  {
    hide Run, HandleMsg, CloseRoom, StartFrom, WorkerStep, WorkerCan, NoVerdict, Base, FillingFrom, FreeFrom, Target,
         Garbages;
    var s := Run(c, steps);
    if s.m.matchEnded && Enabled(c, s, next) {
      match next
      case Accept(_) => FreshIsSilent();
      case Operator =>
        StartNoNew(s.m, 0);
        StartKeepsVerdict(s.m, 0);
      case MasterRecv(i) =>
        HandleNoNew(c, s.m, i, s.nodes[i].up[0]);
        VerdictKept(c, s.m, i, s.nodes[i].up[0]);
      case MasterClose(i) =>
        CloseNoNew(s.m, i);
        ClosedKept(s.m, i);
      case _ =>
        PopsWhatIsThere(c, s.nodes[next.i], s.m.rooms[next.i].down, next, s.books);
        PopNoNew(s.m.rooms, next.i);
    }
  }

  lemma FreshIsSilent()
    ensures NoVerdict([])
  {
  }

  lemma PopNoNew(rooms: seq<MRoom>, i: nat)
    requires i < |rooms|
    ensures rooms[i].down != [] ==> NoNewVerdict(rooms, Popped(rooms, i, true))
  {
    if rooms[i].down != [] {
      assert forall k :: 0 <= k < |rooms[i].down| - 1 ==> rooms[i].down[1..][k] == rooms[i].down[k + 1];
    }
  }

  /** How many of a room's players the record shows alive. */
  function AliveInRoom(players: seq<PlayerRec>, slot: nat): nat {
    if players == [] then 0
    else AliveInRoom(players[..|players| - 1], slot) + if players[|players| - 1].alive &&
      players[|players| - 1].room == slot then 1 else 0
  }

  lemma {:induction false} KillRoomCounts(players: seq<PlayerRec>, slot: nat)
    ensures AliveCount(KillRoom(players, slot)) == AliveCount(players) - AliveInRoom(players, slot)
  {
    if players != [] {
      var n := |players| - 1;
      KillRoomCounts(players[..n], slot);
      assert KillRoom(players, slot)[..n] == KillRoom(players[..n], slot);
    }
  }

  /** The step that ends the match: a named winner is the sole survivor on record; no survivor at all needs a lone
      player, or a room closing on at least two. */
  lemma EndingStep(c: Config, steps: seq<Step>, next: Step)
    ensures var s := Run(c, steps);
            var s' := Apply(c, s, next);
            !s.m.matchEnded && s'.m.matchEnded ==>
              && s'.books.announced == [Winner(s'.m.players)]
              && if AliveCount(s'.m.players) == 1 then SoleSurvivor(s'.m.players, Winner(s'.m.players))
                 else Winner(s'.m.players) == 0 && AliveCount(s'.m.players) == 0
                      && (|s.m.players| == 1 || (next.MasterClose? && AliveInRoom(s.m.players, next.i) >= 2))
  {
    hide Run, Apply, SoleSurvivor, AliveInRoom, AliveCount, Winner, NobodyTwice, EndInv;
    ReachableEnd(c, steps);
    ReachableUnique(c, steps);
    var s := Run(c, steps);
    UniqueIsNobodyTwice(c, s);
    if !s.m.matchEnded && Apply(c, s, next).m.matchEnded {
      Deciding(c, s, next);
    }
  }

  lemma UniqueIsNobodyTwice(c: Config, s: System)
    requires UniqueInv(c, s)
    ensures NobodyTwice(s.m.players)
  {
    hide SystemInvariant.Inv;
  }

  /** No two living records share an id. */
  ghost predicate NobodyTwice(players: seq<PlayerRec>) {
    forall j, k :: 0 <= j < k < |players| && players[j].alive && players[k].alive ==> players[j].id != players[k].id
  }

  lemma KillIdCounts(players: seq<PlayerRec>, id: nat)
    requires NobodyTwice(players)
    ensures AliveCount(KillId(players, id)) >= AliveCount(players) - 1
  {
    KillCounts(players, KillId(players, id));
  }

  /** After the verdict the record is decided: at most one is left. */
  lemma VerdictFits(m: Master, r: Master)
    requires Decided(r.players) && r.matchEnded && !m.matchEnded
    ensures AliveCount(r.players) <= 1 && Announce(m, r, []) == [Winner(r.players)]
    ensures AliveCount(r.players) == 1 ==> SoleSurvivor(r.players, Winner(r.players))
    ensures AliveCount(r.players) != 1 ==> Winner(r.players) == 0
  {
    DecidedIff(r.players);
    if AliveCount(r.players) == 1 {
      OneAlive(r.players);
    }
  }

  lemma Deciding(c: Config, s: System, next: Step)
    requires EndInv(s) && NobodyTwice(s.m.players) && !s.m.matchEnded && Apply(c, s, next).m.matchEnded
    ensures var s' := Apply(c, s, next);
            && s'.books.announced == [Winner(s'.m.players)]
            && if AliveCount(s'.m.players) == 1 then SoleSurvivor(s'.m.players, Winner(s'.m.players))
               else Winner(s'.m.players) == 0 && AliveCount(s'.m.players) == 0
                    && (|s.m.players| == 1 || (next.MasterClose? && AliveInRoom(s.m.players, next.i) >= 2))
  {
    hide AliveCount, Winner, SoleSurvivor, AliveInRoom, NobodyTwice, StartFrom, HandleMsg, CloseRoom, WorkerStep,
         WorkerCan, DealInto, Target, Garbages, Undecided, VerdictsAgree, RoomAgrees, FillingFrom, FreeFrom, Base;
    StartKeepsVerdict(s.m, 0);
    if next.MasterRecv? && Enabled(c, s, next) {
      DecidingMsg(c, s.m, next.i, s.nodes[next.i].up[0]);
    } else if next.MasterClose? && Enabled(c, s, next) {
      DecidingClose(s.m, next.i);
    } else if next.Accept? {
      AcceptKeepsVerdict(c, s, next.canFork);
      assert false;
    }
  }

  lemma AcceptKeepsVerdict(c: Config, s: System, canFork: bool)
    requires |s.m.rooms| == |s.nodes|
    ensures AcceptStep(c, s, canFork).m.matchEnded == s.m.matchEnded
  {
  }

  lemma DecidingMsg(c: Config, m: Master, slot: nat, msg: HubMsg)
    requires slot < |m.rooms| && MasterOk(m) && NobodyTwice(m.players) && !m.matchEnded
    requires HandleMsg(c, m, slot, msg).matchEnded
    ensures var r := HandleMsg(c, m, slot, msg);
            && Announce(m, r, []) == [Winner(r.players)]
            && if AliveCount(r.players) == 1 then SoleSurvivor(r.players, Winner(r.players))
               else Winner(r.players) == 0 && AliveCount(r.players) == 0 && |m.players| == 1
  {
    hide AliveCount, Winner, SoleSurvivor, NobodyTwice, StartFrom, Target, Post, View, Decided, AllAlive;
    var r := HandleMsg(c, m, slot, msg);
    if msg.Joined? {
      var room := m.rooms[slot];
      StartKeepsVerdict(BroadcastRoster(m.(players := AddPlayer(c, m.players, msg.id, slot),
        rooms := m.rooms[slot := room.(joined := room.joined + 1)])), 0);
    }
    assert msg.Eliminated? && r.players == KillId(m.players, msg.id) && Decided(r.players);
    VerdictFits(m, r);
    KillIdCounts(m.players, msg.id);
    if AllAlive(m.players) {
      EveryoneCounts(m.players);
      DecidedNonempty(r.players);
    }
  }

  lemma DecidedNonempty(players: seq<PlayerRec>)
    requires Decided(players)
    ensures |players| >= 1
  {
  }

  lemma DecidingClose(m: Master, slot: nat)
    requires slot < |m.rooms| && MasterOk(m) && !m.matchEnded && CloseRoom(m, slot).matchEnded
    ensures var r := CloseRoom(m, slot);
            && Announce(m, r, []) == [Winner(r.players)]
            && if AliveCount(r.players) == 1 then SoleSurvivor(r.players, Winner(r.players))
               else && Winner(r.players) == 0 && AliveCount(r.players) == 0
                    && (|m.players| == 1 || AliveInRoom(m.players, slot) >= 2)
  {
    hide AliveCount, Winner, SoleSurvivor, AliveInRoom, Post, View, Decided, AllAlive;
    var r := CloseRoom(m, slot);
    assert r.players == KillRoom(m.players, slot) && Decided(r.players);
    VerdictFits(m, r);
    KillRoomCounts(m.players, slot);
    if AllAlive(m.players) {
      EveryoneCounts(m.players);
      DecidedNonempty(r.players);
    }
  }
}
