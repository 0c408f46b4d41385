/** Every step of the master keeps the invariant of the whole server. */
module MasterInvariant {
  import opened Hub
  import opened Masters
  import opened Rooms
  import opened Systems
  import opened SystemInvariant
  import opened WorkerInvariant

  /** The system with another master. */
  function With(s: System, m: Master): System {
    s.(m := m)
  }

  // ----- Small changes

  lemma PostInv(c: Config, s: System, a: Audience, msg: HubMsg)
    requires Inv(c, s) && (msg.Roster? ==> msg.roster == View(s.m.players))
    requires a.Only? ==> a.slot < |s.m.rooms| && s.m.rooms[a.slot].used
    ensures Inv(c, With(s, s.m.(rooms := Post(s.m.rooms, a, msg))))
  {
    hide LiveOk, View, Base, InBlock;
    var s' := With(s, s.m.(rooms := Post(s.m.rooms, a, msg)));
    forall i | 0 <= i < |s.nodes| ensures NodeOk(c, s'.m, s'.nodes[i], i) {
      assert NodeOk(c, s.m, s.nodes[i], i);
      if Hears(a, i, s.m.rooms[i]) {
        PostKeeps(c, s.m.players, s.m.rooms[i].down, s.nodes[i], i, msg);
      }
    }
    SameHousing(c, s, s'.m);
  }

  /** Who lives where depends only on which slots are used, on the ids handed out, and on whether the match is over. */
  lemma SameHousing(c: Config, s: System, m: Master)
    requires Inv(c, s) && |m.rooms| == |s.m.rooms| && m.roomSeq == s.m.roomSeq && (m.matchEnded || !s.m.matchEnded)
    requires forall i :: 0 <= i < |m.rooms| ==> m.rooms[i].used == s.m.rooms[i].used
    ensures BlocksApart(c, With(s, m)) && forall j :: 0 <= j < |s.m.players| ==> Housed(c, With(s, m), s.m.players[j])
  {
    hide NodeOk, Base, InBlock;
    var s' := With(s, m);
    forall j | 0 <= j < |s.m.players| ensures Housed(c, s', s.m.players[j]) {
      assert Housed(c, s, s.m.players[j]);
    }
    forall i, j | 0 <= i < |s.nodes| && 0 <= j < |s.nodes| && i != j && m.rooms[i].used && m.rooms[j].used
      ensures s.nodes[i].base + c.lobby <= s.nodes[j].base || s.nodes[j].base + c.lobby <= s.nodes[i].base
    {
      assert s.m.rooms[i].used && s.m.rooms[j].used;
    }
  }

  lemma FlagsInv(c: Config, s: System, slot: nat, room: MRoom)
    requires Inv(c, s) && slot < |s.m.rooms| && room.used == s.m.rooms[slot].used && room.down == s.m.rooms[slot].down
    ensures Inv(c, With(s, s.m.(rooms := s.m.rooms[slot := room])))
  {
    hide LiveOk, Base;
    var s' := With(s, s.m.(rooms := s.m.rooms[slot := room]));
    forall i | 0 <= i < |s.nodes| ensures NodeOk(c, s'.m, s'.nodes[i], i) {
      assert NodeOk(c, s.m, s.nodes[i], i);
    }
    SameHousing(c, s, s'.m);
  }

  lemma StatusInv(c: Config, s: System, anyStarted: bool, matchEnded: bool)
    requires Inv(c, s) && (matchEnded || !s.m.matchEnded)
    ensures Inv(c, With(s, s.m.(anyStarted := anyStarted, matchEnded := matchEnded)))
  {
    hide LiveOk, Base;
    var s' := With(s, s.m.(anyStarted := anyStarted, matchEnded := matchEnded));
    forall i | 0 <= i < |s.nodes| ensures NodeOk(c, s'.m, s'.nodes[i], i) {
      assert NodeOk(c, s.m, s.nodes[i], i);
    }
    SameHousing(c, s, s'.m);
  }

  lemma AddInv(c: Config, s: System, slot: nat, id: nat)
    requires Inv(c, s) && slot < |s.nodes| && s.m.rooms[slot].used && Joined(id) in s.nodes[slot].up
    ensures Inv(c, With(s, s.m.(players := s.m.players + [PlayerRec(id, slot, true)])))
  {
    hide LiveOk, Base;
    var r := PlayerRec(id, slot, true);
    var s' := With(s, s.m.(players := s.m.players + [r]));
    JoinedInBlock(c, s, slot, id);
    forall i | 0 <= i < |s.nodes| ensures NodeOk(c, s'.m, s'.nodes[i], i) {
      assert NodeOk(c, s.m, s.nodes[i], i);
      if s.m.rooms[i].used {
        OnlyOneBlock(c, s, slot, i, id);
        AddKeeps(c, s.m.players, s.m.rooms[i].down, s.nodes[i], i, r);
      }
    }
    forall j | 0 <= j < |s'.m.players| ensures Housed(c, s', s'.m.players[j]) {
      if j < |s.m.players| {
        assert Housed(c, s, s.m.players[j]);
      }
    }
  }

  lemma JoinedInBlock(c: Config, s: System, slot: nat, id: nat)
    requires Inv(c, s) && slot < |s.nodes| && s.m.rooms[slot].used
    requires (Joined(id) in s.nodes[slot].up || Eliminated(id) in s.nodes[slot].up)
    ensures InBlock(c, s.nodes[slot].base, id) && 1 <= id < Base(c, s.m.roomSeq)
  {
    hide Base, BlocksApart, RecsOk, ReportsOk, HomeOk, ViewsOk, ProcOk;
    var n := s.nodes[slot];
    assert NodeOk(c, s.m, n, slot);
    var k :| 0 <= k < |n.up| && (n.up[k] == Joined(id) || n.up[k] == Eliminated(id));
    assert UpMsgOk(c, n.base, n.proc, n.up[k]);
  }

  lemma OnlyOneBlock(c: Config, s: System, i: nat, j: nat, id: nat)
    requires Inv(c, s) && i < |s.nodes| && j < |s.nodes| && s.m.rooms[i].used && s.m.rooms[j].used
    requires InBlock(c, s.nodes[i].base, id)
    ensures InBlock(c, s.nodes[j].base, id) ==> i == j
  {
    hide NodeOk, Housed;
  }

  lemma CullInv(c: Config, s: System, players: seq<PlayerRec>, slot: nat, id: nat)
    requires Inv(c, s) && slot < |s.nodes| && s.m.rooms[slot].used && Eliminated(id) in s.nodes[slot].up
    requires players == KillId(s.m.players, id)
    ensures Inv(c, With(s, s.m.(players := players)))
  {
    hide LiveOk, Base;
    var s' := With(s, s.m.(players := players));
    assert Culled(s.m.players, players);
    JoinedInBlock(c, s, slot, id);
    forall i | 0 <= i < |s.nodes| ensures NodeOk(c, s'.m, s'.nodes[i], i) {
      assert NodeOk(c, s.m, s.nodes[i], i);
      if s.m.rooms[i].used {
        OnlyOneBlock(c, s, slot, i, id);
        if i == slot {
          DeadForReal(c, s, slot, id);
        }
        CullKeeps(c, s.m.players, players, s.m.rooms[i].down, s.nodes[i], i);
      }
    }
    forall j | 0 <= j < |players| ensures Housed(c, s', players[j]) {
      assert Housed(c, s, s.m.players[j]);
    }
  }

  lemma DeadForReal(c: Config, s: System, slot: nat, id: nat)
    requires Inv(c, s) && slot < |s.nodes| && s.m.rooms[slot].used && Eliminated(id) in s.nodes[slot].up
    ensures s.nodes[slot].proc.Gone? || OverIn(s.nodes[slot].proc, id)
  {
    hide Base, BlocksApart, RecsOk, ReportsOk, HomeOk, ViewsOk, ProcOk, OverIn;
    var n := s.nodes[slot];
    assert NodeOk(c, s.m, n, slot);
    var k :| 0 <= k < |n.up| && n.up[k] == Eliminated(id);
    assert UpMsgOk(c, n.base, n.proc, n.up[k]);
  }

  // ----- Broadcasts, starts and the end

  lemma BroadcastInv(c: Config, s: System)
    requires Inv(c, s)
    ensures Inv(c, With(s, BroadcastRoster(s.m)))
  {
    hide Inv;
    InvSizes(c, s);
    PostInv(c, s, Started, Roster(View(s.m.players)));
  }

  lemma InvSizes(c: Config, s: System)
    requires Inv(c, s)
    ensures |s.m.rooms| == |s.nodes| == c.rooms
  {
  }

  lemma StartRoomInv(c: Config, s: System, slot: nat)
    requires Inv(c, s) && slot < |s.m.rooms|
    ensures Inv(c, With(s, StartRoom(s.m, slot)))
  {
    hide Inv, Post;
    InvSizes(c, s);
    var room := s.m.rooms[slot];
    if room.used && !room.started && room.joined >= 1 {
      PostInv(c, s, Only(slot), Start(room.redirected));
      var s1 := With(s, s.m.(rooms := Post(s.m.rooms, Only(slot), Start(room.redirected))));
      FlagsInv(c, s1, slot, s1.m.rooms[slot].(started := true));
      var s2 := With(s1, s1.m.(rooms := s1.m.rooms[slot := s1.m.rooms[slot].(started := true)]));
      StatusInv(c, s2, true, s2.m.matchEnded);
      BroadcastInv(c, With(s2, s2.m.(anyStarted := true, matchEnded := s2.m.matchEnded)));
    }
  }

  lemma {:induction false} StartFromInv(c: Config, s: System, slot: nat)
    requires Inv(c, s) && slot <= |s.m.rooms|
    ensures Inv(c, With(s, StartFrom(s.m, slot)))
    decreases |s.m.rooms| - slot
  {
    hide Inv, StartRoom;
    if slot < |s.m.rooms| {
      StartRoomInv(c, s, slot);
      StartFromInv(c, With(s, StartRoom(s.m, slot)), slot + 1);
    }
  }

  lemma CheckEndInv(c: Config, s: System)
    requires Inv(c, s)
    ensures Inv(c, With(s, CheckGlobalEnd(s.m)))
  {
    hide Inv, Post, Decided, Winner;
    InvSizes(c, s);
    if !s.m.matchEnded && Decided(s.m.players) {
      StatusInv(c, s, s.m.anyStarted, true);
      PostInv(c, With(s, s.m.(matchEnded := true)), Used, GameOver(Winner(s.m.players)));
    }
  }

  // ----- Messages

  lemma HandleJoinedInv(c: Config, s: System, slot: nat, id: nat)
    requires Inv(c, s) && slot < |s.nodes| && |s.m.rooms| == |s.nodes| && s.m.rooms[slot].used
    requires Joined(id) in s.nodes[slot].up
    ensures Inv(c, With(s, HandleJoined(c, s.m, slot, id)))
  {
    hide Inv, BroadcastRoster, StartFrom;
    var room := s.m.rooms[slot];
    var s1 := With(s, s.m.(players := AddPlayer(c, s.m.players, id, slot)));
    if |s.m.players| < c.maxPlayers {
      AddInv(c, s, slot, id);
    }
    FlagsInv(c, s1, slot, room.(joined := room.joined + 1));
    var s2 := With(s1, s1.m.(rooms := s1.m.rooms[slot := room.(joined := room.joined + 1)]));
    BroadcastInv(c, s2);
    var s3 := With(s2, BroadcastRoster(s2.m));
    StartFromInv(c, s3, 0);
  }

  lemma HandleEliminatedInv(c: Config, s: System, slot: nat, id: nat)
    requires Inv(c, s) && slot < |s.nodes| && |s.m.rooms| == |s.nodes| && s.m.rooms[slot].used
    requires Eliminated(id) in s.nodes[slot].up
    ensures Inv(c, With(s, HandleEliminated(s.m, id)))
  {
    hide Inv, BroadcastRoster, CheckGlobalEnd;
    CullInv(c, s, KillId(s.m.players, id), slot, id);
    var s1 := With(s, s.m.(players := KillId(s.m.players, id)));
    BroadcastInv(c, s1);
    CheckEndInv(c, With(s1, BroadcastRoster(s1.m)));
  }

  lemma HandleMsgInv(c: Config, s: System, slot: nat)
    requires Inv(c, s) && slot < |s.nodes| && |s.m.rooms| == |s.nodes| && s.m.rooms[slot].used && s.nodes[slot].up != []
    ensures Inv(c, With(s, HandleMsg(c, s.m, slot, s.nodes[slot].up[0])))
  {
    hide Inv, HandleJoined, HandleEliminated, Post, Target;
    var msg := s.nodes[slot].up[0];
    match msg
    case Ready => FlagsInv(c, s, slot, s.m.rooms[slot].(ready := true, pending := 0));
    case Joined(id) => HandleJoinedInv(c, s, slot, id);
    case Eliminated(id) => HandleEliminatedInv(c, s, slot, id);
    case Attack(attack) =>
      if Target(s.m, attack.victim) != -1 {
        PostInv(c, s, Only(Target(s.m, attack.victim)), Garbage(attack));
      }
    case Feed(attack) => PostInv(c, s, StartedExcept(slot), Feed(attack));
    case _ =>
  }

  /** A death the master has just handled is on its record. */
  lemma HandledIsDead(c: Config, m: Master, slot: nat, msg: HubMsg)
    requires slot < |m.rooms| && msg.Eliminated?
    ensures var players := HandleMsg(c, m, slot, msg).players;
            players == KillId(m.players, msg.id) && forall j :: 0 <= j < |players| && players[j].id == msg.id ==>
              !players[j].alive
  {
    hide Post, Decided;
  }

  lemma HandleKeepsUsed(c: Config, m: Master, slot: nat, msg: HubMsg)
    requires slot < |m.rooms|
    ensures var r := HandleMsg(c, m, slot, msg);
            |r.rooms| == |m.rooms| && r.roomSeq == m.roomSeq && (m.matchEnded ==> r.matchEnded)
            && forall i :: 0 <= i < |m.rooms| ==> r.rooms[i].used == m.rooms[i].used
  {
    hide View, Decided, Winner, Target, StartFrom;
    if msg.Joined? {
      hide BroadcastRoster;
      var room := m.rooms[slot];
      var told := BroadcastRoster(m.(players := AddPlayer(c, m.players, msg.id, slot),
        rooms := m.rooms[slot := room.(joined := room.joined + 1)]));
      BroadcastKeepsUsed(m.(players := AddPlayer(c, m.players, msg.id, slot),
        rooms := m.rooms[slot := room.(joined := room.joined + 1)]));
      StartKeepsUsed(told, 0);
    }
  }

  lemma BroadcastKeepsUsed(m: Master)
    ensures var r := BroadcastRoster(m);
            r.roomSeq == m.roomSeq && r.matchEnded == m.matchEnded
            && forall i :: 0 <= i < |m.rooms| ==> r.rooms[i].used == m.rooms[i].used
  {
  }

  lemma {:induction false} StartKeepsUsed(m: Master, slot: nat)
    requires slot <= |m.rooms|
    ensures var r := StartFrom(m, slot);
            r.roomSeq == m.roomSeq && r.matchEnded == m.matchEnded
            && forall i :: 0 <= i < |m.rooms| ==> r.rooms[i].used == m.rooms[i].used
    decreases |m.rooms| - slot
  {
    hide View;
    if slot < |m.rooms| {
      StartKeepsUsed(StartRoom(m, slot), slot + 1);
    }
  }

  lemma PopInv(c: Config, s: System, i: nat)
    requires Inv(c, s) && i < |s.nodes| && |s.m.rooms| == |s.nodes| && s.m.rooms[i].used && s.nodes[i].up != []
    requires s.nodes[i].up[0].Eliminated? ==>
               forall j :: 0 <= j < |s.m.players| && s.m.players[j].id == s.nodes[i].up[0].id ==> !s.m.players[j].alive
    ensures Inv(c, s.(nodes := s.nodes[i := s.nodes[i].(up := s.nodes[i].up[1..])]))
  {
    hide LiveOk, Base;
    var s' := s.(nodes := s.nodes[i := s.nodes[i].(up := s.nodes[i].up[1..])]);
    assert NodeOk(c, s.m, s.nodes[i], i);
    PopUpKeeps(c, s.m.players, s.m.rooms[i].down, s.nodes[i], i);
    NodeChange(c, s, i, s'.nodes[i], s.books);
  }

  /** Replacing one worker by another with the same block. */
  lemma NodeChange(c: Config, s: System, i: nat, n: Node, b: Systems.Books)
    requires Inv(c, s) && i < |s.nodes| && |s.m.rooms| == |s.nodes| && n.base == s.nodes[i].base && NodeOk(c, s.m, n, i)
    ensures Inv(c, s.(nodes := s.nodes[i := n], books := b))
  {
    hide NodeOk, Base, InBlock;
    var s' := s.(nodes := s.nodes[i := n], books := b);
    forall j | 0 <= j < |s.m.players| ensures Housed(c, s', s.m.players[j]) {
      assert Housed(c, s, s.m.players[j]);
    }
  }

  lemma MasterRecvInv(c: Config, s: System, i: nat)
    requires Inv(c, s) && i < |s.nodes| && |s.m.rooms| == |s.nodes| && s.m.rooms[i].used && s.nodes[i].up != []
    ensures Inv(c, MasterRecvStep(c, s, i))
  {
    hide Inv, HandleMsg, Target;
    var msg := s.nodes[i].up[0];
    var s1 := With(s, HandleMsg(c, s.m, i, msg));
    HandleMsgInv(c, s, i);
    HandleKeepsUsed(c, s.m, i, msg);
    if msg.Eliminated? {
      HandledIsDead(c, s.m, i, msg);
    }
    PopInv(c, s1, i);
    BooksIrrelevant(c, s1.(nodes := s1.nodes[i := s1.nodes[i].(up := s1.nodes[i].up[1..])]),
      MasterRecvStep(c, s, i).books);
  }

  lemma BooksIrrelevant(c: Config, s: System, b: Systems.Books)
    requires Inv(c, s)
    ensures Inv(c, s.(books := b))
  {
    hide NodeOk, Base, InBlock;
    var s' := s.(books := b);
    forall j | 0 <= j < |s.m.players| ensures Housed(c, s', s.m.players[j]) {
      assert Housed(c, s, s.m.players[j]);
    }
  }

  // ----- Closing and spawning

  /** The slot is empty now and whoever was recorded there is dead, or the match is over anyway. */
  lemma VacateInv(c: Config, s: System, slot: nat, players: seq<PlayerRec>)
    requires Inv(c, s) && slot < |s.nodes| && |s.m.rooms| == |s.nodes| && s.nodes[slot].proc.Gone?
    requires s.nodes[slot].up == []
    requires if s.m.matchEnded then players == s.m.players else players == KillRoom(s.m.players, slot)
    ensures Inv(c, With(s,
      s.m.(rooms := s.m.rooms[slot := s.m.rooms[slot].(used := false, down := [])], players := players)))
  {
    hide LiveOk, Base;
    var s' := With(s, s.m.(rooms := s.m.rooms[slot := s.m.rooms[slot].(used := false, down := [])],
      players := players));
    assert Culled(s.m.players, players);
    forall i | 0 <= i < |s.nodes| ensures NodeOk(c, s'.m, s'.nodes[i], i) {
      assert NodeOk(c, s.m, s.nodes[i], i);
      if i != slot && s.m.rooms[i].used {
        OthersUntouched(c, s, slot, i);
        CullKeeps(c, s.m.players, players, s.m.rooms[i].down, s.nodes[i], i);
      }
    }
    forall j | 0 <= j < |players| ensures Housed(c, s', players[j]) {
      assert Housed(c, s, s.m.players[j]);
    }
  }

  lemma OthersUntouched(c: Config, s: System, slot: nat, i: nat)
    requires Inv(c, s) && i < |s.nodes| && |s.m.rooms| == |s.nodes| && i != slot && s.m.rooms[i].used
    ensures forall j :: 0 <= j < |s.m.players| && InBlock(c, s.nodes[i].base, s.m.players[j].id) ==>
      s.m.players[j].room != slot
  {
    hide Base, InBlock, ProcOk, UpOk, ReportsOk, HomeOk, ViewsOk;
    assert NodeOk(c, s.m, s.nodes[i], i);
    forall j | 0 <= j < |s.m.players| &&
      InBlock(c, s.nodes[i].base, s.m.players[j].id) ensures s.m.players[j].room != slot {
      assert RecOk(c, s.nodes[i].base, i, s.nodes[i].proc, s.m.players[j]);
    }
  }

  lemma MasterCloseInv(c: Config, s: System, i: nat)
    requires Inv(c, s) && i < |s.nodes| && |s.m.rooms| == |s.nodes| && s.nodes[i].proc.Gone? && s.nodes[i].up == []
    ensures Inv(c, MasterCloseStep(s, i))
  {
    hide Inv, BroadcastRoster, CheckGlobalEnd, KillRoom;
    var players := if s.m.matchEnded then s.m.players else KillRoom(s.m.players, i);
    VacateInv(c, s, i, players);
    var s1 := With(s, s.m.(rooms := s.m.rooms[i := s.m.rooms[i].(used := false, down := [])], players := players));
    if players != s.m.players {
      BroadcastInv(c, s1);
      CheckEndInv(c, With(s1, BroadcastRoster(s1.m)));
    }
    BooksIrrelevant(c, With(s, CloseRoom(s.m, i)), MasterCloseStep(s, i).books);
  }

  lemma BaseNext(c: Config, n: nat)
    ensures Base(c, n + 1) == Base(c, n) + c.lobby && Base(c, n) >= 1
  {
    assert (n + 1) * c.lobby == n * c.lobby + c.lobby;
  }

  lemma FreshNodeOk(c: Config, m: Master, slot: nat)
    requires slot < |m.rooms| && forall j :: 0 <= j < |m.players| ==> m.players[j].id < Base(c, m.roomSeq)
    ensures LiveOk(c, m.players, [], Node(Base(c, m.roomSeq), Lobby(false, [], false, []), []), slot)
  {
    hide Base;
  }

  lemma SpawnInv(c: Config, s: System, slot: nat)
    requires Inv(c, s) && slot < |s.nodes| && |s.m.rooms| == |s.nodes| && !s.m.rooms[slot].used
    ensures Inv(c, s.(m := SpawnRoom(s.m, slot),
      nodes := s.nodes[slot := Node(Base(c, s.m.roomSeq), Lobby(false, [], false, []), [])]))
  {
    hide LiveOk, Base;
    BaseNext(c, s.m.roomSeq);
    var s' := s.(m := SpawnRoom(s.m, slot),
      nodes := s.nodes[slot := Node(Base(c, s.m.roomSeq), Lobby(false, [], false, []), [])]);
    forall j | 0 <= j < |s.m.players| ensures Housed(c, s', s.m.players[j]) &&
      s.m.players[j].id < Base(c, s.m.roomSeq) {
      assert Housed(c, s, s.m.players[j]);
    }
    FreshNodeOk(c, s.m, slot);
    forall i | 0 <= i < |s.nodes| ensures NodeOk(c, s'.m, s'.nodes[i], i) {
      assert NodeOk(c, s.m, s.nodes[i], i);
    }
    forall i, j | 0 <= i < |s.nodes| && 0 <= j < |s.nodes| && i != j && s'.m.rooms[i].used && s'.m.rooms[j].used
      ensures s'.nodes[i].base + c.lobby <= s'.nodes[j].base || s'.nodes[j].base + c.lobby <= s'.nodes[i].base
    {
      assert NodeOk(c, s.m, s.nodes[i], i) && NodeOk(c, s.m, s.nodes[j], j);
    }
  }

  lemma DealInv(c: Config, s: System, slot: nat)
    requires Inv(c, s) && slot < |s.m.rooms|
    ensures Inv(c, With(s, DealInto(c, s.m, slot)))
  {
    hide Inv;
    var room := s.m.rooms[slot];
    FlagsInv(c, s, slot, room.(redirected := room.redirected + 1));
    FlagsInv(c, s, slot, room.(pending := room.pending + 1, redirected := room.redirected + 1));
  }

  lemma AcceptInv(c: Config, s: System, canFork: bool)
    requires Inv(c, s) && |s.m.rooms| == |s.nodes|
    ensures Inv(c, AcceptStep(c, s, canFork))
  {
    hide Inv, DealInto, FillingFrom, FreeFrom, SpawnRoom, Base;
    var filling := FillingFrom(c, s.m.rooms, 0);
    if filling != -1 {
      DealInv(c, s, filling);
    } else {
      var free := FreeFrom(s.m.rooms, 0);
      if free != -1 {
        SpawnInv(c, s, free);
        var s1 := s.(m := SpawnRoom(s.m, free),
          nodes := s.nodes[free := Node(Base(c, s.m.roomSeq), Lobby(false, [], false, []), [])]);
        DealInv(c, s1, free);
      }
    }
  }

  // ----- Every step, every run

  lemma WorkerInv(c: Config, s: System, step: Step, i: nat)
    requires Inv(c, s) && |s.m.rooms| == |s.nodes| && i < |s.nodes| && s.m.rooms[i].used
    requires WorkerCan(c, s.nodes[i], s.m.rooms[i].down, step)
    ensures Inv(c, WorkerApply(c, s, step, i))
  {
    hide LiveOk, Base, WorkerStep, WorkerCan;
    var down := s.m.rooms[i].down;
    var o := WorkerStep(c, s.nodes[i], down, step, s.books);
    assert NodeOk(c, s.m, s.nodes[i], i);
    WorkerStepKeeps(c, s.m.players, down, s.nodes[i], i, step, s.books);
    var s' := WorkerApply(c, s, step, i);
    forall j | 0 <= j < |s.nodes| ensures NodeOk(c, s'.m, s'.nodes[j], j) {
      assert NodeOk(c, s.m, s.nodes[j], j);
    }
    SameBlocks(c, s, s');
  }

  lemma SameBlocks(c: Config, s: System, s': System)
    requires Inv(c, s) && |s'.nodes| == |s.nodes| && |s'.m.rooms| == |s.m.rooms| && s'.m.players == s.m.players
    requires s'.m.roomSeq == s.m.roomSeq && s'.m.matchEnded == s.m.matchEnded
    requires forall i :: 0 <= i < |s.nodes| ==>
      s'.nodes[i].base == s.nodes[i].base && s'.m.rooms[i].used == s.m.rooms[i].used
    ensures BlocksApart(c, s') && forall j :: 0 <= j < |s.m.players| ==> Housed(c, s', s.m.players[j])
  {
    hide NodeOk, Base, InBlock;
    forall j | 0 <= j < |s.m.players| ensures Housed(c, s', s.m.players[j]) {
      assert Housed(c, s, s.m.players[j]);
    }
    forall i, j | 0 <= i < |s.nodes| && 0 <= j < |s.nodes| && i != j && s'.m.rooms[i].used && s'.m.rooms[j].used
      ensures s'.nodes[i].base + c.lobby <= s'.nodes[j].base || s'.nodes[j].base + c.lobby <= s'.nodes[i].base
    {
      assert s.m.rooms[i].used && s.m.rooms[j].used;
    }
  }

  lemma StepInv(c: Config, s: System, step: Step)
    requires Inv(c, s) && |s.m.rooms| == |s.nodes|
    ensures Inv(c, Apply(c, s, step))
  {
    hide Inv, AcceptStep, StartFrom, MasterRecvStep, MasterCloseStep, WorkerApply, WorkerCan;
    if Enabled(c, s, step) {
      match step
      case Accept(canFork) => AcceptInv(c, s, canFork);
      case Operator => StartFromInv(c, s, 0);
      case MasterRecv(i) => MasterRecvInv(c, s, i);
      case MasterClose(i) => MasterCloseInv(c, s, i);
      case _ => WorkerInv(c, s, step, step.i);
    }
  }

  /** Every reachable state of the server satisfies the invariant. */
  lemma {:induction false} ReachableInv(c: Config, steps: seq<Step>)
    ensures Inv(c, Run(c, steps))
  {
    hide Inv, Apply, NewSystem;
    if steps == [] {
      NewSystemInv(c);
    } else {
      ReachableInv(c, steps[..|steps| - 1]);
      StepInv(c, Run(c, steps[..|steps| - 1]), steps[|steps| - 1]);
    }
  }
}
