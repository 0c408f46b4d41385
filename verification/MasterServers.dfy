/** The master as it runs: room slots in an array, the player record updated in place, broadcasts as
    loops over slots. */
module MasterServers {
  import opened Hub
  import opened Masters

  class MasterServer {
    const config: Config
    const rooms: array<MRoom>
    var players: seq<PlayerRec>
    var roomSeq: nat
    var anyStarted: bool
    var matchEnded: bool

    /** The value this object stands for. */
    ghost function Abs(): (m: Master)
      reads this, rooms
      ensures |m.rooms| == rooms.Length && m.players == players && m.matchEnded == matchEnded
    {
      Master(rooms[..], players, roomSeq, anyStarted, matchEnded)
    }

    constructor (c: Config)
      ensures config == c && fresh(rooms) && Abs() == NewMaster(c)
    {
      config := c;
      rooms := new MRoom[c.rooms](_ => FREE_ROOM);
      players, roomSeq, anyStarted, matchEnded := [], 0, false, false;
      new;
      assert rooms[..] == NewMaster(c).rooms;
    }

    // ----- Sending

    /** Sends one message to every slot of the audience, slot by slot. */
    method Send(a: Audience, msg: HubMsg)
      modifies rooms
      ensures Abs() == old(Abs()).(rooms := Post(old(Abs()).rooms, a, msg))
    {
      for i := 0 to rooms.Length
        invariant forall j :: 0 <= j < i ==> rooms[j] == Post(old(rooms[..]), a, msg)[j]
        invariant forall j :: i <= j < rooms.Length ==> rooms[j] == old(rooms[j])
      {
        if Hears(a, i, rooms[i]) {
          rooms[i] := rooms[i].(down := rooms[i].down + [msg]);
        }
      }
      assert rooms[..] == Post(old(rooms[..]), a, msg);
    }

    method BroadcastRoster()
      modifies rooms
      ensures Abs() == Masters.BroadcastRoster(old(Abs()))
    {
      hide Post;
      var view: HubRoster := [];
      for i := 0 to |players|
        invariant |view| == i && forall j :: 0 <= j < i ==> view[j] == PlayerView(players[j].id, players[j].alive)
      {
        view := view + [PlayerView(players[i].id, players[i].alive)];
      }
      assert view == View(players);
      Send(Started, Roster(view));
    }

    method SetRoom(slot: nat, room: MRoom)
      requires slot < rooms.Length
      modifies rooms
      ensures Abs() == old(Abs()).(rooms := old(Abs()).rooms[slot := room])
    {
      rooms[slot] := room;
    }

    // ----- Starting

    method MarkStarted(slot: nat)
      requires slot < rooms.Length
      modifies this`anyStarted, rooms
      ensures var m := old(Abs());
        Abs() == m.(rooms := m.rooms[slot := m.rooms[slot].(started := true)], anyStarted := true)
    {
      rooms[slot] := rooms[slot].(started := true);
      anyStarted := true;
    }

    method StartRoom(slot: nat)
      requires slot < rooms.Length
      modifies this`anyStarted, rooms
      ensures Abs() == Masters.StartRoom(old(Abs()), slot)
    {
      var room := rooms[slot];
      assert room == old(Abs()).rooms[slot];
      hide Abs, Post, Masters.BroadcastRoster;
      if !room.used || room.started || room.joined < 1 {
        return;
      }
      Send(Only(slot), Start(room.redirected));
      MarkStarted(slot);
      BroadcastRoster();
    }

    method StartAllRooms()
      modifies this`anyStarted, rooms
      ensures Abs() == StartFrom(old(Abs()), 0)
    {
      hide Abs, Masters.StartRoom;
      for i := 0 to rooms.Length
        invariant |Abs().rooms| == rooms.Length && StartFrom(Abs(), i) == StartFrom(old(Abs()), 0)
      {
        StartRoom(i);
      }
    }

    // ----- Ending

    /** Counts the living and remembers the last one. */
    method CountAlive() returns (alive: nat, last: nat)
      ensures alive == AliveCount(players) && last == LastAlive(players)
    {
      alive, last := 0, 0;
      for i := 0 to |players|
        invariant alive == AliveCount(players[..i]) && last == LastAlive(players[..i])
      {
        assert players[..i + 1][..i] == players[..i];
        if players[i].alive {
          alive := alive + 1;
          last := players[i].id;
        }
      }
      assert players[..|players|] == players;
    }

    method EndMatch()
      modifies this`matchEnded
      ensures Abs() == old(Abs()).(matchEnded := true)
    {
      matchEnded := true;
    }

    method CheckGlobalEnd()
      modifies this`matchEnded, rooms
      ensures Abs() == Masters.CheckGlobalEnd(old(Abs()))
    {
      hide Abs, Post, AliveCount, LastAlive;
      if matchEnded || |players| == 0 {
        return;
      }
      var alive, last := CountAlive();
      var over := if |players| >= 2 then alive <= 1 else alive == 0;
      if !over {
        return;
      }
      EndMatch();
      var winner := if alive == 1 then last else 0;
      Send(Used, GameOver(winner));
    }

    method KillById(id: nat)
      modifies this`players
      ensures Abs() == old(Abs()).(players := KillId(old(Abs()).players, id))
    {
      var i := 0;
      while i < |players|
        invariant 0 <= i <= |players| == |old(players)|
        invariant forall j :: 0 <= j < i ==> players[j] == KillId(old(players), id)[j]
        invariant forall j :: i <= j < |players| ==> players[j] == old(players)[j]
      {
        if players[i].id == id {
          players := players[i := players[i].(alive := false)];
        }
        i := i + 1;
      }
      assert players == KillId(old(players), id);
    }

    method KillBySlot(slot: nat) returns (changed: bool)
      modifies this`players
      ensures Abs() == old(Abs()).(players := KillRoom(old(Abs()).players, slot))
      ensures changed <==> KillRoom(old(Abs()).players, slot) != old(Abs()).players
    {
      changed := false;
      var i := 0;
      while i < |players|
        invariant 0 <= i <= |players| == |old(players)|
        invariant forall j :: 0 <= j < i ==> players[j] == KillRoom(old(players), slot)[j]
        invariant forall j :: i <= j < |players| ==> players[j] == old(players)[j]
        invariant changed <==> exists j :: 0 <= j < i && players[j] != old(players)[j]
      {
        if players[i].room == slot && players[i].alive {
          players := players[i := players[i].(alive := false)];
          changed := true;
        }
        i := i + 1;
      }
      assert players == KillRoom(old(players), slot);
    }

    /** The worker of a slot is gone. */
    method CloseRoom(slot: nat)
      requires slot < rooms.Length
      modifies this, rooms
      ensures Abs() == Masters.CloseRoom(old(Abs()), slot)
    {
      var room := rooms[slot];
      assert room == old(Abs()).rooms[slot];
      hide Abs, KillRoom, Masters.BroadcastRoster, Masters.CheckGlobalEnd;
      SetRoom(slot, room.(used := false, down := []));
      if matchEnded {
        return;
      }
      var changed := KillBySlot(slot);
      if changed {
        BroadcastRoster();
        CheckGlobalEnd();
      }
    }

    // ----- Messages

    method Enlist(id: nat, slot: nat)
      modifies this`players
      ensures Abs() == old(Abs()).(players := AddPlayer(config, old(Abs()).players, id, slot))
    {
      if |players| < config.maxPlayers {
        players := players + [PlayerRec(id, slot, true)];
      }
    }

    method HandleJoined(slot: nat, id: nat)
      requires slot < rooms.Length && rooms.Length == config.rooms
      modifies this, rooms
      ensures Abs() == Masters.HandleJoined(config, old(Abs()), slot, id)
    {
      var room := rooms[slot];
      assert room == old(Abs()).rooms[slot];
      hide Abs, StartFrom, AddPlayer, Masters.BroadcastRoster;
      Enlist(id, slot);
      SetRoom(slot, room.(joined := room.joined + 1));
      BroadcastRoster();
      if |players| >= config.roomSize * config.rooms {
        StartAllRooms();
      }
    }

    /** Forwards an attack to the room of the first living player on record with the victim's id. */
    method HandleAttack(attack: HubAttack)
      modifies rooms
      ensures Abs() == Masters.HandleAttack(old(Abs()), attack)
    {
      var i := 0;
      while i < |players| && (players[i].id != attack.victim || !players[i].alive)
        invariant 0 <= i <= |players|
        invariant LivingIndex(players, attack.victim, 0) == LivingIndex(players, attack.victim, i)
      {
        i := i + 1;
      }
      hide Post;
      if i < |players| {
        var slot := players[i].room;
        if slot < rooms.Length && rooms[slot].used && rooms[slot].started {
          Send(Only(slot), Garbage(attack));
        }
      }
    }

    method HandleHubMsg(slot: nat, msg: HubMsg)
      requires slot < rooms.Length && rooms.Length == config.rooms
      modifies this, rooms
      ensures Abs() == HandleMsg(config, old(Abs()), slot, msg)
    {
      var room := rooms[slot];
      assert room == old(Abs()).rooms[slot];
      hide Abs, Post, KillId, Masters.BroadcastRoster, Masters.CheckGlobalEnd, Masters.HandleJoined,
           Masters.HandleAttack;
      match msg {
        case Ready => SetRoom(slot, room.(ready := true, pending := 0));
        case Joined(id) => HandleJoined(slot, id);
        case Eliminated(id) =>
          KillById(id);
          BroadcastRoster();
          CheckGlobalEnd();
        case Attack(attack) => HandleAttack(attack);
        case Feed(attack) => Send(StartedExcept(slot), Feed(attack));
        case _ =>
      }
    }

    // ----- Clients

    method FillingRoom() returns (slot: int)
      ensures slot == FillingFrom(config, Abs().rooms, 0)
    {
      var i := 0;
      while i < rooms.Length
        invariant 0 <= i <= rooms.Length && FillingFrom(config, rooms[..], 0) == FillingFrom(config, rooms[..], i)
      {
        if rooms[i].used && !rooms[i].started && rooms[i].redirected < config.roomSize {
          return i;
        }
        i := i + 1;
      }
      return -1;
    }

    method FreeSlot() returns (slot: int)
      ensures slot == FreeFrom(Abs().rooms, 0)
    {
      var i := 0;
      while i < rooms.Length
        invariant 0 <= i <= rooms.Length && FreeFrom(rooms[..], 0) == FreeFrom(rooms[..], i)
      {
        if !rooms[i].used {
          return i;
        }
        i := i + 1;
      }
      return -1;
    }

    method SpawnRoom(slot: nat)
      requires slot < rooms.Length
      modifies this`roomSeq, rooms
      ensures Abs() == Masters.SpawnRoom(old(Abs()), slot)
    {
      rooms[slot] := FREE_ROOM.(used := true);
      roomSeq := roomSeq + 1;
    }

    method DealInto(slot: nat)
      requires slot < rooms.Length
      modifies rooms
      ensures Abs() == Masters.DealInto(config, old(Abs()), slot)
    {
      var room := rooms[slot];
      if room.ready {
        rooms[slot] := room.(redirected := room.redirected + 1);
      } else if room.pending < config.lobby {
        rooms[slot] := room.(pending := room.pending + 1, redirected := room.redirected + 1);
      }
    }

    /** A client connects; `canFork` is whether the operating system lets a new worker start. The slot of a new worker
        is returned, or -1. */
    method AcceptClient(canFork: bool) returns (spawned: int)
      modifies this, rooms
      ensures var m := old(Abs());
              var filling, free := FillingFrom(config, m.rooms, 0), FreeFrom(m.rooms, 0);
              if filling != -1 then spawned == -1 && Abs() == Masters.DealInto(config, m, filling)
              else if free == -1 || !canFork then spawned == -1 && Abs() == m
              else spawned == free && Abs() == Masters.DealInto(config, Masters.SpawnRoom(m, free), free)
    {
      hide Abs, Masters.DealInto, Masters.SpawnRoom;
      spawned := -1;
      var slot := FillingRoom();
      if slot != -1 {
        DealInto(slot);
        return;
      }
      var free := FreeSlot();
      if free == -1 || !canFork {
        return;
      }
      SpawnRoom(free);
      DealInto(free);
      spawned := free;
    }
  }
}
