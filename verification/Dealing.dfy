/** Into which room the master deals a client, over whole runs of the server. */
module Dealing {
  import opened Hub
  import opened Masters
  import opened Rooms
  import opened Systems

  /** The slot is in use, has not been started, and was dealt fewer clients than a room holds. */
  predicate TakesPlayers(c: Config, room: MRoom) {
    room.used && !room.started && room.redirected <= c.roomSize - 1
  }

  /** Slot i is the first that takes players. */
  ghost predicate FirstFilling(c: Config, rooms: seq<MRoom>, i: nat) {
    i < |rooms| && TakesPlayers(c, rooms[i]) && forall j :: 0 <= j < i ==> !TakesPlayers(c, rooms[j])
  }

  ghost predicate NoneFilling(c: Config, rooms: seq<MRoom>) {
    forall j :: 0 <= j < |rooms| ==> !TakesPlayers(c, rooms[j])
  }

  /** Slot i is the first that is not in use. */
  ghost predicate FirstFree(rooms: seq<MRoom>, i: nat) {
    i < |rooms| && !rooms[i].used && forall j :: 0 <= j < i ==> rooms[j].used
  }

  ghost predicate NoneFree(rooms: seq<MRoom>) {
    forall j :: 0 <= j < |rooms| ==> rooms[j].used
  }

  /** One more client belongs to the room: sent on at once if its worker is ready, kept waiting if it is not. */
  function OneMore(room: MRoom): MRoom {
    room.(redirected := room.redirected + 1, pending := room.pending + if room.ready then 0 else 1)
  }

  /** The client was dealt into slot i, and nothing else has changed. */
  ghost predicate DealtInto(s: System, s': System, i: nat) {
    && i < |s.m.rooms| && s'.nodes == s.nodes && s'.m.rooms == s.m.rooms[i := OneMore(s.m.rooms[i])]
    && s' == s.(m := s.m.(rooms := s'.m.rooms))
  }

  /** A worker with the next block of ids was started in slot i, its first client waits, and the rest is unchanged. */
  ghost predicate OpenedFor(c: Config, s: System, s': System, i: nat) {
    && i < |s.m.rooms| == |s.nodes|
    && s'.m == s.m.(roomSeq := s.m.roomSeq + 1, rooms := s.m.rooms[i := MRoom(true, false, false, 1, 0, 1, [])])
    && s'.nodes == s.nodes[i := Node(1 + s.m.roomSeq * c.lobby, Lobby(false, [], false, []), [])]
    && s'.books == s.books
  }

  lemma AcceptDeals(c: Config, s: System, canFork: bool, i: nat)
    requires |s.m.rooms| == |s.nodes| && 1 <= c.roomSize <= c.lobby && Places(c, s.m.rooms)
    ensures var s' := AcceptStep(c, s, canFork);
            && (FirstFilling(c, s.m.rooms, i) ==> DealtInto(s, s', i))
            && (NoneFilling(c, s.m.rooms) && canFork && FirstFree(s.m.rooms, i) ==> OpenedFor(c, s, s', i))
            && (NoneFilling(c, s.m.rooms) && (!canFork || NoneFree(s.m.rooms)) ==> s' == s)
  {
    hide FillingFrom, FreeFrom;
    if FirstFilling(c, s.m.rooms, i) {
      assert FillingFrom(c, s.m.rooms, 0) == i;
      assert RoomPlaces(c, s.m.rooms[i]);
    } else if NoneFilling(c, s.m.rooms) && canFork && FirstFree(s.m.rooms, i) {
      assert FreeFrom(s.m.rooms, 0) == i;
    }
  }

  /** In every run, until the daemon is done, a new client goes to the first room that still has places; only when there
      is none is a room opened, in the first free slot and with the next block of ids; and if that fails too, nothing
      changes. So nobody is turned away for want of a place to wait. */
  lemma DealsFirstFit(c: Config, steps: seq<Step>, canFork: bool, i: nat)
    requires 1 <= c.roomSize <= c.lobby
    ensures var s := Run(c, steps);
            var s' := Apply(c, s, Accept(canFork));
            !Finished(s.m) ==>
              && (FirstFilling(c, s.m.rooms, i) ==> DealtInto(s, s', i))
              && (NoneFilling(c, s.m.rooms) && canFork && FirstFree(s.m.rooms, i) ==> OpenedFor(c, s, s', i))
              && (NoneFilling(c, s.m.rooms) && (!canFork || NoneFree(s.m.rooms)) ==> s' == s)
  {
    hide Run, AcceptStep, FirstFilling, NoneFilling, FirstFree, NoneFree, Finished, Places, DealtInto, OpenedFor;
    ReachablePlaces(c, steps);
    AcceptDeals(c, Run(c, steps), canFork, i);
  }

  // ----- No room is dealt more players than it has places

  ghost predicate RoomPlaces(c: Config, room: MRoom) {
    room.pending <= room.redirected && (room.redirected <= c.roomSize || room.redirected <= 1)
  }

  ghost predicate Places(c: Config, rooms: seq<MRoom>) {
    forall i :: 0 <= i < |rooms| ==> RoomPlaces(c, rooms[i])
  }

  /** Messages, starts, ends and closures leave the dealing alone. */
  ghost predicate SameDeal(rooms: seq<MRoom>, rooms': seq<MRoom>) {
    |rooms'| == |rooms| && forall i :: 0 <= i < |rooms| ==>
      rooms'[i].redirected == rooms[i].redirected && rooms'[i].pending <= rooms[i].pending
  }

  lemma {:induction false} StartDeals(m: Master, slot: nat)
    requires slot <= |m.rooms|
    ensures SameDeal(m.rooms, StartFrom(m, slot).rooms)
    decreases |m.rooms| - slot
  {
    hide View;
    if slot < |m.rooms| {
      StartDeals(StartRoom(m, slot), slot + 1);
    }
  }

  lemma HandleDeals(c: Config, m: Master, slot: nat, msg: HubMsg)
    requires slot < |m.rooms|
    ensures SameDeal(m.rooms, HandleMsg(c, m, slot, msg).rooms)
  {
    hide StartFrom, View, Decided, Winner, KillId, AddPlayer, Target;
    if msg.Joined? {
      var room := m.rooms[slot];
      StartDeals(BroadcastRoster(m.(players := AddPlayer(c, m.players, msg.id, slot),
        rooms := m.rooms[slot := room.(joined := room.joined + 1)])), 0);
    }
  }

  lemma CloseDeals(m: Master, slot: nat)
    requires slot < |m.rooms|
    ensures SameDeal(m.rooms, CloseRoom(m, slot).rooms)
  {
    hide View, Decided, Winner, KillRoom;
  }

  lemma AcceptPlaces(c: Config, s: System, canFork: bool)
    requires |s.m.rooms| == |s.nodes| && Places(c, s.m.rooms)
    ensures Places(c, AcceptStep(c, s, canFork).m.rooms)
  {
    hide FillingFrom, FreeFrom, Base;
  }

  lemma SamePlaces(c: Config, rooms: seq<MRoom>, rooms': seq<MRoom>)
    requires Places(c, rooms) && SameDeal(rooms, rooms')
    ensures Places(c, rooms')
  {
    forall i | 0 <= i < |rooms'| ensures RoomPlaces(c, rooms'[i]) {
      assert RoomPlaces(c, rooms[i]);
    }
  }

  lemma StepPlaces(c: Config, s: System, step: Step)
    requires |s.m.rooms| == |s.nodes| && Places(c, s.m.rooms)
    ensures Places(c, Apply(c, s, step).m.rooms)
  {
    hide AcceptStep, StartFrom, HandleMsg, CloseRoom, WorkerStep, WorkerCan, Garbages, Target, Winner, Finished, Places;
    if Enabled(c, s, step) {
      match step
      case Accept(canFork) => AcceptPlaces(c, s, canFork);
      case Operator =>
        StartDeals(s.m, 0);
        SamePlaces(c, s.m.rooms, StartFrom(s.m, 0).rooms);
      case MasterRecv(i) =>
        HandleDeals(c, s.m, i, s.nodes[i].up[0]);
        SamePlaces(c, s.m.rooms, HandleMsg(c, s.m, i, s.nodes[i].up[0]).rooms);
      case MasterClose(i) =>
        CloseDeals(s.m, i);
        SamePlaces(c, s.m.rooms, CloseRoom(s.m, i).rooms);
      case _ => SamePlaces(c, s.m.rooms, Apply(c, s, step).m.rooms);
    }
  }

  lemma {:induction false} ReachablePlaces(c: Config, steps: seq<Step>)
    ensures Places(c, Run(c, steps).m.rooms)
  {
    hide Apply, Places;
    if steps == [] {
      NewPlaces(c);
    } else {
      ReachablePlaces(c, steps[..|steps| - 1]);
      StepPlaces(c, Run(c, steps[..|steps| - 1]), steps[|steps| - 1]);
    }
  }

  lemma NewPlaces(c: Config)
    ensures Places(c, NewSystem(c).m.rooms)
  {
  }

  /** In every run no room is dealt more clients than it has places. */
  lemma NeverOverfull(c: Config, steps: seq<Step>, i: nat)
    requires c.roomSize >= 1
    ensures var s := Run(c, steps); i < |s.m.rooms| ==> s.m.rooms[i].redirected <= c.roomSize
  {
    hide Run;
    ReachablePlaces(c, steps);
    assert i < |Run(c, steps).m.rooms| ==> RoomPlaces(c, Run(c, steps).m.rooms[i]);
  }
}
