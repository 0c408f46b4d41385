/** The master process as a value: its rooms with their outgoing channels, and its record of the players. */
module Masters {
  import opened Hub

  /** One room slot as the master sees it; `down` is what it has sent on the slot's hub and the worker
      has not read yet. */
  datatype MRoom = MRoom(used: bool, ready: bool, started: bool, redirected: nat, joined: nat, pending: nat,
    down: seq<HubMsg>)

  datatype PlayerRec = PlayerRec(id: nat, room: nat, alive: bool)

  datatype Master = Master(rooms: seq<MRoom>, players: seq<PlayerRec>, roomSeq: nat, anyStarted: bool, matchEnded: bool)

  const FREE_ROOM := MRoom(false, false, false, 0, 0, 0, [])

  function NewMaster(c: Config): Master {
    Master(seq(c.rooms, _ => FREE_ROOM), [], 0, false, false)
  }

  /** First player id of the n-th room ever spawned. */
  function Base(c: Config, n: nat): nat {
    1 + n * c.lobby
  }

  function View(players: seq<PlayerRec>): (r: HubRoster)
    ensures |r| == |players| && forall i :: 0 <= i < |r| ==> r[i] == PlayerView(players[i].id, players[i].alive)
  {
    seq(|players|, i requires 0 <= i < |players| => PlayerView(players[i].id, players[i].alive))
  }

  // ----- Sending

  /** Whom a message goes to. */
  datatype Audience = Used | Started | StartedExcept(slot: nat) | Only(slot: nat)

  predicate Hears(a: Audience, i: nat, r: MRoom) {
    match a
    case Used => r.used
    case Started => r.used && r.started
    case StartedExcept(slot) => i != slot && r.used && r.started
    case Only(slot) => i == slot
  }

  function Post(rooms: seq<MRoom>, a: Audience, msg: HubMsg): (r: seq<MRoom>)
    ensures |r| == |rooms|
    ensures forall i :: 0 <= i < |r| ==> r[i] == if Hears(a, i, rooms[i]) then rooms[i].(down := rooms[i].down + [msg])
      else rooms[i]
  {
    seq(|rooms|, i requires 0 <= i < |rooms| => if Hears(a, i, rooms[i]) then rooms[i].(down := rooms[i].down + [msg])
      else rooms[i])
  }

  function BroadcastRoster(m: Master): (r: Master)
    ensures |r.rooms| == |m.rooms| && r.players == m.players
  {
    m.(rooms := Post(m.rooms, Started, Roster(View(m.players))))
  }

  // ----- Starting

  function StartRoom(m: Master, slot: nat): (r: Master)
    requires slot < |m.rooms|
    ensures |r.rooms| == |m.rooms| && r.players == m.players
  {
    var room := m.rooms[slot];
    if !room.used || room.started || room.joined < 1 then m
    else
      var told := Post(m.rooms, Only(slot), Start(room.redirected));
      BroadcastRoster(m.(rooms := told[slot := told[slot].(started := true)], anyStarted := true))
  }

  function StartFrom(m: Master, slot: nat): (r: Master)
    requires slot <= |m.rooms|
    ensures |r.rooms| == |m.rooms| && r.players == m.players
    decreases |m.rooms| - slot
  {
    if slot == |m.rooms| then m else StartFrom(StartRoom(m, slot), slot + 1)
  }

  // ----- Ending

  function AliveCount(players: seq<PlayerRec>): (n: nat)
    ensures n <= |players|
  {
    if players == [] then 0
    else AliveCount(players[..|players| - 1]) + if players[|players| - 1].alive then 1 else 0
  }

  /** Id of the last living player on record, 0 if there is none. */
  function LastAlive(players: seq<PlayerRec>): nat {
    if players == [] then 0
    else if players[|players| - 1].alive then players[|players| - 1].id
    else LastAlive(players[..|players| - 1])
  }

  predicate Decided(players: seq<PlayerRec>) {
    && players != []
    && if |players| >= 2 then AliveCount(players) <= 1 else AliveCount(players) == 0
  }

  function Winner(players: seq<PlayerRec>): nat {
    if AliveCount(players) == 1 then LastAlive(players) else 0
  }

  function CheckGlobalEnd(m: Master): (r: Master)
    ensures |r.rooms| == |m.rooms| && r.players == m.players
  {
    if m.matchEnded || !Decided(m.players) then m
    else m.(matchEnded := true, rooms := Post(m.rooms, Used, GameOver(Winner(m.players))))
  }

  // ----- Deaths

  function KillId(players: seq<PlayerRec>, id: nat): (r: seq<PlayerRec>)
    ensures |r| == |players|
    ensures forall i :: 0 <= i < |r| ==> r[i] == if players[i].id == id then players[i].(alive := false) else players[i]
  {
    seq(|players|, i requires 0 <= i < |players| => if players[i].id == id then players[i].(alive := false)
      else players[i])
  }

  function KillRoom(players: seq<PlayerRec>, slot: nat): (r: seq<PlayerRec>)
    ensures |r| == |players|
    ensures forall i :: 0 <= i < |r| ==> r[i] == if players[i].room == slot then players[i].(alive := false)
      else players[i]
  {
    seq(|players|, i requires 0 <= i < |players| => if players[i].room == slot then players[i].(alive := false)
      else players[i])
  }

  /** The hub of a slot closed: the worker is gone, and unless the match is over its players die with it. */
  function CloseRoom(m: Master, slot: nat): (r: Master)
    requires slot < |m.rooms|
    ensures |r.rooms| == |m.rooms|
  {
    var closed := m.(rooms := m.rooms[slot := m.rooms[slot].(used := false, down := [])]);
    if m.matchEnded then closed
    else
      var players := KillRoom(m.players, slot);
      if players == m.players then closed else CheckGlobalEnd(BroadcastRoster(closed.(players := players)))
  }

  // ----- Routing

  /** Index of the first living player on record with this id, or -1. */
  function LivingIndex(players: seq<PlayerRec>, id: nat, i: nat): (n: int)
    requires i <= |players|
    ensures n == -1 || (i <= n < |players| && players[n].id == id && players[n].alive)
    ensures forall j :: i <= j < (if n == -1 then |players| else n) ==> players[j].id != id || !players[j].alive
    decreases |players| - i
  {
    if i == |players| then -1
    else if players[i].id == id && players[i].alive then i
    else LivingIndex(players, id, i + 1)
  }

  /** The slot an attack is forwarded to, or -1 when the damage is dropped. */
  function Target(m: Master, victim: nat): (slot: int)
    ensures slot == -1 || (0 <= slot < |m.rooms| && m.rooms[slot].used && m.rooms[slot].started)
  {
    var i := LivingIndex(m.players, victim, 0);
    if i == -1 then -1
    else
      var slot := m.players[i].room;
      if slot < |m.rooms| && m.rooms[slot].used && m.rooms[slot].started then slot else -1
  }

  // ----- Messages from workers

  function AddPlayer(c: Config, players: seq<PlayerRec>, id: nat, slot: nat): seq<PlayerRec> {
    if |players| < c.maxPlayers then players + [PlayerRec(id, slot, true)] else players
  }

  function HandleJoined(c: Config, m: Master, slot: nat, id: nat): (r: Master)
    requires slot < |m.rooms|
    ensures |r.rooms| == |m.rooms|
  {
    var room := m.rooms[slot];
    var told := BroadcastRoster(m.(players := AddPlayer(c, m.players, id, slot),
      rooms := m.rooms[slot := room.(joined := room.joined + 1)]));
    if |told.players| >= c.roomSize * c.rooms then StartFrom(told, 0) else told
  }

  function HandleEliminated(m: Master, id: nat): (r: Master)
    ensures |r.rooms| == |m.rooms|
  {
    CheckGlobalEnd(BroadcastRoster(m.(players := KillId(m.players, id))))
  }

  function HandleAttack(m: Master, attack: HubAttack): (r: Master)
    ensures |r.rooms| == |m.rooms|
  {
    var slot := Target(m, attack.victim);
    if slot == -1 then m else m.(rooms := Post(m.rooms, Only(slot), Garbage(attack)))
  }

  function HandleMsg(c: Config, m: Master, slot: nat, msg: HubMsg): (r: Master)
    requires slot < |m.rooms|
    ensures |r.rooms| == |m.rooms|
  {
    match msg
    case Ready => m.(rooms := m.rooms[slot := m.rooms[slot].(ready := true, pending := 0)])
    case Joined(id) => HandleJoined(c, m, slot, id)
    case Eliminated(id) => HandleEliminated(m, id)
    case Attack(attack) => HandleAttack(m, attack)
    case Feed(attack) => m.(rooms := Post(m.rooms, StartedExcept(slot), Feed(attack)))
    case _ => m
  }

  // ----- Clients

  /** The room is open, has not started and has places left. */
  predicate Filling(c: Config, room: MRoom) {
    room.used && !room.started && room.redirected < c.roomSize
  }

  /** First slot from i on that still takes players, or -1. */
  function FillingFrom(c: Config, rooms: seq<MRoom>, i: nat): (n: int)
    requires i <= |rooms|
    ensures n == -1 || (i <= n < |rooms| && Filling(c, rooms[n]))
    ensures forall j :: i <= j < (if n == -1 then |rooms| else n) ==> !Filling(c, rooms[j])
    decreases |rooms| - i
  {
    if i == |rooms| then -1
    else if Filling(c, rooms[i]) then i
    else FillingFrom(c, rooms, i + 1)
  }

  /** First slot from i on that is not in use, or -1. */
  function FreeFrom(rooms: seq<MRoom>, i: nat): (n: int)
    requires i <= |rooms|
    ensures n == -1 || (i <= n < |rooms| && !rooms[n].used)
    ensures forall j :: i <= j < (if n == -1 then |rooms| else n) ==> rooms[j].used
    decreases |rooms| - i
  {
    if i == |rooms| then -1 else if !rooms[i].used then i else FreeFrom(rooms, i + 1)
  }

  function SpawnRoom(m: Master, slot: nat): (r: Master)
    requires slot < |m.rooms|
    ensures |r.rooms| == |m.rooms|
  {
    m.(rooms := m.rooms[slot := FREE_ROOM.(used := true)], roomSeq := m.roomSeq + 1)
  }

  /** A client is dealt into a slot: sent on at once, parked until the worker is ready, or turned away. */
  function DealInto(c: Config, m: Master, slot: nat): (r: Master)
    requires slot < |m.rooms|
    ensures |r.rooms| == |m.rooms|
  {
    var room := m.rooms[slot];
    if room.ready then m.(rooms := m.rooms[slot := room.(redirected := room.redirected + 1)])
    else if room.pending < c.lobby then
      m.(rooms := m.rooms[slot := room.(pending := room.pending + 1, redirected := room.redirected + 1)])
    else m
  }
}
