/** What every step of the server keeps: ids and blocks, reports in flight, and the order of views. */
module SystemInvariant {
  import opened Hub
  import opened Masters
  import opened Rooms
  import opened Systems

  // ----- One worker and its two channels

  function Ids(p: Proc): seq<nat> {
    match p
    case Gone => []
    case Lobby(_, ids, _, _) => ids
    case Playing(slots, _, _, _, _) => SlotIds(slots)
  }

  function Seen(p: Proc): HubRoster {
    match p
    case Gone => []
    case Lobby(_, _, _, seen) => seen
    case Playing(_, global, _, _, _) => global
  }

  ghost predicate Increasing(ids: seq<nat>) {
    forall j, k :: 0 <= j < k < |ids| ==> ids[j] < ids[k]
  }

  /** The worker's own board for this id is over. */
  ghost predicate OverIn(p: Proc, id: nat) {
    p.Playing? && exists k :: 0 <= k < |p.slots| && p.slots[k].id == id && p.slots[k].over
  }

  ghost predicate SlotOk(s: Slot) {
    (!s.active ==> s.over) && (s.elimReported ==> s.over) && s.outgoing <= MAX_OUTGOING && s.pending <= MAX_PENDING
  }

  /** Players before `n` who are out have been reported. */
  ghost predicate ReportedBefore(slots: seq<Slot>, n: nat) {
    forall k :: 0 <= k < |slots| && k < n && slots[k].over ==> slots[k].elimReported
  }

  ghost predicate PhaseOk(p: Proc)
    requires p.Playing?
  {
    match p.phase
    case Input => true
    case Reporting(next) => ReportedBefore(p.slots, next)
    case Routing(_) => ReportedBefore(p.slots, |p.slots|)
  }

  ghost predicate ProcOk(c: Config, base: nat, p: Proc) {
    && Increasing(Ids(p)) && (forall k :: 0 <= k < |Ids(p)| ==> InBlock(c, base, Ids(p)[k]))
    && (p.Playing? ==> (forall k :: 0 <= k < |p.slots| ==> SlotOk(p.slots[k])) && PhaseOk(p))
  }

  /** A message from the worker's lobby days. */
  predicate Early(msg: HubMsg) {
    msg.Ready? || msg.Joined?
  }

  ghost predicate UpMsgOk(c: Config, base: nat, p: Proc, msg: HubMsg) {
    && (msg.Joined? ==> InBlock(c, base, msg.id) && (p.Gone? || msg.id in Ids(p)))
    && (msg.Eliminated? ==> InBlock(c, base, msg.id) && (p.Gone? || OverIn(p, msg.id)))
  }

  ghost predicate UpOk(c: Config, base: nat, p: Proc, up: seq<HubMsg>) {
    && (forall k :: 0 <= k < |up| ==> UpMsgOk(c, base, p, up[k]))
    && (forall j, k :: 0 <= j < k < |up| && Early(up[k]) ==> Early(up[j]))
    && (p.Lobby? ==> forall k :: 0 <= k < |up| ==> Early(up[k]))
  }

  ghost predicate RecOk(c: Config, base: nat, i: nat, p: Proc, r: PlayerRec) {
    InBlock(c, base, r.id) ==> r.room == i && (p.Gone? || (r.id in Ids(p) && (!r.alive ==> OverIn(p, r.id))))
  }

  ghost predicate RecsOk(c: Config, base: nat, i: nat, p: Proc, players: seq<PlayerRec>) {
    forall j :: 0 <= j < |players| ==> RecOk(c, base, i, p, players[j])
  }

  /** Nothing about this id is still to come and the record shows it dead. */
  ghost predicate Settled(players: seq<PlayerRec>, up: seq<HubMsg>, id: nat) {
    Joined(id) !in up && forall j :: 0 <= j < |players| && players[j].id == id ==> !players[j].alive
  }

  /** A death is in flight or settled. */
  ghost predicate Known(players: seq<PlayerRec>, up: seq<HubMsg>, id: nat) {
    Eliminated(id) in up || Settled(players, up, id)
  }

  ghost predicate ReportsOk(p: Proc, up: seq<HubMsg>, players: seq<PlayerRec>) {
    p.Playing? ==> forall k :: 0 <= k < |p.slots| && p.slots[k].elimReported ==> Known(players, up, p.slots[k].id)
  }

  /** An attack on a player of the sender's own room is preceded by that player's death. */
  ghost predicate HomeOk(c: Config, base: nat, up: seq<HubMsg>, players: seq<PlayerRec>) {
    forall k :: 0 <= k < |up| && up[k].Attack? && InBlock(c, base, up[k].attack.victim) ==>
      Eliminated(up[k].attack.victim) in up[..k] || Settled(players, up, up[k].attack.victim)
  }

  ghost predicate ViewsOk(p: Proc, down: seq<HubMsg>, players: seq<PlayerRec>) {
    !p.Gone? ==> Chain(Seen(p), down, View(players))
  }

  ghost predicate LiveOk(c: Config, players: seq<PlayerRec>, down: seq<HubMsg>, n: Node, i: nat) {
    && ProcOk(c, n.base, n.proc)
    && UpOk(c, n.base, n.proc, n.up)
    && RecsOk(c, n.base, i, n.proc, players)
    && ReportsOk(n.proc, n.up, players)
    && HomeOk(c, n.base, n.up, players)
    && ViewsOk(n.proc, down, players)
  }

  ghost predicate NodeOk(c: Config, m: Master, n: Node, i: nat)
    requires i < |m.rooms|
  {
    if m.rooms[i].used then 1 <= n.base && n.base + c.lobby <= Base(c, m.roomSeq) &&
      LiveOk(c, m.players, m.rooms[i].down, n, i)
    else n.proc.Gone? && n.up == [] && m.rooms[i].down == []
  }

  // ----- The whole system

  ghost predicate BlocksApart(c: Config, s: System)
    requires |s.m.rooms| == |s.nodes|
  {
    forall i, j :: 0 <= i < |s.nodes| && 0 <= j < |s.nodes| && i != j && s.m.rooms[i].used && s.m.rooms[j].used ==>
      s.nodes[i].base + c.lobby <= s.nodes[j].base || s.nodes[j].base + c.lobby <= s.nodes[i].base
  }

  /** Until the match is decided, a living player's room is there and the player's id is from its block. */
  ghost predicate Housed(c: Config, s: System, r: PlayerRec)
    requires |s.m.rooms| == |s.nodes|
  {
    && 1 <= r.id < Base(c, s.m.roomSeq) && r.room < |s.nodes|
    && (r.alive && !s.m.matchEnded ==> s.m.rooms[r.room].used && InBlock(c, s.nodes[r.room].base, r.id))
  }

  ghost predicate Inv(c: Config, s: System) {
    && |s.m.rooms| == |s.nodes| == c.rooms
    && BlocksApart(c, s)
    && (forall j :: 0 <= j < |s.m.players| ==> Housed(c, s, s.m.players[j]))
    && (forall i :: 0 <= i < |s.nodes| ==> NodeOk(c, s.m, s.nodes[i], i))
  }

  lemma NewSystemInv(c: Config)
    ensures Inv(c, NewSystem(c))
  {
  }

  // ----- Changes of the record

  /** The same players, some of them dead now. */
  ghost predicate Culled(players: seq<PlayerRec>, players': seq<PlayerRec>) {
    && |players'| == |players|
    && forall j :: 0 <= j < |players| ==> players'[j].id == players[j].id && players'[j].room == players[j].room
                                          && (players'[j].alive ==> players[j].alive)
  }

  lemma CulledOlder(players: seq<PlayerRec>, players': seq<PlayerRec>)
    requires Culled(players, players')
    ensures Older(View(players), View(players'))
  {
  }

  lemma CullKeepsSettled(players: seq<PlayerRec>, players': seq<PlayerRec>, up: seq<HubMsg>, id: nat)
    requires Culled(players, players') && Settled(players, up, id)
    ensures Settled(players', up, id)
  {
  }

  lemma CullKeeps(c: Config, players: seq<PlayerRec>, players': seq<PlayerRec>, down: seq<HubMsg>, n: Node, i: nat)
    requires LiveOk(c, players, down, n, i) && Culled(players, players')
    requires forall j ::
      0 <= j < |players| && players[j].alive && !players'[j].alive && InBlock(c, n.base, players[j].id) ==>
               n.proc.Gone? || OverIn(n.proc, players[j].id)
    ensures LiveOk(c, players', down, n, i)
  {
    hide ProcOk, UpOk, OverIn, Settled, Chain, Older, InBlock;
    forall id | Settled(players, n.up, id) ensures Settled(players', n.up, id) {
      CullKeepsSettled(players, players', n.up, id);
    }
    if !n.proc.Gone? {
      CulledOlder(players, players');
      ChainLater(Seen(n.proc), down, View(players), View(players'));
    }
  }

  lemma AddKeeps(c: Config, players: seq<PlayerRec>, down: seq<HubMsg>, n: Node, i: nat, r: PlayerRec)
    requires LiveOk(c, players, down, n, i) && r.alive
    requires InBlock(c, n.base, r.id) ==> r.room == i && Joined(r.id) in n.up
    ensures LiveOk(c, players + [r], down, n, i)
  {
    hide ProcOk, OverIn, Chain, Older, InBlock;
    var players' := players + [r];
    assert UpOk(c, n.base, n.proc, n.up);
    forall id | Settled(players, n.up, id) &&
      (InBlock(c, n.base, id) || id != r.id) ensures Settled(players', n.up, id) {
    }
    forall j | 0 <= j < |players'| ensures RecOk(c, n.base, i, n.proc, players'[j]) {
      if j < |players| {
        assert RecOk(c, n.base, i, n.proc, players[j]);
      }
    }
    if !n.proc.Gone? {
      AddedOlder(players, r);
      ChainLater(Seen(n.proc), down, View(players), View(players'));
    }
    AddKeepsReports(c, players, n, r);
  }

  lemma AddedOlder(players: seq<PlayerRec>, r: PlayerRec)
    ensures Older(View(players), View(players + [r]))
  {
  }

  lemma AddKeepsReports(c: Config, players: seq<PlayerRec>, n: Node, r: PlayerRec)
    requires ProcOk(c, n.base, n.proc) && ReportsOk(n.proc, n.up, players)
    requires InBlock(c, n.base, r.id) ==> Joined(r.id) in n.up
    ensures ReportsOk(n.proc, n.up, players + [r])
  {
    if n.proc.Playing? {
      forall k | 0 <= k < |n.proc.slots| && n.proc.slots[k].elimReported
        ensures Known(players + [r], n.up, n.proc.slots[k].id)
      {
        var id := n.proc.slots[k].id;
        assert Ids(n.proc)[k] == id;
        assert Known(players, n.up, id);
      }
    }
  }

  // ----- Changes of a channel

  lemma PostKeeps(c: Config, players: seq<PlayerRec>, down: seq<HubMsg>, n: Node, i: nat, msg: HubMsg)
    requires LiveOk(c, players, down, n, i) && (msg.Roster? ==> msg.roster == View(players))
    ensures LiveOk(c, players, down + [msg], n, i)
  {
    hide ProcOk, UpOk, RecsOk, ReportsOk, HomeOk, Chain;
    if !n.proc.Gone? {
      ChainAppend(Seen(n.proc), down, View(players), msg);
    }
  }

  /** Once the master has dealt with a death, nothing more about it is to come. */
  lemma PopSettles(c: Config, p: Proc, base: nat, up: seq<HubMsg>, players: seq<PlayerRec>, id: nat)
    requires UpOk(c, base, p, up) && up != [] && Known(players, up, id)
    requires up[0].Eliminated? ==> forall j :: 0 <= j < |players| && players[j].id == up[0].id ==> !players[j].alive
    ensures Known(players, up[1..], id)
  {
    if up[0] == Eliminated(id) {
      HeadSettles(c, p, base, up, players);
    } else if Eliminated(id) in up {
      var k :| 0 <= k < |up| && up[k] == Eliminated(id);
      assert up[1..][k - 1] == Eliminated(id);
    }
  }

  lemma PopKeepsHome(c: Config, p: Proc, base: nat, up: seq<HubMsg>, players: seq<PlayerRec>, k: nat)
    requires UpOk(c, base, p, up) && HomeOk(c, base, up, players) && up != [] && k < |up| - 1
    requires up[0].Eliminated? ==> forall j :: 0 <= j < |players| && players[j].id == up[0].id ==> !players[j].alive
    requires up[1..][k].Attack? && InBlock(c, base, up[1..][k].attack.victim)
    ensures Eliminated(up[1..][k].attack.victim) in up[1..][..k] || Settled(players, up[1..], up[1..][k].attack.victim)
  {
    hide Settled, InBlock;
    var id := up[k + 1].attack.victim;
    assert up[1..][k] == up[k + 1];
    if Eliminated(id) in up[..k + 1] {
      var q :| 0 <= q < k + 1 && up[q] == Eliminated(id);
      if q == 0 {
        HeadSettles(c, p, base, up, players);
      } else {
        assert up[1..][..k][q - 1] == Eliminated(id);
      }
    } else {
      PopKeepsSettled(players, up, id);
    }
  }

  lemma HeadSettles(c: Config, p: Proc, base: nat, up: seq<HubMsg>, players: seq<PlayerRec>)
    requires UpOk(c, base, p, up) && up != [] && up[0].Eliminated?
    requires forall j :: 0 <= j < |players| && players[j].id == up[0].id ==> !players[j].alive
    ensures Settled(players, up[1..], up[0].id)
  {
    forall k | 0 <= k < |up[1..]| ensures up[1..][k] != Joined(up[0].id) {
      assert up[1..][k] == up[k + 1];
      assert Early(up[k + 1]) ==> Early(up[0]);
    }
  }

  lemma PopKeepsSettled(players: seq<PlayerRec>, up: seq<HubMsg>, id: nat)
    requires up != [] && Settled(players, up, id)
    ensures Settled(players, up[1..], id)
  {
  }

  lemma PopKeepsUp(c: Config, p: Proc, base: nat, up: seq<HubMsg>)
    requires UpOk(c, base, p, up) && up != []
    ensures UpOk(c, base, p, up[1..])
  {
    hide UpMsgOk, Early;
    var rest := up[1..];
    assert forall k :: 0 <= k < |rest| ==> rest[k] == up[k + 1];
  }

  lemma PopUpKeeps(c: Config, players: seq<PlayerRec>, down: seq<HubMsg>, n: Node, i: nat)
    requires LiveOk(c, players, down, n, i) && n.up != []
    requires n.up[0].Eliminated? ==> forall j :: 0 <= j < |players| && players[j].id == n.up[0].id ==> !players[j].alive
    ensures LiveOk(c, players, down, n.(up := n.up[1..]), i)
  {
    hide ProcOk, UpOk, RecsOk, ViewsOk, Known, Settled, InBlock;
    PopKeepsUp(c, n.proc, n.base, n.up);
    if n.proc.Playing? {
      forall k | 0 <= k < |n.proc.slots| && n.proc.slots[k].elimReported
        ensures Known(players, n.up[1..], n.proc.slots[k].id)
      {
        PopSettles(c, n.proc, n.base, n.up, players, n.proc.slots[k].id);
      }
    }
    forall k | 0 <= k < |n.up| - 1 && n.up[1..][k].Attack? && InBlock(c, n.base, n.up[1..][k].attack.victim)
      ensures Eliminated(n.up[1..][k].attack.victim) in n.up[1..][..k] ||
        Settled(players, n.up[1..], n.up[1..][k].attack.victim)
    {
      PopKeepsHome(c, n.proc, n.base, n.up, players, k);
    }
  }
}
