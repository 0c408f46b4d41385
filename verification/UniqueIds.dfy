/** No player id is ever recorded twice. */
module UniqueIds {
  import opened Hub
  import opened Masters
  import opened Rooms
  import opened Systems
  import opened SystemInvariant
  import opened WorkerInvariant
  import opened MasterInvariant

  ghost predicate DistinctRecs(players: seq<PlayerRec>) {
    forall j, k :: 0 <= j < k < |players| ==> players[j].id != players[k].id
  }

  ghost predicate Recorded(players: seq<PlayerRec>, id: nat) {
    exists j :: 0 <= j < |players| && players[j].id == id
  }

  /** Joins on their way are for players not on record yet, each announced once. */
  ghost predicate JoinsOk(up: seq<HubMsg>, players: seq<PlayerRec>) {
    && (forall k :: 0 <= k < |up| && up[k].Joined? ==> !Recorded(players, up[k].id))
    && (forall k, q :: 0 <= k < q < |up| && up[k].Joined? && up[q].Joined? ==> up[k].id != up[q].id)
  }

  ghost predicate UniqueInv(c: Config, s: System) {
    && Inv(c, s)
    && DistinctRecs(s.m.players)
    && forall i :: 0 <= i < |s.nodes| ==> JoinsOk(s.nodes[i].up, s.m.players)
  }

  /** Ids stay the same, whoever dies. */
  ghost predicate SameIds(players: seq<PlayerRec>, players': seq<PlayerRec>) {
    |players'| == |players| && forall j :: 0 <= j < |players| ==> players'[j].id == players[j].id
  }

  lemma SameIdsKeep(players: seq<PlayerRec>, players': seq<PlayerRec>, up: seq<HubMsg>)
    requires SameIds(players, players')
    ensures DistinctRecs(players) ==> DistinctRecs(players')
    ensures JoinsOk(up, players) ==> JoinsOk(up, players')
  {
  }

  lemma PopJoins(up: seq<HubMsg>, players: seq<PlayerRec>)
    requires up != [] && JoinsOk(up, players)
    ensures JoinsOk(up[1..], players)
  {
    hide Recorded;
    assert forall k :: 0 <= k < |up| - 1 ==> up[1..][k] == up[k + 1];
  }

  lemma PopOwnJoin(up: seq<HubMsg>, players: seq<PlayerRec>, r: PlayerRec)
    requires up != [] && JoinsOk(up, players) && up[0] == Joined(r.id)
    ensures JoinsOk(up[1..], players + [r])
  {
    assert forall k :: 0 <= k < |up| - 1 ==> up[1..][k] == up[k + 1];
  }

  lemma OtherJoins(up: seq<HubMsg>, players: seq<PlayerRec>, r: PlayerRec)
    requires JoinsOk(up, players) && Joined(r.id) !in up
    ensures JoinsOk(up, players + [r])
  {
  }

  lemma HandlePlayers(c: Config, m: Master, slot: nat, msg: HubMsg)
    requires slot < |m.rooms|
    ensures var r := HandleMsg(c, m, slot, msg);
            if msg.Joined? then r.players == AddPlayer(c, m.players, msg.id, slot) else SameIds(m.players, r.players)
  {
    hide Post, View, Decided, Winner, StartFrom, Target;
  }

  lemma JoinOnlyAtHome(c: Config, s: System, slot: nat, i: nat, id: nat)
    requires Inv(c, s) && slot < |s.nodes| && i < |s.nodes| && |s.m.rooms| == |s.nodes| && s.m.rooms[slot].used
    requires Joined(id) in s.nodes[slot].up && Joined(id) in s.nodes[i].up
    ensures i == slot
  {
    hide LiveOk, Base, InBlock, BlocksApart, Housed;
    assert NodeOk(c, s.m, s.nodes[i], i);
    JoinedInBlock(c, s, slot, id);
    JoinedInBlock(c, s, i, id);
    OnlyOneBlock(c, s, slot, i, id);
  }

  lemma RecvUnique(c: Config, s: System, i: nat)
    requires UniqueInv(c, s) && i < |s.nodes| && |s.m.rooms| == |s.nodes| && s.m.rooms[i].used && s.nodes[i].up != []
    ensures UniqueInv(c, MasterRecvStep(c, s, i))
  {
    hide Inv, HandleMsg, Target, JoinsOk, DistinctRecs, SameIds;
    MasterRecvInv(c, s, i);
    var msg := s.nodes[i].up[0];
    var s' := MasterRecvStep(c, s, i);
    HandlePlayers(c, s.m, i, msg);
    if msg.Joined? && |s.m.players| < c.maxPlayers {
      var r := PlayerRec(msg.id, i, true);
      AddDistinct(s.nodes[i].up, s.m.players, r);
      PopOwnJoin(s.nodes[i].up, s.m.players, r);
      forall j | 0 <= j < |s.nodes| ensures JoinsOk(s'.nodes[j].up, s'.m.players) {
        if j != i {
          if Joined(msg.id) in s.nodes[j].up {
            JoinOnlyAtHome(c, s, i, j, msg.id);
          }
          OtherJoins(s.nodes[j].up, s.m.players, r);
        }
      }
    } else {
      SameSame(s.m.players);
      PopJoins(s.nodes[i].up, s.m.players);
      forall j | 0 <= j < |s.nodes| ensures JoinsOk(s'.nodes[j].up, s'.m.players) {
        SameIdsKeep(s.m.players, s'.m.players, s'.nodes[j].up);
      }
      SameIdsKeep(s.m.players, s'.m.players, []);
    }
  }

  lemma SameSame(players: seq<PlayerRec>)
    ensures SameIds(players, players)
  {
  }

  lemma AddDistinct(up: seq<HubMsg>, players: seq<PlayerRec>, r: PlayerRec)
    requires up != [] && JoinsOk(up, players) && up[0] == Joined(r.id) && DistinctRecs(players)
    ensures DistinctRecs(players + [r])
  {
    assert !Recorded(players, up[0].id);
  }

  lemma ClosePlayers(m: Master, slot: nat)
    requires slot < |m.rooms|
    ensures SameIds(m.players, CloseRoom(m, slot).players)
  {
    hide Post, View, Decided, Winner;
  }

  lemma AppendJoins(up: seq<HubMsg>, players: seq<PlayerRec>, msgs: seq<HubMsg>)
    requires JoinsOk(up, players) && forall k :: 0 <= k < |msgs| ==> !msgs[k].Joined?
    ensures JoinsOk(up + msgs, players)
  {
    hide Recorded;
  }

  lemma JoinUnique(c: Config, players: seq<PlayerRec>, down: seq<HubMsg>, n: Node, i: nat, id: nat)
    requires LiveOk(c, players, down, n, i) && n.proc.Lobby? && FreshId(c, n, id) && JoinsOk(n.up, players)
    ensures JoinsOk(n.up + [Joined(id)], players)
  {
    hide ViewsOk, HomeOk, ReportsOk, ProcOk;
    forall j | 0 <= j < |players| ensures players[j].id != id {
      assert RecOk(c, n.base, i, n.proc, players[j]);
    }
    forall k | 0 <= k < |n.up| ensures n.up[k] != Joined(id) {
      assert UpMsgOk(c, n.base, n.proc, n.up[k]);
    }
  }

  lemma WorkerJoins(c: Config, players: seq<PlayerRec>, down: seq<HubMsg>, n: Node, i: nat, step: Step,
      b: Systems.Books)
    requires LiveOk(c, players, down, n, i) && WorkerCan(c, n, down, step) && JoinsOk(n.up, players)
    ensures JoinsOk(WorkerStep(c, n, down, step, b).node.up, players)
  {
    hide LiveOk, JoinsOk, ApplyGarbage, FateOf, RoutedSlots, ReportedSlots, OpeningSlots, BoardStep, Ticked, FreshId,
         Landing, MustReport;
    match step
    case Bind(_) => AppendJoins(n.up, players, [Ready]);
    case Join(_, id) => JoinUnique(c, players, down, n, i, id);
    case Report(_) =>
      var k := n.proc.phase.next;
      if k < |n.proc.slots| {
        AppendJoins(n.up, players, ReportMsgs(n.proc.slots, k));
      }
    case Route(_, roll) =>
      var k := n.proc.phase.next;
      if k < |n.proc.slots| {
        AppendJoins(n.up, players, RoutedMsgs(FateOf(n.proc.slots, k, n.proc.global, roll)));
      }
    case _ =>
  }

  lemma WorkerUnique(c: Config, s: System, step: Step, i: nat)
    requires UniqueInv(c, s) && |s.m.rooms| == |s.nodes| && i < |s.nodes| && s.m.rooms[i].used
    requires WorkerCan(c, s.nodes[i], s.m.rooms[i].down, step)
    ensures UniqueInv(c, WorkerApply(c, s, step, i))
  {
    hide LiveOk, Base, WorkerStep, WorkerCan, JoinsOk, DistinctRecs, Housed, BlocksApart;
    WorkerInv(c, s, step, i);
    assert NodeOk(c, s.m, s.nodes[i], i);
    WorkerJoins(c, s.m.players, s.m.rooms[i].down, s.nodes[i], i, step, s.books);
  }

  lemma CloseUnique(c: Config, s: System, i: nat)
    requires UniqueInv(c, s) && i < |s.nodes| && |s.m.rooms| == |s.nodes| && s.nodes[i].proc.Gone?
    requires s.nodes[i].up == []
    ensures UniqueInv(c, MasterCloseStep(s, i))
  {
    hide Inv, CloseRoom, JoinsOk, DistinctRecs, SameIds, Garbages;
    MasterCloseInv(c, s, i);
    var s' := MasterCloseStep(s, i);
    ClosePlayers(s.m, i);
    forall j | 0 <= j < |s.nodes| ensures JoinsOk(s'.nodes[j].up, s'.m.players) {
      SameIdsKeep(s.m.players, s'.m.players, s'.nodes[j].up);
    }
    SameIdsKeep(s.m.players, s'.m.players, []);
  }

  lemma AcceptUnique(c: Config, s: System, canFork: bool)
    requires UniqueInv(c, s) && |s.m.rooms| == |s.nodes|
    ensures UniqueInv(c, AcceptStep(c, s, canFork))
  {
    AcceptInv(c, s, canFork);
    hide Inv, JoinsOk, DistinctRecs, FillingFrom, FreeFrom, Base;
    NoJoins(s.m.players);
  }

  lemma NoJoins(players: seq<PlayerRec>)
    ensures JoinsOk([], players)
  {
  }

  lemma StepUnique(c: Config, s: System, step: Step)
    requires UniqueInv(c, s) && |s.m.rooms| == |s.nodes|
    ensures UniqueInv(c, Apply(c, s, step))
  {
    hide Inv, AcceptStep, MasterRecvStep, MasterCloseStep, WorkerApply, WorkerCan, JoinsOk, DistinctRecs, StartFrom;
    if Enabled(c, s, step) {
      match step
      case Accept(canFork) => AcceptUnique(c, s, canFork);
      case Operator => StartFromInv(c, s, 0);
      case MasterRecv(i) => RecvUnique(c, s, i);
      case MasterClose(i) => CloseUnique(c, s, i);
      case _ => WorkerUnique(c, s, step, step.i);
    }
  }

  lemma NewSystemUnique(c: Config)
    ensures UniqueInv(c, NewSystem(c))
  {
    NewSystemInv(c);
  }

  /** In every run the record lists each player id once. */
  lemma {:induction false} ReachableUnique(c: Config, steps: seq<Step>)
    ensures UniqueInv(c, Run(c, steps))
  {
    hide UniqueInv, Apply, NewSystem;
    if steps == [] {
      NewSystemUnique(c);
    } else {
      ReachableUnique(c, steps[..|steps| - 1]);
      StepUnique(c, Run(c, steps[..|steps| - 1]), steps[|steps| - 1]);
    }
  }
}
