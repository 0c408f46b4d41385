/** Every step of a room worker keeps the invariant of its node. */
module WorkerInvariant {
  import opened Hub
  import opened Masters
  import opened Rooms
  import opened Systems
  import opened SystemInvariant

  // ----- Building blocks

  lemma AppendKeepsKnown(players: seq<PlayerRec>, up: seq<HubMsg>, msg: HubMsg, id: nat)
    requires Known(players, up, id) && msg != Joined(id)
    ensures Known(players, up + [msg], id)
  {
  }

  lemma AppendKeepsUp(c: Config, base: nat, p: Proc, up: seq<HubMsg>, msg: HubMsg)
    requires UpOk(c, base, p, up) && UpMsgOk(c, base, p, msg)
    requires Early(msg) ==> p.Lobby?
    requires p.Lobby? ==> Early(msg)
    ensures UpOk(c, base, p, up + [msg])
  {
    hide UpMsgOk, Early;
  }

  lemma AppendKeepsHome(c: Config, base: nat, up: seq<HubMsg>, players: seq<PlayerRec>, msg: HubMsg)
    requires HomeOk(c, base, up, players) && !msg.Joined?
    requires msg.Attack? && InBlock(c, base, msg.attack.victim) ==> Known(players, up, msg.attack.victim)
    ensures HomeOk(c, base, up + [msg], players)
  {
    hide InBlock;
    var up' := up + [msg];
    forall k | 0 <= k < |up'| && up'[k].Attack? && InBlock(c, base, up'[k].attack.victim)
      ensures Eliminated(up'[k].attack.victim) in up'[..k] || Settled(players, up', up'[k].attack.victim)
    {
      if k < |up| {
        assert up'[k] == up[k] && up'[..k] == up[..k];
      } else {
        assert up'[..k] == up;
      }
    }
  }

  /** A worker that is past its lobby sends something that is not about joining. */
  lemma AppendKeeps(c: Config, players: seq<PlayerRec>, down: seq<HubMsg>, n: Node, i: nat, msg: HubMsg)
    requires LiveOk(c, players, down, n, i) && n.proc.Playing? && !Early(msg) && UpMsgOk(c, n.base, n.proc, msg)
    requires msg.Attack? && InBlock(c, n.base, msg.attack.victim) ==> Known(players, n.up, msg.attack.victim)
    ensures LiveOk(c, players, down, n.(up := n.up + [msg]), i)
  {
    hide ProcOk, UpOk, RecsOk, ViewsOk, HomeOk, Known, UpMsgOk;
    AppendKeepsUp(c, n.base, n.proc, n.up, msg);
    AppendKeepsHome(c, n.base, n.up, players, msg);
    forall k | 0 <= k < |n.proc.slots| && n.proc.slots[k].elimReported
      ensures Known(players, n.up + [msg], n.proc.slots[k].id)
    {
      AppendKeepsKnown(players, n.up, msg, n.proc.slots[k].id);
    }
  }

  /** Players keep their ids and nobody comes back to life. */
  ghost predicate Aged(slots: seq<Slot>, slots': seq<Slot>) {
    |slots'| == |slots| && forall k :: 0 <= k < |slots| ==> AgedSlot(slots[k], slots'[k])
  }

  ghost predicate AgedSlot(s: Slot, t: Slot) {
    t.id == s.id && (s.over ==> t.over)
  }

  lemma AgedKeepsOver(p: Proc, p': Proc, id: nat)
    requires p.Playing? && p'.Playing? && Aged(p.slots, p'.slots) && OverIn(p, id)
    ensures OverIn(p', id)
  {
    var k :| 0 <= k < |p.slots| && p.slots[k].id == id && p.slots[k].over;
    assert AgedSlot(p.slots[k], p'.slots[k]);
  }

  lemma AgedIds(slots: seq<Slot>, slots': seq<Slot>)
    requires Aged(slots, slots')
    ensures SlotIds(slots') == SlotIds(slots)
  {
    assert forall k :: 0 <= k < |slots| ==> AgedSlot(slots[k], slots'[k]);
  }

  lemma AgeKeeps(c: Config, players: seq<PlayerRec>, down: seq<HubMsg>, n: Node, i: nat, p': Proc)
    requires LiveOk(c, players, down, n, i) && n.proc.Playing? && p'.Playing? && p'.global == n.proc.global
    requires Aged(n.proc.slots, p'.slots) && PhaseOk(p')
    requires forall k :: 0 <= k < |p'.slots| ==>
      SlotOk(p'.slots[k]) && (p'.slots[k].elimReported ==> Known(players, n.up, p'.slots[k].id))
    ensures LiveOk(c, players, down, n.(proc := p'), i)
  {
    hide HomeOk, Known, SlotOk, PhaseOk, Chain, OverIn, InBlock, Aged, Early;
    AgedIds(n.proc.slots, p'.slots);
    assert Ids(p') == Ids(n.proc);
    forall id | OverIn(n.proc, id) ensures OverIn(p', id) {
      AgedKeepsOver(n.proc, p', id);
    }
    forall k | 0 <= k < |n.up| ensures UpMsgOk(c, n.base, p', n.up[k]) {
      assert UpMsgOk(c, n.base, n.proc, n.up[k]);
    }
    forall j | 0 <= j < |players| ensures RecOk(c, n.base, i, p', players[j]) {
      assert RecOk(c, n.base, i, n.proc, players[j]);
    }
  }

  // ----- Lobby

  lemma LobbyHasNoDeaths(c: Config, players: seq<PlayerRec>, down: seq<HubMsg>, n: Node, i: nat)
    requires LiveOk(c, players, down, n, i) && n.proc.Lobby?
    ensures forall k :: 0 <= k < |n.up| ==> Early(n.up[k])
    ensures forall j :: 0 <= j < |players| && InBlock(c, n.base, players[j].id) ==>
              players[j].room == i && players[j].alive && players[j].id in n.proc.ids
  {
    hide Chain;
    forall j | 0 <= j < |players| && InBlock(c, n.base, players[j].id)
      ensures players[j].room == i && players[j].alive && players[j].id in n.proc.ids
    {
      assert RecOk(c, n.base, i, n.proc, players[j]);
    }
  }

  lemma BindKeeps(c: Config, players: seq<PlayerRec>, down: seq<HubMsg>, n: Node, i: nat)
    requires LiveOk(c, players, down, n, i) && n.proc.Lobby?
    ensures LiveOk(c, players, down, n.(proc := n.proc.(bound := true), up := n.up + [Ready]), i)
  {
    hide Chain;
    var p' := n.proc.(bound := true);
    LobbyHasNoDeaths(c, players, down, n, i);
    forall k | 0 <= k < |n.up| ensures UpMsgOk(c, n.base, p', n.up[k]) {
      assert UpMsgOk(c, n.base, n.proc, n.up[k]);
    }
    assert Ids(p') == Ids(n.proc);
  }

  lemma JoinKeeps(c: Config, players: seq<PlayerRec>, down: seq<HubMsg>, n: Node, i: nat, id: nat)
    requires LiveOk(c, players, down, n, i) && n.proc.Lobby? && FreshId(c, n, id)
    ensures LiveOk(c, players, down, n.(proc := n.proc.(ids := n.proc.ids + [id]), up := n.up + [Joined(id)]), i)
  {
    hide Chain, InBlock;
    var p' := n.proc.(ids := n.proc.ids + [id]);
    LobbyHasNoDeaths(c, players, down, n, i);
    forall k | 0 <= k < |n.up| ensures UpMsgOk(c, n.base, p', n.up[k]) {
      assert UpMsgOk(c, n.base, n.proc, n.up[k]);
    }
  }

  lemma BeginKeeps(c: Config, players: seq<PlayerRec>, down: seq<HubMsg>, n: Node, i: nat)
    requires LiveOk(c, players, down, n, i) && n.proc.Lobby?
    ensures LiveOk(c, players, down, n.(proc := Playing(OpeningSlots(n.proc.ids), n.proc.seen, Input, false, 0)), i)
  {
    hide Chain, OpeningSlots, InBlock;
    var p' := Playing(OpeningSlots(n.proc.ids), n.proc.seen, Input, false, 0);
    LobbyHasNoDeaths(c, players, down, n, i);
    assert Ids(p') == n.proc.ids;
    forall k | 0 <= k < |n.up| ensures UpMsgOk(c, n.base, p', n.up[k]) {
      assert UpMsgOk(c, n.base, n.proc, n.up[k]);
    }
  }

  lemma LobbyRecvKeeps(c: Config, players: seq<PlayerRec>, down: seq<HubMsg>, n: Node, i: nat)
    requires LiveOk(c, players, down, n, i) && n.proc.Lobby? && down != []
    ensures LiveOk(c, players, down[1..], n.(proc := LobbyRead(n.proc, down[0])), i)
  {
    var p' := LobbyRead(n.proc, down[0]);
    assert Chain(Seen(p'), down[1..], View(players));
    hide Chain, InBlock, LobbyRead, Early;
    assert Ids(p') == Ids(n.proc);
    forall k | 0 <= k < |n.up| ensures UpMsgOk(c, n.base, p', n.up[k]) {
      assert UpMsgOk(c, n.base, n.proc, n.up[k]);
    }
    forall j | 0 <= j < |players| ensures RecOk(c, n.base, i, p', players[j]) {
      assert RecOk(c, n.base, i, n.proc, players[j]);
    }
  }

  // ----- Match

  lemma RequestKeeps(c: Config, players: seq<PlayerRec>, down: seq<HubMsg>, n: Node, i: nat, k: nat, to: Slot)
    requires LiveOk(c, players, down, n, i) && n.proc.Playing? && n.proc.phase.Input? && k < |n.proc.slots|
    requires AgedSlot(n.proc.slots[k], to) && SlotOk(to) && to.elimReported == n.proc.slots[k].elimReported
    ensures LiveOk(c, players, down, n.(proc := n.proc.(slots := n.proc.slots[k := to])), i)
  {
    hide HomeOk, Known, Chain, OverIn, InBlock, UpOk, RecsOk;
    AgeKeeps(c, players, down, n, i, n.proc.(slots := n.proc.slots[k := to]));
  }

  lemma TickedAges(slots: seq<Slot>, to: seq<Slot>)
    requires Ticked(slots, to) && forall k :: 0 <= k < |slots| ==> SlotOk(slots[k])
    ensures Aged(slots, to)
    ensures forall k :: 0 <= k < |slots| ==> SlotOk(to[k]) && to[k].elimReported == slots[k].elimReported
  {
    forall k | 0 <= k < |slots| ensures AgedSlot(slots[k], to[k]) && SlotOk(to[k]) &&
      to[k].elimReported == slots[k].elimReported {
      assert TickedSlot(slots[k], to[k]);
    }
  }

  lemma TickKeeps(c: Config, players: seq<PlayerRec>, down: seq<HubMsg>, n: Node, i: nat, to: seq<Slot>)
    requires LiveOk(c, players, down, n, i) && n.proc.Playing? && Ticked(n.proc.slots, to)
    ensures LiveOk(c, players, down, n.(proc := n.proc.(slots := to, phase := Reporting(0))), i)
  {
    hide HomeOk, Known, Chain, OverIn, InBlock, UpOk, RecsOk, SlotOk, Aged, Ticked;
    TickedAges(n.proc.slots, to);
    AgedIds(n.proc.slots, to);
    assert forall k :: 0 <= k < |to| ==> SlotIds(to)[k] == SlotIds(n.proc.slots)[k];
    AgeKeeps(c, players, down, n, i, n.proc.(slots := to, phase := Reporting(0)));
  }

  lemma GarbageAges(slots: seq<Slot>, attack: HubAttack)
    requires forall k :: 0 <= k < |slots| ==> SlotOk(slots[k])
    ensures Aged(slots, ApplyGarbage(slots, attack))
    ensures forall k :: 0 <= k < |slots| ==>
              SlotOk(ApplyGarbage(slots, attack)[k]) &&
                ApplyGarbage(slots, attack)[k].elimReported == slots[k].elimReported
  {
    hide Landing;
  }

  lemma RoomReadKeeps(c: Config, players: seq<PlayerRec>, down: seq<HubMsg>, n: Node, i: nat, msg: HubMsg)
    requires LiveOk(c, players, down, n, i) && n.proc.Playing? && n.proc.phase.Input? && !msg.Roster?
    ensures LiveOk(c, players, down, n.(proc := RoomRead(n.proc, msg)), i)
  {
    hide HomeOk, Known, Chain, OverIn, InBlock, UpOk, RecsOk, SlotOk, Aged, ApplyGarbage;
    if msg.Garbage? {
      GarbageAges(n.proc.slots, msg.attack);
      AgedIds(n.proc.slots, ApplyGarbage(n.proc.slots, msg.attack));
      assert forall k :: 0 <= k < |n.proc.slots| ==>
        SlotIds(ApplyGarbage(n.proc.slots, msg.attack))[k] == SlotIds(n.proc.slots)[k];
    } else {
      NoAge(n.proc.slots);
    }
    AgeKeeps(c, players, down, n, i, RoomRead(n.proc, msg));
  }

  lemma NoAge(slots: seq<Slot>)
    ensures Aged(slots, slots)
  {
  }

  lemma ViewKeeps(c: Config, players: seq<PlayerRec>, down: seq<HubMsg>, n: Node, i: nat, down': seq<HubMsg>,
      global: HubRoster)
    requires LiveOk(c, players, down, n, i) && n.proc.Playing? && Chain(global, down', View(players))
    ensures LiveOk(c, players, down', n.(proc := n.proc.(global := global)), i)
  {
    hide HomeOk, Known, Chain, InBlock, Early, SlotOk;
    var p' := n.proc.(global := global);
    assert Ids(p') == Ids(n.proc);
    forall k | 0 <= k < |n.up| ensures UpMsgOk(c, n.base, p', n.up[k]) {
      assert UpMsgOk(c, n.base, n.proc, n.up[k]);
    }
    forall j | 0 <= j < |players| ensures RecOk(c, n.base, i, p', players[j]) {
      assert RecOk(c, n.base, i, n.proc, players[j]);
    }
  }

  lemma RoomRecvKeeps(c: Config, players: seq<PlayerRec>, down: seq<HubMsg>, n: Node, i: nat)
    requires LiveOk(c, players, down, n, i) && n.proc.Playing? && n.proc.phase.Input? && down != []
    ensures LiveOk(c, players, down[1..], n.(proc := RoomRead(n.proc, down[0])), i)
  {
    var global := if down[0].Roster? then down[0].roster else n.proc.global;
    assert Chain(global, down[1..], View(players));
    hide ProcOk, UpOk, RecsOk, ReportsOk, HomeOk, Chain, ApplyGarbage;
    ViewKeeps(c, players, down, n, i, down[1..], global);
    if !down[0].Roster? {
      assert n.(proc := n.proc.(global := global)) == n;
      RoomReadKeeps(c, players, down[1..], n, i, down[0]);
    }
  }

  // ----- Reporting and routing

  lemma ReportedAges(slots: seq<Slot>, k: nat)
    requires k < |slots| && forall j :: 0 <= j < |slots| ==> SlotOk(slots[j])
    ensures var r := ReportedSlots(slots, k); Aged(slots, r) && forall j :: 0 <= j < |slots| ==> SlotOk(r[j])
  {
  }

  lemma ReportedPhase(p: Proc, k: nat)
    requires p.Playing? && p.phase == Reporting(k) && k < |p.slots| && PhaseOk(p) && SlotOk(p.slots[k])
    ensures PhaseOk(p.(slots := ReportedSlots(p.slots, k), phase := AfterReport(p, k)))
  {
  }

  lemma ReportAppends(c: Config, players: seq<PlayerRec>, down: seq<HubMsg>, n: Node, i: nat, k: nat)
    requires LiveOk(c, players, down, n, i) && n.proc.Playing? && k < |n.proc.slots| && MustReport(n.proc.slots[k])
    ensures LiveOk(c, players, down, n.(up := n.up + [Eliminated(n.proc.slots[k].id)]), i)
  {
    hide HomeOk, Known, Chain, UpOk, RecsOk;
    assert Ids(n.proc)[k] == n.proc.slots[k].id;
    assert SlotOk(n.proc.slots[k]);
    AppendKeeps(c, players, down, n, i, Eliminated(n.proc.slots[k].id));
  }

  lemma ReportKeeps(c: Config, players: seq<PlayerRec>, down: seq<HubMsg>, n: Node, i: nat, b: Systems.Books)
    requires LiveOk(c, players, down, n, i) && n.proc.Playing? && n.proc.phase.Reporting?
    ensures LiveOk(c, players, down, ReportStep(n, b).node, i)
  {
    hide HomeOk, Chain, UpOk, RecsOk, Aged, SlotOk, Settled;
    var p, k := n.proc, n.proc.phase.next;
    NoAge(p.slots);
    if k >= |p.slots| {
      AgeKeeps(c, players, down, n, i, p.(phase := Routing(0)));
    } else {
      ReportedAges(p.slots, k);
      ReportedPhase(p, k);
      var n1 := n.(up := n.up + ReportMsgs(p.slots, k));
      if MustReport(p.slots[k]) {
        ReportAppends(c, players, down, n, i, k);
        assert Eliminated(p.slots[k].id) in n1.up;
      } else {
        assert n1 == n;
      }
      AgeKeeps(c, players, down, n1, i, p.(slots := ReportedSlots(p.slots, k), phase := AfterReport(p, k)));
    }
  }

  lemma RoutedAges(slots: seq<Slot>, k: nat, f: Fate)
    requires k < |slots| && (f.Local? ==> f.v < |slots|) && forall j :: 0 <= j < |slots| ==> SlotOk(slots[j])
    ensures var r := RoutedSlots(slots, k, f);
            Aged(slots, r) && forall j :: 0 <= j < |slots| ==>
              SlotOk(r[j]) && r[j].elimReported == slots[j].elimReported && r[j].over == slots[j].over
  {
  }

  /** A player of this room who cannot be found any more is known to be dead, or never was on record. */
  lemma MissingIsKnown(c: Config, players: seq<PlayerRec>, down: seq<HubMsg>, n: Node, i: nat, victim: nat)
    requires LiveOk(c, players, down, n, i) && n.proc.Playing? && n.proc.phase.Routing?
    requires FindPlayer(n.proc.slots, victim) == -1 && InBlock(c, n.base, victim)
    ensures Known(players, n.up, victim)
  {
    hide HomeOk, Chain, InBlock, FindPlayer;
    if k :| 0 <= k < |n.proc.slots| && n.proc.slots[k].id == victim {
      assert SlotOk(n.proc.slots[k]);
    } else {
      assert victim !in Ids(n.proc);
      forall j | 0 <= j < |players| ensures players[j].id != victim {
        assert RecOk(c, n.base, i, n.proc, players[j]);
      }
      forall q | 0 <= q < |n.up| ensures n.up[q] != Joined(victim) {
        assert UpMsgOk(c, n.base, n.proc, n.up[q]);
      }
    }
  }

  lemma RouteAppends(c: Config, players: seq<PlayerRec>, down: seq<HubMsg>, n: Node, i: nat, k: nat, f: Fate)
    requires LiveOk(c, players, down, n, i) && n.proc.Playing? && n.proc.phase.Routing? && k < |n.proc.slots|
    requires f.Remote? ==> FindPlayer(n.proc.slots, f.attack.victim) == -1
    ensures LiveOk(c, players, down, n.(up := n.up + RoutedMsgs(f)), i)
  {
    hide LiveOk, Known, FindPlayer, InBlock;
    match f
    case Local(_, a) => AppendKeeps(c, players, down, n, i, Feed(a));
    case Remote(a) =>
      if InBlock(c, n.base, a.victim) {
        MissingIsKnown(c, players, down, n, i, a.victim);
      }
      AppendKeeps(c, players, down, n, i, Attack(a));
      var n1 := n.(up := n.up + [Attack(a)]);
      AppendKeeps(c, players, down, n1, i, Feed(a));
      assert n.up + RoutedMsgs(f) == n1.up + [Feed(a)];
    case _ => assert n.up + RoutedMsgs(f) == n.up;
  }

  lemma RouteKeeps(c: Config, players: seq<PlayerRec>, down: seq<HubMsg>, n: Node, i: nat, roll: nat, b: Systems.Books)
    requires LiveOk(c, players, down, n, i) && n.proc.Playing? && n.proc.phase.Routing?
    ensures LiveOk(c, players, down, RouteStep(n, roll, b).node, i)
  {
    hide HomeOk, Chain, UpOk, RecsOk, Aged, SlotOk, Known, FateOf, RoutedSlots;
    var p, k := n.proc, n.proc.phase.next;
    NoAge(p.slots);
    if k >= |p.slots| {
      AgeKeeps(c, players, down, n, i, p.(phase := Input));
    } else {
      var f := FateOf(p.slots, k, p.global, roll);
      var r := RoutedSlots(p.slots, k, f);
      RoutedAges(p.slots, k, f);
      AgedIds(p.slots, r);
      assert forall j :: 0 <= j < |r| ==> SlotIds(r)[j] == SlotIds(p.slots)[j];
      var n1 := n.(up := n.up + RoutedMsgs(f));
      RouteAppends(c, players, down, n, i, k, f);
      AgeKeeps(c, players, down, n1, i, p.(slots := r, phase := AfterRoute(p, k)));
    }
  }

  lemma ExitKeeps(c: Config, players: seq<PlayerRec>, down: seq<HubMsg>, n: Node, i: nat)
    requires LiveOk(c, players, down, n, i)
    ensures LiveOk(c, players, down, n.(proc := Gone), i)
  {
    hide HomeOk, InBlock, Chain;
    forall k | 0 <= k < |n.up| ensures UpMsgOk(c, n.base, Gone, n.up[k]) {
      assert UpMsgOk(c, n.base, n.proc, n.up[k]);
    }
    forall j | 0 <= j < |players| ensures RecOk(c, n.base, i, Gone, players[j]) {
      assert RecOk(c, n.base, i, n.proc, players[j]);
    }
  }

  // ----- Any worker step

  lemma BoardStepAges(s: Slot, t: Slot)
    requires BoardStep(s, t) && SlotOk(s) && s.active
    ensures AgedSlot(s, t) && SlotOk(t) && t.elimReported == s.elimReported
  {
  }

  lemma QuitAges(s: Slot)
    requires SlotOk(s)
    ensures AgedSlot(s, QuitSlot(s)) && SlotOk(QuitSlot(s)) && QuitSlot(s).elimReported == s.elimReported
  {
  }

  lemma WorkerStepKeeps(c: Config, players: seq<PlayerRec>, down: seq<HubMsg>, n: Node, i: nat, step: Step,
      b: Systems.Books)
    requires LiveOk(c, players, down, n, i) && WorkerCan(c, n, down, step)
    ensures var o := WorkerStep(c, n, down, step, b);
            (o.pop ==> down != []) && o.node.base == n.base &&
              LiveOk(c, players, if o.pop then down[1..] else down, o.node, i)
  {
    assert n.proc.Playing? ==> forall k :: 0 <= k < |n.proc.slots| ==> SlotOk(n.proc.slots[k]);
    hide LiveOk, SlotOk, ReportStep, RouteStep, BoardStep, Ticked, FreshId, OpeningSlots, LobbyRead, RoomRead;
    match step
    case Bind(_) => BindKeeps(c, players, down, n, i);
    case Join(_, id) => JoinKeeps(c, players, down, n, i, id);
    case LobbyRecv(_) => LobbyRecvKeeps(c, players, down, n, i);
    case Begin(_) => BeginKeeps(c, players, down, n, i);
    case Request(_, k, to) =>
      BoardStepAges(n.proc.slots[k], to);
      RequestKeeps(c, players, down, n, i, k, to);
    case Quit(_, k) =>
      QuitAges(n.proc.slots[k]);
      RequestKeeps(c, players, down, n, i, k, QuitSlot(n.proc.slots[k]));
    case RoomRecv(_) => RoomRecvKeeps(c, players, down, n, i);
    case Tick(_, boards) => TickKeeps(c, players, down, n, i, boards);
    case Report(_) => ReportKeeps(c, players, down, n, i, b); BaseKept(n, 0, b);
    case Route(_, roll) => RouteKeeps(c, players, down, n, i, roll, b); BaseKept(n, roll, b);
    case Exit(_) => ExitKeeps(c, players, down, n, i);
  }

  lemma BaseKept(n: Node, roll: nat, b: Systems.Books)
    requires n.proc.Playing? && !n.proc.phase.Input?
    ensures n.proc.phase.Reporting? ==> ReportStep(n, b).node.base == n.base && !ReportStep(n, b).pop
    ensures n.proc.phase.Routing? ==> RouteStep(n, roll, b).node.base == n.base && !RouteStep(n, roll, b).pop
  {
    hide FateOf, RoutedSlots, ReportedSlots;
  }
}
