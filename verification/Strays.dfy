/** Attacks that come home: even after the match they land on nobody, in every run. */
module Strays {
  import opened Hub
  import opened Masters
  import opened Rooms
  import opened Systems
  import opened SystemInvariant
  import opened WorkerInvariant
  import opened MasterInvariant
  import opened Accounting
  import Agreement

  /** A room sends attacks of its own players only, and what comes back to it is for somebody else. */
  ghost predicate StrayNode(c: Config, base: nat, sent: Bag, coming: Bag) {
    && (forall a :: a in sent ==> InBlock(c, base, a.attacker))
    && (forall a :: a in coming && InBlock(c, base, a.attacker) ==> !InBlock(c, base, a.victim))
  }

  ghost predicate StrayInv(c: Config, s: System) {
    && |s.m.rooms| == |s.nodes|
    && forall i :: 0 <= i < |s.nodes| ==>
       StrayNode(c, s.nodes[i].base, Attacks(s.nodes[i].up), Garbages(s.m.rooms[i].down))
  }

  lemma CarriedSame(c: Config, s: System, s': System)
    requires StrayInv(c, s) && |s'.m.rooms| == |s'.nodes| == |s.nodes| && Downs(s'.m.rooms) == Downs(s.m.rooms)
    requires s'.nodes == s.nodes
    ensures StrayInv(c, s')
  {
    hide StrayNode, Attacks, Garbages;
    forall i | 0 <= i < |s.nodes| ensures Garbages(s'.m.rooms[i].down) == Garbages(s.m.rooms[i].down) {
      assert Downs(s'.m.rooms)[i] == Downs(s.m.rooms)[i];
    }
  }

  lemma RecvStray(c: Config, s: System, i: nat)
    requires Inv(c, s) && StrayInv(c, s) && i < |s.nodes| && s.m.rooms[i].used && s.nodes[i].up != []
    ensures StrayInv(c, MasterRecvStep(c, s, i))
  {
    hide Inv, Attacks, Garbages, HandleMsg, Target, InBlock, Winner;
    var s', up := MasterRecvStep(c, s, i), s.nodes[i].up;
    AttacksPop(up);
    forall j | 0 <= j < |s.nodes| ensures StrayNode(c, s'.nodes[j].base, Attacks(s'.nodes[j].up),
      Garbages(s'.m.rooms[j].down)) {
      assert StrayNode(c, s.nodes[j].base, Attacks(s.nodes[j].up), Garbages(s.m.rooms[j].down));
      if up[0].Attack? {
        ForwardedStray(c, s, i, j);
      } else {
        HandleCarries(c, s.m, i, up[0]);
        assert Downs(s'.m.rooms)[j] == Downs(s.m.rooms)[j];
      }
    }
  }

  lemma ForwardedStray(c: Config, s: System, i: nat, j: nat)
    requires Inv(c, s) && StrayInv(c, s) && i < |s.nodes| && j < |s.nodes| && s.m.rooms[i].used && s.nodes[i].up != []
    requires s.nodes[i].up[0].Attack?
    ensures var base := s.nodes[j].base;
            var coming := Garbages(HandleMsg(c, s.m, i, s.nodes[i].up[0]).rooms[j].down);
            forall a :: a in coming && InBlock(c, base, a.attacker) ==> !InBlock(c, base, a.victim)
  {
    hide Inv, Attacks, Garbages, Target, InBlock, Post;
    var attack := s.nodes[i].up[0].attack;
    var t := Target(s.m, attack.victim);
    var m' := HandleMsg(c, s.m, i, s.nodes[i].up[0]);
    assert StrayNode(c, s.nodes[j].base, Attacks(s.nodes[j].up), Garbages(s.m.rooms[j].down));
    if t != -1 {
      ForwardParts(s.m.rooms, t, attack);
      assert Downs(m'.rooms)[j] == if j == t then Garbages(s.m.rooms[t].down) + multiset{attack}
        else Downs(s.m.rooms)[j];
      if j == t {
        NewStray(c, s, i, t);
      }
    }
  }

  /** A forwarded attack is a stranger to the room it reaches: by its sender, or, if it comes home, by its victim. */
  lemma NewStray(c: Config, s: System, i: nat, t: nat)
    requires Inv(c, s) && StrayInv(c, s) && i < |s.nodes| && t < |s.nodes| && s.m.rooms[i].used && s.nodes[i].up != []
    requires s.nodes[i].up[0].Attack?
    requires Target(s.m, s.nodes[i].up[0].attack.victim) == t
    ensures var a := s.nodes[i].up[0].attack;
            InBlock(c, s.nodes[t].base, a.attacker) ==> !InBlock(c, s.nodes[t].base, a.victim)
  {
    hide Attacks, Garbages, NodeOk, Housed;
    var a := s.nodes[i].up[0].attack;
    assert a in Attacks(s.nodes[i].up) by { AttacksPop(s.nodes[i].up); }
    assert StrayNode(c, s.nodes[i].base, Attacks(s.nodes[i].up), Garbages(s.m.rooms[i].down));
    if t == i {
      Agreement.HomeMeansStale(c, s, i);
    }
  }

  lemma CloseDowns(m: Master, slot: nat)
    requires slot < |m.rooms|
    ensures Downs(CloseRoom(m, slot).rooms) == Downs(m.rooms)[slot := multiset{}]
  {
    hide Downs, Post, View, CheckGlobalEnd, KillRoom, Garbages;
    var room := m.rooms[slot].(used := false, down := []);
    var m1 := m.(rooms := m.rooms[slot := room]);
    var m2 := m1.(players := KillRoom(m.players, slot));
    SetCarries(m.rooms, slot, room);
    NothingCarried();
    PostCarries(m2.rooms, Started, Roster(View(m2.players)));
    CheckEndCarries(BroadcastRoster(m2));
  }

  lemma CloseStray(c: Config, s: System, slot: nat)
    requires StrayInv(c, s) && slot < |s.nodes|
    ensures StrayInv(c, MasterCloseStep(s, slot))
  {
    hide Attacks, Garbages, CloseRoom, InBlock, Winner;
    var s' := MasterCloseStep(s, slot);
    CloseDowns(s.m, slot);
    forall j | 0 <= j < |s.nodes| ensures StrayNode(c, s'.nodes[j].base, Attacks(s'.nodes[j].up),
      Garbages(s'.m.rooms[j].down)) {
      assert StrayNode(c, s.nodes[j].base, Attacks(s.nodes[j].up), Garbages(s.m.rooms[j].down));
      assert Downs(s'.m.rooms)[j] == if j == slot then multiset{} else Downs(s.m.rooms)[j];
    }
  }

  lemma AcceptBases(c: Config, s: System, canFork: bool)
    requires |s.m.rooms| == |s.nodes|
    ensures forall j :: 0 <= j < |s.nodes| && s.m.rooms[j].used ==>
      AcceptStep(c, s, canFork).nodes[j].base == s.nodes[j].base
  {
    hide FillingFrom, FreeFrom, Base, DealInto, SpawnRoom;
  }

  lemma AcceptStray(c: Config, s: System, canFork: bool)
    requires Inv(c, s) && StrayInv(c, s)
    ensures StrayInv(c, AcceptStep(c, s, canFork))
  {
    hide Inv, Attacks, Garbages, AcceptStep, InBlock;
    var s' := AcceptStep(c, s, canFork);
    UnusedIsEmpty(c, s);
    AcceptCarries(c, s, canFork);
    AcceptBases(c, s, canFork);
    NothingCarried();
    NothingSent();
    forall j | 0 <= j < |s.nodes| ensures StrayNode(c, s'.nodes[j].base, Attacks(s'.nodes[j].up),
      Garbages(s'.m.rooms[j].down)) {
      assert StrayNode(c, s.nodes[j].base, Attacks(s.nodes[j].up), Garbages(s.m.rooms[j].down));
    }
  }

  lemma NothingSent()
    ensures Attacks([]) == multiset{}
  {
  }

  lemma WorkerSends(c: Config, players: seq<PlayerRec>, down: seq<HubMsg>, n: Node, i: nat, step: Step,
      b: Systems.Books)
    requires LiveOk(c, players, down, n, i) && WorkerCan(c, n, down, step)
    ensures var o := WorkerStep(c, n, down, step, b);
            o.node.base == n.base && forall a :: a in Attacks(o.node.up) ==>
              a in Attacks(n.up) || InBlock(c, n.base, a.attacker)
  {
    hide Attacks, LiveOk, ApplyGarbage, ReportStep, RouteStep, OpeningSlots, BoardStep, Ticked, FreshId, Landing,
         InBlock;
    match step
    case Bind(_) => AttacksAppend(n.up, Ready);
    case Join(_, id) => AttacksAppend(n.up, Joined(id));
    case Report(_) =>
      ReportBooks(n, b);
      BaseKept(n, 0, b);
    case Route(_, roll) =>
      RouteSends(c, players, down, n, i, roll, b);
      BaseKept(n, roll, b);
    case _ =>
  }

  lemma RouteSends(c: Config, players: seq<PlayerRec>, down: seq<HubMsg>, n: Node, i: nat, roll: nat, b: Systems.Books)
    requires LiveOk(c, players, down, n, i) && n.proc.Playing? && n.proc.phase.Routing?
    ensures forall a :: a in Attacks(RouteStep(n, roll, b).node.up) ==>
      a in Attacks(n.up) || InBlock(c, n.base, a.attacker)
  {
    hide Attacks, UpOk, RecsOk, ReportsOk, HomeOk, ViewsOk, FateOf, RoutedSlots, InBlock;
    var k := n.proc.phase.next;
    if k < |n.proc.slots| {
      var f := FateOf(n.proc.slots, k, n.proc.global, roll);
      assert InBlock(c, n.base, Ids(n.proc)[k]);
      match f
      case Local(_, a) => AttacksAppend(n.up, Feed(a));
      case Remote(a) =>
        AttacksAppend(n.up, Attack(a));
        AttacksAppend(n.up + [Attack(a)], Feed(a));
        assert n.up + [Attack(a), Feed(a)] == (n.up + [Attack(a)]) + [Feed(a)];
      case _ => assert n.up + [] == n.up;
    }
  }

  lemma WorkerStray(c: Config, s: System, step: Step, i: nat)
    requires Inv(c, s) && StrayInv(c, s) && i < |s.nodes| && s.m.rooms[i].used
    requires WorkerCan(c, s.nodes[i], s.m.rooms[i].down, step)
    ensures StrayInv(c, WorkerApply(c, s, step, i))
  {
    hide Inv, LiveOk, Attacks, Garbages, WorkerStep, WorkerCan, InBlock;
    var s', down := WorkerApply(c, s, step, i), s.m.rooms[i].down;
    Agreement.LiveNode(c, s, i);
    WorkerSends(c, s.m.players, down, s.nodes[i], i, step, s.books);
    PopsWhatIsThere(c, s.nodes[i], down, step, s.books);
    if down != [] {
      GarbagesPop(down);
    }
    forall j | 0 <= j < |s.nodes| ensures StrayNode(c, s'.nodes[j].base, Attacks(s'.nodes[j].up),
      Garbages(s'.m.rooms[j].down)) {
      assert StrayNode(c, s.nodes[j].base, Attacks(s.nodes[j].up), Garbages(s.m.rooms[j].down));
    }
  }

  lemma StepStray(c: Config, s: System, step: Step)
    requires Inv(c, s) && StrayInv(c, s)
    ensures StrayInv(c, Apply(c, s, step))
  {
    hide Inv, AcceptStep, StartFrom, MasterRecvStep, MasterCloseStep, WorkerApply, WorkerCan, StrayNode, Downs;
    if Enabled(c, s, step) {
      match step
      case Accept(canFork) => AcceptStray(c, s, canFork);
      case Operator =>
        StartCarries(s.m, 0);
        CarriedSame(c, s, s.(m := StartFrom(s.m, 0)));
      case MasterRecv(i) => RecvStray(c, s, i);
      case MasterClose(i) => CloseStray(c, s, i);
      case _ => WorkerStray(c, s, step, step.i);
    }
  }

  lemma {:induction false} ReachableStray(c: Config, steps: seq<Step>)
    ensures StrayInv(c, Run(c, steps))
  {
    hide StrayInv, Apply, Inv;
    if steps == [] {
      NewStrays(c);
    } else {
      ReachableStray(c, steps[..|steps| - 1]);
      ReachableInv(c, steps[..|steps| - 1]);
      StepStray(c, Run(c, steps[..|steps| - 1]), steps[|steps| - 1]);
    }
  }

  lemma NewStrays(c: Config)
    ensures StrayInv(c, NewSystem(c))
  {
  }

  /** In every run: when a room reads garbage that one of its own players sent, it lands on nobody. */
  lemma HomecomingLandsNowhere(c: Config, steps: seq<Step>, i: nat)
    ensures var s := Run(c, steps);
            i < |s.nodes| && s.m.rooms[i].used && s.nodes[i].proc.Playing? && s.m.rooms[i].down != [] &&
              s.m.rooms[i].down[0].Garbage?
            && InBlock(c, s.nodes[i].base, s.m.rooms[i].down[0].attack.attacker) ==>
              Landing(s.nodes[i].proc.slots, s.m.rooms[i].down[0].attack) == -1
  {
    hide Run, Inv, LiveOk, Garbages, Attacks, InBlock, Landing;
    ReachableStray(c, steps);
    ReachableInv(c, steps);
    var s := Run(c, steps);
    if i < |s.nodes| && s.m.rooms[i].used && s.nodes[i].proc.Playing? && s.m.rooms[i].down != [] &&
      s.m.rooms[i].down[0].Garbage?
       && InBlock(c, s.nodes[i].base, s.m.rooms[i].down[0].attack.attacker)
    {
      var down := s.m.rooms[i].down;
      GarbagesPop(down);
      assert StrayNode(c, s.nodes[i].base, Attacks(s.nodes[i].up), Garbages(down));
      Agreement.LiveNode(c, s, i);
      Agreement.StrayLandsNowhere(c, s.m.players, down, s.nodes[i], i, down[0].attack);
    }
  }
}
