/** A room worker's match loop as it runs: players updated in place, deaths reported and garbage routed by loops that
    append to the hub. Each loop is tied to the single steps of the server's step system. */
module RoomWorkers {
  import opened Hub
  import opened Rooms
  import opened Systems
  import Targeting
  import Victims

  /** All steps of the reporting loop, one after another. */
  ghost function ReportAll(n: Node, b: Books): (r: Node)
    requires n.proc.Playing? && n.proc.phase.Reporting?
    ensures r.proc.Playing? && r.proc.phase == Routing(0)
    decreases |n.proc.slots| - n.proc.phase.next
  {
    var n' := ReportStep(n, b).node;
    if n'.proc.phase.Reporting? then ReportAll(n', b) else n'
  }

  /** All steps of the routing loop; `rolls[k]` is the draw player k's attack uses if it needs one. */
  ghost function RouteAll(n: Node, rolls: seq<nat>, b: Books): (o: Outcome)
    requires n.proc.Playing? && n.proc.phase.Routing? && |rolls| >= |n.proc.slots|
    ensures o.node.proc.Playing? && o.node.proc.phase == Input
    decreases |n.proc.slots| - n.proc.phase.next
  {
    var k := n.proc.phase.next;
    var o := RouteStep(n, if k < |rolls| then rolls[k] else 0, b);
    if o.node.proc.phase.Routing? then RouteAll(o.node, rolls, o.books) else o
  }

  class RoomWorker {
    const base: nat
    var slots: seq<Slot>
    var global: HubRoster
    var matchOver: bool
    var winner: nat
    var up: seq<HubMsg> // sent on the hub, not yet read by the master

    /** The worker as a node of the step system, in a given phase. */
    ghost function Abs(phase: Phase): (n: Node)
      reads this
      ensures n.proc.Playing? && n.proc.slots == slots && n.proc.phase == phase && n.proc.global == global && n.up == up
    {
      Node(base, Playing(slots, global, phase, matchOver, winner), up)
    }

    /** Boards for everyone in the lobby, as of the global view seen there. */
    constructor (base: nat, ids: seq<nat>, seen: HubRoster, sent: seq<HubMsg>)
      ensures Abs(Input) == Node(base, Playing(OpeningSlots(ids), seen, Input, false, 0), sent)
    {
      this.base := base;
      var opening: seq<Slot> := [];
      for i := 0 to |ids|
        invariant |opening| == i && forall j :: 0 <= j < i ==> opening[j] == OpeningSlots(ids)[j]
      {
        var other := 0;
        var j := 0;
        while j < |ids|
          invariant 0 <= j <= |ids| && other == 0 && FirstOther(ids, ids[i], 0) == FirstOther(ids, ids[i], j)
        {
          if ids[j] != ids[i] {
            other := ids[j];
            break;
          }
          j := j + 1;
        }
        opening := opening + [Slot(ids[i], true, false, false, false, 0, 0, Targeting.TARGET_MANUAL, other, 0)];
      }
      assert opening == OpeningSlots(ids);
      slots, global, matchOver, winner, up := opening, seen, false, 0, sent;
    }

    method Find(id: nat) returns (k: int)
      ensures k == FindPlayer(slots, id)
    {
      var i := 0;
      while i < |slots|
        invariant 0 <= i <= |slots| && FindFrom(slots, id, 0) == FindFrom(slots, id, i)
      {
        if slots[i].active && slots[i].id == id {
          return i;
        }
        i := i + 1;
      }
      return -1;
    }

    /** How many are still in the match. */
    method CountAlivePlayers() returns (n: nat)
      ensures n == |set k | 0 <= k < |slots| && slots[k].active && !slots[k].over|
    {
      n := 0;
      ghost var alive: set<int> := {};
      for i := 0 to |slots|
        invariant alive == set k | 0 <= k < i && slots[k].active && !slots[k].over
        invariant n == |alive|
      {
        if slots[i].active && !slots[i].over {
          n := n + 1;
          alive := alive + {i};
        }
      }
    }

    // ----- Hub traffic

    method ApplyRemoteGarbage(attack: HubAttack)
      modifies this`slots
      ensures slots == ApplyGarbage(old(slots), attack)
    {
      var v := Find(attack.victim);
      if v == -1 || slots[v].over {
        return;
      }
      slots := slots[v := Hit(slots[v], attack)];
    }

    method HandleHubMsg(msg: HubMsg)
      modifies this
      ensures Abs(Input) == old(Abs(Input)).(proc := RoomRead(old(Abs(Input)).proc, msg))
    {
      hide ApplyGarbage;
      match msg {
        case Garbage(attack) => ApplyRemoteGarbage(attack);
        case Roster(roster) => global := roster;
        case GameOver(w) => winner, matchOver := w, true;
        case _ =>
      }
    }

    // ----- After a tick

    method ReportEliminations(ghost b: Books)
      modifies this`slots, this`up
      ensures Abs(Routing(0)) == ReportAll(old(Abs(Reporting(0))), b)
    {
      ghost var n := Abs(Reporting(0));
      if |slots| == 0 {
        return;
      }
      var i := 0;
      while i < |slots|
        invariant 0 <= i <= |slots| == |old(slots)|
        invariant if i < |slots| then ReportAll(Abs(Reporting(i)), b) == ReportAll(n, b)
          else Abs(Routing(0)) == ReportAll(n, b)
      {
        ghost var before := Abs(Reporting(i));
        if MustReport(slots[i]) {
          up := up + [Eliminated(slots[i].id)];
          slots := slots[i := slots[i].(elimReported := true)];
        }
        assert before.up + [] == before.up;
        i := i + 1;
        assert ReportStep(before, b).node == Abs(if i < |slots| then Reporting(i) else Routing(0));
      }
    }

    method GlobalTargets(self: nat) returns (ids: seq<nat>)
      ensures ids == GlobalCandidates(global, self)
    {
      ids := [];
      for i := 0 to |global|
        invariant ids == GlobalCandidates(global[..i], self)
      {
        assert global[..i + 1][..i] == global[..i];
        if global[i].id != self && global[i].alive {
          ids := ids + [global[i].id];
        }
      }
      assert global[..|global|] == global;
    }

    method IsAlive(id: nat) returns (alive: bool)
      ensures alive == AliveIn(global, id)
    {
      for i := 0 to |global|
        invariant forall j :: 0 <= j < i ==> !(global[j].id == id && global[j].alive)
      {
        if global[i].id == id && global[i].alive {
          return true;
        }
      }
      return false;
    }

    method ChooseVictim(k: nat, roll: nat) returns (victim: nat)
      requires k < |slots|
      ensures victim == ResolveVictim(slots, k, global, roll) && Victims.MeantFor(slots, k, global, victim)
    {
      hide GlobalCandidates, AliveIn, LocalRoster, Victims.MeantFor;
      Victims.ResolvedIsMeant(slots, k, global, roll);
      var s := slots[k];
      if s.targetMode == Targeting.TARGET_RANDOM {
        var ids := GlobalTargets(s.id);
        if |ids| > 0 {
          return ids[roll % |ids|];
        }
      }
      if s.targetMode == Targeting.TARGET_KO && s.lastAttacker != 0 && s.lastAttacker != s.id {
        var alive := IsAlive(s.lastAttacker);
        if alive {
          return s.lastAttacker;
        }
      }
      victim := Targeting.ResolveTargetId(LocalRoster(slots), s.targetMode, s.id, s.targetId, s.lastAttacker, roll);
    }

    /** Deals with the garbage of one player. */
    method RouteOne(k: nat, roll: nat)
      requires k < |slots|
      modifies this`slots, this`up
      ensures var f := FateOf(old(slots), k, global, roll);
              slots == RoutedSlots(old(slots), k, f) && up == old(up) + RoutedMsgs(f)
    {
      hide ResolveVictim;
      var s := slots[k];
      if s.outgoing == 0 {
        assert slots == slots[k := slots[k].(outgoing := 0)];
        return;
      }
      var lines := s.outgoing;
      var victim := ChooseVictim(k, roll);
      var v := Find(victim);
      slots := slots[k := s.(outgoing := 0)];
      var attack := HubAttack(s.id, victim, lines);
      if v != -1 && v != k && !slots[v].over {
        slots := slots[v := Hit(slots[v], attack)];
        up := up + [Feed(attack)];
      } else if v == -1 && victim != 0 && victim != s.id {
        up := up + [Attack(attack)];
        up := up + [Feed(attack)];
      }
    }

    method RouteGarbage(rolls: seq<nat>, ghost b: Books)
      requires |rolls| >= |slots|
      modifies this`slots, this`up
      ensures Abs(Input) == RouteAll(old(Abs(Routing(0))), rolls, b).node
    {
      hide FateOf, RoutedSlots, RoutedMsgs;
      ghost var n := Abs(Routing(0));
      ghost var books := b;
      if |slots| == 0 {
        return;
      }
      var i := 0;
      while i < |slots|
        invariant 0 <= i <= |slots| == |old(slots)|
        invariant if i < |slots| then RouteAll(Abs(Routing(i)), rolls, books) == RouteAll(n, rolls, b)
                  else Abs(Input) == RouteAll(n, rolls, b).node
      {
        ghost var before := Abs(Routing(i));
        ghost var o := RouteStep(before, rolls[i], books);
        RouteOne(i, rolls[i]);
        i := i + 1;
        assert o.node == Abs(if i < |slots| then Routing(i) else Input);
        books := o.books;
      }
    }

    /** What follows every tick, in this order: deaths are reported, then garbage is routed. */
    method AfterTick(rolls: seq<nat>, ghost b: Books)
      requires |rolls| >= |slots|
      modifies this`slots, this`up
      ensures var reported := ReportAll(old(Abs(Reporting(0))), b);
              |reported.proc.slots| == |old(slots)| && Abs(Input) == RouteAll(reported, rolls, b).node
    {
      hide ReportAll, RouteAll;
      SameCount(Abs(Reporting(0)), b);
      ReportEliminations(b);
      RouteGarbage(rolls, b);
    }
  }

  lemma {:induction false} SameCount(n: Node, b: Books)
    requires n.proc.Playing? && n.proc.phase.Reporting?
    ensures |ReportAll(n, b).proc.slots| == |n.proc.slots|
    decreases |n.proc.slots| - n.proc.phase.next
  {
    var n' := ReportStep(n, b).node;
    if n'.proc.phase.Reporting? {
      SameCount(n', b);
    }
  }
}
