/** Whom an attack is meant for, and what becomes of it on each leg of its way, over whole runs of the server. */
module Victims {
  import opened Hub
  import opened Masters
  import opened Rooms
  import opened Systems
  import opened SystemInvariant
  import opened MasterInvariant
  import UniqueIds
  import Targeting

  // ----- The choice

  /** Someone else who is alive on the room's roster of the match. */
  predicate Rival(v: PlayerView, self: nat) {
    v.alive && v.id != self
  }

  /** Someone else whom the room itself does not show as out. */
  predicate Opponent(s: Slot, self: nat) {
    !s.eliminated && s.id != self
  }

  ghost predicate AnyRival(global: HubRoster, self: nat) {
    exists i :: 0 <= i < |global| && Rival(global[i], self)
  }

  ghost predicate AnyOpponent(slots: seq<Slot>, self: nat) {
    exists j :: 0 <= j < |slots| && Opponent(slots[j], self)
  }

  /** The last attacker is someone else, and alive by the match's roster. */
  ghost predicate Avengeable(global: HubRoster, s: Slot) {
    s.lastAttacker != 0 && exists i :: 0 <= i < |global| && Rival(global[i], s.id) && global[i].id == s.lastAttacker
  }

  /** The same by what the room itself shows. */
  ghost predicate AvengeableHere(slots: seq<Slot>, s: Slot) {
    s.lastAttacker != 0 && exists j :: 0 <= j < |slots| && Opponent(slots[j], s.id) && slots[j].id == s.lastAttacker
  }

  /** Whom player k's garbage is for: at random, any rival in the match; in revenge, a last attacker who is a rival; if
      the match's roster offers none, the same among the room's own players; and otherwise the locked target. */
  ghost predicate MeantFor(slots: seq<Slot>, k: nat, global: HubRoster, v: nat)
    requires k < |slots|
  {
    var s := slots[k];
    if s.targetMode == Targeting.TARGET_RANDOM && AnyRival(global, s.id) then
      exists i :: 0 <= i < |global| && Rival(global[i], s.id) && global[i].id == v
    else if s.targetMode == Targeting.TARGET_RANDOM && AnyOpponent(slots, s.id) then
      exists j :: 0 <= j < |slots| && Opponent(slots[j], s.id) && slots[j].id == v
    else if s.targetMode == Targeting.TARGET_KO && (Avengeable(global, s) || AvengeableHere(slots, s)) then
      v == s.lastAttacker
    else v == s.targetId
  }

  lemma ResolvedIsMeant(slots: seq<Slot>, k: nat, global: HubRoster, roll: nat)
    requires k < |slots|
    ensures MeantFor(slots, k, global, ResolveVictim(slots, k, global, roll))
  {
    hide GlobalCandidates, Targeting.ResolveTarget;
    var s := slots[k];
    var ids := GlobalCandidates(global, s.id);
    var local := LocalRoster(slots);
    Targeting.ResolveTargetSound(local, s.targetMode, s.id, s.targetId, s.lastAttacker, roll);
    forall j | 0 <= j < |slots| ensures Targeting.Candidate(s.id, local[j]) <==> Opponent(slots[j], s.id) {
    }
    if s.targetMode == Targeting.TARGET_RANDOM {
      if ids != [] {
        var v := ids[roll % |ids|];
        assert v in ids;
        var i :| 0 <= i < |global| && global[i] == PlayerView(v, true);
        assert Rival(global[i], s.id);
      } else {
        assert !AnyRival(global, s.id);
      }
    } else if s.targetMode == Targeting.TARGET_KO {
      assert Avengeable(global, s) <==>
        s.lastAttacker != 0 && s.lastAttacker != s.id && AliveIn(global, s.lastAttacker);
      HereIsLocal(slots, s);
    }
  }

  lemma HereIsLocal(slots: seq<Slot>, s: Slot)
    ensures AvengeableHere(slots, s) <==> Targeting.Avengeable(LocalRoster(slots), s.id, s.lastAttacker)
  {
    var local := LocalRoster(slots);
    if Targeting.Avengeable(local, s.id, s.lastAttacker) {
      var j :| 0 <= j < |local| && local[j].id == s.lastAttacker && !local[j].eliminated;
      assert Opponent(slots[j], s.id);
    }
    if AvengeableHere(slots, s) {
      var j :| 0 <= j < |slots| && Opponent(slots[j], s.id) && slots[j].id == s.lastAttacker;
      assert local[j].id == s.lastAttacker;
    }
  }

  /** At random every rival can be hit: for each there is a draw that picks it. */
  lemma EveryRivalCanBeHit(slots: seq<Slot>, k: nat, global: HubRoster, i: nat)
    requires k < |slots| && slots[k].targetMode == Targeting.TARGET_RANDOM
    requires i < |global| && Rival(global[i], slots[k].id)
    ensures exists roll :: ResolveVictim(slots, k, global, roll) == global[i].id
  {
    hide GlobalCandidates, Targeting.ResolveTarget;
    var ids := GlobalCandidates(global, slots[k].id);
    var n :| 0 <= n < |ids| && ids[n] == global[i].id;
    assert n % |ids| == n;
    assert ResolveVictim(slots, k, global, n) == global[i].id;
  }

  /** When a room begins, nobody has been attacked and everybody aims by hand, at the first other player of the room. */
  lemma OpeningAims(ids: seq<nat>, k: nat)
    requires k < |ids|
    ensures var s := OpeningSlots(ids)[k];
            && s.targetMode == Targeting.TARGET_MANUAL && s.lastAttacker == 0 && !s.eliminated
            && ((forall j :: 0 <= j < |ids| ==> ids[j] == ids[k]) ==> s.targetId == 0)
            && forall j :: 0 <= j < |ids| && ids[j] != ids[k] && (forall q :: 0 <= q < j ==> ids[q] == ids[k]) ==>
                 s.targetId == ids[j]
  {
    hide FirstOther;
    FirstOtherIs(ids, ids[k], 0);
  }

  // ----- Leaving the sender's room

  /** A connected player of the room has this id. */
  ghost predicate PlaysHere(slots: seq<Slot>, id: nat) {
    exists v :: 0 <= v < |slots| && slots[v].active && slots[v].id == id
  }

  /** ... and is still in the game. */
  ghost predicate LivesHere(slots: seq<Slot>, id: nat) {
    exists v :: 0 <= v < |slots| && slots[v].active && !slots[v].over && slots[v].id == id
  }

  /** What routing player k's garbage does with the attack: it lands on a living player of the room, is sent to the
      master if the room has no such player, and is dropped if the victim here is out, or is the sender, or nobody. */
  ghost predicate SentOn(slots: seq<Slot>, me: nat, a: HubAttack, n: Node, n': Node, b: Books, b': Books) {
    && b'.consumed == b.consumed + multiset{a}
    && if a.victim != me && LivesHere(slots, a.victim) then
         b'.landed == b.landed + multiset{a} && b'.dropped == b.dropped && n'.up == n.up + [Feed(a)]
       else if a.victim != me && a.victim != 0 && !PlaysHere(slots, a.victim) then
         b'.landed == b.landed && b'.dropped == b.dropped && n'.up == n.up + [Attack(a), Feed(a)]
       else
         b'.landed == b.landed && b'.dropped == b.dropped + multiset{a} && n'.up == n.up
  }

  /** Player k's garbage, if any, has gone where its mode says, and its meter is empty. */
  ghost predicate RoutedByMode(k: nat, n: Node, n': Node, b: Books, b': Books)
    requires n.proc.Playing? && k < |n.proc.slots|
  {
    var slots, s := n.proc.slots, n.proc.slots[k];
    && n'.proc.Playing? && |n'.proc.slots| == |slots| && n'.proc.slots[k].outgoing == 0
    && if s.outgoing == 0 then n'.proc.slots == slots && n'.up == n.up && b' == b
       else exists v :: MeantFor(slots, k, n.proc.global, v) &&
                        SentOn(slots, s.id, HubAttack(s.id, v, s.outgoing), n, n', b, b')
  }

  lemma FoundHere(slots: seq<Slot>, id: nat)
    requires Increasing(SlotIds(slots))
    ensures FindPlayer(slots, id) != -1 <==> PlaysHere(slots, id)
    ensures FindPlayer(slots, id) != -1 && !slots[FindPlayer(slots, id)].over <==> LivesHere(slots, id)
  {
    hide FindPlayer;
    var v := FindPlayer(slots, id);
    forall w | 0 <= w < |slots| && slots[w].active && slots[w].id == id ensures w == v {
      assert SlotIds(slots)[w] == SlotIds(slots)[v];
    }
  }

  lemma FateByMode(slots: seq<Slot>, k: nat, global: HubRoster, roll: nat)
    requires Increasing(SlotIds(slots)) && k < |slots| && slots[k].outgoing > 0
    ensures var f, me := FateOf(slots, k, global, roll), slots[k].id;
            && !f.Idle? && MeantFor(slots, k, global, f.attack.victim)
            && f.attack == HubAttack(me, f.attack.victim, slots[k].outgoing)
            && (f.Local? <==> f.attack.victim != me && LivesHere(slots, f.attack.victim))
            && (f.Remote? <==> f.attack.victim != me && f.attack.victim != 0 && !PlaysHere(slots, f.attack.victim))
  {
    hide MeantFor, FindPlayer, ResolveVictim, PlaysHere, LivesHere;
    var victim := ResolveVictim(slots, k, global, roll);
    ResolvedIsMeant(slots, k, global, roll);
    FoundHere(slots, victim);
    var v := FindPlayer(slots, victim);
    assert v != -1 ==> SlotIds(slots)[v] == victim;
    assert SlotIds(slots)[k] == slots[k].id;
    LivesPlays(slots, victim);
  }

  lemma LivesPlays(slots: seq<Slot>, id: nat)
    ensures LivesHere(slots, id) ==> PlaysHere(slots, id)
  {
  }

  lemma RouteByMode(n: Node, roll: nat, b: Books)
    requires n.proc.Playing? && n.proc.phase.Routing? && n.proc.phase.next < |n.proc.slots|
    requires Increasing(SlotIds(n.proc.slots))
    ensures RoutedByMode(n.proc.phase.next, n, RouteStep(n, roll, b).node, b, RouteStep(n, roll, b).books)
  {
    hide FateOf, MeantFor, LivesHere, PlaysHere;
    var k, slots := n.proc.phase.next, n.proc.slots;
    var f := FateOf(slots, k, n.proc.global, roll);
    if slots[k].outgoing == 0 {
      assert f == Idle by { IdleFate(slots, k, n.proc.global, roll); }
      assert slots[k := slots[k].(outgoing := 0)] == slots;
      assert n.up + [] == n.up;
    } else {
      FateByMode(slots, k, n.proc.global, roll);
      assert n.up + [] == n.up;
      assert SentOn(slots, slots[k].id, f.attack, n, RouteStep(n, roll, b).node, b, RouteStep(n, roll, b).books);
    }
  }

  lemma IdleFate(slots: seq<Slot>, k: nat, global: HubRoster, roll: nat)
    requires k < |slots| && slots[k].outgoing == 0
    ensures FateOf(slots, k, global, roll) == Idle
  {
  }

  /** The player whose garbage this step routes, if it is such a step. */
  ghost predicate Routes(c: Config, s: System, step: Step)
    requires |s.m.rooms| == |s.nodes|
  {
    step.Route? && Enabled(c, s, step) && s.nodes[step.i].proc.phase.next < |s.nodes[step.i].proc.slots|
  }

  lemma OnlyRoutingConsumes(c: Config, s: System, step: Step)
    requires |s.m.rooms| == |s.nodes|
    ensures Routes(c, s, step) || Apply(c, s, step).books.consumed == s.books.consumed
  {
    hide HandleMsg, StartFrom, CloseRoom, FillingFrom, FreeFrom, FateOf, ApplyGarbage, OpeningSlots, ReportedSlots,
         FreshId, BoardStep, Ticked, RoutedSlots, Landing, Target, Garbages, Finished;
  }

  lemma IdsInOrder(c: Config, s: System, i: nat)
    requires Inv(c, s) && i < |s.nodes| && s.m.rooms[i].used && s.nodes[i].proc.Playing?
    ensures Increasing(SlotIds(s.nodes[i].proc.slots))
  {
    hide Base, BlocksApart, Housed, UpOk, RecsOk, ReportsOk, HomeOk, ViewsOk, Increasing;
    assert NodeOk(c, s.m, s.nodes[i], i);
  }

  /** In every run garbage leaves a board only when its room routes it, and then it goes to whom the player's mode says,
      in the way that person's whereabouts say. */
  lemma AttacksGoByMode(c: Config, steps: seq<Step>, next: Step)
    ensures var s := Run(c, steps);
            var s' := Apply(c, s, next);
            if Routes(c, s, next) then
              RoutedByMode(s.nodes[next.i].proc.phase.next, s.nodes[next.i], s'.nodes[next.i], s.books, s'.books)
            else s'.books.consumed == s.books.consumed
  {
    hide Run, Inv, RouteStep, Increasing, RoutedByMode, Apply;
    var s := Run(c, steps);
    ReachableInv(c, steps);
    OnlyRoutingConsumes(c, s, next);
    if Routes(c, s, next) {
      IdsInOrder(c, s, next.i);
      RouteByMode(s.nodes[next.i], next.roll, s.books);
      RouteApplied(c, s, next);
    }
  }

  lemma RouteApplied(c: Config, s: System, step: Step)
    requires |s.m.rooms| == |s.nodes| && Routes(c, s, step)
    ensures var o := RouteStep(s.nodes[step.i], step.roll, s.books);
            Apply(c, s, step).nodes[step.i] == o.node && Apply(c, s, step).books == o.books
  {
    hide RouteStep;
  }

  // ----- Everybody's turn comes

  /** While a room routes, everyone before the player whose turn it is has nothing left to send. */
  ghost predicate TurnsTaken(p: Proc) {
    p.Playing? && p.phase.Routing? ==> forall k :: 0 <= k < |p.slots| && k < p.phase.next ==> p.slots[k].outgoing == 0
  }

  /** The room has just finished routing. */
  ghost predicate Finishes(p: Proc, p': Proc) {
    p.Playing? && p.phase.Routing? && p'.Playing? && p'.phase.Input?
  }

  ghost predicate NothingLeft(p: Proc) {
    p.Playing? ==> forall k :: 0 <= k < |p.slots| ==> p.slots[k].outgoing == 0
  }

  lemma RouteTurn(n: Node, roll: nat, b: Books)
    requires n.proc.Playing? && n.proc.phase.Routing? && TurnsTaken(n.proc)
    ensures var p := RouteStep(n, roll, b).node.proc; TurnsTaken(p) && (Finishes(n.proc, p) ==> NothingLeft(p))
  {
    hide FateOf;
  }

  lemma WorkerTurn(c: Config, n: Node, down: seq<HubMsg>, step: Step, b: Books)
    requires WorkerCan(c, n, down, step) && TurnsTaken(n.proc)
    ensures var p := WorkerStep(c, n, down, step, b).node.proc;
      TurnsTaken(p) && (Finishes(n.proc, p) ==> NothingLeft(p))
  {
    hide RouteStep, ReportedSlots, OpeningSlots, ApplyGarbage, Ticked, BoardStep, FreshId, Landing, MustReport;
    if step.Route? {
      RouteTurn(n, step.roll, b);
    }
  }

  ghost predicate AllTurns(s: System) {
    forall i :: 0 <= i < |s.nodes| ==> TurnsTaken(s.nodes[i].proc)
  }

  lemma StepTurns(c: Config, s: System, step: Step)
    requires |s.m.rooms| == |s.nodes| && AllTurns(s)
    ensures var s' := Apply(c, s, step);
            AllTurns(s') && forall i :: 0 <= i < |s.nodes| ==>
              (Finishes(s.nodes[i].proc, s'.nodes[i].proc) ==> NothingLeft(s'.nodes[i].proc))
  {
    hide StartFrom, HandleMsg, CloseRoom, WorkerStep, WorkerCan, Garbages, Target, Winner, Finished, FillingFrom,
         FreeFrom, NothingLeft, Base;
    if Enabled(c, s, step) && !step.Accept? && !step.Operator? && !step.MasterRecv? && !step.MasterClose? {
      WorkerTurn(c, s.nodes[step.i], s.m.rooms[step.i].down, step, s.books);
    }
  }

  lemma {:induction false} ReachableTurns(c: Config, steps: seq<Step>)
    ensures AllTurns(Run(c, steps))
  {
    hide Apply, TurnsTaken, Finishes, NothingLeft;
    if steps == [] {
      NewTurns(c);
    } else {
      ReachableTurns(c, steps[..|steps| - 1]);
      StepTurns(c, Run(c, steps[..|steps| - 1]), steps[|steps| - 1]);
    }
  }

  lemma NewTurns(c: Config)
    ensures AllTurns(NewSystem(c))
  {
  }

  /** In every run, when a room is done routing and goes back to its players, nobody's garbage is left behind. */
  lemma EveryoneIsRouted(c: Config, steps: seq<Step>, next: Step, i: nat)
    ensures var s := Run(c, steps);
            var s' := Apply(c, s, next);
            i < |s.nodes| && Finishes(s.nodes[i].proc, s'.nodes[i].proc) ==> NothingLeft(s'.nodes[i].proc)
  {
    hide Run, Apply, TurnsTaken, Finishes, NothingLeft;
    ReachableTurns(c, steps);
    StepTurns(c, Run(c, steps), next);
  }

  // ----- Through the master

  /** The victim is alive on record, in a room that has started. */
  ghost predicate Reachable(m: Master, victim: nat, slot: nat) {
    && slot < |m.rooms| && m.rooms[slot].used && m.rooms[slot].started
    && exists j :: 0 <= j < |m.players| && m.players[j] == PlayerRec(victim, slot, true)
  }

  /** Only the channel of `slot` has grown, by this message. */
  ghost predicate OnlyAdded(rooms: seq<MRoom>, rooms': seq<MRoom>, slot: nat, msg: HubMsg) {
    && |rooms'| == |rooms| && slot < |rooms| && rooms'[slot] == rooms[slot].(down := rooms[slot].down + [msg])
    && forall j :: 0 <= j < |rooms| && j != slot ==> rooms'[j] == rooms[j]
  }

  lemma TargetIsReachable(m: Master, victim: nat)
    requires UniqueIds.DistinctRecs(m.players)
    ensures forall slot :: 0 <= slot < |m.rooms| ==> (Reachable(m, victim, slot) <==> Target(m, victim) == slot)
  {
    hide LivingIndex;
    var i := LivingIndex(m.players, victim, 0);
    forall slot | 0 <= slot < |m.rooms| ensures Reachable(m, victim, slot) <==> Target(m, victim) == slot {
      if Reachable(m, victim, slot) {
        var j :| 0 <= j < |m.players| && m.players[j] == PlayerRec(victim, slot, true);
        assert i != -1 && m.players[i].id == m.players[j].id;
        assert i == j;
      }
    }
  }

  /** In every run, when the master reads an attack: if its victim is alive on record in a started room, that room and
      no other is sent the garbage; otherwise it is dropped, and nothing is sent. */
  lemma AttacksAreForwarded(c: Config, steps: seq<Step>, i: nat)
    ensures var s := Run(c, steps);
            var s' := Apply(c, s, MasterRecv(i));
            i < |s.nodes| && s.m.rooms[i].used && s.nodes[i].up != [] && s.nodes[i].up[0].Attack? ==>
              var a := s.nodes[i].up[0].attack;
              && s'.m.players == s.m.players && s'.nodes[i].up == s.nodes[i].up[1..]
              && (forall slot :: 0 <= slot < |s.m.rooms| && Reachable(s.m, a.victim, slot) ==>
                    OnlyAdded(s.m.rooms, s'.m.rooms, slot, Garbage(a)) && s'.books == s.books)
              && ((forall slot :: 0 <= slot < |s.m.rooms| ==> !Reachable(s.m, a.victim, slot)) ==>
                    s'.m == s.m && s'.books == s.books.(dropped := s.books.dropped + multiset{a}))
  {
    hide Run, Inv, Reachable, OnlyAdded, Apply, Target;
    var s := Run(c, steps);
    if i < |s.nodes| && s.m.rooms[i].used && s.nodes[i].up != [] && s.nodes[i].up[0].Attack? {
      UniqueIds.ReachableUnique(c, steps);
      TargetIsReachable(s.m, s.nodes[i].up[0].attack.victim);
      Forwarded(c, s, i);
      var t := Target(s.m, s.nodes[i].up[0].attack.victim);
      assert t == -1 || Reachable(s.m, s.nodes[i].up[0].attack.victim, t);
    }
  }

  lemma Forwarded(c: Config, s: System, i: nat)
    requires |s.m.rooms| == |s.nodes| && i < |s.nodes| && s.m.rooms[i].used
    requires s.nodes[i].up != [] && s.nodes[i].up[0].Attack?
    ensures var s', a := Apply(c, s, MasterRecv(i)), s.nodes[i].up[0].attack;
            var t := Target(s.m, a.victim);
            && s'.m.players == s.m.players && s'.nodes[i].up == s.nodes[i].up[1..]
            && if t == -1 then s'.m == s.m && s'.books == s.books.(dropped := s.books.dropped + multiset{a})
               else OnlyAdded(s.m.rooms, s'.m.rooms, t, Garbage(a)) && s'.books == s.books
  {
    hide Target, Finished;
  }

  // ----- Arriving

  /** In every run, when a running room reads garbage: it lands if its victim is a living player of the room, and is
      dropped otherwise. */
  lemma GarbageArrives(c: Config, steps: seq<Step>, i: nat)
    ensures var s := Run(c, steps);
            var s' := Apply(c, s, RoomRecv(i));
            i < |s.nodes| && Enabled(c, s, RoomRecv(i)) && s.m.rooms[i].down[0].Garbage? ==>
              var a := s.m.rooms[i].down[0].attack;
              s'.books ==
                if LivesHere(s.nodes[i].proc.slots, a.victim)
                then s.books.(landed := s.books.landed + multiset{a})
                else s.books.(dropped := s.books.dropped + multiset{a})
  {
    hide Run, Inv, Increasing, LivesHere;
    var s := Run(c, steps);
    ReachableInv(c, steps);
    if i < |s.nodes| && Enabled(c, s, RoomRecv(i)) && s.m.rooms[i].down[0].Garbage? {
      IdsInOrder(c, s, i);
      FoundHere(s.nodes[i].proc.slots, s.m.rooms[i].down[0].attack.victim);
    }
  }
}
