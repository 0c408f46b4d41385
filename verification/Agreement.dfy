/** What the processes agree on: deaths, views of the match, and where attacks go. */
module Agreement {
  import opened Hub
  import opened Masters
  import opened Rooms
  import opened Systems
  import opened SystemInvariant
  import opened WorkerInvariant
  import opened MasterInvariant
  import UniqueIds

  /** A worker that is running in slot i. */
  ghost predicate Runs(s: System, i: nat)
    requires |s.m.rooms| == |s.nodes|
  {
    i < |s.nodes| && s.m.rooms[i].used && !s.nodes[i].proc.Gone?
  }

  /** The player's own board is over, or the room it joined is no longer running: its hub closed, its process gone,
      or its slot handed to a later room with other ids. */
  ghost predicate ReallyDead(c: Config, s: System, r: PlayerRec)
    requires |s.m.rooms| == |s.nodes|
  {
    Runs(s, r.room) && InBlock(c, s.nodes[r.room].base, r.id) ==> OverIn(s.nodes[r.room].proc, r.id)
  }

  lemma LiveNode(c: Config, s: System, i: nat)
    requires Inv(c, s) && i < |s.nodes| && s.m.rooms[i].used
    ensures LiveOk(c, s.m.players, s.m.rooms[i].down, s.nodes[i], i)
  {
    hide LiveOk, Base;
    assert NodeOk(c, s.m, s.nodes[i], i);
  }

  /** Whoever the master shows as dead is dead. */
  lemma RecordedDeathsAreReal(c: Config, steps: seq<Step>, j: nat)
    ensures var s := Run(c, steps); j < |s.m.players| && !s.m.players[j].alive ==> ReallyDead(c, s, s.m.players[j])
  {
    hide Run, Inv;
    ReachableInv(c, steps);
    var s := Run(c, steps);
    if j < |s.m.players| && !s.m.players[j].alive {
      InvDeathIsReal(c, s, j);
    }
  }

  lemma InvDeathIsReal(c: Config, s: System, j: nat)
    requires Inv(c, s) && j < |s.m.players| && !s.m.players[j].alive
    ensures ReallyDead(c, s, s.m.players[j])
  {
    var r := s.m.players[j];
    if Runs(s, r.room) && InBlock(c, s.nodes[r.room].base, r.id) {
      LiveNode(c, s, r.room);
      hide Inv, ProcOk, UpOk, ReportsOk, HomeOk, ViewsOk, OverIn, InBlock;
      assert RecOk(c, s.nodes[r.room].base, r.room, s.nodes[r.room].proc, r);
    }
  }

  /** A death a room has reported is either on the master's record already or still in that room's channel;
      nothing can announce the player as joined afterwards. */
  lemma ReportedDeathsAreNotLost(c: Config, steps: seq<Step>, i: nat, k: nat)
    ensures var s := Run(c, steps);
            Runs(s, i) && s.nodes[i].proc.Playing? && k < |s.nodes[i].proc.slots| &&
              s.nodes[i].proc.slots[k].elimReported ==>
              var id := s.nodes[i].proc.slots[k].id;
              && s.nodes[i].proc.slots[k].over
              && (Eliminated(id) in s.nodes[i].up
                  || (Joined(id) !in s.nodes[i].up && forall j :: 0 <= j < |s.m.players| && s.m.players[j].id == id ==>
                     !s.m.players[j].alive))
  {
    hide Run, Inv;
    ReachableInv(c, steps);
    var s := Run(c, steps);
    if Runs(s, i) && s.nodes[i].proc.Playing? && k < |s.nodes[i].proc.slots| && s.nodes[i].proc.slots[k].elimReported {
      LiveNode(c, s, i);
      hide UpOk, RecsOk, HomeOk, ViewsOk;
      assert Known(s.m.players, s.nodes[i].up, s.nodes[i].proc.slots[k].id);
      assert SlotOk(s.nodes[i].proc.slots[k]);
    }
  }

  /** Every running room's view of the match, the views on their way to it and the master's record come in order: ids
      are only appended and nobody revives. */
  lemma ViewsInOrder(c: Config, steps: seq<Step>, i: nat)
    ensures var s := Run(c, steps);
            Runs(s, i) ==>
              && Chain(Seen(s.nodes[i].proc), s.m.rooms[i].down, View(s.m.players))
              && Older(Seen(s.nodes[i].proc), View(s.m.players))
  {
    hide Run, Inv, Chain, Older;
    ReachableInv(c, steps);
    var s := Run(c, steps);
    if Runs(s, i) {
      LiveNode(c, s, i);
      ChainEnds(Seen(s.nodes[i].proc), s.m.rooms[i].down, View(s.m.players));
    }
  }

  /** A view is never wrong about a death: whoever any room believes dead is dead on record and dead for real. */
  lemma ViewNeverWrong(c: Config, steps: seq<Step>, i: nat, j: nat)
    ensures var s := Run(c, steps);
            Runs(s, i) && j < |Seen(s.nodes[i].proc)| && !Seen(s.nodes[i].proc)[j].alive ==>
              && j < |s.m.players| && s.m.players[j].id == Seen(s.nodes[i].proc)[j].id && !s.m.players[j].alive
              && ReallyDead(c, s, s.m.players[j])
  {
    hide Run, Inv, Chain, ReallyDead;
    ViewsInOrder(c, steps, i);
    RecordedDeathsAreReal(c, steps, j);
  }

  // ----- Views move forward

  lemma WorkerViewForward(c: Config, players: seq<PlayerRec>, down: seq<HubMsg>, n: Node, i: nat, step: Step,
      b: Systems.Books)
    requires LiveOk(c, players, down, n, i) && WorkerCan(c, n, down, step) && !n.proc.Gone?
    ensures var p := WorkerStep(c, n, down, step, b).node.proc; p.Gone? || Older(Seen(n.proc), Seen(p))
  {
    OlderSelf(Seen(n.proc));
    assert Chain(Seen(n.proc), down, View(players));
    hide Older, ProcOk, UpOk, RecsOk, ReportsOk, HomeOk, ApplyGarbage, FateOf, RoutedSlots, ReportedSlots, OpeningSlots;
  }

  /** Over any step a room that keeps running never goes back to an earlier view. */
  lemma ViewsMoveForward(c: Config, steps: seq<Step>, next: Step, i: nat)
    ensures var s := Run(c, steps);
            var s' := Apply(c, s, next);
            Runs(s, i) && Runs(s', i) && s'.nodes[i].base == s.nodes[i].base ==>
              Older(Seen(s.nodes[i].proc), Seen(s'.nodes[i].proc))
  {
    hide Run, Inv, Older, Apply;
    ReachableInv(c, steps);
    var s := Run(c, steps);
    if Runs(s, i) {
      InvSizes(c, s);
      OlderSelf(Seen(s.nodes[i].proc));
      LiveNode(c, s, i);
      StepOnNode(c, s, next, i);
    }
  }

  lemma StepOnNode(c: Config, s: System, step: Step, i: nat)
    requires |s.m.rooms| == |s.nodes| && Runs(s, i) && LiveOk(c, s.m.players, s.m.rooms[i].down, s.nodes[i], i)
    ensures var p := Apply(c, s, step).nodes[i].proc; p.Gone? || Older(Seen(s.nodes[i].proc), Seen(p))
  {
    hide LiveOk, Older, HandleMsg, CloseRoom, StartFrom, WorkerStep, WorkerCan, DealInto, SpawnRoom, Base, Target;
    OlderSelf(Seen(s.nodes[i].proc));
    if Enabled(c, s, step) && !step.Accept? && !step.Operator? && !step.MasterRecv? && !step.MasterClose? &&
      step.i == i {
      WorkerViewForward(c, s.m.players, s.m.rooms[i].down, s.nodes[i], i, step, s.books);
    }
  }

  // ----- Attacks do not bounce home

  /** Until the match is decided the master never sends an attack back to the room it came from, even when the victim
      has just quit there: the room reports deaths before it routes garbage, on the same channel. */
  lemma NoBounce(c: Config, steps: seq<Step>, i: nat)
    ensures var s := Run(c, steps);
            i < |s.nodes| && s.m.rooms[i].used && s.nodes[i].up != [] && s.nodes[i].up[0].Attack? && !s.m.matchEnded ==>
              Target(s.m, s.nodes[i].up[0].attack.victim) != i
  {
    hide Run, Inv, Target;
    ReachableInv(c, steps);
    var s := Run(c, steps);
    if i < |s.nodes| && s.m.rooms[i].used && s.nodes[i].up != [] && s.nodes[i].up[0].Attack? {
      HomeMeansStale(c, s, i);
    }
  }

  /** An attack that does go home is for a player of an earlier room of the slot, left alive on record by the end of the
      match. */
  lemma HomeMeansStale(c: Config, s: System, i: nat)
    requires Inv(c, s) && i < |s.nodes| && |s.m.rooms| == |s.nodes| && s.m.rooms[i].used && s.nodes[i].up != []
    requires s.nodes[i].up[0].Attack?
    ensures Target(s.m, s.nodes[i].up[0].attack.victim) == i ==>
              s.m.matchEnded && !InBlock(c, s.nodes[i].base, s.nodes[i].up[0].attack.victim)
  {
    var n := s.nodes[i];
    var victim := n.up[0].attack.victim;
    if Target(s.m, victim) == i {
      var j := LivingIndex(s.m.players, victim, 0);
      assert s.m.players[j].id == victim && s.m.players[j].alive && s.m.players[j].room == i;
      LiveNode(c, s, i);
      assert Housed(c, s, s.m.players[j]);
      hide Inv, ProcOk, UpOk, RecsOk, ReportsOk, ViewsOk, Target, InBlock;
      assert n.up[..0] == [];
    }
  }

  /** On record as alive in slot i, but with an id that the slot's present room did not hand out. */
  ghost predicate LeftBehind(c: Config, s: System, i: nat, id: nat)
    requires i < |s.nodes|
  {
    !InBlock(c, s.nodes[i].base, id) && exists j :: 0 <= j < |s.m.players| && s.m.players[j] == PlayerRec(id, i, true)
  }

  lemma LivingRecord(players: seq<PlayerRec>, j: nat)
    requires UniqueIds.DistinctRecs(players) && j < |players| && players[j].alive
    ensures LivingIndex(players, players[j].id, 0) == j
  {
  }

  /** Over every run, an attack goes back to the slot it came from if and only if the match is over and its victim was
      left behind on the record by an earlier room of that slot. */
  lemma BouncesExactlyWhen(c: Config, steps: seq<Step>, i: nat)
    ensures var s := Run(c, steps);
            i < |s.nodes| && s.m.rooms[i].used && s.nodes[i].up != [] && s.nodes[i].up[0].Attack? ==>
              var victim := s.nodes[i].up[0].attack.victim;
              Target(s.m, victim) == i <==> s.m.matchEnded && s.m.rooms[i].started && LeftBehind(c, s, i, victim)
  {
    hide Run, Inv, InBlock, LivingIndex;
    UniqueIds.ReachableUnique(c, steps);
    var s := Run(c, steps);
    if i < |s.nodes| && s.m.rooms[i].used && s.nodes[i].up != [] && s.nodes[i].up[0].Attack? {
      var victim := s.nodes[i].up[0].attack.victim;
      HomeMeansStale(c, s, i);
      if j :| 0 <= j < |s.m.players| && s.m.players[j] == PlayerRec(victim, i, true) {
        LivingRecord(s.m.players, j);
      }
    }
  }

  /** Garbage for somebody outside the room's block lands on nobody. */
  lemma StrayLandsNowhere(c: Config, players: seq<PlayerRec>, down: seq<HubMsg>, n: Node, i: nat, attack: HubAttack)
    requires LiveOk(c, players, down, n, i) && n.proc.Playing? && !InBlock(c, n.base, attack.victim)
    ensures Landing(n.proc.slots, attack) == -1
  {
    hide UpOk, RecsOk, ReportsOk, HomeOk, ViewsOk, InBlock;
    forall k | 0 <= k < |n.proc.slots| ensures n.proc.slots[k].id != attack.victim {
      assert InBlock(c, n.base, Ids(n.proc)[k]);
    }
  }
}
