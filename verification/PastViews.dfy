/** Every copy of the match roster, read or on its way, is one the master really held, and copies arrive in the order in
    which it held them. */
module PastViews {
  import opened Hub
  import opened Masters
  import opened Rooms
  import opened Systems
  import opened SystemInvariant
  import MasterInvariant

  /** After n steps of the run this was the master's roster. */
  ghost predicate HeldAt(c: Config, steps: seq<Step>, r: HubRoster, n: nat) {
    n <= |steps| && r == View(Run(c, steps[..n]).m.players)
  }

  /** The rosters of a channel were held one after another, none before moment `since`. */
  ghost predicate HeldInOrder(c: Config, steps: seq<Step>, msgs: seq<HubMsg>, since: nat)
    decreases msgs
  {
    if msgs == [] then true
    else if msgs[0].Roster? then exists n ::
      since <= n && HeldAt(c, steps, msgs[0].roster, n) && HeldInOrder(c, steps, msgs[1..], n)
    else HeldInOrder(c, steps, msgs[1..], since)
  }

  /** The view was held at some moment, and what is still on its way was held then or later. */
  ghost predicate Dated(c: Config, steps: seq<Step>, view: HubRoster, msgs: seq<HubMsg>) {
    exists n :: HeldAt(c, steps, view, n) && HeldInOrder(c, steps, msgs, n)
  }

  // ----- Later moments

  lemma StillHeld(c: Config, steps: seq<Step>, step: Step, r: HubRoster, n: nat)
    requires HeldAt(c, steps, r, n)
    ensures HeldAt(c, steps + [step], r, n)
  {
    hide Run;
    assert (steps + [step])[..n] == steps[..n];
  }

  lemma {:induction false} StillInOrder(c: Config, steps: seq<Step>, step: Step, msgs: seq<HubMsg>, since: nat)
    requires HeldInOrder(c, steps, msgs, since)
    ensures HeldInOrder(c, steps + [step], msgs, since)
    decreases msgs
  {
    hide HeldAt;
    if msgs != [] {
      if msgs[0].Roster? {
        var n :| since <= n && HeldAt(c, steps, msgs[0].roster, n) && HeldInOrder(c, steps, msgs[1..], n);
        StillHeld(c, steps, step, msgs[0].roster, n);
        StillInOrder(c, steps, step, msgs[1..], n);
      } else {
        StillInOrder(c, steps, step, msgs[1..], since);
      }
    }
  }

  lemma HeldNow(c: Config, steps: seq<Step>)
    ensures HeldAt(c, steps, View(Run(c, steps).m.players), |steps|)
  {
    hide Run;
    assert steps[..|steps|] == steps;
  }

  /** What the master sends now comes after everything on its way. */
  lemma {:induction false} OneMore(c: Config, steps: seq<Step>, msgs: seq<HubMsg>, since: nat, msg: HubMsg)
    requires HeldInOrder(c, steps, msgs, since) && since <= |steps|
    requires msg.Roster? ==> msg.roster == View(Run(c, steps).m.players)
    ensures HeldInOrder(c, steps, msgs + [msg], since)
    decreases msgs
  {
    hide Run;
    if msgs == [] {
      assert msgs + [msg] == [msg] && [msg][1..] == [];
      HeldNow(c, steps);
      assert HeldInOrder(c, steps, [], |steps|);
    } else {
      assert (msgs + [msg])[1..] == msgs[1..] + [msg];
      if msgs[0].Roster? {
        var n :| since <= n && HeldAt(c, steps, msgs[0].roster, n) && HeldInOrder(c, steps, msgs[1..], n);
        OneMore(c, steps, msgs[1..], n, msg);
      } else {
        OneMore(c, steps, msgs[1..], since, msg);
      }
    }
  }

  lemma {:induction false} SomeMore(c: Config, steps: seq<Step>, msgs: seq<HubMsg>, since: nat, more: seq<HubMsg>)
    requires HeldInOrder(c, steps, msgs, since) && since <= |steps|
    requires forall k :: 0 <= k < |more| && more[k].Roster? ==> more[k].roster == View(Run(c, steps).m.players)
    ensures HeldInOrder(c, steps, msgs + more, since)
    decreases more
  {
    hide Run, HeldInOrder;
    if more == [] {
      assert msgs + more == msgs;
    } else {
      OneMore(c, steps, msgs, since, more[0]);
      SomeMore(c, steps, msgs + [more[0]], since, more[1..]);
      assert msgs + more == (msgs + [more[0]]) + more[1..];
    }
  }

  // ----- What the master adds to its channels

  /** Channels only grow, and the rosters added are all this one. */
  ghost predicate Grown(rooms: seq<MRoom>, rooms': seq<MRoom>, r: HubRoster) {
    |rooms'| == |rooms| && forall i :: 0 <= i < |rooms| ==> GrownOne(rooms[i].down, rooms'[i].down, r)
  }

  ghost predicate GrownOne(down: seq<HubMsg>, down': seq<HubMsg>, r: HubRoster) {
    && |down| <= |down'| && down'[..|down|] == down
    && forall k :: |down| <= k < |down'| && down'[k].Roster? ==> down'[k].roster == r
  }

  lemma GrownTwice(a: seq<HubMsg>, b: seq<HubMsg>, d: seq<HubMsg>, r: HubRoster)
    requires GrownOne(a, b, r) && GrownOne(b, d, r)
    ensures GrownOne(a, d, r)
  {
    assert d[..|a|] == d[..|b|][..|a|];
    forall k | |a| <= k < |d| && d[k].Roster? ensures d[k].roster == r {
      if k < |b| {
        assert d[k] == d[..|b|][k];
      }
    }
  }

  lemma AllGrownTwice(a: seq<MRoom>, b: seq<MRoom>, d: seq<MRoom>, r: HubRoster)
    requires Grown(a, b, r) && Grown(b, d, r)
    ensures Grown(a, d, r)
  {
    hide GrownOne;
    forall i | 0 <= i < |a| ensures GrownOne(a[i].down, d[i].down, r) {
      GrownTwice(a[i].down, b[i].down, d[i].down, r);
    }
  }

  lemma SameGrown(rooms: seq<MRoom>, rooms': seq<MRoom>, r: HubRoster)
    requires |rooms'| == |rooms| && forall i :: 0 <= i < |rooms| ==> rooms'[i].down == rooms[i].down
    ensures Grown(rooms, rooms', r)
  {
    forall i | 0 <= i < |rooms| ensures GrownOne(rooms[i].down, rooms'[i].down, r) {
      assert rooms[i].down[..|rooms[i].down|] == rooms[i].down;
    }
  }

  lemma PostGrown(rooms: seq<MRoom>, a: Audience, msg: HubMsg, r: HubRoster)
    requires msg.Roster? ==> msg.roster == r
    ensures Grown(rooms, Post(rooms, a, msg), r)
  {
    forall i | 0 <= i < |rooms| ensures GrownOne(rooms[i].down, Post(rooms, a, msg)[i].down, r) {
      var d := rooms[i].down;
      assert d[..|d|] == d && (d + [msg])[..|d|] == d;
    }
  }

  lemma {:induction false} StartGrown(m: Master, slot: nat)
    requires slot <= |m.rooms|
    ensures Grown(m.rooms, StartFrom(m, slot).rooms, View(m.players))
    decreases |m.rooms| - slot
  {
    hide Grown, View, Post;
    var r := View(m.players);
    if slot == |m.rooms| {
      SameGrown(m.rooms, m.rooms, r);
    } else {
      var room := m.rooms[slot];
      if room.used && !room.started && room.joined >= 1 {
        var told := Post(m.rooms, Only(slot), Start(room.redirected));
        var marked := told[slot := told[slot].(started := true)];
        PostGrown(m.rooms, Only(slot), Start(room.redirected), r);
        SameGrown(told, marked, r);
        PostGrown(marked, Started, Roster(r), r);
        AllGrownTwice(m.rooms, told, marked, r);
        AllGrownTwice(m.rooms, marked, StartRoom(m, slot).rooms, r);
      } else {
        SameGrown(m.rooms, m.rooms, r);
      }
      StartGrown(StartRoom(m, slot), slot + 1);
      AllGrownTwice(m.rooms, StartRoom(m, slot).rooms, StartFrom(m, slot).rooms, r);
    }
  }

  lemma CheckEndGrown(m: Master)
    ensures Grown(m.rooms, CheckGlobalEnd(m).rooms, View(m.players)) && CheckGlobalEnd(m).players == m.players
  {
    hide Grown, View, Post, Decided, Winner;
    SameGrown(m.rooms, m.rooms, View(m.players));
    PostGrown(m.rooms, Used, GameOver(Winner(m.players)), View(m.players));
  }

  lemma HandleGrown(c: Config, m: Master, slot: nat, msg: HubMsg)
    requires slot < |m.rooms|
    ensures var m' := HandleMsg(c, m, slot, msg); Grown(m.rooms, m'.rooms, View(m'.players))
  {
    hide Grown, View, Post, CheckGlobalEnd, StartFrom, Target, KillId, AddPlayer;
    var m' := HandleMsg(c, m, slot, msg);
    match msg
    case Joined(id) =>
      var room := m.rooms[slot];
      var m1 := m.(players := AddPlayer(c, m.players, id, slot),
        rooms := m.rooms[slot := room.(joined := room.joined + 1)]);
      var r := View(m1.players);
      var told := BroadcastRoster(m1);
      SameGrown(m.rooms, m1.rooms, r);
      PostGrown(m1.rooms, Started, Roster(r), r);
      AllGrownTwice(m.rooms, m1.rooms, told.rooms, r);
      StartGrown(told, 0);
      AllGrownTwice(m.rooms, told.rooms, StartFrom(told, 0).rooms, r);
    case Eliminated(id) =>
      var m1 := m.(players := KillId(m.players, id));
      var r := View(m1.players);
      var told := BroadcastRoster(m1);
      PostGrown(m.rooms, Started, Roster(r), r);
      CheckEndGrown(told);
      AllGrownTwice(m.rooms, told.rooms, CheckGlobalEnd(told).rooms, r);
    case Attack(attack) =>
      SameGrown(m.rooms, m.rooms, View(m.players));
      if Target(m, attack.victim) != -1 {
        PostGrown(m.rooms, Only(Target(m, attack.victim)), Garbage(attack), View(m.players));
      }
    case Feed(attack) => PostGrown(m.rooms, StartedExcept(slot), Feed(attack), View(m.players));
    case _ => SameGrown(m.rooms, m'.rooms, View(m.players));
  }

  /** Closing a slot empties its channel and adds to the others. */
  lemma CloseGrown(m: Master, slot: nat)
    requires slot < |m.rooms|
    ensures var m' := CloseRoom(m, slot);
            Grown(m.rooms[slot := m.rooms[slot].(used := false, down := [])], m'.rooms, View(m'.players)) &&
              !m'.rooms[slot].used
  {
    hide Grown, View, Post, CheckGlobalEnd, KillRoom;
    var m1 := m.(rooms := m.rooms[slot := m.rooms[slot].(used := false, down := [])]);
    SameGrown(m1.rooms, m1.rooms, View(m.players));
    var players := KillRoom(m.players, slot);
    var told := BroadcastRoster(m1.(players := players));
    PostGrown(m1.rooms, Started, Roster(View(players)), View(players));
    CheckEndGrown(told);
    AllGrownTwice(m1.rooms, told.rooms, CheckGlobalEnd(told).rooms, View(players));
    StaysUnused(told, slot);
  }

  lemma StaysUnused(m: Master, slot: nat)
    requires slot < |m.rooms| && !m.rooms[slot].used
    ensures !CheckGlobalEnd(m).rooms[slot].used
  {
    hide Decided, Winner;
  }

  // ----- Every step keeps the dates

  ghost predicate AllDated(c: Config, steps: seq<Step>, s: System) {
    && |s.m.rooms| == |s.nodes|
    && forall i :: 0 <= i < |s.nodes| && s.m.rooms[i].used && !s.nodes[i].proc.Gone? ==>
      Dated(c, steps, Seen(s.nodes[i].proc), s.m.rooms[i].down)
  }

  /** More time passes and the channel grows by rosters of this moment. */
  lemma DatedGrows(c: Config, steps: seq<Step>, step: Step, view: HubRoster, down: seq<HubMsg>, down': seq<HubMsg>)
    requires Dated(c, steps, view, down) && GrownOne(down, down', View(Run(c, steps + [step]).m.players))
    ensures Dated(c, steps + [step], view, down')
  {
    hide Run, HeldInOrder;
    var n :| HeldAt(c, steps, view, n) && HeldInOrder(c, steps, down, n);
    StillHeld(c, steps, step, view, n);
    StillInOrder(c, steps, step, down, n);
    SomeMore(c, steps + [step], down, n, down'[|down|..]);
    assert down + down'[|down|..] == down';
  }

  /** A worker reads the next message: its view moves on to what it read. */
  lemma DatedPops(c: Config, steps: seq<Step>, view: HubRoster, down: seq<HubMsg>)
    requires Dated(c, steps, view, down) && down != []
    ensures Dated(c, steps, if down[0].Roster? then down[0].roster else view, down[1..])
  {
    hide HeldAt;
    var n :| HeldAt(c, steps, view, n) && HeldInOrder(c, steps, down, n);
  }

  /** A fresh worker knows nobody, as the master did at the start. */
  lemma DatedFresh(c: Config, steps: seq<Step>)
    ensures Dated(c, steps, [], [])
  {
    assert steps[..0] == [] && Run(c, []) == NewSystem(c);
    assert View([]) == [];
    assert HeldAt(c, steps, [], 0) && HeldInOrder(c, steps, [], 0);
  }

  lemma MasterKeepsDates(c: Config, steps: seq<Step>, step: Step, s: System, s': System)
    requires AllDated(c, steps, s) && s' == Run(c, steps + [step]) && |s'.nodes| == |s.nodes|
    requires Grown(s.m.rooms, s'.m.rooms, View(s'.m.players))
    requires forall i :: 0 <= i < |s.nodes| ==>
      s'.nodes[i].proc == s.nodes[i].proc && (s'.m.rooms[i].used ==> s.m.rooms[i].used)
    ensures AllDated(c, steps + [step], s')
  {
    hide Run, Dated, GrownOne;
    forall i | 0 <= i < |s'.nodes| && s'.m.rooms[i].used && !s'.nodes[i].proc.Gone?
      ensures Dated(c, steps + [step], Seen(s'.nodes[i].proc), s'.m.rooms[i].down)
    {
      DatedGrows(c, steps, step, Seen(s.nodes[i].proc), s.m.rooms[i].down, s'.m.rooms[i].down);
    }
  }

  lemma NextRun(c: Config, steps: seq<Step>, step: Step)
    ensures Run(c, steps + [step]) == Apply(c, Run(c, steps), step)
  {
    hide Apply;
    assert (steps + [step])[..|steps|] == steps;
  }

  lemma AcceptDates(c: Config, steps: seq<Step>, canFork: bool)
    requires AllDated(c, steps, Run(c, steps))
    requires Run(c, steps + [Accept(canFork)]) == AcceptStep(c, Run(c, steps), canFork)
    ensures AllDated(c, steps + [Accept(canFork)], Run(c, steps + [Accept(canFork)]))
  {
    hide Run, Dated, FillingFrom, FreeFrom, Base, GrownOne;
    var step := Accept(canFork);
    var s, s' := Run(c, steps), Run(c, steps + [step]);
    SameGrown(s.m.rooms, s.m.rooms, View(s'.m.players));
    DatedFresh(c, steps + [step]);
    forall i | 0 <= i < |s'.nodes| && s'.m.rooms[i].used && !s'.nodes[i].proc.Gone?
      ensures Dated(c, steps + [step], Seen(s'.nodes[i].proc), s'.m.rooms[i].down)
    {
      if s'.nodes[i] == s.nodes[i] && s'.m.rooms[i].down == s.m.rooms[i].down && s.m.rooms[i].used {
        DatedGrows(c, steps, step, Seen(s.nodes[i].proc), s.m.rooms[i].down, s'.m.rooms[i].down);
      }
    }
  }

  lemma CloseDates(c: Config, steps: seq<Step>, slot: nat)
    requires AllDated(c, steps, Run(c, steps)) && slot < c.rooms
    requires Run(c, steps + [MasterClose(slot)]) == MasterCloseStep(Run(c, steps), slot)
    ensures AllDated(c, steps + [MasterClose(slot)], Run(c, steps + [MasterClose(slot)]))
  {
    hide Run, Dated, GrownOne, CloseRoom, Garbages;
    var step := MasterClose(slot);
    var s, s' := Run(c, steps), Run(c, steps + [step]);
    CloseGrown(s.m, slot);
    ClosingUses(s.m, slot);
    forall i | 0 <= i < |s'.nodes| && s'.m.rooms[i].used && !s'.nodes[i].proc.Gone?
      ensures Dated(c, steps + [step], Seen(s'.nodes[i].proc), s'.m.rooms[i].down)
    {
      DatedGrows(c, steps, step, Seen(s.nodes[i].proc), s.m.rooms[i].down, s'.m.rooms[i].down);
    }
  }

  lemma ClosingUses(m: Master, slot: nat)
    requires slot < |m.rooms|
    ensures forall i :: 0 <= i < |m.rooms| && CloseRoom(m, slot).rooms[i].used ==> m.rooms[i].used
  {
    hide View, Decided, Winner, KillRoom;
  }

  lemma WorkerDates(c: Config, steps: seq<Step>, step: Step, j: nat)
    requires AllDated(c, steps, Run(c, steps)) && j < c.rooms && Run(c, steps).m.rooms[j].used
    requires WorkerCan(c, Run(c, steps).nodes[j], Run(c, steps).m.rooms[j].down, step)
    requires Run(c, steps + [step]) == WorkerApply(c, Run(c, steps), step, j)
    ensures AllDated(c, steps + [step], Run(c, steps + [step]))
  {
    hide Run, Dated, GrownOne, WorkerStep, WorkerCan;
    var s, s' := Run(c, steps), Run(c, steps + [step]);
    var n, down := s.nodes[j], s.m.rooms[j].down;
    PopsWhatIsThere(c, n, down, step, s.books);
    WorkerSees(c, n, down, step, s.books);
    SameGrown(s.m.rooms, s.m.rooms, View(s'.m.players));
    forall i | 0 <= i < |s'.nodes| && s'.m.rooms[i].used && !s'.nodes[i].proc.Gone?
      ensures Dated(c, steps + [step], Seen(s'.nodes[i].proc), s'.m.rooms[i].down)
    {
      DatedGrows(c, steps, step, Seen(s.nodes[i].proc), s.m.rooms[i].down, s.m.rooms[i].down);
      if i == j && s'.m.rooms[j].down != down {
        DatedPops(c, steps + [step], Seen(n.proc), down);
      }
    }
  }

  /** A worker's view changes only by the roster it reads. */
  lemma WorkerSees(c: Config, n: Node, down: seq<HubMsg>, step: Step, b: Systems.Books)
    requires WorkerCan(c, n, down, step)
    ensures var o := WorkerStep(c, n, down, step, b);
            o.node.proc.Gone? ||
              (!n.proc.Gone? && Seen(o.node.proc) == if o.pop && down != [] &&
              down[0].Roster? then down[0].roster else Seen(n.proc))
  {
    hide ApplyGarbage, FateOf, RoutedSlots, ReportedSlots, OpeningSlots, BoardStep, Ticked, FreshId, Landing,
         MustReport;
  }

  lemma StepDates(c: Config, steps: seq<Step>, step: Step)
    requires AllDated(c, steps, Run(c, steps))
    ensures AllDated(c, steps + [step], Run(c, steps + [step]))
  {
    hide Run, AllDated, Grown, View, AcceptStep, StartFrom, HandleMsg, MasterCloseStep, WorkerApply, WorkerCan, Target;
    var s := Run(c, steps);
    NextRun(c, steps, step);
    SameGrown(s.m.rooms, s.m.rooms, View(s.m.players));
    if !Enabled(c, s, step) {
      MasterKeepsDates(c, steps, step, s, s);
    } else {
      match step
      case Accept(canFork) => AcceptDates(c, steps, canFork);
      case Operator =>
        StartGrown(s.m, 0);
        MasterInvariant.StartKeepsUsed(s.m, 0);
        MasterKeepsDates(c, steps, step, s, Run(c, steps + [step]));
      case MasterRecv(i) =>
        HandleGrown(c, s.m, i, s.nodes[i].up[0]);
        MasterInvariant.HandleKeepsUsed(c, s.m, i, s.nodes[i].up[0]);
        MasterKeepsDates(c, steps, step, s, Run(c, steps + [step]));
      case MasterClose(i) => CloseDates(c, steps, i);
      case _ => WorkerDates(c, steps, step, step.i);
    }
  }

  lemma {:induction false} ReachableDated(c: Config, steps: seq<Step>)
    ensures AllDated(c, steps, Run(c, steps))
  {
    hide AllDated, Apply;
    if steps == [] {
      NothingDated(c);
    } else {
      var before, step := steps[..|steps| - 1], steps[|steps| - 1];
      assert before + [step] == steps;
      ReachableDated(c, before);
      StepDates(c, before, step);
    }
  }

  lemma NothingDated(c: Config)
    ensures AllDated(c, [], NewSystem(c))
  {
  }

  /** In every run, the roster a running room holds is one the master held after some number of steps, and the rosters
      on their way to the room are ones the master held then or later, in the order in which they will be read. */
  lemma ViewsArePast(c: Config, steps: seq<Step>, i: nat)
    ensures var s := Run(c, steps);
            i < |s.nodes| && s.m.rooms[i].used && !s.nodes[i].proc.Gone? ==>
              exists n :: HeldAt(c, steps, Seen(s.nodes[i].proc), n) && HeldInOrder(c, steps, s.m.rooms[i].down, n)
  {
    hide Run, HeldAt, HeldInOrder;
    ReachableDated(c, steps);
  }
}
