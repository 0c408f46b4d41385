/** Garbage between players is conserved over whole runs: sent once, it lands once, is dropped once, or
    is on its way. */
module Accounting {
  import opened Hub
  import opened Masters
  import opened Rooms
  import opened Systems
  import opened SystemInvariant
  import opened WorkerInvariant
  import opened MasterInvariant

  type Bag = multiset<HubAttack>

  // ----- What channels carry

  function AttackIn(msg: HubMsg): Bag {
    if msg.Attack? then multiset{msg.attack} else multiset{}
  }

  function GarbageIn(msg: HubMsg): Bag {
    if msg.Garbage? then multiset{msg.attack} else multiset{}
  }

  function Attacks(msgs: seq<HubMsg>): Bag {
    if msgs == [] then multiset{} else Attacks(msgs[..|msgs| - 1]) + AttackIn(msgs[|msgs| - 1])
  }

  lemma GarbagesAppend(msgs: seq<HubMsg>, msg: HubMsg)
    ensures Garbages(msgs + [msg]) == Garbages(msgs) + GarbageIn(msg)
  {
    assert (msgs + [msg])[..|msgs|] == msgs;
  }

  lemma AttacksAppend(msgs: seq<HubMsg>, msg: HubMsg)
    ensures Attacks(msgs + [msg]) == Attacks(msgs) + AttackIn(msg)
  {
    assert (msgs + [msg])[..|msgs|] == msgs;
  }

  lemma {:induction false} GarbagesPop(msgs: seq<HubMsg>)
    requires msgs != []
    ensures Garbages(msgs) == GarbageIn(msgs[0]) + Garbages(msgs[1..])
  {
    var n := |msgs| - 1;
    if n == 0 {
      assert msgs[..0] == [] && msgs[1..] == [];
    } else {
      GarbagesPop(msgs[..n]);
      assert msgs[..n][1..] == msgs[1..][..n - 1];
      assert msgs[1..][n - 1] == msgs[n];
    }
  }

  lemma {:induction false} AttacksPop(msgs: seq<HubMsg>)
    requires msgs != []
    ensures Attacks(msgs) == AttackIn(msgs[0]) + Attacks(msgs[1..])
  {
    hide AttackIn;
    var n := |msgs| - 1;
    if n == 0 {
      assert msgs[..0] == [] && msgs[1..] == [];
    } else {
      AttacksPop(msgs[..n]);
      assert msgs[..n][1..] == msgs[1..][..n - 1];
      assert msgs[1..][n - 1] == msgs[n];
    }
  }

  // ----- Everything in flight

  function Total(parts: seq<Bag>): Bag {
    if parts == [] then multiset{} else Total(parts[..|parts| - 1]) + parts[|parts| - 1]
  }

  /** Counted for one attack x at a time, here and below. */
  lemma {:induction false} TotalUpdate(parts: seq<Bag>, i: nat, part: Bag, x: HubAttack)
    requires i < |parts|
    ensures Total(parts[i := part])[x] + parts[i][x] == Total(parts)[x] + part[x]
  {
    var n := |parts| - 1;
    if i == n {
      assert parts[i := part][..n] == parts[..n];
    } else {
      TotalUpdate(parts[..n], i, part, x);
      assert parts[i := part][..n] == parts[..n][i := part];
    }
  }

  function Ups(nodes: seq<Node>): (r: seq<Bag>)
    ensures |r| == |nodes| && forall i :: 0 <= i < |r| ==> r[i] == Attacks(nodes[i].up)
  {
    seq(|nodes|, i requires 0 <= i < |nodes| => Attacks(nodes[i].up))
  }

  function Downs(rooms: seq<MRoom>): (r: seq<Bag>)
    ensures |r| == |rooms| && forall i :: 0 <= i < |r| ==> r[i] == Garbages(rooms[i].down)
  {
    seq(|rooms|, i requires 0 <= i < |rooms| => Garbages(rooms[i].down))
  }

  /** Attacks on their way to the master and garbage on its way to a room. */
  function InFlight(s: System): Bag {
    Total(Ups(s.nodes)) + Total(Downs(s.m.rooms))
  }

  ghost predicate Balanced(s: System, x: HubAttack) {
    s.books.consumed[x] == s.books.landed[x] + s.books.dropped[x] + InFlight(s)[x]
  }

  // ----- Master steps

  lemma PostCarries(rooms: seq<MRoom>, a: Audience, msg: HubMsg)
    requires !msg.Garbage?
    ensures Downs(Post(rooms, a, msg)) == Downs(rooms)
  {
    forall i | 0 <= i < |rooms| ensures Garbages(Post(rooms, a, msg)[i].down) == Garbages(rooms[i].down) {
      GarbagesAppend(rooms[i].down, msg);
    }
  }

  lemma SetCarries(rooms: seq<MRoom>, i: nat, room: MRoom)
    requires i < |rooms|
    ensures Downs(rooms[i := room]) == Downs(rooms)[i := Garbages(room.down)]
  {
  }

  lemma FlagsCarry(rooms: seq<MRoom>, i: nat, room: MRoom)
    requires i < |rooms| && room.down == rooms[i].down
    ensures Downs(rooms[i := room]) == Downs(rooms)
  {
    assert Downs(rooms)[i := Garbages(room.down)] == Downs(rooms);
  }

  lemma {:induction false} StartCarries(m: Master, slot: nat)
    requires slot <= |m.rooms|
    ensures Downs(StartFrom(m, slot).rooms) == Downs(m.rooms)
    decreases |m.rooms| - slot
  {
    hide Downs, Post, View;
    if slot < |m.rooms| {
      var room := m.rooms[slot];
      if room.used && !room.started && room.joined >= 1 {
        var told := Post(m.rooms, Only(slot), Start(room.redirected));
        PostCarries(m.rooms, Only(slot), Start(room.redirected));
        FlagsCarry(told, slot, told[slot].(started := true));
        PostCarries(told[slot := told[slot].(started := true)], Started, Roster(View(m.players)));
      }
      StartCarries(StartRoom(m, slot), slot + 1);
    }
  }

  lemma CheckEndCarries(m: Master)
    ensures Downs(CheckGlobalEnd(m).rooms) == Downs(m.rooms)
  {
    hide Downs, Post, Decided, Winner;
    PostCarries(m.rooms, Used, GameOver(Winner(m.players)));
  }

  lemma HandleCarries(c: Config, m: Master, slot: nat, msg: HubMsg)
    requires slot < |m.rooms| && !msg.Attack?
    ensures Downs(HandleMsg(c, m, slot, msg).rooms) == Downs(m.rooms)
  {
    hide Downs, Post, View, StartFrom, CheckGlobalEnd, KillId, AddPlayer;
    match msg
    case Ready => FlagsCarry(m.rooms, slot, m.rooms[slot].(ready := true, pending := 0));
    case Joined(id) =>
      var room := m.rooms[slot].(joined := m.rooms[slot].joined + 1);
      var m1 := m.(players := AddPlayer(c, m.players, id, slot), rooms := m.rooms[slot := room]);
      FlagsCarry(m.rooms, slot, room);
      PostCarries(m1.rooms, Started, Roster(View(m1.players)));
      StartCarries(BroadcastRoster(m1), 0);
    case Eliminated(id) =>
      var m1 := m.(players := KillId(m.players, id));
      PostCarries(m1.rooms, Started, Roster(View(m1.players)));
      CheckEndCarries(BroadcastRoster(m1));
    case Feed(attack) => PostCarries(m.rooms, StartedExcept(slot), Feed(attack));
    case _ =>
  }

  lemma ForwardParts(rooms: seq<MRoom>, slot: nat, attack: HubAttack)
    requires slot < |rooms|
    ensures Downs(Post(rooms, Only(slot), Garbage(attack))) ==
      Downs(rooms)[slot := Garbages(rooms[slot].down) + multiset{attack}]
  {
    hide Garbages;
    GarbagesAppend(rooms[slot].down, Garbage(attack));
  }

  lemma ForwardCarries(rooms: seq<MRoom>, slot: nat, attack: HubAttack, x: HubAttack)
    requires slot < |rooms|
    ensures Total(Downs(Post(rooms, Only(slot), Garbage(attack))))[x] == Total(Downs(rooms))[x] + multiset{attack}[x]
  {
    hide Total, Garbages, Post;
    ForwardParts(rooms, slot, attack);
    TotalUpdate(Downs(rooms), slot, Garbages(rooms[slot].down) + multiset{attack}, x);
  }

  lemma UpCarries(nodes: seq<Node>, i: nat, n: Node, x: HubAttack)
    requires i < |nodes|
    ensures Total(Ups(nodes[i := n]))[x] + Attacks(nodes[i].up)[x] == Total(Ups(nodes))[x] + Attacks(n.up)[x]
  {
    hide Total, Attacks;
    assert Ups(nodes[i := n]) == Ups(nodes)[i := Attacks(n.up)];
    TotalUpdate(Ups(nodes), i, Attacks(n.up), x);
  }

  lemma RecvBalanced(c: Config, s: System, i: nat, x: HubAttack)
    requires Balanced(s, x) && |s.m.rooms| == |s.nodes| && i < |s.nodes| && s.nodes[i].up != []
    ensures Balanced(MasterRecvStep(c, s, i), x)
  {
    hide Total, Ups, Downs, Attacks, HandleJoined, HandleEliminated, Post, Target;
    var n := s.nodes[i];
    var msg := n.up[0];
    AttacksPop(n.up);
    UpCarries(s.nodes, i, n.(up := n.up[1..]), x);
    if msg.Attack? {
      var slot := Target(s.m, msg.attack.victim);
      if slot != -1 {
        ForwardCarries(s.m.rooms, slot, msg.attack, x);
      }
    } else {
      HandleCarries(c, s.m, i, msg);
    }
  }

  lemma CloseCarries(m: Master, slot: nat, x: HubAttack)
    requires slot < |m.rooms|
    ensures Total(Downs(CloseRoom(m, slot).rooms))[x] + Garbages(m.rooms[slot].down)[x] == Total(Downs(m.rooms))[x]
  {
    hide Total, Downs, Post, View, CheckGlobalEnd, KillRoom, Garbages;
    var room := m.rooms[slot].(used := false, down := []);
    var m1 := m.(rooms := m.rooms[slot := room]);
    var m2 := m1.(players := KillRoom(m.players, slot));
    SetCarries(m.rooms, slot, room);
    TotalUpdate(Downs(m.rooms), slot, Garbages(room.down), x);
    NothingCarried();
    PostCarries(m2.rooms, Started, Roster(View(m2.players)));
    CheckEndCarries(BroadcastRoster(m2));
  }

  lemma NothingCarried()
    ensures Garbages([]) == multiset{}
  {
  }

  lemma CloseBalanced(s: System, i: nat, x: HubAttack)
    requires Balanced(s, x) && |s.m.rooms| == |s.nodes| && i < |s.nodes|
    ensures Balanced(MasterCloseStep(s, i), x)
  {
    hide Total, Ups, Downs, CloseRoom, Garbages, Winner;
    CloseCarries(s.m, i, x);
  }

  /** A new connection changes nothing that is in flight: a fresh room starts with empty channels. */
  lemma AcceptCarries(c: Config, s: System, canFork: bool)
    requires |s.m.rooms| == |s.nodes|
    requires forall i :: 0 <= i < |s.nodes| && !s.m.rooms[i].used ==> s.nodes[i].up == [] && s.m.rooms[i].down == []
    ensures var s' := AcceptStep(c, s, canFork);
            s'.books == s.books && forall i :: 0 <= i < |s.nodes| ==>
              s'.m.rooms[i].down == s.m.rooms[i].down && s'.nodes[i].up == s.nodes[i].up
  {
    hide FillingFrom, FreeFrom, Base;
  }

  lemma AcceptBalanced(c: Config, s: System, canFork: bool, x: HubAttack)
    requires Balanced(s, x) && |s.m.rooms| == |s.nodes|
    requires forall i :: 0 <= i < |s.nodes| && !s.m.rooms[i].used ==> s.nodes[i].up == [] && s.m.rooms[i].down == []
    ensures Balanced(AcceptStep(c, s, canFork), x)
  {
    hide Total, AcceptStep, Attacks, Garbages;
    AcceptCarries(c, s, canFork);
    var s' := AcceptStep(c, s, canFork);
    assert Ups(s'.nodes) == Ups(s.nodes) && Downs(s'.m.rooms) == Downs(s.m.rooms);
  }

  // ----- Worker steps

  /** How a worker step moves the books against its own channels. */
  lemma WorkerBooks(c: Config, n: Node, down: seq<HubMsg>, step: Step, b: Systems.Books, x: HubAttack)
    requires WorkerCan(c, n, down, step)
    ensures var o := WorkerStep(c, n, down, step, b);
            var popped := if o.pop && down != [] then GarbageIn(down[0])[x] else 0;
            o.books.consumed[x] + popped + b.landed[x] + b.dropped[x] + Attacks(n.up)[x] ==
            b.consumed[x] + o.books.landed[x] + o.books.dropped[x] + Attacks(o.node.up)[x]
  {
    hide Attacks, ApplyGarbage, FateOf, RoutedSlots, ReportedSlots, OpeningSlots, BoardStep, Ticked, FreshId, Landing,
         MustReport, RouteStep, ReportStep;
    match step
    case Bind(_) => AttacksAppend(n.up, Ready);
    case Join(_, id) => AttacksAppend(n.up, Joined(id));
    case Report(_) => ReportBooks(n, b);
    case Route(_, roll) => RouteBooks(n, roll, b, x);
    case _ =>
  }

  lemma ReportBooks(n: Node, b: Systems.Books)
    requires n.proc.Playing? && n.proc.phase.Reporting?
    ensures Attacks(ReportStep(n, b).node.up) == Attacks(n.up) && ReportStep(n, b).books == b && !ReportStep(n, b).pop
  {
    hide Attacks, ReportedSlots, MustReport;
    var k := n.proc.phase.next;
    if k < |n.proc.slots| {
      AttacksAppend(n.up, Eliminated(n.proc.slots[k].id));
      assert n.up + [] == n.up;
    }
  }

  lemma RouteBooks(n: Node, roll: nat, b: Systems.Books, x: HubAttack)
    requires n.proc.Playing? && n.proc.phase.Routing?
    ensures var o := RouteStep(n, roll, b);
            && !o.pop
            && o.books.consumed[x] + b.landed[x] + b.dropped[x] + Attacks(n.up)[x]
            == b.consumed[x] + o.books.landed[x] + o.books.dropped[x] + Attacks(o.node.up)[x]
  {
    hide Attacks, FateOf, RoutedSlots;
    var k := n.proc.phase.next;
    if k < |n.proc.slots| {
      var f := FateOf(n.proc.slots, k, n.proc.global, roll);
      match f
      case Local(_, a) => AttacksAppend(n.up, Feed(a));
      case Remote(a) =>
        AttacksAppend(n.up, Attack(a));
        AttacksAppend(n.up + [Attack(a)], Feed(a));
        assert n.up + [Attack(a), Feed(a)] == n.up + [Attack(a)] + [Feed(a)];
      case _ => assert n.up + [] == n.up;
    }
  }

  lemma PopCarries(rooms: seq<MRoom>, i: nat, pop: bool, x: HubAttack)
    requires i < |rooms| && (pop ==> rooms[i].down != [])
    ensures Total(Downs(Popped(rooms, i, pop)))[x] + (if pop then GarbageIn(rooms[i].down[0])[x] else 0) ==
      Total(Downs(rooms))[x]
  {
    hide Total, Downs, Garbages;
    if pop {
      var room := rooms[i].(down := rooms[i].down[1..]);
      GarbagesPop(rooms[i].down);
      SetCarries(rooms, i, room);
      TotalUpdate(Downs(rooms), i, Garbages(room.down), x);
    }
  }

  lemma WorkerBalanced(c: Config, s: System, step: Step, i: nat, x: HubAttack)
    requires Balanced(s, x) && |s.m.rooms| == |s.nodes| && i < |s.nodes|
    requires WorkerCan(c, s.nodes[i], s.m.rooms[i].down, step)
    ensures Balanced(WorkerApply(c, s, step, i), x)
  {
    hide Total, Ups, Downs, Attacks, WorkerStep, WorkerCan, Popped, GarbageIn;
    var o := WorkerStep(c, s.nodes[i], s.m.rooms[i].down, step, s.books);
    PopsWhatIsThere(c, s.nodes[i], s.m.rooms[i].down, step, s.books);
    WorkerBooks(c, s.nodes[i], s.m.rooms[i].down, step, s.books, x);
    UpCarries(s.nodes, i, o.node, x);
    PopCarries(s.m.rooms, i, o.pop, x);
  }

  // ----- Every run balances

  lemma UnusedIsEmpty(c: Config, s: System)
    requires Inv(c, s)
    ensures forall i :: 0 <= i < |s.nodes| && !s.m.rooms[i].used ==> s.nodes[i].up == [] && s.m.rooms[i].down == []
  {
    hide LiveOk, Base, BlocksApart, Housed;
    forall i | 0 <= i < |s.nodes| && !s.m.rooms[i].used ensures s.nodes[i].up == [] && s.m.rooms[i].down == [] {
      assert NodeOk(c, s.m, s.nodes[i], i);
    }
  }

  lemma StepBalanced(c: Config, s: System, step: Step, x: HubAttack)
    requires Inv(c, s) && |s.m.rooms| == |s.nodes| && Balanced(s, x)
    ensures Balanced(Apply(c, s, step), x)
  {
    hide Inv, AcceptStep, StartFrom, MasterRecvStep, MasterCloseStep, WorkerApply, WorkerCan, Total, Ups, Downs;
    UnusedIsEmpty(c, s);
    StartCarries(s.m, 0);
    if Enabled(c, s, step) {
      match step
      case Accept(canFork) => AcceptBalanced(c, s, canFork, x);
      case Operator =>
      case MasterRecv(i) => RecvBalanced(c, s, i, x);
      case MasterClose(i) => CloseBalanced(s, i, x);
      case _ => WorkerBalanced(c, s, step, step.i, x);
    }
  }

  lemma {:induction false} NothingInFlight(parts: seq<Bag>)
    requires forall i :: 0 <= i < |parts| ==> parts[i] == multiset{}
    ensures Total(parts) == multiset{}
  {
    if parts != [] {
      NothingInFlight(parts[..|parts| - 1]);
    }
  }

  lemma NewSystemBalanced(c: Config, x: HubAttack)
    ensures Balanced(NewSystem(c), x)
  {
    hide Total;
    var s := NewSystem(c);
    forall i | 0 <= i < |s.nodes| ensures Ups(s.nodes)[i] == multiset{} {
      assert s.nodes[i].up == [];
    }
    forall i | 0 <= i < |s.m.rooms| ensures Downs(s.m.rooms)[i] == multiset{} {
      assert s.m.rooms[i].down == [];
    }
    NothingInFlight(Ups(s.nodes));
    NothingInFlight(Downs(s.m.rooms));
  }

  lemma {:induction false} RunBalanced(c: Config, steps: seq<Step>, x: HubAttack)
    ensures Balanced(Run(c, steps), x)
  {
    hide Apply, NewSystem, Balanced, Inv;
    if steps == [] {
      NewSystemBalanced(c, x);
    } else {
      var before := steps[..|steps| - 1];
      RunBalanced(c, before, x);
      ReachableInv(c, before);
      StepBalanced(c, Run(c, before), steps[|steps| - 1], x);
    }
  }

  /** In every reachable state, attack by attack: what was taken off boards to be sent is what landed, plus what was
      dropped, plus what is in flight. So nothing lands twice and nothing lands that was not sent. */
  lemma AttacksConserved(c: Config, steps: seq<Step>)
    ensures var s := Run(c, steps);
            s.books.consumed == s.books.landed + s.books.dropped + InFlight(s) && s.books.landed <= s.books.consumed
  {
    hide Run, InFlight;
    var s := Run(c, steps);
    forall x ensures s.books.consumed[x] == (s.books.landed + s.books.dropped + InFlight(s))[x] {
      RunBalanced(c, steps, x);
    }
  }

  // ----- What lands, and on whom

  /** One to twelve lines, and not aimed at its own sender. */
  predicate Proper(a: HubAttack) {
    1 <= a.lines <= MAX_OUTGOING && a.attacker != a.victim
  }

  ghost predicate ProperMsgs(msgs: seq<HubMsg>) {
    forall k :: 0 <= k < |msgs| && (msgs[k].Attack? || msgs[k].Garbage?) ==> Proper(msgs[k].attack)
  }

  ghost predicate ProperInv(s: System) {
    && |s.m.rooms| == |s.nodes|
    && (forall i :: 0 <= i < |s.nodes| ==> ProperMsgs(s.nodes[i].up) && ProperMsgs(s.m.rooms[i].down))
    && forall a :: a in s.books.landed ==> Proper(a)
  }

  lemma ProperAppend(msgs: seq<HubMsg>, msg: HubMsg)
    requires ProperMsgs(msgs) && (msg.Attack? || msg.Garbage? ==> Proper(msg.attack))
    ensures ProperMsgs(msgs + [msg])
  {
  }

  lemma ProperPop(msgs: seq<HubMsg>)
    requires ProperMsgs(msgs) && msgs != []
    ensures ProperMsgs(msgs[1..])
  {
    assert forall k :: 0 <= k < |msgs| - 1 ==> msgs[1..][k] == msgs[k + 1];
  }

  lemma ProperPost(rooms: seq<MRoom>, a: Audience, msg: HubMsg)
    requires forall i :: 0 <= i < |rooms| ==> ProperMsgs(rooms[i].down)
    requires msg.Attack? || msg.Garbage? ==> Proper(msg.attack)
    ensures forall i :: 0 <= i < |rooms| ==> ProperMsgs(Post(rooms, a, msg)[i].down)
  {
    hide ProperMsgs;
    forall i | 0 <= i < |rooms| ensures ProperMsgs(Post(rooms, a, msg)[i].down) {
      ProperAppend(rooms[i].down, msg);
    }
  }

  lemma {:induction false} ProperStart(m: Master, slot: nat)
    requires slot <= |m.rooms| && forall i :: 0 <= i < |m.rooms| ==> ProperMsgs(m.rooms[i].down)
    ensures forall i :: 0 <= i < |m.rooms| ==> ProperMsgs(StartFrom(m, slot).rooms[i].down)
    decreases |m.rooms| - slot
  {
    hide ProperMsgs, View, Post;
    if slot < |m.rooms| {
      var room := m.rooms[slot];
      if room.used && !room.started && room.joined >= 1 {
        var told := Post(m.rooms, Only(slot), Start(room.redirected));
        ProperPost(m.rooms, Only(slot), Start(room.redirected));
        ProperPost(told[slot := told[slot].(started := true)], Started, Roster(View(m.players)));
      }
      ProperStart(StartRoom(m, slot), slot + 1);
    }
  }

  lemma ProperCheckEnd(m: Master)
    requires forall i :: 0 <= i < |m.rooms| ==> ProperMsgs(m.rooms[i].down)
    ensures forall i :: 0 <= i < |m.rooms| ==> ProperMsgs(CheckGlobalEnd(m).rooms[i].down)
  {
    hide ProperMsgs, Post, Decided, Winner;
    ProperPost(m.rooms, Used, GameOver(Winner(m.players)));
  }

  lemma ProperHandle(c: Config, m: Master, slot: nat, msg: HubMsg)
    requires slot < |m.rooms| && (forall i :: 0 <= i < |m.rooms| ==> ProperMsgs(m.rooms[i].down))
    requires (msg.Attack? ==> Proper(msg.attack))
    ensures forall i :: 0 <= i < |m.rooms| ==> ProperMsgs(HandleMsg(c, m, slot, msg).rooms[i].down)
  {
    hide ProperMsgs, View, Post, CheckGlobalEnd, StartFrom, Target, KillId, AddPlayer, Proper;
    match msg
    case Joined(id) =>
      var room := m.rooms[slot].(joined := m.rooms[slot].joined + 1);
      var m1 := m.(players := AddPlayer(c, m.players, id, slot), rooms := m.rooms[slot := room]);
      ProperPost(m1.rooms, Started, Roster(View(m1.players)));
      ProperStart(BroadcastRoster(m1), 0);
    case Eliminated(id) =>
      var m1 := m.(players := KillId(m.players, id));
      ProperPost(m1.rooms, Started, Roster(View(m1.players)));
      ProperCheckEnd(BroadcastRoster(m1));
    case Attack(attack) =>
      if Target(m, attack.victim) != -1 {
        ProperPost(m.rooms, Only(Target(m, attack.victim)), Garbage(attack));
      }
    case Feed(attack) => ProperPost(m.rooms, StartedExcept(slot), Feed(attack));
    case _ =>
  }

  lemma ProperClose(m: Master, slot: nat)
    requires slot < |m.rooms| && forall i :: 0 <= i < |m.rooms| ==> ProperMsgs(m.rooms[i].down)
    ensures forall i :: 0 <= i < |m.rooms| ==> ProperMsgs(CloseRoom(m, slot).rooms[i].down)
  {
    assert ProperMsgs([]);
    hide ProperMsgs, View, Post, CheckGlobalEnd, KillRoom;
    var m1 := m.(rooms := m.rooms[slot := m.rooms[slot].(used := false, down := [])]);
    var m2 := m1.(players := KillRoom(m.players, slot));
    ProperPost(m2.rooms, Started, Roster(View(m2.players)));
    ProperCheckEnd(BroadcastRoster(m2));
  }

  /** A worker's own garbage: never aimed at its sender unless it is dropped. */
  lemma ProperFate(c: Config, players: seq<PlayerRec>, down: seq<HubMsg>, n: Node, i: nat, k: nat, roll: nat)
    requires LiveOk(c, players, down, n, i) && n.proc.Playing? && k < |n.proc.slots|
    ensures var f := FateOf(n.proc.slots, k, n.proc.global, roll); f.Local? || f.Remote? ==> Proper(f.attack)
  {
    hide UpOk, RecsOk, ReportsOk, HomeOk, ViewsOk, FateOf, InBlock;
    var slots := n.proc.slots;
    var f := FateOf(slots, k, n.proc.global, roll);
    assert SlotOk(slots[k]);
    if f.Local? {
      assert Ids(n.proc)[k] != Ids(n.proc)[f.v];
    }
  }

  /** Nobody's meter of incoming garbage moves, and nobody has a new last attacker. */
  ghost predicate MetersSame(p: Proc, p': Proc) {
    p.Playing? && p'.Playing? ==> |p'.slots| == |p.slots| && forall k :: 0 <= k < |p.slots| ==>
      p'.slots[k].pending == p.slots[k].pending && p'.slots[k].lastAttacker == p.slots[k].lastAttacker
  }

  /** Nobody's meter of incoming garbage rises, and nobody has a new last attacker. */
  ghost predicate MetersFall(p: Proc, p': Proc) {
    p.Playing? && p'.Playing? ==> |p'.slots| == |p.slots| && forall k :: 0 <= k < |p.slots| ==>
      p'.slots[k].pending <= p.slots[k].pending && p'.slots[k].lastAttacker == p.slots[k].lastAttacker
  }

  /** The boards themselves move in this step of worker i: a player's request or a tick. */
  predicate BoardsMove(step: Step, i: nat) {
    (step.Request? || step.Tick?) && step.i == i
  }

  /** Nothing lands in slot i: no meter moves there, except that boards use up their own. */
  ghost predicate NoneRises(step: Step, i: nat, p: Proc, p': Proc) {
    if BoardsMove(step, i) then MetersFall(p, p') else MetersSame(p, p')
  }

  /** What a worker step adds to what has landed: at most one attack, and if so the victim was alive in this very room,
      was not the attacker, and its meter and memory are updated, and nobody else's. */
  ghost predicate LandsProperly(step: Step, i: nat, n: Node, n': Node, before: Bag, after: Bag) {
    if after == before then NoneRises(step, i, n.proc, n'.proc)
    else
      && n.proc.Playing? && n'.proc.Playing? && |n'.proc.slots| == |n.proc.slots|
      && exists a, v :: Hits(n.proc.slots, n'.proc.slots, a, v) && after == before + multiset{a}
  }

  /** A whole step: in every slot nothing lands and no meter moves, except perhaps in one. */
  ghost predicate MetersTraced(step: Step, s: System, s': System)
    requires |s'.nodes| == |s.nodes|
  {
    if s'.books.landed == s.books.landed then
      forall i :: 0 <= i < |s.nodes| ==> NoneRises(step, i, s.nodes[i].proc, s'.nodes[i].proc)
    else
      exists i :: 0 <= i < |s.nodes| && LandsProperly(step, i, s.nodes[i], s'.nodes[i], s.books.landed, s'.books.landed)
               && forall j :: 0 <= j < |s.nodes| && j != i ==> s'.nodes[j] == s.nodes[j]
  }

  ghost predicate Hits(slots: seq<Slot>, slots': seq<Slot>, a: HubAttack, v: nat) {
    && v < |slots| == |slots'|
    && slots[v].active && !slots[v].over && slots[v].id == a.victim && a.attacker != a.victim &&
       1 <= a.lines <= MAX_OUTGOING
    && slots'[v].pending == (if slots[v].pending + a.lines < MAX_PENDING then slots[v].pending + a.lines
                             else MAX_PENDING)
    && slots'[v].lastAttacker == a.attacker
    && forall k :: 0 <= k < |slots| && k != v ==>
       slots'[k].pending == slots[k].pending && slots'[k].lastAttacker == slots[k].lastAttacker
  }

  lemma RouteLands(c: Config, players: seq<PlayerRec>, down: seq<HubMsg>, n: Node, i: nat, roll: nat, b: Systems.Books)
    requires LiveOk(c, players, down, n, i) && n.proc.Playing? && n.proc.phase.Routing?
    ensures var o := RouteStep(n, roll, b);
            && LandsProperly(Route(i, roll), i, n, o.node, b.landed, o.books.landed)
            && (ProperMsgs(n.up) ==> ProperMsgs(o.node.up))
            && (forall a :: a in o.books.landed ==> a in b.landed || Proper(a))
  {
    hide LiveOk, FateOf, ProperMsgs;
    var k := n.proc.phase.next;
    if k < |n.proc.slots| {
      var f := FateOf(n.proc.slots, k, n.proc.global, roll);
      ProperFate(c, players, down, n, i, k, roll);
      match f
      case Local(v, a) =>
        assert Hits(n.proc.slots, RoutedSlots(n.proc.slots, k, f), a, v);
        if ProperMsgs(n.up) { ProperAppend(n.up, Feed(a)); }
      case Remote(a) =>
        if ProperMsgs(n.up) {
          ProperAppend(n.up, Attack(a));
          ProperAppend(n.up + [Attack(a)], Feed(a));
          assert n.up + [Attack(a), Feed(a)] == n.up + [Attack(a)] + [Feed(a)];
        }
      case _ => assert n.up + [] == n.up;
    }
  }

  lemma GarbageLands(slots: seq<Slot>, a: HubAttack)
    requires Proper(a) && Landing(slots, a) != -1
    ensures Hits(slots, ApplyGarbage(slots, a), a, Landing(slots, a))
  {
    hide Landing;
  }

  lemma RequestFalls(slots: seq<Slot>, k: nat, to: Slot)
    requires k < |slots| && BoardStep(slots[k], to)
    ensures forall j :: 0 <= j < |slots| ==>
      slots[k := to][j].pending <= slots[j].pending && slots[k := to][j].lastAttacker == slots[j].lastAttacker
  {
  }

  lemma TickFalls(slots: seq<Slot>, to: seq<Slot>)
    requires Ticked(slots, to)
    ensures |to| == |slots|
    ensures forall j :: 0 <= j < |slots| ==>
      to[j].pending <= slots[j].pending && to[j].lastAttacker == slots[j].lastAttacker
  {
    forall j | 0 <= j < |slots|
      ensures to[j].pending <= slots[j].pending && to[j].lastAttacker == slots[j].lastAttacker
    {
      assert TickedSlot(slots[j], to[j]);
    }
  }

  lemma WorkerLands(c: Config, players: seq<PlayerRec>, down: seq<HubMsg>, n: Node, i: nat, step: Step,
      b: Systems.Books)
    requires LiveOk(c, players, down, n, i) && WorkerCan(c, n, down, step) && ProperMsgs(n.up) && ProperMsgs(down)
    requires step.i == i
    ensures var o := WorkerStep(c, n, down, step, b);
            && LandsProperly(step, step.i, n, o.node, b.landed, o.books.landed)
            && ProperMsgs(o.node.up)
            && (forall a :: a in o.books.landed ==> a in b.landed || Proper(a))
  {
    assert down != [] && down[0].Garbage? ==> Proper(down[0].attack);
    hide LiveOk, ProperMsgs, RouteStep, ApplyGarbage, ReportedSlots, OpeningSlots, BoardStep, Ticked, FreshId, Landing,
         MustReport, Proper, Hits;
    match step
    case Bind(_) => ProperAppend(n.up, Ready);
    case Join(_, id) => ProperAppend(n.up, Joined(id));
    case Report(_) =>
      var k := n.proc.phase.next;
      if k < |n.proc.slots| {
        ProperAppend(n.up, Eliminated(n.proc.slots[k].id));
        assert n.up + [] == n.up;
      }
    case Route(_, roll) => RouteLands(c, players, down, n, i, roll, b);
    case Request(_, k, to) => RequestFalls(n.proc.slots, k, to);
    case Tick(_, boards) => TickFalls(n.proc.slots, boards);
    case RoomRecv(_) =>
      if down[0].Garbage? && Landing(n.proc.slots, down[0].attack) != -1 {
        GarbageLands(n.proc.slots, down[0].attack);
      }
    case _ =>
  }

  lemma WorkerProper(c: Config, s: System, step: Step, i: nat)
    requires Inv(c, s) && ProperInv(s) && i < |s.nodes| && s.m.rooms[i].used
    requires WorkerCan(c, s.nodes[i], s.m.rooms[i].down, step) && step.i == i
    ensures var s' := WorkerApply(c, s, step, i);
            ProperInv(s') && MetersTraced(step, s, s')
  {
    hide LiveOk, ProperMsgs, WorkerStep, WorkerCan, LandsProperly, Base, Housed, BlocksApart, Proper;
    assert NodeOk(c, s.m, s.nodes[i], i);
    var down := s.m.rooms[i].down;
    WorkerLands(c, s.m.players, down, s.nodes[i], i, step, s.books);
    PopsWhatIsThere(c, s.nodes[i], down, step, s.books);
    if down != [] {
      ProperPop(down);
    }
    OneNodeTraced(step, s, WorkerApply(c, s, step, i), i);
  }

  lemma OneNodeTraced(step: Step, s: System, s': System, i: nat)
    requires |s'.nodes| == |s.nodes| && i < |s.nodes|
    requires (forall j :: 0 <= j < |s.nodes| && j != i ==> s'.nodes[j] == s.nodes[j])
    requires LandsProperly(step, i, s.nodes[i], s'.nodes[i], s.books.landed, s'.books.landed)
    ensures MetersTraced(step, s, s')
  {
    hide Hits;
  }

  lemma NothingLands(step: Step, s: System, s': System)
    requires |s'.nodes| == |s.nodes| && s'.books.landed == s.books.landed
    requires forall j :: 0 <= j < |s.nodes| ==> s'.nodes[j].proc == s.nodes[j].proc || s.nodes[j].proc.Gone?
    ensures MetersTraced(step, s, s')
  {
  }

  lemma AcceptProper(c: Config, s: System, canFork: bool)
    requires Inv(c, s) && ProperInv(s)
    ensures ProperInv(AcceptStep(c, s, canFork)) && MetersTraced(Accept(canFork), s, AcceptStep(c, s, canFork))
  {
    hide Inv, ProperMsgs, MetersTraced, Proper, FillingFrom, FreeFrom, Base;
    UnusedIsEmpty(c, s);
    UnusedIsGone(c, s);
    AcceptCarries(c, s, canFork);
    NothingLands(Accept(canFork), s, AcceptStep(c, s, canFork));
  }

  lemma UnusedIsGone(c: Config, s: System)
    requires Inv(c, s)
    ensures forall i :: 0 <= i < |s.nodes| && !s.m.rooms[i].used ==> s.nodes[i].proc.Gone?
  {
    hide LiveOk, Base, BlocksApart, Housed;
    forall i | 0 <= i < |s.nodes| && !s.m.rooms[i].used ensures s.nodes[i].proc.Gone? {
      assert NodeOk(c, s.m, s.nodes[i], i);
    }
  }

  lemma RecvProper(c: Config, s: System, i: nat)
    requires ProperInv(s) && i < |s.nodes| && s.nodes[i].up != []
    ensures ProperInv(MasterRecvStep(c, s, i)) && MetersTraced(MasterRecv(i), s, MasterRecvStep(c, s, i))
  {
    assert s.nodes[i].up[0].Attack? ==> Proper(s.nodes[i].up[0].attack);
    hide ProperMsgs, MetersTraced, Proper, HandleMsg, Target;
    ProperHandle(c, s.m, i, s.nodes[i].up[0]);
    ProperPop(s.nodes[i].up);
    NothingLands(MasterRecv(i), s, MasterRecvStep(c, s, i));
  }

  lemma CloseProper(c: Config, s: System, i: nat)
    requires ProperInv(s) && i < |s.nodes|
    ensures ProperInv(MasterCloseStep(s, i)) && MetersTraced(MasterClose(i), s, MasterCloseStep(s, i))
  {
    hide ProperMsgs, MetersTraced, Proper, CloseRoom, Garbages;
    ProperClose(s.m, i);
    NothingLands(MasterClose(i), s, MasterCloseStep(s, i));
  }

  lemma OperatorProper(s: System)
    requires ProperInv(s)
    ensures ProperInv(s.(m := StartFrom(s.m, 0))) && MetersTraced(Operator, s, s.(m := StartFrom(s.m, 0)))
  {
    hide ProperMsgs, MetersTraced, Proper, StartFrom;
    ProperStart(s.m, 0);
    NothingLands(Operator, s, s.(m := StartFrom(s.m, 0)));
  }

  lemma StepProper(c: Config, s: System, step: Step)
    requires Inv(c, s) && ProperInv(s)
    ensures ProperInv(Apply(c, s, step))
    ensures MetersTraced(step, s, Apply(c, s, step))
  {
    assert |s.m.rooms| == |s.nodes|;
    hide Inv, ProperInv, MetersTraced, AcceptStep, StartFrom, MasterRecvStep, MasterCloseStep, WorkerApply, WorkerCan;
    if Enabled(c, s, step) {
      match step
      case Accept(canFork) => AcceptProper(c, s, canFork);
      case Operator => OperatorProper(s);
      case MasterRecv(i) => RecvProper(c, s, i);
      case MasterClose(i) => CloseProper(c, s, i);
      case _ => WorkerProper(c, s, step, step.i);
    } else {
      NothingLands(step, s, s);
    }
  }

  lemma {:induction false} ReachableProper(c: Config, steps: seq<Step>)
    ensures ProperInv(Run(c, steps))
  {
    hide Apply, ProperInv, Inv;
    if steps == [] {
      NewSystemProper(c);
    } else {
      var before := steps[..|steps| - 1];
      ReachableProper(c, before);
      ReachableInv(c, before);
      StepProper(c, Run(c, before), steps[|steps| - 1]);
    }
  }

  lemma NewSystemProper(c: Config)
    ensures ProperInv(NewSystem(c))
  {
  }

  /** In every run, whatever lands lands on a living player of the room it lands in, who is not its sender, as one to
      twelve lines on that player's meter, up to the board height, and nobody else's; a step that lands nothing raises
      no meter, lowers one only as its own board moves, and leaves everybody's last attacker alone. */
  lemma LandingsAreProper(c: Config, steps: seq<Step>, next: Step)
    ensures var s := Run(c, steps);
            var s' := Apply(c, s, next);
            && (forall a :: a in s.books.landed ==> Proper(a))
            && MetersTraced(next, s, s')
  {
    hide Run, Apply, Inv, MetersTraced, Proper, ProperMsgs;
    ReachableProper(c, steps);
    ReachableInv(c, steps);
    StepProper(c, Run(c, steps), next);
  }

  /** In every run a player's meter rises only by an attack that lands on that very player in that very step. */
  lemma MetersRiseOnlyByLanding(c: Config, steps: seq<Step>, next: Step, i: nat, k: nat)
    ensures var s := Run(c, steps);
            var s' := Apply(c, s, next);
            i < |s.nodes| && s.nodes[i].proc.Playing? && s'.nodes[i].proc.Playing? && k < |s.nodes[i].proc.slots| ==>
              var p, p' := s.nodes[i].proc, s'.nodes[i].proc;
              && |p'.slots| == |p.slots|
              && (p'.slots[k].pending > p.slots[k].pending ==>
                    exists a :: Hits(p.slots, p'.slots, a, k) && s'.books.landed == s.books.landed + multiset{a})
  {
    hide Run, Apply, Hits;
    LandingsAreProper(c, steps, next);
    var s := Run(c, steps);
    var s' := Apply(c, s, next);
    if i < |s.nodes| && s.nodes[i].proc.Playing? && s'.nodes[i].proc.Playing? && k < |s.nodes[i].proc.slots| {
      TracedRise(next, s, s', i, k);
    }
  }

  lemma TracedRise(step: Step, s: System, s': System, i: nat, k: nat)
    requires |s'.nodes| == |s.nodes| && MetersTraced(step, s, s')
    requires i < |s.nodes| && s.nodes[i].proc.Playing? && s'.nodes[i].proc.Playing? && k < |s.nodes[i].proc.slots|
    ensures var p, p' := s.nodes[i].proc, s'.nodes[i].proc;
            && |p'.slots| == |p.slots|
            && (p'.slots[k].pending > p.slots[k].pending ==>
                  exists a :: Hits(p.slots, p'.slots, a, k) && s'.books.landed == s.books.landed + multiset{a})
  {
    if s'.books.landed == s.books.landed {
      assert NoneRises(step, i, s.nodes[i].proc, s'.nodes[i].proc);
    } else {
      var j :| 0 <= j < |s.nodes| && LandsProperly(step, j, s.nodes[j], s'.nodes[j], s.books.landed, s'.books.landed)
            && forall q :: 0 <= q < |s.nodes| && q != j ==> s'.nodes[q] == s.nodes[q];
      if i == j {
        var a, v :| Hits(s.nodes[j].proc.slots, s'.nodes[j].proc.slots, a, v) &&
          s'.books.landed == s.books.landed + multiset{a};
        assert v == k || s'.nodes[i].proc.slots[k].pending == s.nodes[i].proc.slots[k].pending;
      }
    }
  }
}
