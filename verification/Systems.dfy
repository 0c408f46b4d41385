/** The whole server as a step system: one master, a worker per used slot, and two FIFO channels between them. */
module Systems {
  import opened Hub
  import opened Masters
  import opened Rooms

  /** A slot's worker with its channel to the master; `base` is the first player id of the worker's block. */
  datatype Node = Node(base: nat, proc: Proc, up: seq<HubMsg>)

  /** The books of a run: garbage taken off a board to be sent, garbage that reached a meter, garbage that was dropped,
      and the winners announced. */
  datatype Books = Books(consumed: multiset<HubAttack>, landed: multiset<HubAttack>, dropped: multiset<HubAttack>,
    announced: seq<nat>)

  datatype System = System(m: Master, nodes: seq<Node>, books: Books)

  function NewSystem(c: Config): System {
    System(NewMaster(c), seq(c.rooms, _ => Node(0, Gone, [])), Books(multiset{}, multiset{}, multiset{}, []))
  }

  datatype Step =
    // master
    | Accept(canFork: bool)
    | Operator
    | MasterRecv(i: nat)
    | MasterClose(i: nat)
    // worker i, lobby
    | Bind(i: nat)
    | Join(i: nat, id: nat)
    | LobbyRecv(i: nat)
    | Begin(i: nat)
    // worker i, match
    | Request(i: nat, k: nat, to: Slot)
    | Quit(i: nat, k: nat)
    | RoomRecv(i: nat)
    | Tick(i: nat, boards: seq<Slot>)
    | Report(i: nat)
    | Route(i: nat, roll: nat)
    | Exit(i: nat)

  predicate InBlock(c: Config, base: nat, id: nat) {
    base <= id < base + c.lobby
  }

  // ----- When a step can happen

  /** Ids are handed out upwards inside the worker's own block: at most `lobby` connections reach one worker. */
  predicate FreshId(c: Config, n: Node, id: nat)
    requires n.proc.Lobby?
  {
    InBlock(c, n.base, id) && forall k :: 0 <= k < |n.proc.ids| ==> n.proc.ids[k] < id
  }

  ghost predicate WorkerCan(c: Config, n: Node, down: seq<HubMsg>, step: Step) {
    match step
    case Bind(_) => n.proc.Lobby? && !n.proc.bound
    case Join(_, id) => n.proc.Lobby? && n.proc.bound && FreshId(c, n, id)
    case LobbyRecv(_) => n.proc.Lobby? && n.proc.bound && down != []
    case Begin(_) => n.proc.Lobby? && n.proc.ordered && n.proc.ids != []
    case Request(_, k, to) =>
      n.proc.Playing? && n.proc.phase.Input? && k < |n.proc.slots| && n.proc.slots[k].active &&
        BoardStep(n.proc.slots[k], to)
    case Quit(_, k) => n.proc.Playing? && n.proc.phase.Input? && k < |n.proc.slots|
    case RoomRecv(_) => n.proc.Playing? && n.proc.phase.Input? && down != []
    case Tick(_, boards) => n.proc.Playing? && n.proc.phase.Input? && !n.proc.matchOver && Ticked(n.proc.slots, boards)
    case Report(_) => n.proc.Playing? && n.proc.phase.Reporting?
    case Route(_, _) => n.proc.Playing? && n.proc.phase.Routing?
    case Exit(_) => !n.proc.Gone?
    case _ => false
  }

  /** The daemon's job is done: a match ran and every room has wound down. It leaves its loop and serves nobody any
      more. */
  ghost predicate Finished(m: Master) {
    m.anyStarted && forall i :: 0 <= i < |m.rooms| ==> !m.rooms[i].used
  }

  ghost predicate Enabled(c: Config, s: System, step: Step)
    requires |s.m.rooms| == |s.nodes|
  {
    match step
    case Accept(_) => !Finished(s.m)
    case Operator => !Finished(s.m)
    case MasterRecv(i) => i < |s.nodes| && s.m.rooms[i].used && s.nodes[i].up != []
    case MasterClose(i) => i < |s.nodes| && s.m.rooms[i].used && s.nodes[i].up == [] && s.nodes[i].proc.Gone?
    case _ =>
      && step.i < |s.nodes| && s.m.rooms[step.i].used
      && WorkerCan(c, s.nodes[step.i], s.m.rooms[step.i].down, step)
  }

  // ----- What the master does

  function Announce(before: Master, after: Master, announced: seq<nat>): seq<nat> {
    if !before.matchEnded && after.matchEnded then announced + [Winner(after.players)] else announced
  }

  /** A client connects: it goes to a filling room, or to a new one if a slot is free and the fork succeeds. */
  function AcceptStep(c: Config, s: System, canFork: bool): (r: System)
    requires |s.m.rooms| == |s.nodes|
    ensures |r.m.rooms| == |s.m.rooms| && |r.nodes| == |s.nodes|
  {
    var filling := FillingFrom(c, s.m.rooms, 0);
    if filling != -1 then s.(m := DealInto(c, s.m, filling))
    else
      var free := FreeFrom(s.m.rooms, 0);
      if free == -1 || !canFork then s
      else s.(m := DealInto(c, SpawnRoom(s.m, free), free),
              nodes := s.nodes[free := Node(Base(c, s.m.roomSeq), Lobby(false, [], false, []), [])])
  }

  function MasterRecvStep(c: Config, s: System, i: nat): (r: System)
    requires |s.m.rooms| == |s.nodes| && i < |s.nodes| && s.nodes[i].up != []
    ensures |r.m.rooms| == |s.m.rooms| && |r.nodes| == |s.nodes|
  {
    var msg := s.nodes[i].up[0];
    var m := HandleMsg(c, s.m, i, msg);
    System(m, s.nodes[i := s.nodes[i].(up := s.nodes[i].up[1..])],
           s.books.(announced := Announce(s.m, m, s.books.announced),
                    dropped := s.books.dropped + if msg.Attack? && Target(s.m, msg.attack.victim) == -1 then
                      multiset{msg.attack} else multiset{}))
  }

  /** The attacks carried as garbage by a channel. */
  function Garbages(msgs: seq<HubMsg>): multiset<HubAttack> {
    if msgs == [] then multiset{}
    else Garbages(msgs[..|msgs| - 1]) + if msgs[|msgs| - 1].Garbage? then multiset{msgs[|msgs| - 1].attack}
      else multiset{}
  }

  function MasterCloseStep(s: System, i: nat): (r: System)
    requires |s.m.rooms| == |s.nodes| && i < |s.nodes|
    ensures |r.m.rooms| == |s.m.rooms| && |r.nodes| == |s.nodes|
  {
    var m := CloseRoom(s.m, i);
    s.(m := m, books := s.books.(announced := Announce(s.m, m, s.books.announced),
                                 dropped := s.books.dropped + Garbages(s.m.rooms[i].down)))
  }

  // ----- What a worker does

  /** A worker's new state, whether it took a message off its hub, and what it wrote in the books. */
  datatype Outcome = Outcome(node: Node, pop: bool, books: Books)

  function LobbyRead(p: Proc, msg: HubMsg): (r: Proc)
    requires p.Lobby?
    ensures r.Lobby? && r.ids == p.ids && r.bound == p.bound
  {
    match msg
    case Start(_) => p.(ordered := true)
    case Roster(roster) => p.(seen := roster)
    case _ => p
  }

  function RoomRead(p: Proc, msg: HubMsg): (r: Proc)
    requires p.Playing?
    ensures r.Playing? && r.phase == p.phase
  {
    match msg
    case Garbage(attack) => p.(slots := ApplyGarbage(p.slots, attack))
    case Roster(roster) => p.(global := roster)
    case GameOver(winner) => p.(winner := winner, matchOver := true)
    case _ => p
  }

  /** The loop of a phase moves on to the next player, or the next phase follows. */
  function AfterReport(p: Proc, k: nat): Phase
    requires p.Playing?
  {
    if k + 1 < |p.slots| then Reporting(k + 1) else Routing(0)
  }

  function AfterRoute(p: Proc, k: nat): Phase
    requires p.Playing?
  {
    if k + 1 < |p.slots| then Routing(k + 1) else Input
  }

  function Land(b: Books, a: HubAttack, landed: bool): Books {
    if landed then b.(landed := b.landed + multiset{a}) else b.(dropped := b.dropped + multiset{a})
  }

  function Settle(b: Books, f: Fate): Books {
    match f
    case Idle => b
    case Local(_, a) => b.(consumed := b.consumed + multiset{a}, landed := b.landed + multiset{a})
    case Remote(a) => b.(consumed := b.consumed + multiset{a})
    case Lost(a) => b.(consumed := b.consumed + multiset{a}, dropped := b.dropped + multiset{a})
  }

  function RouteStep(n: Node, roll: nat, b: Books): Outcome
    requires n.proc.Playing? && n.proc.phase.Routing?
  {
    var p, k := n.proc, n.proc.phase.next;
    if k >= |p.slots| then Outcome(n.(proc := p.(phase := Input)), false, b)
    else
      var f := FateOf(p.slots, k, p.global, roll);
      Outcome(n.(proc := p.(slots := RoutedSlots(p.slots, k, f), phase := AfterRoute(p, k)),
        up := n.up + RoutedMsgs(f)), false, Settle(b, f))
  }

  function ReportStep(n: Node, b: Books): Outcome
    requires n.proc.Playing? && n.proc.phase.Reporting?
  {
    var p, k := n.proc, n.proc.phase.next;
    if k >= |p.slots| then Outcome(n.(proc := p.(phase := Routing(0))), false, b)
    else Outcome(n.(proc := p.(slots := ReportedSlots(p.slots, k), phase := AfterReport(p, k)),
      up := n.up + ReportMsgs(p.slots, k)), false, b)
  }

  function WorkerStep(c: Config, n: Node, down: seq<HubMsg>, step: Step, b: Books): Outcome
    requires WorkerCan(c, n, down, step)
  {
    var p := n.proc;
    match step
    case Bind(_) => Outcome(n.(proc := p.(bound := true), up := n.up + [Ready]), false, b)
    case Join(_, id) => Outcome(n.(proc := p.(ids := p.ids + [id]), up := n.up + [Joined(id)]), false, b)
    case LobbyRecv(_) =>
      Outcome(n.(proc := LobbyRead(p, down[0])), true, if down[0].Garbage? then Land(b, down[0].attack, false) else b)
    case Begin(_) => Outcome(n.(proc := Playing(OpeningSlots(p.ids), p.seen, Input, false, 0)), false, b)
    case Request(_, k, to) => Outcome(n.(proc := p.(slots := p.slots[k := to])), false, b)
    case Quit(_, k) => Outcome(n.(proc := p.(slots := p.slots[k := QuitSlot(p.slots[k])])), false, b)
    case RoomRecv(_) =>
      Outcome(n.(proc := RoomRead(p, down[0])), true,
              if down[0].Garbage? then Land(b, down[0].attack, Landing(p.slots, down[0].attack) != -1) else b)
    case Tick(_, boards) => Outcome(n.(proc := p.(slots := boards, phase := Reporting(0))), false, b)
    case Report(_) => ReportStep(n, b)
    case Route(_, roll) => RouteStep(n, roll, b)
    case Exit(_) => Outcome(n.(proc := Gone), false, b)
  }

  /** Takes the worker's read message, if any, off the master's side of the channel. */
  function Popped(rooms: seq<MRoom>, i: nat, pop: bool): (r: seq<MRoom>)
    requires i < |rooms| && (pop ==> rooms[i].down != [])
    ensures |r| == |rooms|
  {
    if pop then rooms[i := rooms[i].(down := rooms[i].down[1..])] else rooms
  }

  lemma PopsWhatIsThere(c: Config, n: Node, down: seq<HubMsg>, step: Step, b: Books)
    requires WorkerCan(c, n, down, step)
    ensures WorkerStep(c, n, down, step, b).pop <==> step.LobbyRecv? || step.RoomRecv?
    ensures WorkerStep(c, n, down, step, b).pop ==> down != []
  {
  }

  // ----- Steps and runs

  ghost function WorkerApply(c: Config, s: System, step: Step, i: nat): (r: System)
    requires |s.m.rooms| == |s.nodes| && i < |s.nodes| && WorkerCan(c, s.nodes[i], s.m.rooms[i].down, step)
    ensures |r.m.rooms| == |s.m.rooms| && |r.nodes| == |s.nodes|
  {
    hide WorkerStep;
    PopsWhatIsThere(c, s.nodes[i], s.m.rooms[i].down, step, s.books);
    var o := WorkerStep(c, s.nodes[i], s.m.rooms[i].down, step, s.books);
    System(s.m.(rooms := Popped(s.m.rooms, i, o.pop)), s.nodes[i := o.node], o.books)
  }

  /** One step; a step that is not possible changes nothing. */
  ghost function Apply(c: Config, s: System, step: Step): (r: System)
    requires |s.m.rooms| == |s.nodes|
    ensures |r.m.rooms| == |s.m.rooms| && |r.nodes| == |s.nodes|
  {
    if !Enabled(c, s, step) then s
    else
      match step
      case Accept(canFork) => AcceptStep(c, s, canFork)
      case Operator => s.(m := StartFrom(s.m, 0))
      case MasterRecv(i) => MasterRecvStep(c, s, i)
      case MasterClose(i) => MasterCloseStep(s, i)
      case _ => WorkerApply(c, s, step, step.i)
  }

  ghost function Run(c: Config, steps: seq<Step>): (r: System)
    ensures |r.m.rooms| == |r.nodes| == c.rooms
  {
    if steps == [] then NewSystem(c) else Apply(c, Run(c, steps[..|steps| - 1]), steps[|steps| - 1])
  }
}
