/** When a room starts: by the operator, or by a join that finds the record full. The record is never shortened, so
    players who left long ago count. */
module StartRules {
  import opened Hub
  import opened Masters
  import opened Rooms
  import opened Systems
  import opened MasterInvariant

  // ----- What a start does to the slots

  /** The slots that a start of all rooms starts. */
  predicate Startable(r: MRoom) {
    r.used && !r.started && r.joined >= 1
  }

  /** Apart from its channel, a slot is as it was, or has been started. */
  predicate SameBut(r: MRoom, r': MRoom, starts: bool) {
    r' == r.(down := r'.down, started := r.started || starts)
  }

  lemma StartOne(m: Master, slot: nat)
    requires slot < |m.rooms|
    ensures forall i :: 0 <= i < |m.rooms| ==>
      SameBut(m.rooms[i], StartRoom(m, slot).rooms[i], i == slot && Startable(m.rooms[i]))
  {
    hide View;
  }

  /** Starting all rooms from a slot on starts exactly those that are used, have not started, and that
      somebody joined. */
  lemma {:induction false} StartsExactly(m: Master, slot: nat)
    requires slot <= |m.rooms|
    ensures forall i :: 0 <= i < |m.rooms| ==>
      SameBut(m.rooms[i], StartFrom(m, slot).rooms[i], slot <= i && Startable(m.rooms[i]))
    decreases |m.rooms| - slot
  {
    hide StartRoom;
    if slot < |m.rooms| {
      StartOne(m, slot);
      StartsExactly(StartRoom(m, slot), slot + 1);
    }
  }

  // ----- The join that starts

  /** How many records there are after one more join: the table takes no more than its size. */
  function AfterJoin(c: Config, players: seq<PlayerRec>): nat {
    if |players| < c.maxPlayers then |players| + 1 else |players|
  }

  function Counted(r: MRoom, joins: bool): MRoom {
    if joins then r.(joined := r.joined + 1) else r
  }

  lemma JoinStarts(c: Config, m: Master, slot: nat, id: nat)
    requires slot < |m.rooms|
    ensures var full := AfterJoin(c, m.players) >= c.roomSize * c.rooms;
            forall i :: 0 <= i < |m.rooms| ==>
              var r := Counted(m.rooms[i], i == slot);
                SameBut(r, HandleJoined(c, m, slot, id).rooms[i], full && Startable(r))
  {
    hide StartFrom, View;
    var room := m.rooms[slot];
    var told := BroadcastRoster(m.(players := AddPlayer(c, m.players, id, slot),
      rooms := m.rooms[slot := room.(joined := room.joined + 1)]));
    StartsExactly(told, 0);
  }

  lemma OtherMessages(c: Config, m: Master, slot: nat, msg: HubMsg)
    requires slot < |m.rooms| && !msg.Joined?
    ensures forall i :: 0 <= i < |m.rooms| ==> HandleMsg(c, m, slot, msg).rooms[i].started == m.rooms[i].started
  {
    hide View, Decided, Winner, Target, KillId;
  }

  lemma ClosingStartsNone(m: Master, slot: nat)
    requires slot < |m.rooms|
    ensures forall i :: 0 <= i < |m.rooms| ==> CloseRoom(m, slot).rooms[i].started == m.rooms[i].started
  {
    hide View, Decided, Winner, KillRoom;
  }

  lemma AcceptStartsNone(c: Config, s: System, canFork: bool)
    requires |s.m.rooms| == |s.nodes|
    ensures forall i :: 0 <= i < |s.m.rooms| ==> AcceptStep(c, s, canFork).m.rooms[i].started ==> s.m.rooms[i].started
  {
    hide FillingFrom, FreeFrom, Base;
  }

  // ----- The rule

  /** The step is the operator's, or brings the master a join after which the record is full. */
  ghost predicate StartsRooms(c: Config, s: System, step: Step)
    requires |s.m.rooms| == |s.nodes|
  {
    || step.Operator?
    || (BringsJoin(c, s, step) && AfterJoin(c, s.m.players) >= c.roomSize * c.rooms)
  }

  ghost predicate BringsJoin(c: Config, s: System, step: Step)
    requires |s.m.rooms| == |s.nodes|
  {
    step.MasterRecv? && Enabled(c, s, step) && s.nodes[step.i].up[0].Joined?
  }

  /** Somebody has joined slot i, counting the join that this step brings. */
  ghost predicate HasPlayer(c: Config, s: System, step: Step, i: nat)
    requires |s.m.rooms| == |s.nodes| && i < |s.nodes|
  {
    s.m.rooms[i].joined >= 1 || (BringsJoin(c, s, step) && step.i == i)
  }

  lemma StepStarts(c: Config, s: System, step: Step, i: nat)
    requires |s.m.rooms| == |s.nodes| && i < |s.nodes| && !s.m.rooms[i].started
    ensures Apply(c, s, step).m.rooms[i].started <==>
      s.m.rooms[i].used && HasPlayer(c, s, step, i) && StartsRooms(c, s, step)
  {
    hide WorkerStep, WorkerCan, MasterRecvStep, CloseRoom, StartFrom, AcceptStep, Garbages, Winner, SameBut;
    if s.m.rooms[i].used {
      UsedGoesOn(s.m, i);
    }
    if Enabled(c, s, step) {
      match step
      case Accept(canFork) => AcceptStartsNone(c, s, canFork);
      case Operator => OperatorStarts(s.m, i);
      case MasterRecv(j) => MessageStarts(c, s, j, i);
      case MasterClose(j) => ClosingStartsNone(s.m, j);
      case _ => PopsWhatIsThere(c, s.nodes[step.i], s.m.rooms[step.i].down, step, s.books);
    }
  }

  lemma OperatorStarts(m: Master, i: nat)
    requires i < |m.rooms| && !m.rooms[i].started
    ensures StartFrom(m, 0).rooms[i].started <==> Startable(m.rooms[i])
  {
    hide StartFrom;
    StartsExactly(m, 0);
  }

  lemma MessageStarts(c: Config, s: System, j: nat, i: nat)
    requires |s.m.rooms| == |s.nodes| && i < |s.nodes| && j < |s.nodes| && !s.m.rooms[i].started && s.nodes[j].up != []
    ensures var msg := s.nodes[j].up[0];
            MasterRecvStep(c, s, j).m.rooms[i].started <==>
              && msg.Joined? && AfterJoin(c, s.m.players) >= c.roomSize * c.rooms
              && s.m.rooms[i].used && (s.m.rooms[i].joined >= 1 || i == j)
  {
    hide HandleJoined, Target, Winner, HandleEliminated, HandleAttack, Post;
    var msg := s.nodes[j].up[0];
    if msg.Joined? {
      JoinStarts(c, s.m, j, msg.id);
    } else {
      OtherMessages(c, s.m, j, msg);
    }
  }

  lemma UsedGoesOn(m: Master, i: nat)
    requires i < |m.rooms| && m.rooms[i].used
    ensures !Finished(m)
  {
  }

  /** In every run, a slot that has not started is started by a step if and only if it is used, somebody has joined it,
      and the step is the operator's or brings a join after which there are as many records as the whole server has
      places. */
  lemma StartsExactlyWhen(c: Config, steps: seq<Step>, next: Step, i: nat)
    ensures var s := Run(c, steps);
            i < |s.nodes| && !s.m.rooms[i].started ==>
              (Apply(c, s, next).m.rooms[i].started <==>
                 s.m.rooms[i].used && HasPlayer(c, s, next, i) && StartsRooms(c, s, next))
  {
    hide Run, Apply, HasPlayer, StartsRooms;
    var s := Run(c, steps);
    if i < |s.nodes| && !s.m.rooms[i].started {
      StepStarts(c, s, next, i);
    }
  }

  // ----- What the record counts

  /** Joins the master has heard of since it began. */
  ghost function JoinsHeard(c: Config, steps: seq<Step>): nat {
    if steps == [] then 0
    else
      var before := steps[..|steps| - 1];
      JoinsHeard(c, before) + if BringsJoin(c, Run(c, before), steps[|steps| - 1]) then 1 else 0
  }

  lemma StepRecords(c: Config, s: System, step: Step)
    requires |s.m.rooms| == |s.nodes|
    ensures |Apply(c, s, step).m.players| == if BringsJoin(c, s, step) then AfterJoin(c, s.m.players) else |s.m.players|
  {
    hide WorkerStep, WorkerCan, StartFrom, Target, Garbages, Winner, View, Post, Decided, FillingFrom, FreeFrom, Base,
         Finished;
  }

  /** In every run the record holds one entry for each join ever heard of, up to its size, whoever has left or died
      since. */
  lemma {:induction false} RecordCountsJoins(c: Config, steps: seq<Step>)
    ensures |Run(c, steps).m.players| == if JoinsHeard(c, steps) < c.maxPlayers then JoinsHeard(c, steps)
      else c.maxPlayers
  {
    hide Apply, BringsJoin;
    if steps != [] {
      var before := steps[..|steps| - 1];
      RecordCountsJoins(c, before);
      StepRecords(c, Run(c, before), steps[|steps| - 1]);
    }
  }

  /** So, in every run of a server whose record has a place for everyone, without the operator: a waiting
      room that somebody has joined starts at a join if and only if that join is at least the capacity-th
      since the server began. */
  lemma CapacityCountsTheDeparted(c: Config, steps: seq<Step>, next: Step, i: nat)
    requires c.roomSize * c.rooms <= c.maxPlayers
    ensures var s := Run(c, steps);
            i < |s.nodes| && s.m.rooms[i].used && !s.m.rooms[i].started && HasPlayer(c, s, next, i) &&
              BringsJoin(c, s, next) ==>
              (Apply(c, s, next).m.rooms[i].started <==> JoinsHeard(c, steps) + 1 >= c.roomSize * c.rooms)
  {
    hide Run, Apply, HasPlayer, JoinsHeard;
    StartsExactlyWhen(c, steps, next, i);
    RecordCountsJoins(c, steps);
  }
}
