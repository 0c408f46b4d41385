/** The sending side of the log: records are queued, sent in batches, and counted when lost. */
module LogClients {
  import opened Basics
  import opened LogRecords
  import opened Wrappers
  import opened Queues

  const CAPACITY := 256

  // ----- As a value

  datatype Client = Client(open: bool, line: Line<LogRecord>, dropped: Word, nextSeq: Word, warned: bool)

  /** One call of a push, or of a drain whose i-th send would succeed or fail as `outcomes[i]` says, or closing. */
  datatype Action =
    | Push(level: Word, message: Option<seq<Byte>>, sec: nat, nsec: nat)
    | Drain(outcomes: seq<bool>)
    | Close

  /** What stays the same for a process. */
  datatype Identity = Identity(pid: Word, source: seq<Byte>)

  function NextRecord(me: Identity, c: Client, a: Action): (r: LogRecord)
    requires a.Push?
    ensures Sized(r) && Terminated(r) && r.pid == me.pid && r.seqNo == c.nextSeq
  {
    Built(a.level, Some(me.source), a.message, a.sec, a.nsec, me.pid, c.nextSeq)
  }

  function Pushed(me: Identity, c: Client, a: Action): Client
    requires a.Push?
  {
    if !c.open then c
    else c.(line := Enqueued(c.line, CAPACITY, NextRecord(me, c, a)),
            dropped := if Accepts(c.line, CAPACITY) then c.dropped else (c.dropped + 1) % U32,
            nextSeq := (c.nextSeq + 1) % U32)
  }

  /** One turn of the drain loop. */
  function SentOne(c: Client, ok: bool): Client {
    c.(line := Dequeued(c.line), dropped := if ok then c.dropped else (c.dropped + 1) % U32, warned := !ok)
  }

  function Drained(c: Client, outcomes: seq<bool>): Client
    decreases outcomes
  {
    if outcomes == [] || !c.open || c.line.contents == [] then c else Drained(SentOne(c, outcomes[0]), outcomes[1..])
  }

  /** The records a drain sends. */
  function Sending(c: Client, outcomes: seq<bool>): seq<LogRecord>
    decreases outcomes
  {
    if outcomes == [] || !c.open || c.line.contents == [] then []
    else (if outcomes[0] then [c.line.contents[0]] else []) + Sending(SentOne(c, outcomes[0]), outcomes[1..])
  }

  lemma DequeuedFewer(l: Line<LogRecord>)
    ensures forall r :: r in Dequeued(l).contents ==> r in l.contents
  {
  }

  // ----- In place

  class LogClient {
    var open: bool
    const queue: Queue<LogRecord>
    const builder: RecordBuilder
    const me: Identity
    var dropped: Word
    var warned: bool

    ghost predicate Valid()
      reads this, queue, queue.items
    {
      && queue.Valid() && queue.items.Length == CAPACITY
      && forall r :: r in queue.Abs().contents ==> Sized(r)
    }

    ghost function Abs(): Client
      reads this, queue, queue.items, builder
      requires Valid()
    {
      Client(open, queue.Abs(), dropped, builder.nextSeq, warned)
    }

    constructor (me: Identity, builder: RecordBuilder, socketOk: bool)
      ensures Valid() && fresh(queue) && fresh(queue.items) && this.builder == builder && this.me == me
      ensures Abs() == Client(socketOk, Line([], 0), 0, builder.nextSeq, false)
    {
      this.me := me;
      this.builder := builder;
      queue := new Queue<LogRecord>(CAPACITY);
      open := socketOk;
      dropped := 0;
      warned := false;
    }

    method LogPush(level: Word, message: Option<seq<Byte>>, sec: nat, nsec: nat)
      requires Valid()
      modifies this`dropped, queue, queue.items, builder
      ensures Valid() && Abs() == Pushed(me, old(Abs()), Push(level, message, sec, nsec))
    {
      hide Sized, Built;
      if !open {
        return;
      }
      var record := builder.BuildLogRecord(level, Some(me.source), message, sec, nsec, me.pid);
      var ok := queue.Enqueue(record);
      if !ok {
        dropped := (dropped + 1) % U32;
      }
    }

    /** One turn of the drain loop: the next record is packed, sent, and removed either way. */
    method SendNext(ok: bool) returns (datagram: seq<Byte>)
      requires Valid() && queue.Abs().contents != []
      modifies this`dropped, this`warned, queue
      ensures Valid() && Abs() == SentOne(old(Abs()), ok)
      ensures Sized(old(queue.Abs().contents[0])) && datagram == Packed(old(queue.Abs().contents[0]))
    {
      hide Sized, Packed, Dequeued;
      DequeuedFewer(queue.Abs());
      var record := queue.Peek();
      datagram := ToWire(record.value);
      if ok {
        warned := false;
      } else {
        warned := true;
        dropped := (dropped + 1) % U32;
      }
      var _ := queue.Dequeue();
    }

    /** Sends at most as many records as there are outcomes; `wire` collects the datagrams that went out. */
    method LogDrain(outcomes: seq<bool>) returns (wire: seq<seq<Byte>>)
      requires Valid()
      modifies this`dropped, this`warned, queue
      ensures Valid() && Abs() == Drained(old(Abs()), outcomes) && OnWire(wire, Sending(old(Abs()), outcomes))
    {
      hide Sized, Packed, SentOne, Drained, Sending, OnWire;
      wire := [];
      ghost var sent: seq<LogRecord> := [];
      ghost var start := Abs();
      NothingOnWire();
      Resting(start, outcomes);
      if !open {
        return;
      }
      var i := 0;
      assert outcomes[0..] == outcomes && [] + Sending(start, outcomes) == Sending(start, outcomes);
      while i < |outcomes| && !queue.Empty()
        invariant 0 <= i <= |outcomes| && Valid() && open
        invariant Drained(Abs(), outcomes[i..]) == Drained(start, outcomes)
        invariant sent + Sending(Abs(), outcomes[i..]) == Sending(start, outcomes)
        invariant OnWire(wire, sent)
      {
        ghost var c := Abs();
        Turn(c, outcomes, i);
        var datagram := SendNext(outcomes[i]);
        assert Abs() == SentOne(c, outcomes[i]);
        if outcomes[i] {
          OneMoreOnWire(wire, sent, datagram, c.line.contents[0]);
          wire := wire + [datagram];
          assert sent + ([c.line.contents[0]] + Sending(Abs(), outcomes[i + 1..])) == (sent + [c.line.contents[0]]) +
            Sending(Abs(), outcomes[i + 1..]);
          sent := sent + [c.line.contents[0]];
        }
        i := i + 1;
        assert open by { StaysOpen(c, outcomes[i - 1]); }
      }
      Resting(Abs(), outcomes[i..]);
      assert sent + [] == sent;
    }
  }

  method ToWire(r: LogRecord) returns (datagram: seq<Byte>)
    requires Sized(r)
    ensures datagram == Packed(r)
  {
    hide Sized, Packed;
    var buffer := new Byte[WIRE_SIZE];
    PackLogRecord(buffer, r);
    datagram := buffer[..];
  }

  /** The datagrams carry exactly these records. */
  ghost predicate OnWire(wire: seq<seq<Byte>>, sent: seq<LogRecord>) {
    |wire| == |sent| && forall i :: 0 <= i < |wire| ==> Sized(sent[i]) && wire[i] == Packed(sent[i])
  }

  lemma NothingOnWire()
    ensures OnWire([], [])
  {
  }

  lemma OneMoreOnWire(wire: seq<seq<Byte>>, sent: seq<LogRecord>, datagram: seq<Byte>, r: LogRecord)
    requires OnWire(wire, sent) && Sized(r) && datagram == Packed(r)
    ensures OnWire(wire + [datagram], sent + [r])
  {
  }

  lemma Resting(c: Client, outcomes: seq<bool>)
    ensures outcomes == [] || !c.open || c.line.contents == [] ==>
      Drained(c, outcomes) == c && Sending(c, outcomes) == []
  {
  }

  lemma StaysOpen(c: Client, ok: bool)
    ensures SentOne(c, ok).open == c.open
  {
  }

  lemma Turn(c: Client, outcomes: seq<bool>, i: nat)
    requires i < |outcomes| && c.open && c.line.contents != []
    ensures var n := SentOne(c, outcomes[i]);
            && Drained(c, outcomes[i..]) == Drained(n, outcomes[i + 1..])
            && Sending(c, outcomes[i..]) == (if outcomes[i] then [c.line.contents[0]] else []) +
               Sending(n, outcomes[i + 1..])
  {
    hide SentOne;
    assert outcomes[i..][1..] == outcomes[i + 1..];
  }

  // ----- Whole runs

  /** A client, how often it was asked to log while open, and what it has sent. */
  datatype Story = Story(client: Client, pushes: nat, sent: seq<LogRecord>)

  function Begin(first: Word): Story {
    Story(Client(true, Line([], 0), 0, first, false), 0, [])
  }

  function After(me: Identity, s: Story, a: Action): Story {
    match a
    case Push(_, _, _, _) => Story(Pushed(me, s.client, a), if s.client.open then s.pushes + 1 else s.pushes, s.sent)
    case Drain(outcomes) => Story(Drained(s.client, outcomes), s.pushes, s.sent + Sending(s.client, outcomes))
    case Close => s.(client := s.client.(open := false))
  }

  function Run(me: Identity, first: Word, actions: seq<Action>): Story {
    if actions == [] then Begin(first) else After(me, Run(me, first, actions[..|actions| - 1]), actions[|actions| - 1])
  }

  /** Numbers between lo and hi, strictly rising, all from one process. */
  ghost predicate Rising(me: Identity, rs: seq<LogRecord>, lo: int, hi: int) {
    && (forall i :: 0 <= i < |rs| ==>
       lo <= rs[i].seqNo < hi && rs[i].pid == me.pid && Sized(rs[i]) && Terminated(rs[i]))
    && (forall i, j :: 0 <= i < j < |rs| ==> rs[i].seqNo < rs[j].seqNo)
  }

  ghost predicate Balanced(s: Story) {
    && |s.sent| + |s.client.line.contents| <= s.pushes
    && s.client.dropped == (s.pushes - |s.sent| - |s.client.line.contents|) % U32
  }

  ghost predicate Numbered(me: Identity, first: Word, s: Story) {
    && s.client.nextSeq == (first + s.pushes) % U32
    && (first + s.pushes <= U32 ==> Rising(me, s.sent + s.client.line.contents, first, first + s.pushes))
  }

  lemma OneLess(x: int)
    ensures (x % U32 + 1) % U32 == (x + 1) % U32
  {
  }

  lemma PushBalances(me: Identity, s: Story, a: Action)
    requires a.Push? && Balanced(s)
    ensures Balanced(After(me, s, a))
  {
    hide NextRecord;
    OneLess(s.pushes - |s.sent| - |s.client.line.contents|);
  }

  lemma {:induction false} DrainBalances(s: Story, outcomes: seq<bool>)
    requires Balanced(s)
    ensures Balanced(Story(Drained(s.client, outcomes), s.pushes, s.sent + Sending(s.client, outcomes)))
    decreases outcomes
  {
    var c := s.client;
    if outcomes == [] || !c.open || c.line.contents == [] {
      assert s.sent + [] == s.sent;
    } else {
      OneLess(s.pushes - |s.sent| - |c.line.contents|);
      var ok := outcomes[0];
      var n := Story(SentOne(c, ok), s.pushes, s.sent + if ok then [c.line.contents[0]] else []);
      DrainBalances(n, outcomes[1..]);
      assert n.sent + Sending(n.client, outcomes[1..]) == s.sent + Sending(c, outcomes);
    }
  }

  lemma RisingAppend(me: Identity, rs: seq<LogRecord>, lo: int, r: LogRecord)
    requires Rising(me, rs, lo, r.seqNo) && lo <= r.seqNo && r.pid == me.pid && Sized(r) && Terminated(r)
    ensures Rising(me, rs + [r], lo, r.seqNo + 1)
  {
    hide Sized, Terminated;
  }

  lemma RisingDrop(me: Identity, rs: seq<LogRecord>, k: nat, lo: int, hi: int)
    requires Rising(me, rs, lo, hi) && k < |rs|
    ensures Rising(me, rs[..k] + rs[k + 1..], lo, hi)
  {
    hide Sized, Terminated;
    var t := rs[..k] + rs[k + 1..];
    assert forall i :: 0 <= i < |t| ==> t[i] == rs[if i < k then i else i + 1];
  }

  lemma PushNumbers(me: Identity, first: Word, s: Story, a: Action)
    requires a.Push? && Numbered(me, first, s)
    ensures Numbered(me, first, After(me, s, a))
  {
    hide NextRecord, Sized, Terminated, Rising;
    OneLess(first + s.pushes);
    var c, t := s.client, After(me, s, a);
    if c.open && first + s.pushes + 1 <= U32 {
      var r := NextRecord(me, c, a);
      if Accepts(c.line, CAPACITY) {
        RisingAppend(me, s.sent + c.line.contents, first, r);
        assert (s.sent + c.line.contents) + [r] == s.sent + t.client.line.contents;
      } else {
        RisingWider(me, s.sent + c.line.contents, first, first + s.pushes);
      }
    }
  }

  lemma RisingWider(me: Identity, rs: seq<LogRecord>, lo: int, hi: int)
    requires Rising(me, rs, lo, hi)
    ensures Rising(me, rs, lo, hi + 1)
  {
    hide Sized, Terminated;
  }

  lemma {:induction false} DrainNumbers(me: Identity, first: Word, s: Story, outcomes: seq<bool>)
    requires Numbered(me, first, s)
    ensures Numbered(me, first, Story(Drained(s.client, outcomes), s.pushes, s.sent + Sending(s.client, outcomes)))
    decreases outcomes
  {
    hide Rising;
    var c := s.client;
    if outcomes == [] || !c.open || c.line.contents == [] {
      assert s.sent + [] == s.sent;
    } else {
      var ok := outcomes[0];
      var n := Story(SentOne(c, ok), s.pushes, s.sent + if ok then [c.line.contents[0]] else []);
      OneSent(me, first, s, ok);
      DrainNumbers(me, first, n, outcomes[1..]);
      assert n.sent + Sending(n.client, outcomes[1..]) == s.sent + Sending(c, outcomes);
    }
  }

  lemma OneSent(me: Identity, first: Word, s: Story, ok: bool)
    requires Numbered(me, first, s) && s.client.line.contents != []
    ensures Numbered(me, first,
      Story(SentOne(s.client, ok), s.pushes, s.sent + if ok then [s.client.line.contents[0]] else []))
  {
    hide Rising;
    var c, k := s.client, |s.sent|;
    var all, n := s.sent + c.line.contents, SentOne(c, ok);
    assert n.line.contents == c.line.contents[1..];
    if ok {
      assert (s.sent + [c.line.contents[0]]) + n.line.contents == all;
    } else {
      assert (s.sent + []) + n.line.contents == all[..k] + all[k + 1..];
      if first + s.pushes <= U32 {
        RisingDrop(me, all, k, first, first + s.pushes);
      }
    }
  }

  lemma {:induction false} RunKeeps(me: Identity, first: Word, actions: seq<Action>)
    ensures Balanced(Run(me, first, actions)) && Numbered(me, first, Run(me, first, actions))
  {
    hide Balanced, Numbered, Pushed, Drained, Sending;
    if actions == [] {
      Fresh(me, first);
    } else {
      var s, a := Run(me, first, actions[..|actions| - 1]), actions[|actions| - 1];
      RunKeeps(me, first, actions[..|actions| - 1]);
      match a
      case Push(_, _, _, _) =>
        PushBalances(me, s, a);
        PushNumbers(me, first, s, a);
      case Drain(outcomes) =>
        DrainBalances(s, outcomes);
        DrainNumbers(me, first, s, outcomes);
      case Close =>
        Closing(me, first, s);
    }
  }

  lemma Fresh(me: Identity, first: Word)
    ensures Balanced(Begin(first)) && Numbered(me, first, Begin(first))
  {
  }

  lemma Closing(me: Identity, first: Word, s: Story)
    requires Balanced(s) && Numbered(me, first, s)
    ensures Balanced(After(me, s, Close)) && Numbered(me, first, After(me, s, Close))
  {
    hide Rising;
  }

  /** Over every run, whatever the sends do: each push was sent, is counted as dropped or is still queued (the counter
      being a 32-bit number), and until the sequence numbers wrap, those sent rise strictly and lie among those handed
      out. */
  lemma EveryPushAccountedFor(me: Identity, first: Word, actions: seq<Action>)
    ensures var s := Run(me, first, actions);
            && |s.sent| + |s.client.line.contents| <= s.pushes
            && s.client.dropped == (s.pushes - |s.sent| - |s.client.line.contents|) % U32
            && (s.pushes < U32 ==> s.pushes == |s.sent| + s.client.dropped + |s.client.line.contents|)
            && (first + s.pushes <= U32 ==> Rising(me, s.sent, first, first + s.pushes))
  {
    hide Run, Rising;
    RunKeeps(me, first, actions);
    var s := Run(me, first, actions);
    if first + s.pushes <= U32 {
      RisingFront(me, s.sent, s.client.line.contents, first, first + s.pushes);
    }
  }

  lemma RisingFront(me: Identity, a: seq<LogRecord>, b: seq<LogRecord>, lo: int, hi: int)
    requires Rising(me, a + b, lo, hi)
    ensures Rising(me, a, lo, hi)
  {
    hide Sized, Terminated;
    assert forall i :: 0 <= i < |a| ==> (a + b)[i] == a[i];
  }

  // ----- What is sent is what was pushed

  /** The pushes made while the client was open, in order. */
  function PushesOf(me: Identity, first: Word, actions: seq<Action>): (ps: seq<Action>)
    ensures forall i :: 0 <= i < |ps| ==> ps[i].Push?
  {
    if actions == [] then []
    else
      var before, a := actions[..|actions| - 1], actions[|actions| - 1];
      PushesOf(me, first, before) + if a.Push? && Run(me, first, before).client.open then [a] else []
  }

  /** The record tells of the push its number stands for. */
  ghost predicate TellsOf(r: LogRecord, me: Identity, first: Word, ps: seq<Action>) {
    && 0 <= r.seqNo - first < |ps| && ps[r.seqNo - first].Push?
    && var a := ps[r.seqNo - first];
       Tells(r, a.level, me.source, Given(a.message), a.sec, a.nsec, me.pid, r.seqNo)
  }

  ghost predicate Genuine(rs: seq<LogRecord>, me: Identity, first: Word, ps: seq<Action>) {
    forall i :: 0 <= i < |rs| ==> TellsOf(rs[i], me, first, ps)
  }

  lemma GenuineMore(rs: seq<LogRecord>, me: Identity, first: Word, ps: seq<Action>, a: Action)
    requires Genuine(rs, me, first, ps)
    ensures Genuine(rs, me, first, ps + [a])
  {
    hide Tells;
    forall i | 0 <= i < |rs| ensures TellsOf(rs[i], me, first, ps + [a]) {
      assert TellsOf(rs[i], me, first, ps);
    }
  }

  lemma {:induction false} DrainGenuine(c: Client, outcomes: seq<bool>, me: Identity, first: Word, ps: seq<Action>)
    requires Genuine(c.line.contents, me, first, ps)
    ensures Genuine(Drained(c, outcomes).line.contents, me, first, ps)
    ensures Genuine(Sending(c, outcomes), me, first, ps)
    decreases outcomes
  {
    hide TellsOf;
    if outcomes != [] && c.open && c.line.contents != [] {
      DrainGenuine(SentOne(c, outcomes[0]), outcomes[1..], me, first, ps);
    }
  }

  lemma PushGenuine(me: Identity, first: Word, s: Story, ps: seq<Action>, a: Action)
    requires a.Push? && s.client.open && s.client.nextSeq == first + |ps|
    requires Genuine(s.client.line.contents, me, first, ps)
    ensures Genuine(Pushed(me, s.client, a).line.contents, me, first, ps + [a])
  {
    hide Tells, Built;
    var r := NextRecord(me, s.client, a);
    BuiltSurvives(a.level, Some(me.source), a.message, a.sec, a.nsec, me.pid, s.client.nextSeq);
    assert TellsOf(r, me, first, ps + [a]);
    GenuineMore(s.client.line.contents, me, first, ps, a);
  }

  lemma {:induction false} RunGenuine(me: Identity, first: Word, actions: seq<Action>)
    ensures var s, ps := Run(me, first, actions), PushesOf(me, first, actions);
            && |ps| == s.pushes
            && (first + s.pushes <= U32 ==>
                  Genuine(s.sent, me, first, ps) && Genuine(s.client.line.contents, me, first, ps))
  {
    hide Pushed, Drained, Sending, Genuine;
    if actions == [] {
      NothingYet(me, first);
    } else {
      var before, a := actions[..|actions| - 1], actions[|actions| - 1];
      var s, ps := Run(me, first, before), PushesOf(me, first, before);
      RunGenuine(me, first, before);
      OneAction(me, first, before, s, ps, a);
    }
  }

  lemma NothingYet(me: Identity, first: Word)
    ensures Genuine([], me, first, [])
  {
  }

  lemma OneAction(me: Identity, first: Word, before: seq<Action>, s: Story, ps: seq<Action>, a: Action)
    requires s == Run(me, first, before) && |ps| == s.pushes
    requires first + s.pushes <= U32 ==>
      Genuine(s.sent, me, first, ps) && Genuine(s.client.line.contents, me, first, ps)
    ensures var t := After(me, s, a);
            var qs := ps + if a.Push? && s.client.open then [a] else [];
            && |qs| == t.pushes
            && (first + t.pushes <= U32 ==>
                  Genuine(t.sent, me, first, qs) && Genuine(t.client.line.contents, me, first, qs))
  {
    hide Drained, Sending, TellsOf, Run, NextRecord;
    assert ps + [] == ps;
    match a
    case Push(_, _, _, _) =>
      if s.client.open && first + s.pushes + 1 <= U32 {
        RunKeeps(me, first, before);
        assert s.client.nextSeq == first + s.pushes;
        PushGenuine(me, first, s, ps, a);
        GenuineMore(s.sent, me, first, ps, a);
      }
    case Drain(outcomes) =>
      if first + s.pushes <= U32 {
        DrainGenuine(s.client, outcomes, me, first, ps);
      }
    case Close =>
  }

  /** Over every run until the numbers wrap: every record sent tells of the push its number stands for, that is its
      level, time and text, and of the process that made it. */
  lemma SentAsPushed(me: Identity, first: Word, actions: seq<Action>, i: nat)
    ensures var s, ps := Run(me, first, actions), PushesOf(me, first, actions);
            |ps| == s.pushes && (first + s.pushes <= U32 && i < |s.sent| ==> TellsOf(s.sent[i], me, first, ps))
  {
    hide Run, PushesOf, TellsOf;
    RunGenuine(me, first, actions);
  }
}
