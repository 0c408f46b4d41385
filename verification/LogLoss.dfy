/** Both ends of the log together: what the daemon reports missing against what the clients lost. */
module LogLoss {
  import opened Basics
  import opened LogRecords
  import opened LogDaemons
  import LogClients

  /** One logging process: who it is, its first number, and everything it did. */
  datatype Process = Process(me: LogClients.Identity, first: Word, actions: seq<LogClients.Action>)

  function Outcome(p: Process): LogClients.Story {
    LogClients.Run(p.me, p.first, p.actions)
  }

  function SeqNos(rs: seq<LogRecord>): (s: seq<Word>)
    ensures |s| == |rs| && forall i :: 0 <= i < |s| ==> s[i] == rs[i].seqNo
  {
    seq(|rs|, i requires 0 <= i < |rs| => rs[i].seqNo)
  }

  /** Records lost or still waiting at a process that lie before its first or after its last delivered one. */
  function Unseen(p: Process): int {
    var s := Outcome(p);
    if s.sent == [] then s.pushes
      else (s.sent[0].seqNo - p.first) + (p.first + s.pushes - 1 - s.sent[|s.sent| - 1].seqNo)
  }

  /** Records of a process that never left it. */
  function NotSent(p: Process): int {
    Outcome(p).client.dropped + |Outcome(p).client.line.contents|
  }

  /** The process's numbers have not wrapped around. */
  predicate NoWrap(p: Process) {
    p.first + Outcome(p).pushes <= U32 && Outcome(p).pushes < U32
  }

  /** The daemon got from this process exactly what it sent, in order. */
  predicate Delivered(p: Process, marks: seq<Mark>) {
    Numbers(marks, p.me.pid) == SeqNos(Outcome(p).sent)
  }

  /** For each process: what the daemon misses is exactly what the process did not send, apart from records before its
      first or after its last delivered one. */
  lemma ProcessShare(p: Process, marks: seq<Mark>)
    requires NoWrap(p) && Delivered(p, marks)
    ensures Up(Numbers(marks, p.me.pid))
    ensures Missing(Numbers(marks, p.me.pid)) == NotSent(p) - Unseen(p) && Unseen(p) >= 0
  {
    hide LogClients.Run, Numbers;
    LogClients.EveryPushAccountedFor(p.me, p.first, p.actions);
  }

  // ----- Sums over processes

  function Pids(ps: seq<Process>): (s: seq<Word>)
    ensures |s| == |ps| && forall i :: 0 <= i < |s| ==> s[i] == ps[i].me.pid
  {
    seq(|ps|, i requires 0 <= i < |ps| => ps[i].me.pid)
  }

  function VisibleLoss(ps: seq<Process>): int {
    if ps == [] then 0 else NotSent(ps[0]) - Unseen(ps[0]) + VisibleLoss(ps[1..])
  }

  lemma {:induction false} SumOverProcesses(ps: seq<Process>, marks: seq<Mark>)
    requires forall p :: p in ps ==> NoWrap(p) && Delivered(p, marks)
    ensures MissingFrom(Pids(ps), marks) == VisibleLoss(ps)
  {
    hide NoWrap, Delivered, Numbers, NotSent, Unseen, Missing;
    if ps != [] {
      ProcessShare(ps[0], marks);
      assert Pids(ps)[1..] == Pids(ps[1..]);
      SumOverProcesses(ps[1..], marks);
    }
  }

  lemma {:induction false} TakeOut(pids: seq<Word>, k: nat, marks: seq<Mark>)
    requires k < |pids|
    ensures MissingFrom(pids, marks) == Missing(Numbers(marks, pids[k])) + MissingFrom(pids[..k] + pids[k + 1..], marks)
  {
    hide Numbers, Missing;
    if k == 0 {
      assert pids[..0] + pids[1..] == pids[1..];
    } else {
      TakeOut(pids[1..], k - 1, marks);
      assert (pids[..k] + pids[k + 1..])[1..] == pids[1..][..k - 1] + pids[1..][k..];
    }
  }

  /** The order of senders does not matter, nor do senders from whom nothing came. */
  lemma {:induction false} SameSum(a: seq<Word>, b: seq<Word>, marks: seq<Mark>)
    requires Distinct(a) && Distinct(b)
    requires (forall p :: p in a ==> p in b) && (forall p :: p in b && p !in a ==> Numbers(marks, p) == [])
    ensures MissingFrom(a, marks) == MissingFrom(b, marks)
    decreases |b|
  {
    hide Numbers;
    if b != [] {
      var p := b[0];
      if p in a {
        var k :| 0 <= k < |a| && a[k] == p;
        TakeOut(a, k, marks);
        Without(a, k);
        SameSum(a[..k] + a[k + 1..], b[1..], marks);
      } else {
        SameSum(a, b[1..], marks);
      }
    } else {
      FewerDistinct(a, b);
    }
  }

  lemma Without(a: seq<Word>, k: nat)
    requires Distinct(a) && k < |a|
    ensures var r := a[..k] + a[k + 1..]; Distinct(r) && forall p :: p in r <==> p in a && p != a[k]
  {
    var r := a[..k] + a[k + 1..];
    assert forall i :: 0 <= i < |r| ==> r[i] == a[if i < k then i else i + 1];
    forall p | p in a && p != a[k] ensures p in r {
      var i :| 0 <= i < |a| && a[i] == p;
      assert r[if i < k then i else i - 1] == p;
    }
  }

  /** For any number of processes up to the tracker limit, any runs of them, and any interleaving of their datagrams:
      the daemon's total is the number of records the processes did not send, not counting those before a process's
      first or after its last delivered record. */
  lemma LossIsVisible(ps: seq<Process>, marks: seq<Mark>)
    requires |ps| <= MAX_TRACKED_SENDERS && Distinct(Pids(ps))
    requires forall p :: p in ps ==> NoWrap(p) && Delivered(p, marks)
    requires forall pid :: pid in Senders(marks) ==> pid in Pids(ps)
    ensures Run(marks).total == VisibleLoss(ps) % U32
  {
    hide Run, NoWrap, Delivered, Numbers, Senders, MissingFrom, VisibleLoss, Up;
    SendersDistinct(marks);
    forall pid: Word ensures Up(Numbers(marks, pid)) {
      if pid in Senders(marks) {
        var k :| 0 <= k < |ps| && Pids(ps)[k] == pid;
        ProcessShare(ps[k], marks);
      } else {
        EmptyIsUp(Numbers(marks, pid));
      }
    }
    TotalIsMissing(marks);
    FewerDistinct(Senders(marks), Pids(ps));
    SameSum(Senders(marks), Pids(ps), marks);
    SumOverProcesses(ps, marks);
  }

  lemma EmptyIsUp(s: seq<Word>)
    requires s == []
    ensures Up(s)
  {
  }

  lemma {:induction false} FewerDistinct(a: seq<Word>, b: seq<Word>)
    requires Distinct(a) && forall p :: p in a ==> p in b
    ensures |a| <= |b|
    decreases |a|
  {
    if a != [] {
      assert a[0] in a && a[0] in b;
      var k :| 0 <= k < |b| && b[k] == a[0];
      var r := b[..k] + b[k + 1..];
      forall p | p in a[1..] ensures p in r {
        assert p in a && p in b;
        var i :| 0 <= i < |b| && b[i] == p;
        assert r[if i < k then i else i - 1] == p;
      }
      FewerDistinct(a[1..], r);
    }
  }

  /** What is on the wire is what was sent. */
  lemma DatagramsCarryMarks(p: Process, wire: seq<seq<Byte>>)
    requires NoWrap(p) && LogClients.OnWire(wire, Outcome(p).sent)
    ensures forall i :: 0 <= i < |wire| ==> |wire[i]| == WIRE_SIZE && Unpacked(wire[i]) == Outcome(p).sent[i]
  {
    hide LogClients.Run, Unpacked, Packed, Sized, Terminated;
    LogClients.EveryPushAccountedFor(p.me, p.first, p.actions);
    forall i | 0 <= i < |wire| ensures |wire[i]| == WIRE_SIZE && Unpacked(wire[i]) == Outcome(p).sent[i] {
      UnpackUndoesPack(Outcome(p).sent[i]);
    }
  }
}
