/** The receiving side of the log: one tracker per sender, and the gaps between sequence numbers added up. */
module LogDaemons {
  import opened Basics
  import opened LogRecords

  const MAX_TRACKED_SENDERS := 32

  datatype Tracker = Tracker(pid: Word, lastSeq: Word, seen: bool)

  // ----- As a value

  datatype Daemon = Daemon(trackers: seq<Tracker>, total: Word, period: Word)

  /** Position of the first tracker of this pid, or the number of trackers. */
  function Find(ts: seq<Tracker>, pid: Word): (i: nat)
    ensures i <= |ts| && (i < |ts| ==> ts[i].pid == pid) && forall j :: 0 <= j < i ==> ts[j].pid != pid
  {
    if ts == [] || ts[0].pid == pid then 0 else 1 + Find(ts[1..], pid)
  }

  /** How many numbers a record skips after the last one seen. */
  function Gap(t: Tracker, seqNo: Word): Word {
    if t.seen && seqNo != (t.lastSeq + 1) % U32 && seqNo > t.lastSeq then seqNo - t.lastSeq - 1 else 0
  }

  /** The trackers after looking one up. A sender gets a new one while there is room. */
  function WithTracker(ts: seq<Tracker>, pid: Word): seq<Tracker> {
    if Find(ts, pid) == |ts| && |ts| < MAX_TRACKED_SENDERS then ts + [Tracker(pid, 0, false)] else ts
  }

  function Received(d: Daemon, pid: Word, seqNo: Word): Daemon {
    var ts := WithTracker(d.trackers, pid);
    var i := Find(ts, pid);
    if i == |ts| then d
    else Daemon(ts[i := Tracker(pid, seqNo, true)], (d.total + Gap(ts[i], seqNo)) % U32,
      (d.period + Gap(ts[i], seqNo)) % U32)
  }

  // ----- In place

  class LogDaemon {
    const trackers: array<Tracker>
    var count: nat
    var total: Word
    var period: Word

    ghost predicate Valid()
      reads this
    {
      trackers.Length == MAX_TRACKED_SENDERS && count <= MAX_TRACKED_SENDERS
    }

    ghost function Abs(): Daemon
      reads this, trackers
      requires Valid()
    {
      Daemon(trackers[..count], total, period)
    }

    constructor ()
      ensures Valid() && fresh(trackers) && Abs() == Daemon([], 0, 0)
    {
      trackers := new Tracker[MAX_TRACKED_SENDERS];
      count, total, period := 0, 0, 0;
    }

    /** The slot of this sender, or -1 when the table is full of others. The last number of a new slot is not read until
        one has been seen; it is taken to be 0. */
    method FindTracker(pid: Word) returns (i: int)
      requires Valid()
      modifies this`count, trackers
      ensures Valid() && -1 <= i < count && trackers[..count] == WithTracker(old(trackers[..count]), pid)
      ensures if i == -1 then Find(trackers[..count], pid) == count else Find(trackers[..count], pid) == i
    {
      ghost var was := trackers[..count];
      i := 0;
      while i < count
        invariant 0 <= i <= count && forall j :: 0 <= j < i ==> trackers[j].pid != pid
      {
        if trackers[i].pid == pid {
          FindIs(was, pid, i);
          return;
        }
        i := i + 1;
      }
      FindIs(was, pid, count);
      if count < MAX_TRACKED_SENDERS {
        trackers[count] := Tracker(pid, 0, false);
        count := count + 1;
        assert trackers[..count] == was + [Tracker(pid, 0, false)];
        FindIs(trackers[..count], pid, count - 1);
        return count - 1;
      }
      return -1;
    }

    /** One datagram; one of the wrong size is ignored. */
    method Receive(datagram: seq<Byte>)
      requires Valid()
      modifies this, trackers
      ensures Valid()
      ensures if |datagram| != WIRE_SIZE then Abs() == old(Abs())
              else Abs() == Received(old(Abs()), Unpacked(datagram).pid, Unpacked(datagram).seqNo)
    {
      hide Unpacked, Find, WithTracker, Gap;
      if |datagram| == WIRE_SIZE {
        var record := Unpacked(datagram);
        NoSlot(trackers[..count], record.pid);
        var i := FindTracker(record.pid);
        if i != -1 {
          var t := trackers[i];
          assert t == trackers[..count][i];
          var gap := Gap(t, record.seqNo);
          total := (total + gap) % U32;
          period := (period + gap) % U32;
          trackers[i] := Tracker(record.pid, record.seqNo, true);
        }
      }
    }

    /** The periodic summary clears the period's count and nothing else. */
    method Summarise() returns (reported: Word)
      requires Valid()
      modifies this`period
      ensures Valid() && reported == old(period) && Abs() == old(Abs()).(period := 0)
    {
      reported := period;
      period := 0;
    }
  }

  lemma NoSlot(ts: seq<Tracker>, pid: Word)
    ensures var r := WithTracker(ts, pid); Find(r, pid) == |r| ==> r == ts
  {
    var r := WithTracker(ts, pid);
    assert |r| > |ts| ==> r[|ts|].pid == pid;
  }

  lemma FindIs(ts: seq<Tracker>, pid: Word, i: nat)
    requires i <= |ts| && (i < |ts| ==> ts[i].pid == pid) && forall j :: 0 <= j < i ==> ts[j].pid != pid
    ensures Find(ts, pid) == i
  {
  }

  // ----- What the total means

  /** The part of a datagram that counts. */
  datatype Mark = Mark(pid: Word, seqNo: Word)

  function Run(marks: seq<Mark>): Daemon {
    if marks == [] then Daemon([], 0, 0)
    else Received(Run(marks[..|marks| - 1]), marks[|marks| - 1].pid, marks[|marks| - 1].seqNo)
  }

  /** The numbers received from one sender, in order. */
  function Numbers(marks: seq<Mark>, pid: Word): seq<Word> {
    if marks == [] then []
    else Numbers(marks[..|marks| - 1], pid) + (if marks[|marks| - 1].pid == pid then [marks[|marks| - 1].seqNo] else [])
  }

  /** The senders, in the order of their first datagrams. */
  function Senders(marks: seq<Mark>): seq<Word> {
    if marks == [] then []
    else
      var before, pid := Senders(marks[..|marks| - 1]), marks[|marks| - 1].pid;
      if pid in before then before else before + [pid]
  }

  /** The senders that got a tracker. */
  function Tracked(marks: seq<Mark>): seq<Word> {
    var all := Senders(marks);
    if |all| <= MAX_TRACKED_SENDERS then all else all[..MAX_TRACKED_SENDERS]
  }

  predicate Up(s: seq<Word>) {
    forall i, j :: 0 <= i < j < |s| ==> s[i] < s[j]
  }

  /** Each sender's numbers rise strictly. */
  ghost predicate AllUp(marks: seq<Mark>) {
    forall pid :: Up(Numbers(marks, pid))
  }

  /** Numbers of one sender between its first and its last that never arrived. */
  function Missing(s: seq<Word>): int {
    if s == [] then 0 else s[|s| - 1] - s[0] + 1 - |s|
  }

  function MissingFrom(pids: seq<Word>, marks: seq<Mark>): int {
    if pids == [] then 0 else Missing(Numbers(marks, pids[0])) + MissingFrom(pids[1..], marks)
  }

  lemma {:induction false} SendersDistinct(marks: seq<Mark>)
    ensures Distinct(Senders(marks)) && forall pid :: pid in Senders(marks) <==> Numbers(marks, pid) != []
  {
    if marks != [] {
      SendersDistinct(marks[..|marks| - 1]);
    }
  }

  /** The trackers hold the last number of each tracked sender. */
  ghost predicate Follows(d: Daemon, marks: seq<Mark>) {
    var ps := Tracked(marks);
    && |d.trackers| == |ps|
    && forall i :: 0 <= i < |ps| ==>
      var s := Numbers(marks, ps[i]); s != [] && d.trackers[i] == Tracker(ps[i], s[|s| - 1], true)
  }

  /** One more datagram changes the numbers of its sender only. */
  lemma OtherNumbers(marks: seq<Mark>, m: Mark, pid: Word)
    ensures Numbers(marks + [m], pid) == if pid == m.pid then Numbers(marks, pid) + [m.seqNo] else Numbers(marks, pid)
  {
    assert (marks + [m])[..|marks|] == marks;
  }

  lemma {:induction false} MissingSame(pids: seq<Word>, marks: seq<Mark>, m: Mark)
    requires m.pid !in pids
    ensures MissingFrom(pids, marks + [m]) == MissingFrom(pids, marks)
  {
    hide Numbers, Missing;
    if pids != [] {
      OtherNumbers(marks, m, pids[0]);
      MissingSame(pids[1..], marks, m);
    }
  }

  lemma {:induction false} MissingStep(pids: seq<Word>, marks: seq<Mark>, m: Mark)
    requires Distinct(pids) && m.pid in pids
    ensures MissingFrom(pids, marks + [m]) - MissingFrom(pids, marks)
         == Missing(Numbers(marks, m.pid) + [m.seqNo]) - Missing(Numbers(marks, m.pid))
  {
    hide Numbers, Missing;
    OtherNumbers(marks, m, pids[0]);
    if pids[0] == m.pid {
      MissingSame(pids[1..], marks, m);
    } else {
      MissingStep(pids[1..], marks, m);
    }
  }

  lemma {:induction false} MissingAppend(pids: seq<Word>, pid: Word, marks: seq<Mark>)
    ensures MissingFrom(pids + [pid], marks) == MissingFrom(pids, marks) + Missing(Numbers(marks, pid))
  {
    hide Numbers, Missing;
    if pids == [] {
      assert pids + [pid] == [pid] && [pid][1..] == [];
      assert MissingFrom([pid], marks) == Missing(Numbers(marks, pid)) + MissingFrom([], marks);
    } else {
      assert (pids + [pid])[1..] == pids[1..] + [pid];
      MissingAppend(pids[1..], pid, marks);
    }
  }

  lemma SendersStep(marks: seq<Mark>, m: Mark)
    ensures Senders(marks + [m]) == if m.pid in Senders(marks) then Senders(marks) else Senders(marks) + [m.pid]
  {
    assert (marks + [m])[..|marks|] == marks;
  }

  lemma TrackedStep(marks: seq<Mark>, m: Mark)
    ensures var ps := Tracked(marks);
            Tracked(marks + [m]) == if m.pid !in ps && |ps| < MAX_TRACKED_SENDERS then ps + [m.pid] else ps
    ensures Distinct(Tracked(marks))
  {
    hide Senders, Numbers;
    SendersStep(marks, m);
    SendersDistinct(marks);
  }

  lemma UpStep(marks: seq<Mark>, m: Mark)
    requires AllUp(marks + [m])
    ensures AllUp(marks)
    ensures forall i :: 0 <= i < |Numbers(marks, m.pid)| ==> Numbers(marks, m.pid)[i] < m.seqNo
  {
    hide Numbers;
    forall pid ensures Up(Numbers(marks, pid)) {
      assert Up(Numbers(marks + [m], pid));
      OtherNumbers(marks, m, pid);
      var a, b := Numbers(marks, pid), Numbers(marks + [m], pid);
      assert forall i :: 0 <= i < |a| ==> a[i] == b[i];
    }
    OtherNumbers(marks, m, m.pid);
    assert Up(Numbers(marks + [m], m.pid));
    var a, b := Numbers(marks, m.pid), Numbers(marks + [m], m.pid);
    assert forall i :: 0 <= i < |a| ==> a[i] == b[i];
    assert b[|a|] == m.seqNo;
  }

  /** A tracked sender's next datagram adds exactly its skipped numbers. */
  lemma GapIsMissing(s: seq<Word>, t: Tracker, seqNo: Word)
    requires s != [] && t.seen && t.lastSeq == s[|s| - 1] && t.lastSeq < seqNo
    ensures Missing(s + [seqNo]) - Missing(s) == Gap(t, seqNo)
  {
  }

  lemma TrackerOf(d: Daemon, marks: seq<Mark>, pid: Word)
    requires Follows(d, marks)
    ensures var i := Find(d.trackers, pid);
      (i == |d.trackers| <==> pid !in Tracked(marks)) && (i < |d.trackers| ==> Tracked(marks)[i] == pid)
  {
    hide Numbers, Tracked;
    var i, ps := Find(d.trackers, pid), Tracked(marks);
    assert forall j :: 0 <= j < |ps| ==> d.trackers[j].pid == ps[j];
  }

  lemma KnownSender(d: Daemon, marks: seq<Mark>, m: Mark)
    requires Follows(d, marks) && m.pid in Tracked(marks) && AllUp(marks + [m])
    requires d.total == MissingFrom(Tracked(marks), marks) % U32
    ensures Follows(Received(d, m.pid, m.seqNo), marks + [m])
    ensures Received(d, m.pid, m.seqNo).total == MissingFrom(Tracked(marks + [m]), marks + [m]) % U32
  {
    hide Numbers, Tracked, Missing, MissingFrom, AllUp, Find, Gap;
    var ps, i, s := Tracked(marks), Find(d.trackers, m.pid), Numbers(marks, m.pid);
    TrackedStep(marks, m);
    TrackerOf(d, marks, m.pid);
    UpStep(marks, m);
    MissingStep(ps, marks, m);
    GapIsMissing(s, d.trackers[i], m.seqNo);
    forall k | 0 <= k < |ps| ensures Numbers(marks + [m], ps[k]) == if k == i then s + [m.seqNo]
      else Numbers(marks, ps[k]) {
      OtherNumbers(marks, m, ps[k]);
    }
  }

  lemma NewSender(d: Daemon, marks: seq<Mark>, m: Mark)
    requires Follows(d, marks) && m.pid !in Tracked(marks) && d.total == MissingFrom(Tracked(marks), marks) % U32
    ensures Follows(Received(d, m.pid, m.seqNo), marks + [m])
    ensures Received(d, m.pid, m.seqNo).total == MissingFrom(Tracked(marks + [m]), marks + [m]) % U32
  {
    hide Numbers, Tracked, Missing, MissingFrom;
    var ps := Tracked(marks);
    TrackedStep(marks, m);
    TrackerOf(d, marks, m.pid);
    MissingSame(ps, marks, m);
    forall k | 0 <= k < |ps| ensures Numbers(marks + [m], ps[k]) == Numbers(marks, ps[k]) {
      OtherNumbers(marks, m, ps[k]);
    }
    if |ps| < MAX_TRACKED_SENDERS {
      OnlyOne(marks, m);
      MissingAppend(ps, m.pid, marks + [m]);
      FindIs(d.trackers + [Tracker(m.pid, 0, false)], m.pid, |ps|);
    }
  }

  lemma OnlyOne(marks: seq<Mark>, m: Mark)
    requires m.pid !in Tracked(marks) && |Tracked(marks)| < MAX_TRACKED_SENDERS
    ensures Numbers(marks + [m], m.pid) == [m.seqNo] && Missing(Numbers(marks + [m], m.pid)) == 0
  {
    hide Numbers, Senders;
    SendersDistinct(marks);
    OtherNumbers(marks, m, m.pid);
    assert Numbers(marks, m.pid) == [];
  }

  lemma {:induction false} RunFollows(marks: seq<Mark>)
    requires AllUp(marks)
    ensures Follows(Run(marks), marks) && Run(marks).total == MissingFrom(Tracked(marks), marks) % U32
  {
    hide Follows, AllUp, Received, Tracked, MissingFrom;
    if marks == [] {
      NothingYet();
    } else {
      var before, m := marks[..|marks| - 1], marks[|marks| - 1];
      assert before + [m] == marks;
      UpStep(before, m);
      RunFollows(before);
      if m.pid in Tracked(before) {
        KnownSender(Run(before), before, m);
      } else {
        NewSender(Run(before), before, m);
      }
    }
  }

  lemma NothingYet()
    ensures Follows(Daemon([], 0, 0), []) && MissingFrom(Tracked([]), []) == 0
  {
  }

  /** Whatever order the datagrams of several senders arrive in, as long as each sender's numbers rise: the total the
      daemon reports is the sum, over the senders it tracks, of last - first + 1 - received; and it tracks all of them
      while there are at most 32, the first 32 otherwise. */
  lemma TotalIsMissing(marks: seq<Mark>)
    requires AllUp(marks)
    ensures Run(marks).total == MissingFrom(Tracked(marks), marks) % U32
    ensures |Senders(marks)| <= MAX_TRACKED_SENDERS ==> Tracked(marks) == Senders(marks)
  {
    hide Run, MissingFrom, Senders;
    RunFollows(marks);
  }

  // ----- What the summaries report

  datatype Event = Datagram(mark: Mark) | Summary

  /** The daemon, and all that its summaries have reported so far. */
  datatype Watch = Watch(d: Daemon, reported: nat)

  function Watched(events: seq<Event>): Watch {
    if events == [] then Watch(Daemon([], 0, 0), 0)
    else
      var w := Watched(events[..|events| - 1]);
      match events[|events| - 1]
      case Datagram(m) => w.(d := Received(w.d, m.pid, m.seqNo))
      case Summary => Watch(w.d.(period := 0), w.reported + w.d.period)
  }

  function Marks(events: seq<Event>): seq<Mark> {
    if events == [] then []
    else Marks(events[..|events| - 1]) + if events[|events| - 1].Datagram? then [events[|events| - 1].mark] else []
  }

  lemma ReceivedCounts(d: Daemon, m: Mark)
    ensures var r := Received(d, m.pid, m.seqNo); (r.total - d.total) % U32 == (r.period - d.period) % U32
  {
    hide Find, Gap;
  }

  lemma PeriodIrrelevant(d: Daemon, e: Daemon, m: Mark)
    requires d.trackers == e.trackers && d.total == e.total
    ensures Received(d, m.pid, m.seqNo).trackers == Received(e, m.pid, m.seqNo).trackers
    ensures Received(d, m.pid, m.seqNo).total == Received(e, m.pid, m.seqNo).total
  {
    hide Find, Gap;
  }

  lemma {:induction false} WatchedCounts(events: seq<Event>)
    ensures var w, d := Watched(events), Run(Marks(events));
            w.d.trackers == d.trackers && w.d.total == d.total && (w.reported + w.d.period - w.d.total) % U32 == 0
  {
    hide Received;
    if events != [] {
      var before, e := events[..|events| - 1], events[|events| - 1];
      WatchedCounts(before);
      match e
      case Datagram(m) =>
        assert (Marks(before) + [m])[..|Marks(before)|] == Marks(before);
        PeriodIrrelevant(Watched(before).d, Run(Marks(before)), m);
        ReceivedCounts(Watched(before).d, m);
      case Summary =>
        assert Marks(before) + [] == Marks(before);
    }
  }

  /** Whenever summaries are asked for: what all of them have reported, with the count of the period still running, is
      the total, and the total is the one of the datagrams alone. */
  lemma SummariesAddUp(events: seq<Event>)
    ensures var w := Watched(events);
            (w.reported + w.d.period) % U32 == w.d.total && w.d.total == Run(Marks(events)).total
  {
    hide Watched, Run;
    WatchedCounts(events);
  }
}
