/** The message queue between a room's network thread and its game loop: the listener adds under a lock, the game loop
    looks without the lock whether anything is there, and takes under the lock. Every access to shared memory is a step
    of its own. */
module QueueThreads {
  import opened Queues

  datatype Owner = Nobody | ByListener | ByConsumer

  /** Where the listener is in adding a message. */
  datatype Listener<T> =
    | LIdle | LWait(m: T) | LLocked(m: T) | LWrite(m: T) | LStored(m: T) | LBumped(m: T) | LRelease | LFault

  /** Where the game loop is in fetching one. */
  datatype Consumer = CIdle | CWant | CLocked | CCopied | CAdvanced | CRewind | CRelease | CFault

  /** The shared queue, its lock, the two threads, and what has been added and fetched so far. */
  datatype State<T> = State(
    items: seq<T>, front: int, rear: int, owner: Owner,
    listener: Listener<T>, consumer: Consumer,
    accepted: seq<T>, delivered: seq<T>)

  /** The next move of one thread. The stored item and the moved index may become visible in either order. */
  datatype Move<T> = Arrive(m: T) | Listen | ListenIndexFirst | Consume

  function Start<T>(items: seq<T>): State<T> {
    State(items, -1, 0, Nobody, LIdle, CIdle, [], [])
  }

  predicate LooksEmpty<T>(s: State<T>) {
    s.front == s.rear - 1
  }

  function Store<T>(s: State<T>, at: int, m: T, next: Listener<T>): State<T> {
    if 0 <= at < |s.items| then s.(items := s.items[at := m], listener := next) else s.(listener := LFault)
  }

  function ListenerStep<T>(s: State<T>): State<T> {
    match s.listener
    case LIdle => s
    case LWait(m) => if s.owner == Nobody then s.(owner := ByListener, listener := LLocked(m)) else s
    case LLocked(m) => if s.rear == |s.items| then s.(listener := LRelease) else s.(listener := LWrite(m))
    case LWrite(m) => Store(s, s.rear, m, LStored(m))
    case LStored(m) => s.(rear := s.rear + 1, accepted := s.accepted + [m], listener := LRelease)
    case LBumped(m) => Store(s, s.rear - 1, m, LRelease).(accepted := s.accepted + [m])
    case LRelease => s.(owner := Nobody, listener := LIdle)
    case LFault => s
  }

  function ConsumerStep<T>(s: State<T>): State<T> {
    match s.consumer
    case CIdle => if LooksEmpty(s) then s else s.(consumer := CWant)
    case CWant => if s.owner == Nobody then s.(owner := ByConsumer, consumer := CLocked) else s
    case CLocked =>
      if LooksEmpty(s) || !(0 <= s.front + 1 < |s.items|) then s.(consumer := CFault)
      else s.(consumer := CCopied, delivered := s.delivered + [s.items[s.front + 1]])
    case CCopied => if LooksEmpty(s) then s.(consumer := CRelease) else s.(front := s.front + 1, consumer := CAdvanced)
    case CAdvanced => if LooksEmpty(s) then s.(front := -1, consumer := CRewind) else s.(consumer := CRelease)
    case CRewind => s.(rear := 0, consumer := CRelease)
    case CRelease => s.(owner := Nobody, consumer := CIdle)
    case CFault => s
  }

  /** A move that its thread cannot make now leaves everything as it is. */
  function Step<T>(s: State<T>, move: Move<T>): State<T> {
    match move
    case Arrive(m) => if s.listener.LIdle? then s.(listener := LWait(m)) else s
    case Listen => ListenerStep(s)
    case ListenIndexFirst => if s.listener.LWrite? then s.(rear := s.rear + 1, listener := LBumped(s.listener.m)) else s
    case Consume => ConsumerStep(s)
  }

  function Run<T>(s: State<T>, moves: seq<Move<T>>): State<T> {
    if moves == [] then s else Step(Run(s, moves[..|moves| - 1]), moves[|moves| - 1])
  }

  // ----- What every interleaving keeps

  predicate ListenerHolds<T>(l: Listener<T>) {
    l.LLocked? || l.LWrite? || l.LStored? || l.LBumped? || l.LRelease?
  }

  predicate ConsumerHolds(c: Consumer) {
    c.CLocked? || c.CCopied? || c.CAdvanced? || c.CRewind? || c.CRelease?
  }

  predicate Exclusive<T>(s: State<T>) {
    (s.owner == ByListener <==> ListenerHolds(s.listener)) && (s.owner == ByConsumer <==> ConsumerHolds(s.consumer))
  }

  function Lo<T>(s: State<T>): int {
    if s.consumer.CCopied? then s.front + 2 else s.front + 1
  }

  function Hi<T>(s: State<T>): int {
    if s.consumer.CRewind? then 0 else if s.listener.LBumped? then s.rear - 1 else s.rear
  }

  ghost predicate Inv<T>(s: State<T>) {
    && Exclusive(s) && !s.listener.LFault? && !s.consumer.CFault?
    && 0 <= Lo(s) <= Hi(s) && s.rear <= |s.items|
    && (s.listener.LWrite? || s.listener.LStored? ==> s.rear < |s.items|)
    && (s.listener.LStored? ==> s.items[s.rear] == s.listener.m)
    && (s.consumer.CWant? || s.consumer.CLocked? || s.consumer.CCopied? ==> s.front < s.rear - 1)
    && s.accepted == s.delivered + s.items[Lo(s)..Hi(s)]
    && (Lo(s) == Hi(s) && !s.consumer.CCopied? && !s.consumer.CAdvanced? ==> s.front == -1)
  }

  lemma ListenerKeeps<T>(s: State<T>)
    requires Inv(s)
    ensures Inv(ListenerStep(s))
  {
  }

  lemma ConsumerKeeps<T>(s: State<T>)
    requires Inv(s)
    ensures Inv(ConsumerStep(s))
  {
  }

  lemma StepKeeps<T>(s: State<T>, move: Move<T>)
    requires Inv(s)
    ensures Inv(Step(s, move))
  {
    hide ListenerStep, ConsumerStep;
    ListenerKeeps(s);
    ConsumerKeeps(s);
  }

  lemma {:induction false} RunKeeps<T>(s: State<T>, moves: seq<Move<T>>)
    requires Inv(s)
    ensures Inv(Run(s, moves))
  {
    hide Inv, Step;
    if moves != [] {
      RunKeeps(s, moves[..|moves| - 1]);
      StepKeeps(Run(s, moves[..|moves| - 1]), moves[|moves| - 1]);
    }
  }

  /** For any capacity and any interleaving: nothing is ever read from an empty queue or written outside it, and what
      has been fetched is a prefix of what was added. */
  lemma QueueIsSafe<T>(items: seq<T>, moves: seq<Move<T>>)
    ensures var s := Run(Start(items), moves);
            && !s.consumer.CFault? && !s.listener.LFault?
            && s.delivered <= s.accepted
  {
    hide Run;
    RunKeeps(Start(items), moves);
  }

  /** Looking without the lock is never wrong about an empty queue: when the game loop sees nothing, everything added so
      far has been fetched. */
  lemma EmptyMeansEmpty<T>(items: seq<T>, moves: seq<Move<T>>)
    requires var s := Run(Start(items), moves); s.consumer.CIdle? && LooksEmpty(s)
    ensures var s := Run(Start(items), moves); s.delivered == s.accepted
  {
    hide Run;
    RunKeeps(Start(items), moves);
  }

  // ----- The threads together are one queue

  /** The queue the two threads share, as a value. */
  ghost function Shared<T>(s: State<T>): Line<T>
    requires Inv(s)
  {
    Line(s.items[Lo(s)..Hi(s)], if Lo(s) == Hi(s) then 0 else Lo(s))
  }

  lemma ListenerRefines<T>(s: State<T>)
    requires Inv(s)
    ensures Inv(ListenerStep(s))
    ensures var l, n := Shared(s), Shared(ListenerStep(s));
            if s.listener.LStored? || s.listener.LBumped? then Accepts(l, |s.items|) &&
              n == Enqueued(l, |s.items|, s.listener.m)
            else n == l
    ensures s.listener.LLocked? ==> (ListenerStep(s).listener.LWrite? <==> Accepts(Shared(s), |s.items|))
  {
    ListenerKeeps(s);
    var r := ListenerStep(s);
    if s.listener.LStored? || s.listener.LBumped? {
      assert r.items[Lo(r)..Hi(r)] == s.items[Lo(s)..Hi(s)] + [s.listener.m];
    } else {
      assert r.items[Lo(r)..Hi(r)] == s.items[Lo(s)..Hi(s)];
    }
  }

  lemma ConsumerRefines<T>(s: State<T>)
    requires Inv(s)
    ensures Inv(ConsumerStep(s))
    ensures var l, n := Shared(s), Shared(ConsumerStep(s));
            if s.consumer.CLocked? then l.contents != [] && n == Dequeued(l) else n == l
  {
    ConsumerKeeps(s);
    var r := ConsumerStep(s);
    if s.consumer.CLocked? {
      assert r.items[Lo(r)..Hi(r)] == s.items[Lo(s)..Hi(s)][1..];
    } else {
      assert r.items[Lo(r)..Hi(r)] == s.items[Lo(s)..Hi(s)];
    }
  }

  /** Each move leaves the shared queue alone, adds the listener's message to it or removes its first message; and the
      listener finds room exactly when the queue accepts. */
  lemma MoveRefinesQueue<T>(s: State<T>, move: Move<T>)
    requires Inv(s)
    ensures Inv(Step(s, move))
    ensures var l, n := Shared(s), Shared(Step(s, move));
            if move.Listen? && (s.listener.LStored? || s.listener.LBumped?) then Accepts(l, |s.items|) &&
              n == Enqueued(l, |s.items|, s.listener.m)
            else if move.Consume? && s.consumer.CLocked? then l.contents != [] && n == Dequeued(l)
            else n == l
    ensures s.listener.LLocked? ==> (ListenerStep(s).listener.LWrite? <==> Accepts(Shared(s), |s.items|))
  {
    hide ListenerStep, ConsumerStep, Accepts, Enqueued, Dequeued;
    StepKeeps(s, move);
    ListenerRefines(s);
    ConsumerRefines(s);
  }
}
