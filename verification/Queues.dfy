/** The fixed-size queue: a buffer filled from the left, which starts over only when it runs empty. */
module Queues {

  import opened Wrappers

  // ----- As a value

  /** The waiting items, and how many were removed since the queue was last empty. */
  datatype Line<T> = Line(contents: seq<T>, gone: nat)

  datatype Op<T> = Enqueue(item: T) | Dequeue

  predicate Accepts<T>(l: Line<T>, capacity: nat) {
    l.gone + |l.contents| < capacity
  }

  function Enqueued<T>(l: Line<T>, capacity: nat, x: T): Line<T> {
    if Accepts(l, capacity) then l.(contents := l.contents + [x]) else l
  }

  function Dequeued<T>(l: Line<T>): Line<T> {
    if l.contents == [] then l
    else if |l.contents| == 1 then Line([], 0)
    else Line(l.contents[1..], l.gone + 1)
  }

  function Step<T>(l: Line<T>, capacity: nat, op: Op<T>): Line<T> {
    match op
    case Enqueue(x) => Enqueued(l, capacity, x)
    case Dequeue => Dequeued(l)
  }

  function Run<T>(capacity: nat, ops: seq<Op<T>>): Line<T> {
    if ops == [] then Line([], 0) else Step(Run(capacity, ops[..|ops| - 1]), capacity, ops[|ops| - 1])
  }

  // ----- In place

  class Queue<T(0)> {
    const items: array<T>
    var front: int
    var rear: int

    ghost predicate Valid()
      reads this
    {
      -1 <= front < rear <= items.Length && (front == rear - 1 ==> front == -1)
    }

    ghost function Abs(): Line<T>
      reads this, items
      requires Valid()
    {
      Line(items[front + 1..rear], front + 1)
    }

    constructor (capacity: nat)
      ensures Valid() && fresh(items) && items.Length == capacity && Abs() == Line([], 0)
    {
      items := new T[capacity];
      front := -1;
      rear := 0;
    }

    predicate Empty()
      reads this
    {
      front == rear - 1
    }

    predicate Full()
      reads this
    {
      rear == items.Length
    }

    method Enqueue(x: T) returns (ok: bool)
      requires Valid()
      modifies this`rear, items
      ensures Valid() && ok == Accepts(old(Abs()), items.Length) && Abs() == Enqueued(old(Abs()), items.Length, x)
    {
      if Full() {
        return false;
      }
      items[rear] := x;
      rear := rear + 1;
      return true;
    }

    method Dequeue() returns (ok: bool)
      requires Valid()
      modifies this
      ensures Valid() && ok == (old(Abs()).contents != []) && Abs() == Dequeued(old(Abs()))
    {
      if Empty() {
        return false;
      }
      front := front + 1;
      if front == rear - 1 {
        front := -1;
        rear := 0;
      }
      return true;
    }

    method Peek() returns (x: Option<T>)
      requires Valid()
      ensures x == if Abs().contents == [] then None else Some(Abs().contents[0])
    {
      if Empty() {
        return None;
      }
      return Some(items[front + 1]);
    }
  }

  // ----- What a history of calls leaves behind

  /** Items taken in, in order. */
  function TakenIn<T>(capacity: nat, ops: seq<Op<T>>): seq<T> {
    if ops == [] then []
    else
      var before := ops[..|ops| - 1];
      var op := ops[|ops| - 1];
      TakenIn(capacity, before) + (if op.Enqueue? && Accepts(Run(capacity, before), capacity) then [op.item] else [])
  }

  /** Number of items taken out. */
  function TakenOut<T>(capacity: nat, ops: seq<Op<T>>): nat {
    if ops == [] then 0
    else
      var before := ops[..|ops| - 1];
      TakenOut(capacity, before) + (if ops[|ops| - 1].Dequeue? && Run(capacity, before).contents != [] then 1 else 0)
  }

  /** Length of the longest part of the history that leaves the queue empty. */
  function LastEmpty<T>(capacity: nat, ops: seq<Op<T>>): (n: nat)
    ensures n <= |ops| && Run(capacity, ops[..n]).contents == []
    ensures forall m :: n < m <= |ops| ==> Run(capacity, ops[..m]).contents != []
  {
    if Run(capacity, ops).contents == [] then
      assert ops[..|ops|] == ops;
      |ops|
    else
      assert ops != [];
      var before := ops[..|ops| - 1];
      var n := LastEmpty(capacity, before);
      assert forall m :: 0 <= m <= |before| ==> before[..m] == ops[..m];
      assert ops[..|ops|] == ops;
      n
  }

  /** First in, first out, over every history. */
  lemma {:induction false} FirstInFirstOut<T>(capacity: nat, ops: seq<Op<T>>)
    ensures TakenOut(capacity, ops) <= |TakenIn(capacity, ops)|
    ensures Run(capacity, ops).contents == TakenIn(capacity, ops)[TakenOut(capacity, ops)..]
  {
    if ops != [] {
      FirstInFirstOut(capacity, ops[..|ops| - 1]);
    }
  }

  /** Items taken in since the queue last was empty. */
  function SinceEmpty<T>(capacity: nat, ops: seq<Op<T>>): int {
    |TakenIn(capacity, ops)| - |TakenIn(capacity, ops[..LastEmpty(capacity, ops)])|
  }

  lemma LastEmptyStep<T>(capacity: nat, ops: seq<Op<T>>)
    requires ops != []
    ensures if Run(capacity, ops).contents == [] then LastEmpty(capacity, ops) == |ops|
            else LastEmpty(capacity, ops) == LastEmpty(capacity, ops[..|ops| - 1])
  {
    hide Run, TakenIn;
  }

  lemma {:induction false} RearCounts<T>(capacity: nat, ops: seq<Op<T>>)
    ensures Run(capacity, ops).gone + |Run(capacity, ops).contents| == SinceEmpty(capacity, ops)
    ensures Run(capacity, ops).contents == [] ==> Run(capacity, ops).gone == 0
  {
    hide LastEmpty;
    if ops == [] {
      assert LastEmpty(capacity, ops) == 0 && ops[..0] == ops;
    } else {
      var before := ops[..|ops| - 1];
      RearCounts(capacity, before);
      LastEmptyStep(capacity, ops);
      var n := LastEmpty(capacity, ops);
      if n == |ops| {
        assert ops[..n] == ops;
      } else {
        assert before[..n] == ops[..n];
      }
    }
  }

  /** After any history the queue refuses an item if and only if it has taken in its whole capacity since it last was
      empty. */
  lemma RefusesWhenWornOut<T>(capacity: nat, ops: seq<Op<T>>, x: T)
    ensures SinceEmpty(capacity, ops) <= capacity
    ensures TakenIn(capacity, ops + [Enqueue(x)]) == TakenIn(capacity, ops) <==> SinceEmpty(capacity, ops) == capacity
  {
    hide LastEmpty, SinceEmpty;
    RearCounts(capacity, ops);
    NeverOver(capacity, ops);
    assert (ops + [Enqueue(x)])[..|ops|] == ops;
  }

  lemma {:induction false} NeverOver<T>(capacity: nat, ops: seq<Op<T>>)
    ensures Run(capacity, ops).gone + |Run(capacity, ops).contents| <= capacity
  {
    if ops != [] {
      NeverOver(capacity, ops[..|ops| - 1]);
    }
  }

  // ----- A refusal with room to spare

  function Fill<T>(x: T, n: nat): seq<Op<T>> {
    seq(n, _ => Enqueue(x))
  }

  function Take<T>(n: nat): seq<Op<T>> {
    seq(n, _ => Dequeue)
  }

  lemma {:induction false} Filled<T>(capacity: nat, x: T, n: nat)
    requires n <= capacity
    ensures Run(capacity, Fill(x, n)) == Line(seq(n, _ => x), 0)
  {
    if n > 0 {
      Filled(capacity, x, n - 1);
      assert Fill(x, n)[..n - 1] == Fill(x, n - 1);
      assert seq(n, _ => x) == seq(n - 1, _ => x) + [x];
    }
  }

  lemma {:induction false} Emptied<T>(capacity: nat, x: T, n: nat)
    requires n < capacity
    ensures Run(capacity, Fill(x, capacity) + Take(n)) == Line(seq(capacity - n, _ => x), n)
  {
    var ops := Fill(x, capacity) + Take(n);
    if n == 0 {
      assert ops == Fill(x, capacity);
      Filled(capacity, x, capacity);
    } else {
      Emptied(capacity, x, n - 1);
      assert ops[..|ops| - 1] == Fill(x, capacity) + Take(n - 1);
      assert ops[|ops| - 1] == Dequeue;
      assert seq(capacity - n + 1, _ => x)[1..] == seq(capacity - n, _ => x);
    }
  }

  /** Every queue can come to refuse items while it holds a single one. */
  lemma CanRefuseWithRoom<T>(capacity: nat, x: T)
    requires capacity >= 1
    ensures exists ops :: |Run(capacity, ops).contents| == 1 && !Accepts(Run<T>(capacity, ops), capacity)
  {
    var ops := Fill(x, capacity) + Take(capacity - 1);
    Emptied(capacity, x, capacity - 1);
    assert |Run(capacity, ops).contents| == 1 && !Accepts(Run(capacity, ops), capacity);
  }
}
