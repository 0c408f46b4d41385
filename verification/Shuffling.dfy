/** The Fisher-Yates shuffle, driven by an explicit list of the draws it makes. */
module Shuffling {
  import opened Basics

  /** `c[i]` is the draw made for position i: any index up to and including i. */
  predicate Choices(c: seq<nat>, n: nat) {
    |c| == n && forall i :: 0 <= i < n ==> c[i] <= i
  }

  function Swap<T>(s: seq<T>, i: nat, j: nat): (r: seq<T>)
    requires i < |s| && j < |s|
    ensures |r| == |s| && r[i] == s[j] && r[j] == s[i]
    ensures forall k :: 0 <= k < |s| && k != i && k != j ==> r[k] == s[k]
  {
    s[i := s[j]][j := s[i]]
  }

  /** The swaps for positions i, i-1, ..., 1, in that order. */
  function ShuffleFrom<T>(s: seq<T>, i: nat, c: seq<nat>): (r: seq<T>)
    requires Choices(c, |s|) && (i < |s| || i == 0)
    ensures |r| == |s|
    decreases i
  {
    if i == 0 then s else ShuffleFrom(Swap(s, i, c[i]), i - 1, c)
  }

  function Shuffle<T>(s: seq<T>, c: seq<nat>): (r: seq<T>)
    requires Choices(c, |s|)
    ensures |r| == |s|
  {
    if s == [] then s else ShuffleFrom(s, |s| - 1, c)
  }

  /** Shuffles an array in place. */
  method ShuffleArray<T>(a: array<T>, c: seq<nat>)
    requires Choices(c, a.Length)
    modifies a
    ensures a[..] == Shuffle(old(a[..]), c)
  {
    var i := a.Length - 1;
    while i > 0
      invariant -1 <= i < a.Length
      invariant a.Length > 0 ==> i >= 0 && ShuffleFrom(a[..], i, c) == Shuffle(old(a[..]), c)
    {
      ghost var before := a[..];
      var j := c[i];
      var temp := a[i];
      a[i] := a[j];
      a[j] := temp;
      assert a[..] == Swap(before, i, j);
      i := i - 1;
    }
  }

  // ----- A shuffle is a permutation

  lemma SwapPermutes<T>(s: seq<T>, i: nat, j: nat)
    requires i < |s| && j < |s|
    ensures multiset(Swap(s, i, j)) == multiset(s)
  {
  }

  lemma {:induction false} ShuffleFromPermutes<T>(s: seq<T>, i: nat, c: seq<nat>)
    requires Choices(c, |s|) && (i < |s| || i == 0)
    ensures multiset(ShuffleFrom(s, i, c)) == multiset(s)
    decreases i
  {
    if i > 0 {
      SwapPermutes(s, i, c[i]);
      ShuffleFromPermutes(Swap(s, i, c[i]), i - 1, c);
    }
  }

  /** Whatever is drawn, the result holds the same elements the same number of times. */
  lemma ShufflePermutes<T>(s: seq<T>, c: seq<nat>)
    requires Choices(c, |s|)
    ensures multiset(Shuffle(s, c)) == multiset(s)
  {
    if s != [] {
      ShuffleFromPermutes(s, |s| - 1, c);
    }
  }

  // ----- Every permutation comes from exactly one list of draws

  lemma {:induction false} SettledTail<T>(s: seq<T>, i: nat, c: seq<nat>, k: nat)
    requires Choices(c, |s|) && i < k < |s|
    ensures ShuffleFrom(s, i, c)[k] == s[k]
    decreases i
  {
    if i > 0 {
      SettledTail(Swap(s, i, c[i]), i - 1, c, k);
    }
  }

  lemma SwapDistinct<T>(s: seq<T>, i: nat, j: nat)
    requires Distinct(s) && i < |s| && j < |s|
    ensures Distinct(Swap(s, i, j))
  {
  }

  /** Different draws give different results. */
  lemma {:induction false} DrawsDetermined<T>(s: seq<T>, i: nat, c: seq<nat>, d: seq<nat>)
    requires Distinct(s) && Choices(c, |s|) && Choices(d, |s|) && (i < |s| || i == 0)
    requires ShuffleFrom(s, i, c) == ShuffleFrom(s, i, d)
    ensures forall k :: 1 <= k <= i ==> c[k] == d[k]
    decreases i
  {
    if i > 0 {
      SettledTail(Swap(s, i, c[i]), i - 1, c, i);
      SettledTail(Swap(s, i, d[i]), i - 1, d, i);
      assert s[c[i]] == s[d[i]];
      SwapDistinct(s, i, c[i]);
      DrawsDetermined(Swap(s, i, c[i]), i - 1, c, d);
    }
  }

  lemma PrefixMultiset<T>(s: seq<T>, p: seq<T>, i: nat)
    requires |s| == |p| && i <= |s| && multiset(s) == multiset(p) && s[i..] == p[i..]
    ensures multiset(s[..i]) == multiset(p[..i])
  {
    assert s == s[..i] + s[i..] && p == p[..i] + p[i..];
    assert multiset(s[..i]) == multiset(s) - multiset(s[i..]);
    assert multiset(p[..i]) == multiset(p) - multiset(p[i..]);
  }

  lemma DrawFor<T>(s: seq<T>, i: nat, p: seq<T>) returns (j: nat)
    requires |s| == |p| && i < |s| && multiset(s) == multiset(p) && s[i + 1..] == p[i + 1..]
    ensures j <= i && s[j] == p[i]
  {
    PrefixMultiset(s, p, i + 1);
    assert p[..i + 1][i] == p[i];
    assert p[i] in multiset(p[..i + 1]);
    assert p[i] in s[..i + 1];
    j :| j < i + 1 && s[..i + 1][j] == p[i];
  }

  lemma DrawSettles<T>(s: seq<T>, i: nat, j: nat, p: seq<T>)
    requires |s| == |p| && j <= i < |s| && s[i + 1..] == p[i + 1..] && s[j] == p[i]
    ensures Swap(s, i, j)[i..] == p[i..]
  {
    var t := Swap(s, i, j);
    forall k | i <= k < |s| ensures t[k] == p[k] {
      if k > i {
        assert s[i + 1..][k - i - 1] == p[i + 1..][k - i - 1];
      }
    }
  }

  /** Every arrangement of the elements can be drawn. */
  lemma {:induction false} DrawsExist<T>(s: seq<T>, i: nat, p: seq<T>) returns (c: seq<nat>)
    requires |s| == |p| && i < |s| && multiset(s) == multiset(p) && s[i + 1..] == p[i + 1..]
    ensures Choices(c, |s|) && ShuffleFrom(s, i, c) == p
    decreases i
  {
    hide Swap;
    var j := DrawFor(s, i, p);
    if i == 0 {
      c := seq(|s|, _ => 0);
      assert s == [s[0]] + s[1..] && p == [p[0]] + p[1..];
    } else {
      var t := Swap(s, i, j);
      SwapPermutes(s, i, j);
      DrawSettles(s, i, j, p);
      var d := DrawsExist(t, i - 1, p);
      c := d[i := j];
      ChoiceIrrelevantAbove(t, i - 1, d, c);
    }
  }

  lemma {:induction false} ChoiceIrrelevantAbove<T>(s: seq<T>, i: nat, c: seq<nat>, d: seq<nat>)
    requires Choices(c, |s|) && Choices(d, |s|) && (i < |s| || i == 0)
    requires forall k :: 1 <= k <= i ==> c[k] == d[k]
    ensures ShuffleFrom(s, i, c) == ShuffleFrom(s, i, d)
    decreases i
  {
    if i > 0 {
      ChoiceIrrelevantAbove(Swap(s, i, c[i]), i - 1, c, d);
    }
  }

  /** On distinct elements of any number, each arrangement is produced by exactly one list of draws. */
  lemma ShuffleExactlyOnce<T>(s: seq<T>, p: seq<T>)
    requires Distinct(s) && multiset(p) == multiset(s)
    ensures exists c :: Choices(c, |s|) && Shuffle(s, c) == p
    ensures forall c, d :: Choices(c, |s|) && Choices(d, |s|) && Shuffle(s, c) == p && Shuffle(s, d) == p ==> c == d
  {
    assert |p| == |multiset(p)| == |multiset(s)| == |s|;
    if s == [] {
      assert Choices([], 0) && Shuffle(s, []) == p;
    } else {
      var c := DrawsExist(s, |s| - 1, p);
      assert Shuffle(s, c) == p;
    }
    forall c, d | Choices(c, |s|) && Choices(d, |s|) && Shuffle(s, c) == p && Shuffle(s, d) == p
      ensures c == d
    {
      if s != [] {
        DrawsDetermined(s, |s| - 1, c, d);
      }
    }
  }
}
