/** Choosing whom to attack from the lobby roster. */
module Targeting {

  const TARGET_MANUAL := 0
  const TARGET_RANDOM := 1
  const TARGET_KO := 2
  const TARGET_MODE_COUNT := 3

  datatype Entry = Entry(id: nat, eliminated: bool)
  type Roster = seq<Entry>

  function NextMode(mode: nat): nat {
    (mode + 1) % TARGET_MODE_COUNT
  }

  /** A living opponent. */
  predicate Candidate(self: nat, e: Entry) {
    e.id != self && !e.eliminated
  }

  /** Position of the first entry from i on with this id, or -1. */
  function IndexFrom(r: Roster, id: nat, i: nat): (n: int)
    requires i <= |r|
    ensures n == -1 || (i <= n < |r| && r[n].id == id)
    ensures forall j :: i <= j < (if n == -1 then |r| else n) ==> r[j].id != id
    decreases |r| - i
  {
    if i == |r| then -1 else if r[i].id == id then i else IndexFrom(r, id, i + 1)
  }

  /** The entry `step` places after `start`, cyclically. */
  function Ahead(r: Roster, start: int, step: nat): Entry
    requires |r| > 0 && -1 <= start < |r|
  {
    r[(start + step + |r|) % |r|]
  }

  /** The first candidate met when walking the roster cyclically from `step` places after `start`. */
  function CycleFrom(r: Roster, self: nat, current: nat, start: int, step: nat): nat
    requires |r| > 0 && -1 <= start < |r| && 1 <= step <= |r| + 1
    decreases |r| + 1 - step
  {
    if step > |r| then current
    else if Candidate(self, Ahead(r, start, step)) then Ahead(r, start, step).id
    else CycleFrom(r, self, current, start, step + 1)
  }

  function CycleTarget(r: Roster, self: nat, current: nat): nat {
    if |r| <= 1 then current else CycleFrom(r, self, current, IndexFrom(r, current, 0), 1)
  }

  /** `t` is the id of the nearest candidate among the places from `step` on after `start`. */
  ghost predicate Nearest(r: Roster, self: nat, start: int, step: nat, t: nat)
    requires |r| > 0 && -1 <= start < |r|
  {
    exists s :: step <= s <= |r| && Candidate(self, Ahead(r, start, s)) && Ahead(r, start, s).id == t
             && forall q :: step <= q < s ==> !Candidate(self, Ahead(r, start, q))
  }

  lemma {:induction false} CycleFromFinds(r: Roster, self: nat, current: nat, start: int, step: nat)
    requires |r| > 0 && -1 <= start < |r| && 1 <= step <= |r| + 1
    ensures var t := CycleFrom(r, self, current, start, step);
            if forall s :: step <= s <= |r| ==> !Candidate(self, Ahead(r, start, s)) then t == current
            else Nearest(r, self, start, step, t)
    decreases |r| + 1 - step
  {
    hide Ahead;
    if step <= |r| && !Candidate(self, Ahead(r, start, step)) {
      CycleFromFinds(r, self, current, start, step + 1);
      if s :| step <= s <= |r| && Candidate(self, Ahead(r, start, s)) {
        assert Nearest(r, self, start, step + 1, CycleFrom(r, self, current, start, step + 1));
      }
    }
  }

  /** |r| consecutive steps visit every position. */
  lemma CycleVisits(n: nat, start: int, i: nat) returns (s: nat)
    requires n > 0 && -1 <= start < n && i < n
    ensures 1 <= s <= n && (start + s + n) % n == i
  {
    if i > start {
      s := i - start;
      assert start + s + n == i + n;
      assert (i + n) % n == i;
    } else {
      s := i - start + n;
      assert start + s + n == i + 2 * n;
      assert (i + 2 * n) % n == i;
    }
  }

  /** Cycling moves to the nearest living opponent after the current target whenever a lobby of two or more holds one,
      and otherwise leaves the target alone. */
  lemma CycleTargetSound(r: Roster, self: nat, current: nat)
    ensures var t := CycleTarget(r, self, current);
            if |r| > 1 && exists i :: 0 <= i < |r| && Candidate(self, r[i])
            then Nearest(r, self, IndexFrom(r, current, 0), 1, t)
            else t == current
  {
    hide Nearest, CycleFrom;
    if |r| <= 1 {
      return;
    }
    var start := IndexFrom(r, current, 0);
    CycleFromFinds(r, self, current, start, 1);
    if i :| 0 <= i < |r| && Candidate(self, r[i]) {
      var s := CycleVisits(|r|, start, i);
      assert Ahead(r, start, s) == r[i];
    } else {
      forall s | 1 <= s <= |r| ensures !Candidate(self, Ahead(r, start, s)) {
        assert 0 <= (start + s + |r|) % |r| < |r|;
      }
    }
  }

  // ----- Resolving an attack inside the lobby

  /** The living opponents, in roster order. */
  function Candidates(r: Roster, self: nat): (ids: seq<nat>)
    ensures forall id :: id in ids ==> exists i :: 0 <= i < |r| && Candidate(self, r[i]) && r[i].id == id
    ensures forall i :: 0 <= i < |r| && Candidate(self, r[i]) ==> r[i].id in ids
  {
    if r == [] then []
    else
      var n := |r| - 1;
      var ids := Candidates(r[..n], self);
      assert forall i :: 0 <= i < n ==> r[..n][i] == r[i];
      if Candidate(self, r[n]) then ids + [r[n].id] else ids
  }

  predicate Living(r: Roster, id: nat) {
    exists i :: 0 <= i < |r| && r[i].id == id && !r[i].eliminated
  }

  /** Whom an attack goes to by the attacker's mode; `roll` is the raw random draw. */
  function ResolveTarget(r: Roster, mode: nat, self: nat, locked: nat, lastAttacker: nat, roll: nat): nat {
    if mode == TARGET_RANDOM then
      var ids := Candidates(r, self);
      if ids == [] then locked else ids[roll % |ids|]
    else if mode == TARGET_KO && lastAttacker != 0 && lastAttacker != self && Living(r, lastAttacker) then lastAttacker
    else locked
  }

  /** There is a last attacker, it is someone else, and the lobby shows it alive. */
  predicate Avengeable(r: Roster, self: nat, lastAttacker: nat) {
    lastAttacker != 0 && lastAttacker != self && Living(r, lastAttacker)
  }

  /** A random attack on a lobby with living opponents goes to one of them, and can go to each; a vengeful one goes to
      the last attacker if that is a living opponent; every other attack goes to the locked target. */
  lemma ResolveTargetSound(r: Roster, mode: nat, self: nat, locked: nat, lastAttacker: nat, roll: nat)
    ensures var t := ResolveTarget(r, mode, self, locked, lastAttacker, roll);
            if mode == TARGET_RANDOM && exists i :: 0 <= i < |r| && Candidate(self, r[i])
            then exists i :: 0 <= i < |r| && Candidate(self, r[i]) && r[i].id == t
            else t == if mode == TARGET_KO && Avengeable(r, self, lastAttacker) then lastAttacker else locked
    ensures forall i :: 0 <= i < |r| && Candidate(self, r[i]) ==>
      exists roll' :: ResolveTarget(r, TARGET_RANDOM, self, locked, lastAttacker, roll') == r[i].id
  {
    var ids := Candidates(r, self);
    hide Candidates;
    forall i | 0 <= i < |r| && Candidate(self, r[i])
      ensures exists roll' :: ResolveTarget(r, TARGET_RANDOM, self, locked, lastAttacker, roll') == r[i].id
    {
      var k :| 0 <= k < |ids| && ids[k] == r[i].id;
      assert k % |ids| == k;
      assert ResolveTarget(r, TARGET_RANDOM, self, locked, lastAttacker, k) == r[i].id;
    }
    if mode == TARGET_RANDOM && ids != [] {
      assert ids[roll % |ids|] in ids;
    }
  }

  /** Walks the roster step by step, as the server does. */
  method CycleManualTarget(r: Roster, self: nat, current: nat) returns (target: nat)
    ensures target == CycleTarget(r, self, current)
  {
    if |r| <= 1 {
      return current;
    }
    var start := -1;
    var i := 0;
    while i < |r| && start == -1
      invariant 0 <= i <= |r|
      invariant if start == -1 then IndexFrom(r, current, 0) == IndexFrom(r, current, i)
        else start == IndexFrom(r, current, 0)
      invariant -1 <= start < |r|
      decreases |r| - i, start == -1
    {
      if r[i].id == current {
        start := i;
      }
      i := i + 1;
    }
    var step := 1;
    while step <= |r|
      invariant 1 <= step <= |r| + 1
      invariant CycleFrom(r, self, current, start, step) == CycleFrom(r, self, current, start, 1)
    {
      var e := Ahead(r, start, step);
      if Candidate(self, e) {
        return e.id;
      }
      step := step + 1;
    }
    return current;
  }

  /** Collects the candidates or looks the last attacker up, as the server does. */
  method ResolveTargetId(r: Roster, mode: nat, self: nat, locked: nat, lastAttacker: nat,
      roll: nat) returns (target: nat)
    ensures target == ResolveTarget(r, mode, self, locked, lastAttacker, roll)
  {
    if mode == TARGET_RANDOM {
      var ids := [];
      for i := 0 to |r|
        invariant ids == Candidates(r[..i], self)
      {
        assert r[..i + 1][..i] == r[..i];
        if Candidate(self, r[i]) {
          ids := ids + [r[i].id];
        }
      }
      assert r[..|r|] == r;
      return if |ids| == 0 then locked else ids[roll % |ids|];
    } else if mode == TARGET_KO && lastAttacker != 0 && lastAttacker != self {
      for i := 0 to |r|
        invariant forall j :: 0 <= j < i ==> !(r[j].id == lastAttacker && !r[j].eliminated)
      {
        if r[i].id == lastAttacker && !r[i].eliminated {
          return lastAttacker;
        }
      }
    }
    return locked;
  }
}
