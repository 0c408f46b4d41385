/** Where damage goes over whole games: off the pending meter, out to be sent, or lost because a second lock came before
    the first one's garbage was taken away. */
module DamageRuns {
  import opened Pieces
  import opened Boards
  import opened Engine
  import opened EngineInvariant
  import opened EngineRuns
  import Rotations
  import Shuffling
  import Targeting
  import FirstShots

  /** Lines of damage computed, lines of it that cancelled pending garbage, lines taken to be sent, lines
      overwritten. */
  datatype Ledger = Ledger(dealt: int, cancelled: int, consumed: int, overwritten: int)

  const NOTHING := Ledger(0, 0, 0, 0)

  function Enter(l: Ledger, g: Game, i: Input): Ledger
    requires Sized(g)
  {
    if StepLocks(g, i) then
      var h := AtLock(g, i);
      l.(dealt := l.dealt + LockDamage(h).lines,
         cancelled := l.cancelled + (g.pendingGarbage - LockExchange(h).pending),
         overwritten := l.overwritten + g.outgoingGarbage)
    else if i.Consume? then l.(consumed := l.consumed + g.outgoingGarbage)
    else l
  }

  function Kept(g: Game, inputs: seq<Input>): Ledger
    requires Sized(g)
  {
    if inputs == [] then NOTHING
    else
      var n := |inputs| - 1;
      Enter(Kept(g, inputs[..n]), Run(g, inputs[..n]), inputs[n])
  }

  ghost predicate Balanced(g: Game, l: Ledger) {
    l.dealt == l.cancelled + l.consumed + g.outgoingGarbage + l.overwritten
  }

  lemma QuietMeters(g: Game, i: Input)
    requires Sized(g) && !StepLocks(g, i)
    ensures Step(g, i).outgoingGarbage == if i.Consume? then 0 else g.outgoingGarbage
  {
    hide ValidPiece, DropPiece, Settle, Rotations.CanRotate, Rotations.Rotated, Refill, Targeting.CycleTarget;
    if i.Tick? && !g.gameOver {
      QuietTickMeters(g, i.dice);
    }
  }

  lemma QuietTickMeters(g: Game, d: Dice)
    requires Sized(g) && !g.gameOver && !StepLocks(g, Tick(d))
    ensures UpdateTimers(g, d).outgoingGarbage == g.outgoingGarbage
  {
    hide ValidPiece, Settle;
  }

  lemma StepBalances(g: Game, l: Ledger, i: Input)
    requires Inv(g) && Balanced(g, l)
    ensures Sized(g) && Balanced(Step(g, i), Enter(l, g, i))
  {
    hide Inv, Sized, Step, StepLocks, AtLock, LockDamage, LockExchange;
    InvSized(g);
    if StepLocks(g, i) {
      InvDamage(g, i);
    } else {
      QuietMeters(g, i);
    }
  }

  lemma {:induction false} RunBalances(g: Game, inputs: seq<Input>)
    requires Inv(g) && g.outgoingGarbage == 0
    ensures Sized(g) && Balanced(Run(g, inputs), Kept(g, inputs))
  {
    InvSized(g);
    hide Inv, Step, Enter, Sized;
    if inputs != [] {
      var n := |inputs| - 1;
      RunBalances(g, inputs[..n]);
      RunKeeps(g, inputs[..n]);
      StepBalances(Run(g, inputs[..n]), Kept(g, inputs[..n]), inputs[n]);
    }
  }

  /** The n-th input locks a piece while garbage of an earlier lock is still waiting to be sent. */
  predicate LocksTooSoon(g: Game, inputs: seq<Input>, n: nat)
    requires Sized(g) && n < |inputs|
  {
    StepLocks(Run(g, inputs[..n]), inputs[n]) && Run(g, inputs[..n]).outgoingGarbage > 0
  }

  lemma {:induction false} OverwrittenIff(g: Game, inputs: seq<Input>)
    requires Sized(g)
    ensures Kept(g, inputs).overwritten >= 0
    ensures Kept(g, inputs).overwritten == 0 <==> forall n :: 0 <= n < |inputs| ==> !LocksTooSoon(g, inputs, n)
  {
    hide Sized, StepLocks, Run, LockDamage, LockExchange;
    if inputs != [] {
      var n := |inputs| - 1;
      OverwrittenIff(g, inputs[..n]);
      forall k | 0 <= k < n ensures LocksTooSoon(g, inputs, k) == LocksTooSoon(g, inputs[..n], k) {
        assert inputs[..n][..k] == inputs[..k];
      }
      assert LocksTooSoon(g, inputs, n) <==> Kept(g, inputs).overwritten > Kept(g, inputs[..n]).overwritten;
      if Kept(g, inputs).overwritten == 0 {
        forall k | 0 <= k < |inputs| ensures !LocksTooSoon(g, inputs, k) {
          if k < n {
            assert !LocksTooSoon(g, inputs[..n], k);
          }
        }
      } else if Kept(g, inputs[..n]).overwritten > 0 {
        var k :| 0 <= k < n && LocksTooSoon(g, inputs[..n], k);
        assert LocksTooSoon(g, inputs, k);
      }
    }
  }

  lemma StartsEmpty(first: Picks, second: Picks)
    ensures StartGame(first, second).outgoingGarbage == 0
  {
  }

  /** Over every run of a game: all damage computed at locks cancelled pending garbage, was taken to be sent, still
      waits to be sent, or was overwritten; and nothing was overwritten if and only if no piece ever locked while
      garbage was waiting. */
  lemma DamageConserved(first: Picks, second: Picks, inputs: seq<Input>)
    ensures var s := StartGame(first, second);
            var g, l := Run(s, inputs), Kept(s, inputs);
            && l.dealt == l.cancelled + l.consumed + g.outgoingGarbage + l.overwritten
            && (l.overwritten == 0 <==> forall n :: 0 <= n < |inputs| ==> !LocksTooSoon(s, inputs, n))
  {
    hide StartGame, Run, Kept, Inv, LocksTooSoon;
    StartInv(first, second);
    StartsEmpty(first, second);
    RunBalances(StartGame(first, second), inputs);
    OverwrittenIff(StartGame(first, second), inputs);
  }

  // ----- It does happen

  /** Below an open top a fresh piece can always be dropped into view. */
  lemma DropsIntoView(b: Board, p: Piece)
    requires FirstShots.Airy(b) && AtSpawn(p)
    ensures DropPiece(b, p).y >= 0
  {
    hide ValidPiece, Shaped;
    FitsAiry(b, p.kind, -1);
    FitsAiry(b, p.kind, 0);
    var q := Shifted(p, 0, 1);
    assert q == Piece(p.kind, 0, SPAWN_X, -1) && Shifted(q, 0, 1) == Piece(p.kind, 0, SPAWN_X, 0);
    assert DropPiece(b, p) == DropPiece(b, q) == DropPiece(b, Shifted(q, 0, 1));
  }

  lemma FitsAiry(b: Board, k: Kind, y: int)
    requires FirstShots.Airy(b) && -1 <= y <= 0
    ensures ValidPiece(b, Piece(k, 0, SPAWN_X, y))
  {
    hide Solid;
    forall px, py | 0 <= px < 4 && 0 <= py < 4 && Solid(k, 0, px, py) ensures Fits(b, SPAWN_X + px, y + py) {
      FirstShots.UprightRows(k, px, py);
    }
  }

  /** A player who sends two lines and slams the next piece before they are taken away loses them. */
  lemma OverwritingHappens()
    ensures exists first, second, inputs :: Kept(StartGame(first, second), inputs).overwritten > 0
  {
    hide StartGame, Run, Kept, FirstShots.Do, FirstShots.Shot, Shuffling.Shuffle, FirstShots.Airy;
    var first := FirstShots.Dealt();
    var d := Dice(seq(20, _ => 0), first);
    var s := StartGame(first, first);
    var shot := FirstShots.Inputs(FirstShots.Shot(), [], d);
    assert FirstShots.Opened(first, first, 0, 0, 0) == s by { OpenedAsStarted(first); }
    FirstShots.FirstShot(first, first, 0, 0, 0, [], d);
    var g := Run(s, shot);
    DropsIntoView(g.board, g.current);
    var inputs := shot + [Act(HardDrop, [], d)];
    assert inputs[..|shot|] == shot;
    assert LocksTooSoon(s, inputs, |shot|);
    OverwrittenIff(s, inputs);
  }

  lemma OpenedAsStarted(first: Picks)
    ensures FirstShots.Opened(first, first, 0, 0, 0) == StartGame(first, first)
  {
  }
}
