/** Holding over whole games: one exchange between two locks, no more and no fewer. */
module HoldRuns {
  import opened Pieces
  import opened Boards
  import opened Engine
  import opened EngineInvariant
  import opened EngineRuns
  import Garbage
  import Rotations
  import Targeting

  /** The n-th input asks for a hold, and something happens. */
  ghost predicate ExchangesAt(g: Game, inputs: seq<Input>, n: nat)
    requires Sized(g) && n < |inputs|
  {
    var h := Run(g, inputs[..n]);
    inputs[n].Act? && inputs[n].action == Hold && Step(h, inputs[n]) != h
  }

  ghost predicate LocksAt(g: Game, inputs: seq<Input>, n: nat)
    requires Sized(g) && n < |inputs|
  {
    StepLocks(Run(g, inputs[..n]), inputs[n])
  }

  /** There has been an exchange since the last lock. */
  ghost predicate Spent(g: Game, inputs: seq<Input>)
    requires Sized(g)
  {
    exists m :: 0 <= m < |inputs| && ExchangesAt(g, inputs, m) && forall k :: m < k < |inputs| ==>
      !LocksAt(g, inputs, k)
  }

  lemma QuietFlag(g: Game, i: Input)
    requires Sized(g) && !StepLocks(g, i)
    ensures Step(g, i).hasHeld == (g.hasHeld || (i.Act? && i.action == Hold && !g.gameOver))
    ensures i.Act? && i.action == Hold ==> (Step(g, i) != g <==> !g.hasHeld && !g.gameOver)
  {
    hide ValidPiece, DropPiece, Settle, Rotations.CanRotate, Rotations.Rotated, Refill, Targeting.CycleTarget;
    if i.Tick? && !g.gameOver {
      QuietTickFlag(g, i.dice);
    }
  }

  lemma QuietTickFlag(g: Game, d: Dice)
    requires Sized(g) && !g.gameOver && !StepLocks(g, Tick(d))
    ensures UpdateTimers(g, d).hasHeld == g.hasHeld
  {
    hide ValidPiece, Settle;
  }

  lemma LockFlag(g: Game, i: Input)
    requires Sized(g) && StepLocks(g, i)
    ensures !Step(g, i).hasHeld && !(i.Act? && i.action == Hold)
  {
    hide Settle, AtLock, Step, ValidPiece, DropPiece;
    LockingStep(g, i);
    SettleFlag(AtLock(g, i), DiceOf(i));
  }

  lemma SettleFlag(g: Game, d: Dice)
    requires Sized(g)
    ensures !Settle(g, d).hasHeld
  {
    hide Baked, LinesMade, TSpin, LockExchange, LockDamage, Garbage.AddGarbage, Refill, ValidPiece, RowsLetIn;
  }

  lemma Earlier(g: Game, inputs: seq<Input>, n: nat)
    requires Sized(g) && n < |inputs| - 1
    ensures var before := inputs[..|inputs| - 1];
            ExchangesAt(g, inputs, n) == ExchangesAt(g, before, n) && LocksAt(g, inputs, n) == LocksAt(g, before, n)
  {
    hide Run, Step, StepLocks, Sized;
    assert inputs[..|inputs| - 1][..n] == inputs[..n];
  }

  /** A lock wipes the slate, an exchange marks it, and anything else leaves it. */
  lemma SpentNow(g: Game, inputs: seq<Input>)
    requires Sized(g) && inputs != []
    ensures var n := |inputs| - 1;
            Spent(g, inputs) <==>
              ExchangesAt(g, inputs, n) || (Spent(g, inputs[..n]) && !LocksAt(g, inputs, n))
  {
    hide ExchangesAt, LocksAt, Sized;
    var n := |inputs| - 1;
    var before := inputs[..n];
    forall k | 0 <= k < n
      ensures ExchangesAt(g, inputs, k) == ExchangesAt(g, before, k) && LocksAt(g, inputs, k) == LocksAt(g, before, k)
    {
      Earlier(g, inputs, k);
    }
    if Spent(g, before) && !LocksAt(g, inputs, n) {
      var m :| 0 <= m < n && ExchangesAt(g, before, m) && forall k :: m < k < n ==> !LocksAt(g, before, k);
      assert ExchangesAt(g, inputs, m);
    }
    if Spent(g, inputs) && !ExchangesAt(g, inputs, n) {
      var m :| 0 <= m < |inputs| && ExchangesAt(g, inputs, m) && forall k :: m < k < |inputs| ==>
        !LocksAt(g, inputs, k);
      assert ExchangesAt(g, before, m);
    }
  }

  lemma {:induction false} FlagIsSpent(g: Game, inputs: seq<Input>)
    requires Sized(g) && !g.hasHeld
    ensures Run(g, inputs).hasHeld == Spent(g, inputs)
  {
    hide Step, Sized, StepLocks, Spent;
    if inputs == [] {
      NothingSpent(g);
    } else {
      var n := |inputs| - 1;
      var h := Run(g, inputs[..n]);
      FlagIsSpent(g, inputs[..n]);
      SpentNow(g, inputs);
      if StepLocks(h, inputs[n]) {
        LockFlag(h, inputs[n]);
      } else {
        QuietFlag(h, inputs[n]);
      }
    }
  }

  lemma NothingSpent(g: Game)
    requires Sized(g)
    ensures !Spent(g, [])
  {
  }

  lemma StartUnspent(first: Picks, second: Picks)
    ensures !StartGame(first, second).hasHeld
  {
  }

  /** What an exchange does: the held piece, or the next one if none is held, appears at the top; the piece in play goes
      into the hold; the board and the meters stay. */
  ghost predicate Exchanged(g: Game, r: Game)
    requires Sized(g)
  {
    && r.current == Piece(if g.heldType == 0 then g.bag[g.bagIndex] else g.heldType, 0, 3, -2)
    && r.heldType == g.current.kind
    && r == g.(current := r.current, heldType := r.heldType, hasHeld := true, gravityTimer := 0, bag := r.bag,
               bagIndex := r.bagIndex)
    && (g.heldType != 0 ==> r.bag == g.bag && r.bagIndex == g.bagIndex)
  }

  lemma HoldExchanges(g: Game, roster: Targeting.Roster, d: Dice)
    requires Sized(g)
    ensures var r := Step(g, Act(Hold, roster, d));
            if g.hasHeld || g.gameOver then r == g else Exchanged(g, r)
  {
    hide Refill, Shaped;
  }

  /** In every state of every run: a request to hold does nothing if the game is over or there has been an exchange
      since the last lock, and otherwise it exchanges the piece. */
  lemma HoldsExactlyWhen(first: Picks, second: Picks, inputs: seq<Input>, roster: Targeting.Roster, d: Dice)
    ensures var s := StartGame(first, second);
            var g := Run(s, inputs);
            var r := Step(g, Act(Hold, roster, d));
            if g.gameOver || Spent(s, inputs) then r == g else Exchanged(g, r)
  {
    hide StartGame, Run, Step, Sized, Spent, Exchanged;
    StartUnspent(first, second);
    FlagIsSpent(StartGame(first, second), inputs);
    HoldExchanges(Run(StartGame(first, second), inputs), roster, d);
  }

  /** So between any two exchanges of a run some piece has locked. */
  lemma OneExchangeAPiece(first: Picks, second: Picks, inputs: seq<Input>, i: nat, j: nat)
    requires i < j < |inputs|
    ensures var s := StartGame(first, second);
            ExchangesAt(s, inputs, i) && ExchangesAt(s, inputs, j) ==> exists k :: i < k < j && LocksAt(s, inputs, k)
  {
    hide StartGame, Run, Step, Sized, Exchanged, StepLocks;
    var s := StartGame(first, second);
    var before := inputs[..j];
    if ExchangesAt(s, inputs, i) && ExchangesAt(s, inputs, j) {
      HoldsExactlyWhen(first, second, before, inputs[j].roster, inputs[j].dice);
      assert !Spent(s, before);
      assert before[..i] == inputs[..i];
      assert ExchangesAt(s, before, i);
      var k :| i < k < j && LocksAt(s, before, k);
      assert before[..k] == inputs[..k];
      assert LocksAt(s, inputs, k);
    }
  }
}
