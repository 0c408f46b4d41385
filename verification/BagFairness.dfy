/** The seven-piece bag over unbounded runs: fairness, truthful previews, and conservation of pieces. */
module BagFairness {
  import opened Pieces
  import opened Boards
  import opened Shuffling
  import opened Engine
  import opened EngineInvariant
  import opened EngineRuns
  import Rotations
  import Targeting
  import Garbage

  // ----- Sequences made of complete bags

  ghost predicate Blocks(s: seq<Kind>) {
    s == [] || (|s| >= 7 && Block(s[..7]) && Blocks(s[7..]))
  }

  lemma SingleBlock(t: seq<Kind>)
    requires Block(t)
    ensures |t| == 7 && Blocks(t)
  {
    assert t[..7] == t && t[7..] == [];
  }

  lemma {:induction false} AppendBlock(s: seq<Kind>, t: seq<Kind>)
    requires Blocks(s) && Block(t)
    ensures Blocks(s + t)
  {
    hide Block;
    if s == [] {
      SingleBlock(t);
      assert s + t == t;
    } else {
      AppendBlock(s[7..], t);
      assert (s + t)[..7] == s[..7] && (s + t)[7..] == s[7..] + t;
    }
  }

  lemma {:induction false} BlockAt(s: seq<Kind>, k: nat)
    requires Blocks(s) && 7 * k + 7 <= |s|
    ensures Block(s[7 * k..7 * k + 7])
  {
    hide Block;
    if k == 0 {
      assert s[0..7] == s[..7];
    } else {
      BlockAt(s[7..], k - 1);
      assert s[7..][7 * (k - 1)..7 * (k - 1) + 7] == s[7 * k..7 * k + 7];
    }
  }

  lemma BlockHasAll(s: seq<Kind>, kind: Kind)
    requires Block(s)
    ensures kind in s
  {
    assert SEVEN[kind - 1] == kind;
    assert kind in multiset(SEVEN);
    assert kind in multiset(s);
  }

  /** Any thirteen consecutive positions contain a complete bag. */
  lemma WindowHasAll(s: seq<Kind>, a: nat, kind: Kind) returns (j: nat)
    requires Blocks(s) && a + 13 <= |s|
    ensures a <= j < a + 13 && s[j] == kind
  {
    var k := (a + 6) / 7;
    BlockAt(s, k);
    var block := s[7 * k..7 * k + 7];
    BlockHasAll(block, kind);
    var m :| 0 <= m < 7 && block[m] == kind;
    j := 7 * k + m;
  }

  // ----- The stream of pieces already drawn and those still in the bag

  function Stream(g: Game, l: Books): seq<Kind>
    requires g.bagIndex <= |g.bag|
  {
    l.drawn + g.bag[g.bagIndex..]
  }

  lemma QuietBag(g: Game, i: Input)
    requires Sized(g) && !StepDraws(g, i)
    ensures Step(g, i).bag == g.bag && Step(g, i).bagIndex == g.bagIndex
  {
    hide ValidPiece, DropPiece, Settle, Rotations.CanRotate, Rotations.Rotated, Refill, Targeting.CycleTarget;
    if i.Tick? && !g.gameOver {
      QuietTick(g, i.dice);
    }
  }

  lemma DrawingBag(g: Game, i: Input)
    requires Sized(g) && StepDraws(g, i)
    ensures i.Act? || i.Tick?
    ensures var r, picks := Step(g, i), DiceOf(i).picks;
            if g.bagIndex < 6 then r.bag == g.bag && r.bagIndex == g.bagIndex + 1
            else r.bag == Refill(g.bag, picks) && r.bagIndex == 0
  {
    if StepLocks(g, i) {
      hide Settle, Refill, AtLock, Step;
      assert i.Act? || i.Tick?;
      LockingStep(g, i);
      SettleBag(AtLock(g, i), DiceOf(i));
    } else {
      hide Settle, Refill, ValidPiece;
    }
  }

  lemma SettleBag(g: Game, d: Dice)
    requires Sized(g)
    ensures var r := Settle(g, d);
            && r.current == Piece(g.bag[g.bagIndex], 0, SPAWN_X, SPAWN_Y) && r.heldType == g.heldType
            && if g.bagIndex < 6 then r.bag == g.bag && r.bagIndex == g.bagIndex + 1
               else r.bag == Refill(g.bag, d.picks) && r.bagIndex == 0
  {
    hide Baked, LinesMade, TSpin, LockExchange, LockDamage, Garbage.AddGarbage, Refill, ValidPiece, RowsLetIn;
  }

  lemma RecordDrawn(l: Books, g: Game, i: Input)
    requires Sized(g)
    ensures Record(l, g, i).drawn == if StepDraws(g, i) then l.drawn + [g.bag[g.bagIndex]] else l.drawn
    ensures Record(l, g, i).locked == if StepLocks(g, i) then l.locked + multiset{g.current.kind} else l.locked
  {
    hide StepDraws, StepLocks, Baked, RowsLetIn, Occupied;
  }

  lemma MidBagStream(bag: seq<Kind>, i: nat, drawn: seq<Kind>)
    requires i < |bag|
    ensures (drawn + [bag[i]]) + bag[i + 1..] == drawn + bag[i..]
  {
  }

  lemma RefillStream(bag: seq<Kind>, drawn: seq<Kind>, added: seq<Kind>)
    requires |bag| == 14
    ensures (drawn + [bag[6]]) + (bag[7..] + added)[0..] == (drawn + bag[6..]) + added
  {
  }

  /** A step only appends to the stream, and only whole bags. */
  lemma StreamGrows(g: Game, l: Books, i: Input)
    requires Sized(g) && Blocks(Stream(g, l))
    ensures Stream(g, l) <= Stream(Step(g, i), Record(l, g, i))
    ensures Blocks(Stream(Step(g, i), Record(l, g, i)))
  {
    hide Step, Record, StepDraws, Blocks, Block, Shaped, Shuffle;
    RecordDrawn(l, g, i);
    if StepDraws(g, i) {
      DrawingBag(g, i);
      if g.bagIndex < 6 {
        MidBagStream(g.bag, g.bagIndex, l.drawn);
      } else {
        var added := Shuffle(SEVEN, DiceOf(i).picks);
        RefillStream(g.bag, l.drawn, added);
        ShuffledBlock(DiceOf(i).picks);
        AppendBlock(Stream(g, l), added);
      }
    } else {
      QuietBag(g, i);
    }
  }

  lemma {:induction false} StreamGrowsAlong(g: Game, l: Books, inputs: seq<Input>)
    requires Sized(g) && Blocks(Stream(g, l))
    ensures Stream(g, l) <= Stream(Run(g, inputs), Account(g, l, inputs))
    ensures Blocks(Stream(Run(g, inputs), Account(g, l, inputs)))
  {
    hide Step, Record, Blocks, Shaped;
    if inputs != [] {
      var n := |inputs| - 1;
      StreamGrowsAlong(g, l, inputs[..n]);
      StreamGrows(Run(g, inputs[..n]), Account(g, l, inputs[..n]), inputs[n]);
    }
  }

  lemma StartStream(first: Picks, second: Picks)
    ensures var s := StartGame(first, second); Blocks(Stream(s, OpeningBooks(s)))
  {
    hide Shuffle, Block;
    ShuffledBlock(first);
    ShuffledBlock(second);
    var s := StartGame(first, second);
    var b1, b2 := Shuffle(SEVEN, first), Shuffle(SEVEN, second);
    assert s.bag == b1 + b2 && s.bagIndex == 1 && s.current.kind == b1[0];
    assert Stream(s, OpeningBooks(s)) == b1 + b2;
    SingleBlock(b1);
    AppendBlock(b1, b2);
  }

  /** Over any run whatever, each thirteen consecutive draws contain all seven pieces. */
  lemma BagFair(first: Picks, second: Picks, inputs: seq<Input>, a: nat, kind: Kind)
    ensures var s := StartGame(first, second);
            var drawn := Account(s, OpeningBooks(s), inputs).drawn;
            a + 13 <= |drawn| ==> kind in drawn[a..a + 13]
  {
    hide StartGame, Run, Account, Blocks;
    var s := StartGame(first, second);
    var l := OpeningBooks(s);
    StartStream(first, second);
    StreamGrowsAlong(s, l, inputs);
    var drawn := Account(s, l, inputs).drawn;
    if a + 13 <= |drawn| {
      var j := WindowHasAll(Stream(Run(s, inputs), Account(s, l, inputs)), a, kind);
      assert drawn[a..a + 13][j - a] == kind;
    }
  }

  // ----- Previews

  /** The three pieces a state snapshot shows as upcoming. */
  function Preview(g: Game): (p: seq<Kind>)
    requires |g.bag| == 14
    ensures |p| == 3
  {
    seq(3, i requires 0 <= i < 3 => g.bag[(g.bagIndex + i) % 14])
  }

  /** The previewed pieces are the next three drawn, whatever is rolled and whatever the player does. */
  lemma PreviewTruth(first: Picks, second: Picks, before: seq<Input>, after: seq<Input>, i: nat)
    requires i < 3
    ensures var s := StartGame(first, second);
            var g, l := Run(s, before), Account(s, OpeningBooks(s), before);
            var l' := Account(g, l, after);
            |l.drawn| + i < |l'.drawn| ==> l'.drawn[|l.drawn| + i] == Preview(g)[i]
  {
    hide StartGame, Run, Account, Blocks;
    var s := StartGame(first, second);
    StartStream(first, second);
    StreamGrowsAlong(s, OpeningBooks(s), before);
    var g, l := Run(s, before), Account(s, OpeningBooks(s), before);
    StreamGrowsAlong(g, l, after);
    var l' := Account(g, l, after);
    if |l.drawn| + i < |l'.drawn| {
      assert Stream(g, l)[|l.drawn| + i] == g.bag[g.bagIndex + i];
    }
  }

  // ----- Pieces are conserved

  function Held(g: Game): multiset<int> {
    if g.heldType == 0 then multiset{} else multiset{g.heldType}
  }

  ghost predicate PiecesBalance(g: Game, l: Books) {
    multiset(l.drawn) == l.locked + multiset{g.current.kind} + Held(g)
  }

  lemma QuietPieces(g: Game, i: Input)
    requires Sized(g) && !StepDraws(g, i)
    ensures var r := Step(g, i);
            || (r.current.kind == g.current.kind && r.heldType == g.heldType)
            || (r.current.kind == g.heldType && r.heldType == g.current.kind && g.heldType != 0)
  {
    hide ValidPiece, DropPiece, Settle, Rotations.CanRotate, Rotations.Rotated, Refill, Targeting.CycleTarget;
    if i.Tick? && !g.gameOver {
      QuietTick(g, i.dice);
    }
  }

  lemma DrawingPieces(g: Game, i: Input)
    requires Sized(g) && StepDraws(g, i)
    ensures var r := Step(g, i);
            && r.current.kind == g.bag[g.bagIndex]
            && if StepLocks(g, i) then r.heldType == g.heldType else g.heldType == 0 && r.heldType == g.current.kind
  {
    if StepLocks(g, i) {
      hide Settle, Step;
      LockingStep(g, i);
      SettleBag(AtLock(g, i), DiceOf(i));
    } else {
      hide Settle, Refill, ValidPiece;
    }
  }

  lemma StepKeepsPieces(g: Game, l: Books, i: Input)
    requires Sized(g) && PiecesBalance(g, l)
    ensures PiecesBalance(Step(g, i), Record(l, g, i))
  {
    hide Step, Record, StepDraws, StepLocks, Shaped;
    RecordDrawn(l, g, i);
    if StepDraws(g, i) {
      DrawingPieces(g, i);
    } else {
      assert !StepLocks(g, i) by { LockingDraws(g, i); }
      QuietPieces(g, i);
    }
  }

  lemma LockingDraws(g: Game, i: Input)
    requires Sized(g)
    ensures StepLocks(g, i) ==> StepDraws(g, i)
  {
    hide StepLocks;
  }

  lemma {:induction false} RunKeepsPieces(g: Game, l: Books, inputs: seq<Input>)
    requires Sized(g) && PiecesBalance(g, l)
    ensures PiecesBalance(Run(g, inputs), Account(g, l, inputs))
  {
    hide Step, Record, PiecesBalance, Shaped;
    if inputs != [] {
      var n := |inputs| - 1;
      RunKeepsPieces(g, l, inputs[..n]);
      StepKeepsPieces(Run(g, inputs[..n]), Account(g, l, inputs[..n]), inputs[n]);
    }
  }

  /** Every piece ever drawn is locked, in play or held: none is lost or made up. */
  lemma PieceConservation(first: Picks, second: Picks, inputs: seq<Input>)
    ensures var s := StartGame(first, second); PiecesBalance(Run(s, inputs), Account(s, OpeningBooks(s), inputs))
  {
    hide Run, Account;
    var s := StartGame(first, second);
    assert PiecesBalance(s, OpeningBooks(s));
    RunKeepsPieces(s, OpeningBooks(s), inputs);
  }
}
