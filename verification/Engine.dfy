/** One player's authoritative game as a value: what every action and every tick does to it. */
module Engine {
  import opened Pieces
  import opened Boards
  import opened Shuffling
  import Garbage
  import Rotations
  import Targeting

  const SPAWN_X := WIDTH / 2 - 2
  const SPAWN_Y := -2
  const GRAVITY_THRESHOLD_START := 50
  const LOCK_THRESHOLD_START := 50

  /** The draws one fresh seven-piece bag makes. */
  type Picks = c: seq<nat> | Choices(c, 7) witness [0, 0, 0, 0, 0, 0, 0]

  /** Every random draw one step can need. */
  datatype Dice = Dice(holes: Holes, picks: Picks)

  const SEVEN: seq<Kind> := [1, 2, 3, 4, 5, 6, 7]

  datatype Game = Game(
    board: Board,
    current: Piece,
    bag: seq<Kind>,
    bagIndex: nat,
    heldType: int, // 0: nothing held
    hasHeld: bool,
    lastActionRotation: bool,
    gravityTimer: nat,
    lockTimer: nat,
    piecesPlaced: nat,
    tetrises: nat,
    tSpins: nat,
    score: nat,
    linesCleared: nat,
    level: nat,
    combo: int,
    b2b: bool,
    pendingGarbage: nat,
    outgoingGarbage: nat,
    gameOver: bool,
    playerId: nat,
    targetPlayerId: nat,
    targetMode: nat,
    lastAttackerId: nat,
    winnerId: nat)

  /** What every operation needs to run at all: array sizes, and table indices in range. */
  ghost predicate Sized(g: Game) {
    Shaped(g.board) && |g.bag| == 14 && g.bagIndex < 7 && 0 <= g.heldType <= 7
  }

  predicate AtSpawn(p: Piece) {
    p.rot == 0 && p.x == SPAWN_X && p.y == SPAWN_Y
  }

  function Shifted(p: Piece, dx: int, dy: int): Piece {
    p.(x := p.x + dx, y := p.y + dy)
  }

  predicate CanShift(g: Game, dx: int, dy: int)
    requires Shaped(g.board)
  {
    ValidPiece(g.board, Shifted(g.current, dx, dy))
  }

  // ----- Bag and hold

  function Refill(bag: seq<Kind>, picks: Picks): (r: seq<Kind>)
    requires |bag| == 14
    ensures |r| == 14
  {
    bag[7..] + Shuffle(SEVEN, picks)
  }

  function SpawnPiece(g: Game, picks: Picks): (r: Game)
    requires |g.bag| == 14 && g.bagIndex < 7
    ensures |r.bag| == 14 && r.bagIndex < 7
  {
    var kind := g.bag[g.bagIndex];
    g.(current := Piece(kind, 0, SPAWN_X, SPAWN_Y),
       bag := if g.bagIndex + 1 >= 7 then Refill(g.bag, picks) else g.bag,
       bagIndex := if g.bagIndex + 1 >= 7 then 0 else g.bagIndex + 1,
       hasHeld := false)
  }

  function HoldPiece(g: Game, picks: Picks): (r: Game)
    requires Sized(g)
    ensures Sized(r)
  {
    if g.hasHeld then g
    else if g.heldType == 0 then SpawnPiece(g.(heldType := g.current.kind), picks).(hasHeld := true)
    else g.(current := Piece(g.heldType, 0, SPAWN_X, SPAWN_Y), heldType := g.current.kind, hasHeld := true)
  }

  /** A hold that is not refused puts the held piece, or the next one if none is held, at the top. */
  lemma HoldTakes(g: Game, picks: Picks)
    requires Sized(g) && !g.hasHeld
    ensures var r := HoldPiece(g, picks);
            && r.hasHeld && r.heldType == g.current.kind
            && r.current == Piece(if g.heldType == 0 then g.bag[g.bagIndex] else g.heldType, 0, 3, -2)
  {
    hide Shaped, Refill;
  }

  // ----- Movement

  function Move(g: Game, dx: int, dy: int): (r: Game)
    requires Sized(g)
    ensures Sized(r)
  {
    if CanShift(g, dx, dy) then g.(current := Shifted(g.current, dx, dy), lastActionRotation := false) else g
  }

  lemma SomeCell(k: Kind, rot: Rotation) returns (px: int, py: int)
    ensures 0 <= px < 4 && 0 <= py < 4 && Solid(k, rot, px, py)
  {
    if k == PIECE_I {
      px, py := 1, if rot == 2 then 2 else 1;
      if rot == 3 { px, py := 1, 2; } else if rot == 1 { px, py := 2, 1; }
    } else {
      px := if rot < 2 then 1 else 2;
      py := if rot == 0 || rot == 3 then 2 else 1;
    }
  }

  lemma ValidBounds(b: Board, p: Piece)
    requires Shaped(b) && ValidPiece(b, p)
    ensures -3 <= p.x < WIDTH && p.y < HEIGHT
  {
    hide Solid;
    var px, py := SomeCell(p.kind, p.rot);
    assert Fits(b, p.x + px, p.y + py);
  }

  function DropPiece(b: Board, p: Piece): (r: Piece)
    requires Shaped(b)
    ensures r == p.(y := r.y) && p.y <= r.y && !ValidPiece(b, Shifted(r, 0, 1))
    ensures forall y :: p.y < y <= r.y ==> ValidPiece(b, p.(y := y))
    decreases HEIGHT - p.y
  {
    var below := Shifted(p, 0, 1);
    if ValidPiece(b, below) then
      ValidBounds(b, below);
      DropPiece(b, below)
    else p
  }

  function Rotate(g: Game, to: Rotation): (r: Game)
    requires Sized(g)
    ensures Sized(r)
  {
    if Rotations.CanRotate(g.board, g.current, to)
    then g.(current := Rotations.Rotated(g.board, g.current, to), lastActionRotation := true)
    else g
  }

  // ----- Locking

  function CornerBlocked(b: Board, x: int, y: int): nat
    requires Shaped(b)
  {
    Bit(x < 0 || x >= WIDTH || y >= HEIGHT || y < 0 || b[y][x] != 0)
  }

  predicate TSpin(g: Game)
    requires Shaped(g.board)
  {
    var x, y := g.current.x + 1, g.current.y + 1;
    && g.current.kind == PIECE_T && g.lastActionRotation
    && CornerBlocked(g.board, x - 1, y - 1) + CornerBlocked(g.board, x + 1, y - 1)
     + CornerBlocked(g.board, x - 1, y + 1) + CornerBlocked(g.board, x + 1, y + 1) >= 3
  }

  /** Rows completed by locking the current piece where it stands. */
  function LinesMade(g: Game): nat
    requires Shaped(g.board)
  {
    FullCount(Lock(g.board, g.current))
  }

  /** The board with the piece locked and the completed rows gone. */
  function Baked(g: Game): (b: Board)
    requires Shaped(g.board)
    ensures Shaped(b)
  {
    var b := Lock(g.board, g.current);
    hide Lock;
    ClearedShape(b);
    Cleared(b, WIDTH)
  }

  lemma ClearedShape(b: Board)
    requires Shaped(b)
    ensures Shaped(Cleared(b, WIDTH))
  {
    hide FullCount, Survivors;
    SurvivorsKeep(b, WIDTH);
    var r := Cleared(b, WIDTH);
    forall y | 0 <= y < |r| ensures |r[y]| == WIDTH {
      if y >= FullCount(b) {
        assert r[y] == Survivors(b)[y - FullCount(b)];
      }
    }
  }

  /** Lock the piece, clear rows and count them. */
  function LockAndClear(g: Game): (r: Game)
    requires Sized(g)
    ensures Sized(r)
  {
    var n := LinesMade(g);
    g.(board := Baked(g),
       tSpins := g.tSpins + Bit(TSpin(g)),
       piecesPlaced := g.piecesPlaced + 1,
       linesCleared := g.linesCleared + n,
       level := if n > 0 then (g.linesCleared + n) / 10 + 1 else g.level,
       score := g.score + n * 100,
       tetrises := g.tetrises + Bit(n == 4))
  }

  /** The damage a lock deals before any of it cancels pending garbage. */
  function LockDamage(g: Game): Garbage.Damage
    requires Shaped(g.board)
  {
    Garbage.Calculate(g.combo, g.b2b, LinesMade(g), TSpin(g))
  }

  function LockExchange(g: Game): Garbage.Exchange
    requires Shaped(g.board)
  {
    Garbage.Cancel(LockDamage(g).lines, g.pendingGarbage)
  }

  /** Garbage rows this lock lets in: the whole meter, unless the lock cleared something. */
  function RowsLetIn(g: Game): nat
    requires Shaped(g.board)
  {
    if LinesMade(g) == 0 then LockExchange(g).pending else 0
  }

  /** Lock, clear, trade garbage, spawn the next piece; the game ends if that one does not fit. */
  function Settle(g: Game, d: Dice): (r: Game)
    requires Sized(g)
    ensures Sized(r)
  {
    var damage := LockDamage(g);
    var exchange := LockExchange(g);
    var taken := RowsLetIn(g);
    var locked := LockAndClear(g);
    var traded := locked.(
      combo := damage.combo,
      b2b := damage.b2b,
      outgoingGarbage := exchange.outgoing,
      pendingGarbage := if taken > 0 then 0 else exchange.pending,
      board := Garbage.AddGarbage(locked.board, taken, d.holes));
    var spawned := SpawnPiece(traded, d.picks);
    spawned.(gameOver := g.gameOver || !ValidPiece(spawned.board, spawned.current))
  }

  /** The piece is about to lock: it cannot fall and is not above the board. */
  predicate Locks(g: Game)
    requires Shaped(g.board)
  {
    !CanShift(g, 0, 1) && g.current.y >= 0
  }

  function TickGame(g: Game, d: Dice): (r: Game)
    requires Sized(g)
    ensures Sized(r)
  {
    if CanShift(g, 0, 1) then g.(current := Shifted(g.current, 0, 1))
    else if g.current.y < 0 then g.(gameOver := true)
    else Settle(g, d)
  }

  // ----- Timers

  function Gravity(level: nat): (n: int)
    ensures n >= 5 && (level >= 1 ==> n <= GRAVITY_THRESHOLD_START)
  {
    var n := GRAVITY_THRESHOLD_START - (level - 1) * 5;
    if n < 5 then 5 else n
  }

  function UpdateTimers(g: Game, d: Dice): (r: Game)
    requires Sized(g)
    ensures Sized(r)
  {
    if !CanShift(g, 0, 1) then
      if g.lockTimer + 1 >= LOCK_THRESHOLD_START
      then TickGame(g.(lockTimer := g.lockTimer + 1), d).(lockTimer := 0, gravityTimer := 0)
      else g.(lockTimer := g.lockTimer + 1)
    else
      var h := g.(lockTimer := 0, gravityTimer := g.gravityTimer + 1);
      if h.gravityTimer >= Gravity(g.level) then TickGame(h, d).(gravityTimer := 0) else h
  }

  /** One of the timers runs out in this tick. */
  predicate TimerFires(g: Game)
    requires Sized(g)
  {
    if CanShift(g, 0, 1) then g.gravityTimer + 1 >= Gravity(g.level) else g.lockTimer + 1 >= LOCK_THRESHOLD_START
  }

  /** A tick shows exactly when a timer runs out: otherwise only the timers move, and then the piece falls a row, the
      game ends, or the piece locks. */
  lemma TickShows(g: Game, d: Dice)
    requires Sized(g)
    ensures var r := UpdateTimers(g, d);
            if !TimerFires(g) then r == g.(gravityTimer := r.gravityTimer, lockTimer := r.lockTimer)
            else || r.current == Shifted(g.current, 0, 1)
                 || (r.gameOver && r.board == g.board)
                 || r.piecesPlaced == g.piecesPlaced + 1
  {
    hide CanShift, Settle, Gravity;
    SettlePlaces(g.(lockTimer := g.lockTimer + 1), d);
    SettlePlaces(g.(lockTimer := 0, gravityTimer := g.gravityTimer + 1), d);
  }

  lemma SettlePlaces(g: Game, d: Dice)
    requires Sized(g)
    ensures Settle(g, d).piecesPlaced == g.piecesPlaced + 1
  {
    hide Baked, LinesMade, TSpin, ValidPiece, Refill, Garbage.AddGarbage, LockExchange, LockDamage, RowsLetIn;
  }

  // ----- Actions

  datatype Action = None | MoveLeft | MoveRight | RotateCw | RotateCcw | SoftDrop | HardDrop | Hold
                  | CycleTargetMode | CycleTarget | Quit

  function HardDropped(g: Game): (r: Game)
    requires Sized(g)
    ensures Sized(r)
  {
    g.(current := DropPiece(g.board, g.current))
  }

  function ApplyAction(g: Game, a: Action, roster: Targeting.Roster, d: Dice): (r: Game)
    requires Sized(g)
    ensures Sized(r)
  {
    if g.gameOver then g else
    match a
    case None => g
    case MoveLeft => if CanShift(g, -1, 0) then Move(g, -1, 0).(lockTimer := 0) else g
    case MoveRight => if CanShift(g, 1, 0) then Move(g, 1, 0).(lockTimer := 0) else g
    case RotateCw => Rotate(g, Rotations.Clockwise(g.current.rot)).(lockTimer := 0)
    case RotateCcw => Rotate(g, Rotations.CounterClockwise(g.current.rot)).(lockTimer := 0)
    case SoftDrop => if CanShift(g, 0, 1) then Move(g, 0, 1).(lockTimer := 0) else g
    case HardDrop => TickGame(HardDropped(g), d).(gravityTimer := 0, lockTimer := 0)
    case Hold => if g.hasHeld then g else HoldPiece(g, d.picks).(gravityTimer := 0)
    case CycleTargetMode => g.(targetMode := Targeting.NextMode(g.targetMode))
    case CycleTarget => g.(targetPlayerId := Targeting.CycleTarget(roster, g.playerId, g.targetPlayerId))
    case Quit => g.(gameOver := true)
  }

  // ----- Runs

  /** Everything that can happen to a board in a room. */
  datatype Input =
    | Act(action: Action, roster: Targeting.Roster, dice: Dice)
    | Tick(dice: Dice)
    | Receive(attacker: nat, lines: int)
    | Consume

  function Step(g: Game, i: Input): (r: Game)
    requires Sized(g)
    ensures Sized(r)
  {
    match i
    case Act(a, roster, d) => ApplyAction(g, a, roster, d)
    case Tick(d) => if g.gameOver then g else UpdateTimers(g, d)
    case Receive(attacker, lines) =>
      if g.gameOver then g
        else g.(pendingGarbage := Garbage.Queued(g.pendingGarbage, lines), lastAttackerId := attacker)
    case Consume => g.(outgoingGarbage := 0)
  }

  function Run(g: Game, inputs: seq<Input>): (r: Game)
    requires Sized(g)
    ensures Sized(r)
  {
    if inputs == [] then g else Step(Run(g, inputs[..|inputs| - 1]), inputs[|inputs| - 1])
  }

  /** The state before the first piece is drawn: empty board, two shuffled bags. */
  function Blank(first: Picks, second: Picks): (g: Game)
    ensures Sized(g)
  {
    Game(EmptyRows(HEIGHT, WIDTH), Piece(1, 0, 0, 0), Shuffle(SEVEN, first) + Shuffle(SEVEN, second), 0, 0, false,
      false,
         0, 0, 0, 0, 0, 0, 0, 1, -1, false, 0, 0, false, 0, 0, Targeting.TARGET_MANUAL, 0, 0)
  }

  function StartGame(first: Picks, second: Picks): (g: Game)
    ensures Sized(g)
  {
    SpawnPiece(Blank(first, second), first)
  }
}
