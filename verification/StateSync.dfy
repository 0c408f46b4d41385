/** From the server's board to the client's picture of it: snapshot, message, text, and back. */
module StateSync {
  import opened Basics
  import opened Pieces
  import opened Boards
  import opened Engine
  import opened Formats
  import opened Payloads
  import opened StatePayloads
  import opened Wrappers
  import opened HyperText
  import EngineInvariant
  import BagFairness
  import Htttp

  const STATE_TYPE := "application/state-payload"

  /** Counters that a C int holds and ids that 32 unsigned bits hold. */
  ghost predicate InMachineRange(g: Game) {
    && g.playerId < U32 && g.targetPlayerId < U32 && g.winnerId < U32 && g.targetMode < U32
    && g.score < I31 && g.level < I31 && g.linesCleared < I31 && g.tSpins < I31 && g.tetrises < I31 && g.combo < I31
  }

  /** The snapshot of a game. Nothing writes `nextType`, so it is whatever the memory held. */
  function BuildState(g: Game, nextType: nat): StatePayload
    requires |g.bag| == 14
  {
    StatePayload(g.board, g.current.kind, g.current.rot, g.current.x, g.current.y, nextType,
                 BagFairness.Preview(g), g.heldType, Bit(g.hasHeld),
                 g.playerId, g.score, g.level, g.linesCleared, g.combo, Bit(g.b2b), g.tSpins, g.tetrises,
                   g.pendingGarbage,
                 g.targetPlayerId, g.targetMode, Bit(g.gameOver), g.winnerId)
  }

  method BuildStatePayload(g: Game, was: StatePayload) returns (p: StatePayload)
    requires |g.bag| == 14 && |was.preview| == 3
    ensures p == BuildState(g, was.nextType)
  {
    p := was.(board := g.board, currentType := g.current.kind, currentRot := g.current.rot, currentX := g.current.x,
      currentY := g.current.y);
    var preview := was.preview;
    for i := 0 to 3
      invariant |preview| == 3 && forall j :: 0 <= j < i ==> preview[j] == g.bag[(g.bagIndex + j) % 14]
    {
      preview := preview[i := g.bag[(g.bagIndex + i) % 14]];
    }
    assert preview == BagFairness.Preview(g);
    p := p.(preview := preview, heldType := g.heldType, hasHeld := Bit(g.hasHeld), playerId := g.playerId,
      score := g.score,
            level := g.level, linesCleared := g.linesCleared, combo := g.combo, b2b := Bit(g.b2b), tSpins := g.tSpins,
            tetrises := g.tetrises, pendingGarbage := g.pendingGarbage, targetPlayerId := g.targetPlayerId,
            targetMode := g.targetMode, gameOver := Bit(g.gameOver), winnerId := g.winnerId);
  }

  // ----- The client's picture

  /** What the client draws from. The bag may hold anything until snapshots arrive. */
  datatype Picture = Picture(
    board: seq<seq<int>>, kind: int, rot: int, x: int, y: int, bag: seq<int>, bagIndex: nat, heldType: int,
      hasHeld: bool,
    playerId: nat, score: int, level: int, linesCleared: int, combo: int, b2b: bool, tSpins: int, tetrises: int,
      pendingGarbage: nat,
    targetPlayerId: nat, targetMode: nat, gameOver: nat, winnerId: nat)

  /** The piece the preview box shows in place i. */
  function Upcoming(v: Picture, i: nat): int
    requires |v.bag| == 14
  {
    v.bag[(v.bagIndex + i) % 14]
  }

  function ApplyState(p: StatePayload, v: Picture): (r: Picture)
    requires |v.bag| == 14 && |p.preview| == 3
    ensures |r.bag| == 14
  {
    Picture(p.board, p.currentType, p.currentRot, p.currentX, p.currentY, p.preview + v.bag[3..], 0, p.heldType,
      p.hasHeld != 0,
            p.playerId, Signed(p.score), Signed(p.level), Signed(p.linesCleared), p.combo, p.b2b != 0,
              Signed(p.tSpins), Signed(p.tetrises),
            p.pendingGarbage, p.targetPlayerId, p.targetMode, p.gameOver, p.winnerId)
  }

  /** One arriving text: anything but a snapshot of the client's own board changes nothing. The snapshot is read over
      whatever its memory held. */
  function Receive(text: string, v: Picture, junk: StatePayload): (r: Picture)
    requires |v.bag| == 14 && |junk.preview| == 3
    ensures |r.bag| == 14
  {
    match Parse(text)
    case Rejected => v
    case Overran => v
    case Done(msg) =>
      var info := Htttp.Extract(msg);
      if info.code != Htttp.State then v
      else
        match DecodeState(info.body, junk)
        case None => v
        case Some(p) => if p.playerId == v.playerId then ApplyState(p, v) else v
  }

  /** The client draws this game: its cells, active piece, upcoming pieces, hold, counters, targeting and outcome. */
  ghost predicate Draws(v: Picture, g: Game)
    requires |g.bag| == 14
  {
    && v.board == g.board
    && v.kind == g.current.kind && v.rot == g.current.rot && v.x == g.current.x && v.y == g.current.y
    && |v.bag| == 14 && (forall i :: 0 <= i < 3 ==> Upcoming(v, i) == BagFairness.Preview(g)[i])
    && v.heldType == g.heldType && v.hasHeld == g.hasHeld
    && v.playerId == g.playerId && v.score == g.score && v.level == g.level && v.linesCleared == g.linesCleared
    && v.combo == g.combo && v.b2b == g.b2b && v.tSpins == g.tSpins && v.tetrises == g.tetrises
    && v.pendingGarbage == g.pendingGarbage && v.targetPlayerId == g.targetPlayerId && v.targetMode == g.targetMode
    && (v.gameOver != 0 <==> g.gameOver) && v.winnerId == g.winnerId
  }

  /** Field by field into the picture; the bag index is pinned so that the box reads the three sent pieces. */
  method ApplyStatePayload(p: StatePayload, was: Picture) returns (v: Picture)
    requires |was.bag| == 14 && |p.preview| == 3
    ensures v == ApplyState(p, was)
  {
    hide Signed;
    v := was.(board := p.board, kind := p.currentType, rot := p.currentRot, x := p.currentX, y := p.currentY,
      bagIndex := 0);
    var bag := was.bag;
    for i := 0 to 3
      invariant bag == p.preview[..i] + was.bag[i..]
    {
      bag := bag[i := p.preview[i]];
    }
    assert p.preview[..3] == p.preview;
    v := v.(bag := bag, heldType := p.heldType, hasHeld := p.hasHeld != 0, playerId := p.playerId,
      score := Signed(p.score),
            level := Signed(p.level), linesCleared := Signed(p.linesCleared), combo := p.combo, b2b := p.b2b != 0,
            tSpins := Signed(p.tSpins), tetrises := Signed(p.tetrises), pendingGarbage := p.pendingGarbage,
            targetPlayerId := p.targetPlayerId, targetMode := p.targetMode, gameOver := p.gameOver,
              winnerId := p.winnerId);
  }

  // ----- The way there and back

  lemma PoseBounds(b: Board, p: Piece)
    requires Shaped(b) && EngineInvariant.PoseOk(b, p)
    ensures -3 <= p.x < 10 && -5 <= p.y < 20
  {
    if ValidPiece(b, p) {
      ValidBounds(b, p);
    }
  }

  lemma CellsFit(b: Board)
    requires Shaped(b) && CellsInRange(b)
    ensures BoardShape(b)
  {
  }

  lemma SnapshotInRange(g: Game, nextType: nat)
    requires EngineInvariant.Inv(g) && InMachineRange(g) && nextType < U32
    ensures InRange(BuildState(g, nextType))
  {
    hide BoardShape, ValidPiece, NoFullRow, EngineInvariant.Block;
    PoseBounds(g.board, g.current);
    CellsFit(g.board);
  }

  lemma SmallIsSigned(v: nat)
    requires v < I31
    ensures Signed(v) == v
  {
  }

  lemma AppliedDraws(g: Game, nextType: nat, v: Picture)
    requires |g.bag| == 14 && InMachineRange(g) && |v.bag| == 14
    ensures Draws(ApplyState(BuildState(g, nextType), v), g)
  {
    hide Signed;
    SmallIsSigned(g.score);
    SmallIsSigned(g.level);
    SmallIsSigned(g.linesCleared);
    SmallIsSigned(g.tSpins);
    SmallIsSigned(g.tetrises);
  }

  function StateMessage(g: Game, nextType: nat, date: string): Msg
    requires |g.bag| == 14
  {
    Htttp.Request(Htttp.State, g.playerId, STATE_TYPE, date, EncodeState(BuildState(g, nextType)))
  }

  /** For every reachable kind of board, whatever the date line says and whatever the unset field holds: the snapshot
      fits in a message, and the client that owns the board draws exactly it, while every other client keeps its
      picture. */
  lemma StateArrives(g: Game, nextType: nat, date: string, v: Picture, junk: StatePayload)
    requires EngineInvariant.Inv(g) && InMachineRange(g) && nextType < U32 && |v.bag| == 14 && |junk.preview| == 3
    ensures var r := Receive(Print(StateMessage(g, nextType, date)), v, junk);
            if v.playerId == g.playerId then Draws(r, g) else r == v
  {
    hide EngineInvariant.Inv, InMachineRange, Parse, Print, Htttp.Request, Htttp.Extract, DecodeState, EncodeState,
         ApplyState, Draws, InRange;
    assert |g.bag| == 14 by { InvBag(g); }
    var p := BuildState(g, nextType);
    var body := EncodeState(p);
    SnapshotInRange(g, nextType);
    StateRoundTrip(p, junk);
    StateLength(p);
    assert g.playerId < U32 by { IdInRange(g); }
    Htttp.RequestRoundTrip(Htttp.State, g.playerId, STATE_TYPE, date, body);
    AppliedDraws(g, nextType, v);
  }

  /** In particular every board a whole game can reach. */
  lemma ReachableStateArrives(first: Picks, second: Picks, inputs: seq<Input>, nextType: nat, date: string, v: Picture,
      junk: StatePayload)
    requires InMachineRange(Run(StartGame(first, second), inputs)) && nextType < U32 && |v.bag| == 14
    requires |junk.preview| == 3
    ensures var g := Run(StartGame(first, second), inputs);
            && |g.bag| == 14
            && var r := Receive(Print(StateMessage(g, nextType, date)), v, junk);
               if v.playerId == g.playerId then Draws(r, g) else r == v
  {
    hide *;
    EngineInvariant.ReachableInv(first, second, inputs);
    InvBag(Run(StartGame(first, second), inputs));
    StateArrives(Run(StartGame(first, second), inputs), nextType, date, v, junk);
  }

  lemma InvBag(g: Game)
    requires EngineInvariant.Inv(g)
    ensures |g.bag| == 14
  {
  }

  lemma IdInRange(g: Game)
    requires InMachineRange(g)
    ensures g.playerId < U32
  {
  }

  // ----- Size

  function HeaderBytes(hs: seq<Header>): nat {
    if hs == [] then 0 else HeaderBytes(hs[..|hs| - 1]) + |PrintHeader(hs[|hs| - 1])|
  }

  lemma {:induction false} AcceptedBytes(hs: seq<Header>)
    ensures |PrintHeaders(Accepted(hs))| <= HeaderBytes(hs)
  {
    hide PrintHeader, LegalHeader;
    if hs != [] {
      var front := hs[..|hs| - 1];
      AcceptedBytes(front);
      PrintedAppend(Accepted(front), hs[|hs| - 1]);
      assert Accepted(front) + [] == Accepted(front);
    }
  }

  lemma FourHeaders(a: Header, b: Header, c: Header, d: Header)
    ensures HeaderBytes([a, b, c, d]) == |PrintHeader(a)| + |PrintHeader(b)| + |PrintHeader(c)| + |PrintHeader(d)|
  {
    hide PrintHeader;
    assert [a, b, c, d][..3] == [a, b, c] && [a, b, c][..2] == [a, b] && [a, b][..1] == [a] && [a][..0] == [];
    assert HeaderBytes([]) == 0;
    assert HeaderBytes([a]) == |PrintHeader(a)|;
    assert HeaderBytes([a, b]) == |PrintHeader(a)| + |PrintHeader(b)|;
  }

  lemma HeaderLength(h: Header)
    ensures |PrintHeader(h)| == |h.field| + |h.value| + 4
  {
  }

  lemma IdLength(id: nat)
    requires id < U32
    ensures |Dec(id)| <= 10
  {
    PowerTen();
    DecLength(id, 10);
  }

  lemma RequestHeaders(id: nat, date: string, body: string)
    requires id < U32 && |date| < 30 && |body| <= 706
    ensures |PrintHeaders(Accepted(Htttp.Offered(id, STATE_TYPE, date, body)))| <= 129
  {
    hide PrintHeader, PrintHeaders, Accepted, Dec, HeaderBytes;
    var hs := Htttp.Offered(id, STATE_TYPE, date, body);
    AcceptedBytes(hs);
    FourHeaders(hs[0], hs[1], hs[2], hs[3]);
    IdLength(id);
    IdLength(|body|);
    HeaderLength(hs[0]);
    HeaderLength(hs[1]);
    HeaderLength(hs[2]);
    HeaderLength(hs[3]);
  }

  lemma RequestLength(id: nat, date: string, body: string)
    requires id < U32 && |date| < 30 && |body| <= 706
    ensures |Print(Htttp.Request(Htttp.State, id, STATE_TYPE, date, body))| <= 900
  {
    hide PrintHeaders, Accepted, Dec, Htttp.Offered;
    RequestHeaders(id, date, body);
    IdLength(id);
  }

  /** A date of the length the server writes never makes a snapshot outgrow the message buffer. */
  lemma StateFits(g: Game, nextType: nat, date: string)
    requires EngineInvariant.Inv(g) && InMachineRange(g) && nextType < U32 && |date| < 30
    ensures |g.bag| == 14 && |Print(StateMessage(g, nextType, date))| < MAX_BUF
  {
    hide EngineInvariant.Inv, InMachineRange, Print, Htttp.Request, EncodeState, InRange;
    InvBag(g);
    IdInRange(g);
    SnapshotInRange(g, nextType);
    StateLength(BuildState(g, nextType));
    RequestLength(g.playerId, date, EncodeState(BuildState(g, nextType)));
  }

  // ----- The other direction

  lemma InputLength(action: nat)
    requires action < U32
    ensures |EncodeInput(action)| <= 154
  {
    hide FormatOf, Printf;
    FormatNums(InputParts());
    InputFormatLength();
    PrintfLength(FormatOf(InputParts()), [action]);
  }

  lemma InputFormatLength()
    ensures |FormatOf(InputParts())| == 14
  {
    assert InputParts()[1..] == ["}"];
  }

  /** Every action a client sends is the one the server decodes, under the id the client sent. */
  lemma ActionArrives(id: nat, action: nat, date: string, was: nat)
    requires id < U32 && action < U32
    ensures var msg := Htttp.Request(Htttp.Action, id, "application/input-payload", date, EncodeInput(action));
            && Parse(Print(msg)) == Done(msg)
            && Htttp.Extract(msg).code == Htttp.Action && Htttp.Extract(msg).id == id
            && DecodeInput(Htttp.Extract(msg).body, was) == action
  {
    hide Parse, Print, Htttp.Request, Htttp.Extract, EncodeInput, DecodeInput;
    InputLength(action);
    InputRoundTrip(action, was);
    Htttp.RequestRoundTrip(Htttp.Action, id, "application/input-payload", date, EncodeInput(action));
  }
}
