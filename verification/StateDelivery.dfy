/** The way of a board to its client through the real buffer: printed into it, cut up in place, and read
    back from it. */
module StateDelivery {
  import opened Basics
  import opened Wrappers
  import opened Boards
  import opened Engine
  import opened Formats
  import opened Payloads
  import opened StatePayloads
  import opened HyperText
  import opened HyperTextBuffers
  import opened StateSync
  import EngineInvariant
  import Htttp

  // ----- A snapshot holds no NUL

  lemma DigitsNulFree(s: string)
    requires AllDigits(s)
    ensures NUL !in s
  {
    forall i | 0 <= i < |s| ensures s[i] != NUL {
      assert IsDigit(s[i]);
    }
  }

  lemma NumberNulFree(v: int)
    ensures NUL !in IntText(v)
  {
    hide Dec;
    var n := if v < 0 then -v else v;
    DecDigits(n);
    DigitsNulFree(Dec(n));
  }

  lemma {:induction false} PrintfNulFree(f: Format, vals: seq<int>)
    requires |vals| == Nums(f) && forall i :: 0 <= i < |f| ==> f[i] != Ch(NUL)
    ensures NUL !in Printf(f, vals)
  {
    hide IntText;
    if f != [] {
      if f[0].Num? {
        NumberNulFree(vals[0]);
        PrintfNulFree(f[1..], vals[1..]);
      } else {
        PrintfNulFree(f[1..], vals);
      }
    }
  }

  lemma {:induction false} CommasNulFree(n: nat)
    ensures forall i :: 0 <= i < |FormatOf(Commas(n))| ==> FormatOf(Commas(n))[i] != Ch(NUL)
  {
    if n > 0 {
      assert Commas(n)[1..] == Commas(n - 1);
      CommasNulFree(n - 1);
      assert ","[0] != NUL;
    }
  }

  /** Cells of real boards are digits on the wire. */
  ghost predicate DigitCells(b: seq<seq<int>>) {
    forall y, x :: 0 <= y < |b| && 0 <= x < |b[y]| ==> 0 <= b[y][x] <= 9
  }

  lemma {:induction false} BoardNulFree(b: seq<seq<int>>)
    requires DigitCells(b)
    ensures NUL !in BoardText(b)
  {
    if b != [] {
      RowNulFree(b[0]);
      BoardNulFree(b[1..]);
    }
  }

  lemma RowNulFree(row: seq<int>)
    requires forall x :: 0 <= x < |row| ==> 0 <= row[x] <= 9
    ensures NUL !in RowText(row)
  {
    forall x | 0 <= x < |row| ensures RowText(row)[x] != NUL {
      assert RowText(row)[x] as int == 48 + row[x];
    }
  }

  lemma StateNulFree(p: StatePayload)
    requires |p.preview| == 3 && DigitCells(p.board)
    ensures NUL !in EncodeState(p)
  {
    hide BoardText, Printf, FormatOf, Commas, Fields;
    StateNums();
    BoardNulFree(p.board);
    CommasNulFree(23);
    PrintfNulFree(StateFormat(), Fields(p));
  }

  ghost predicate Clean(h: Header) {
    NUL !in h.field && NUL !in h.value
  }

  ghost predicate AllClean(hs: seq<Header>) {
    forall i :: 0 <= i < |hs| ==> Clean(hs[i])
  }

  lemma {:induction false} AcceptedClean(hs: seq<Header>)
    requires AllClean(hs)
    ensures AllClean(Accepted(hs))
  {
    hide LegalHeader, Clean;
    if hs != [] {
      var n := |hs| - 1;
      assert forall i :: 0 <= i < n ==> hs[..n][i] == hs[i];
      AcceptedClean(hs[..n]);
      assert Clean(hs[n]);
    }
  }

  lemma NumberClean(n: nat)
    ensures NUL !in Dec(n)
  {
    hide Dec;
    DecDigits(n);
    DigitsNulFree(Dec(n));
  }

  lemma FieldsClean()
    ensures NUL !in Htttp.PLAYER_ID && NUL !in "Content-Type" && NUL !in "Date" && NUL !in "Content-Length"
    ensures NUL !in STATE_TYPE
  {
  }

  lemma OfferedClean(id: nat, date: string, body: string)
    requires NUL !in date
    ensures AllClean(Htttp.Offered(id, STATE_TYPE, date, body))
  {
    hide Dec;
    NumberClean(id);
    NumberClean(|body|);
    FieldsClean();
  }

  lemma LineClean(id: nat)
    ensures NUL !in "STATE" && NUL !in Htttp.Path(id) && NUL !in Htttp.VERSION
  {
    hide Dec;
    NumberClean(id);
    assert NUL !in "/room/0/player/";
  }

  lemma RequestNulFree(id: nat, date: string, body: string)
    requires NUL !in date && NUL !in body
    ensures NulFree(Htttp.Request(Htttp.State, id, STATE_TYPE, date, body))
  {
    hide Dec, Accepted, Htttp.Offered, Htttp.Path;
    LineClean(id);
    OfferedClean(id, date, body);
    AcceptedClean(Htttp.Offered(id, STATE_TYPE, date, body));
    CleanHeaders(Htttp.Request(Htttp.State, id, STATE_TYPE, date, body));
  }

  lemma CleanHeaders(m: Msg)
    requires AllClean(m.headers) && NUL !in m.token1 && NUL !in m.token2 && NUL !in m.token3 && NUL !in m.body
    ensures NulFree(m)
  {
    forall i | 0 <= i < |m.headers| ensures NUL !in m.headers[i].field && NUL !in m.headers[i].value {
      assert Clean(m.headers[i]);
    }
  }

  /** No NUL stands anywhere in the message of a reachable board. */
  lemma StateMessageNulFree(g: Game, nextType: nat, date: string)
    requires EngineInvariant.Inv(g) && NUL !in date
    ensures |g.bag| == 14 && NulFree(StateMessage(g, nextType, date))
  {
    hide EngineInvariant.Inv, EncodeState, NulFree, Htttp.Request;
    InvBag(g);
    assert DigitCells(BuildState(g, nextType).board) by { InvCells(g); }
    StateNulFree(BuildState(g, nextType));
    RequestNulFree(g.playerId, date, EncodeState(BuildState(g, nextType)));
  }

  lemma InvCells(g: Game)
    requires EngineInvariant.Inv(g)
    ensures DigitCells(g.board)
  {
  }

  // ----- Reading the parts out of the buffer

  /** The C string at a position. */
  method StringAt(buf: array<char>, p: nat, ghost w: string) returns (s: string)
    requires Holds(buf[..], p, w)
    ensures s == w
  {
    s := "";
    var i := p;
    while buf[i] != NUL
      invariant p <= i <= p + |w| && s == w[..i - p]
      decreases p + |w| - i
    {
      HeldChar(buf[..], p, w, i - p);
      s := s + [buf[i]];
      i := i + 1;
    }
    if i < p + |w| {
      HeldChar(buf[..], p, w, i - p);
    }
  }

  method HeadersAt(buf: array<char>, at: seq<HeaderAt>, ghost hs: seq<Header>) returns (r: seq<Header>)
    requires HeadersHold(buf[..], at, hs)
    ensures r == hs
  {
    hide Holds;
    r := [];
    for i := 0 to |at|
      invariant r == hs[..i]
    {
      var field := StringAt(buf, at[i].field, hs[i].field);
      var value := StringAt(buf, at[i].value, hs[i].value);
      r := r + [Header(field, value)];
    }
  }

  method MessageAt(buf: array<char>, at: MsgAt, ghost m: Msg) returns (r: Msg)
    requires MsgHolds(buf[..], at, m)
    ensures r == m
  {
    hide Holds, HeadersHold;
    var token1 := StringAt(buf, at.token1, m.token1);
    var token2 := StringAt(buf, at.token2, m.token2);
    var token3 := StringAt(buf, at.token3, m.token3);
    var headers := HeadersAt(buf, at.headers, m.headers);
    var body := StringAt(buf, at.body, m.body);
    r := Msg(token1, token2, token3, headers, body);
  }

  // ----- From server to client

  /** The server builds a snapshot and prints it into a buffer. */
  method SendState(g: Game, was: StatePayload, date: string, buf: array<char>) returns (ghost msg: Msg)
    requires EngineInvariant.Inv(g) && InMachineRange(g) && |was.preview| == 3 && was.nextType < U32
    requires |date| < 30 && NUL !in date && buf.Length == MAX_BUF
    modifies buf
    ensures |g.bag| == 14 && msg == StateMessage(g, was.nextType, date) && Holds(buf[..], 0, Print(msg))
  {
    hide EngineInvariant.Inv, InMachineRange, Print, Htttp.Request, EncodeState, Holds, HeadStops, NulFree, BuildState;
    InvBag(g);
    var snapshot := BuildStatePayload(g, was);
    assert |snapshot.preview| == 3 by { ThreePreviews(g, was.nextType); }
    var body := EncodeStateText(snapshot);
    var request := Htttp.CreateRequest(Htttp.State, g.playerId, STATE_TYPE, date, body);
    msg := request;
    StateMessageNulFree(g, was.nextType, date);
    StateFits(g, was.nextType, date);
    ShortHeadStops(request);
    var _ := ConvertToHypertext(request, buf);
  }

  lemma ThreePreviews(g: Game, nextType: nat)
    requires |g.bag| == 14
    ensures |BuildState(g, nextType).preview| == 3
  {
  }

  /** The client cuts the buffer up, reads the parts and draws. */
  method ReceiveState(buf: array<char>, was: Picture, junk: StatePayload, ghost text: string) returns (v: Picture)
    requires Holds(buf[..], 0, text) && |was.bag| == 14 && |junk.preview| == 3
    modifies buf
    ensures v == StateSync.Receive(text, was, junk)
  {
    hide Holds, Parse, MsgHolds, Htttp.Extract, DecodeState, ApplyState;
    v := was;
    var at := ParseHypertext(buf, text);
    if at.Done? {
      var msg := MessageAt(buf, at.value, Parse(text).value);
      var info := Htttp.ExtractInfo(msg);
      if info.code == Htttp.State {
        var p := DecodeStateText(info.body, junk);
        if p.Some? && p.value.playerId == was.playerId {
          v := ApplyStatePayload(p.value, was);
        }
      }
    }
  }

  /** Through the buffer, for every board satisfying the invariant and whatever the two unwritten payloads hold: the
      client that owns it draws exactly it, and any other client keeps its picture. */
  method DeliverState(g: Game, sent: StatePayload, got: StatePayload, date: string, was: Picture, buf: array<char>)
    returns (v: Picture)
    requires EngineInvariant.Inv(g) && InMachineRange(g) && |sent.preview| == 3 && sent.nextType < U32
    requires |date| < 30 && NUL !in date && buf.Length == MAX_BUF && |was.bag| == 14 && |got.preview| == 3
    modifies buf
    ensures |g.bag| == 14 && if was.playerId == g.playerId then Draws(v, g) else v == was
  {
    hide EngineInvariant.Inv, InMachineRange, Print, StateMessage, Holds, Draws, StateSync.Receive;
    ghost var msg := SendState(g, sent, date, buf);
    v := ReceiveState(buf, was, got, Print(msg));
    StateArrives(g, sent.nextType, date, was, got);
  }
}
