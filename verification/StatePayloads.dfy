/** A board snapshot as text: two hundred cells, then twenty-three numbers. */
module StatePayloads {
  import opened Basics
  import opened Formats
  import opened Payloads
  import opened Wrappers

  const I31 := 0x8000_0000

  datatype StatePayload = StatePayload(
    board: seq<seq<int>>,
    currentType: nat, currentRot: nat, currentX: int, currentY: int, nextType: nat,
    preview: seq<nat>,
    heldType: int, hasHeld: nat,
    playerId: nat, score: nat, level: nat, linesCleared: nat, combo: int, b2b: nat, tSpins: nat, tetrises: nat,
      pendingGarbage: nat,
    targetPlayerId: nat, targetMode: nat, gameOver: nat, winnerId: nat)

  predicate IsU32(v: int) {
    0 <= v < U32
  }

  predicate IsI32(v: int) {
    -I31 <= v < I31
  }

  ghost predicate BoardShape(b: seq<seq<int>>) {
    |b| == 20 && forall y :: 0 <= y < 20 ==> |b[y]| == 10 && forall x :: 0 <= x < 10 ==> 0 <= b[y][x] < 256
  }

  /** The ranges of the struct's field types. */
  ghost predicate InRange(p: StatePayload) {
    && BoardShape(p.board) && |p.preview| == 3
    && IsU32(p.currentType) && IsU32(p.currentRot) && IsI32(p.currentX) && IsI32(p.currentY) && IsU32(p.nextType)
    && IsU32(p.preview[0]) && IsU32(p.preview[1]) && IsU32(p.preview[2])
    && IsI32(p.heldType) && IsU32(p.hasHeld)
    && IsU32(p.playerId) && IsU32(p.score) && IsU32(p.level) && IsU32(p.linesCleared) && IsI32(p.combo)
    && IsU32(p.b2b) && IsU32(p.tSpins) && IsU32(p.tetrises) && IsU32(p.pendingGarbage)
    && IsU32(p.targetPlayerId) && IsU32(p.targetMode) && IsU32(p.gameOver) && IsU32(p.winnerId)
  }

  /** The numbers in the order they are written. */
  function Fields(p: StatePayload): (v: seq<int>)
    requires |p.preview| == 3
    ensures |v| == 23
  {
    [p.currentType, p.currentRot, p.currentX, p.currentY, p.nextType, p.preview[0], p.preview[1], p.preview[2],
     p.heldType, p.hasHeld, p.playerId, p.score, p.level, p.linesCleared, p.combo, p.b2b, p.tSpins, p.tetrises,
       p.pendingGarbage,
     p.targetPlayerId, p.targetMode, p.gameOver, p.winnerId]
  }

  function Signed(v: int): int {
    (v + I31) % U32 - I31
  }

  function Unsigned(v: int): nat {
    v % U32
  }

  /** Field k as an unsigned number, or what it held if it could not be read. */
  function Nat(v: seq<int>, k: nat, held: nat): nat {
    if k < |v| then Unsigned(v[k]) else held
  }

  function Int(v: seq<int>, k: nat, held: int): int {
    if k < |v| then Signed(v[k]) else held
  }

  /** The payload with the fields that were read put in. */
  function FromFields(board: seq<seq<int>>, v: seq<int>, was: StatePayload): (p: StatePayload)
    requires |was.preview| == 3
    ensures |p.preview| == 3
  {
    StatePayload(
      board,
      Nat(v, 0, was.currentType), Nat(v, 1, was.currentRot), Int(v, 2, was.currentX), Int(v, 3, was.currentY),
        Nat(v, 4, was.nextType),
      [Nat(v, 5, was.preview[0]), Nat(v, 6, was.preview[1]), Nat(v, 7, was.preview[2])],
      Int(v, 8, was.heldType), Nat(v, 9, was.hasHeld),
      Nat(v, 10, was.playerId), Nat(v, 11, was.score), Nat(v, 12, was.level), Nat(v, 13, was.linesCleared),
        Int(v, 14, was.combo),
      Nat(v, 15, was.b2b), Nat(v, 16, was.tSpins), Nat(v, 17, was.tetrises), Nat(v, 18, was.pendingGarbage),
      Nat(v, 19, was.targetPlayerId), Nat(v, 20, was.targetMode), Nat(v, 21, was.gameOver), Nat(v, 22, was.winnerId))
  }

  // ----- The cells

  function CellChar(c: int): char {
    (('0' as int + c) % 256) as char
  }

  function CharCell(c: char): nat {
    (c as int - '0' as int) % 256
  }

  function RowText(row: seq<int>): (s: string)
    ensures |s| == |row| && forall x :: 0 <= x < |row| ==> s[x] == CellChar(row[x])
  {
    seq(|row|, x requires 0 <= x < |row| => CellChar(row[x]))
  }

  function BoardText(b: seq<seq<int>>): string {
    if b == [] then "" else RowText(b[0]) + BoardText(b[1..])
  }

  function TextRow(s: string): (row: seq<int>)
    ensures |row| == |s| && forall x :: 0 <= x < |s| ==> row[x] == CharCell(s[x])
  {
    seq(|s|, x requires 0 <= x < |s| => CharCell(s[x]))
  }

  /** Rows of ten cells. */
  function TextBoard(s: string, rows: nat): seq<seq<int>>
    requires |s| >= 10 * rows
  {
    if rows == 0 then [] else [TextRow(s[..10])] + TextBoard(s[10..], rows - 1)
  }

  ghost predicate TenWide(b: seq<seq<int>>) {
    forall y :: 0 <= y < |b| ==> |b[y]| == 10 && forall x :: 0 <= x < 10 ==> 0 <= b[y][x] < 256
  }

  lemma CellBack(c: int)
    requires 0 <= c < 256
    ensures CharCell(CellChar(c)) == c
  {
  }

  lemma RowBack(row: seq<int>)
    requires forall x :: 0 <= x < |row| ==> 0 <= row[x] < 256
    ensures TextRow(RowText(row)) == row
  {
    hide CellChar, CharCell;
    forall x | 0 <= x < |row| ensures CharCell(CellChar(row[x])) == row[x] {
      CellBack(row[x]);
    }
  }

  lemma TenWideTail(b: seq<seq<int>>)
    requires TenWide(b) && b != []
    ensures TenWide(b[1..]) && TextRow(RowText(b[0])) == b[0] && |b[0]| == 10
  {
    hide RowText, TextRow;
    RowBack(b[0]);
  }

  lemma NoRows(rest: string)
    ensures BoardText([]) == "" && TextBoard("" + rest, 0) == []
  {
  }

  lemma {:induction false} BoardLength(b: seq<seq<int>>)
    requires TenWide(b)
    ensures |BoardText(b)| == 10 * |b|
  {
    hide TenWide, TextRow;
    if b != [] {
      TenWideTail(b);
      BoardLength(b[1..]);
    }
  }

  lemma RowThenBoard(row: string, more: string, n: nat)
    requires |row| == 10 && |more| >= 10 * n
    ensures TextBoard(row + more, n + 1) == [TextRow(row)] + TextBoard(more, n)
  {
    hide TextRow;
    assert (row + more)[..10] == row && (row + more)[10..] == more;
  }

  lemma {:induction false} BoardBack(b: seq<seq<int>>, rest: string)
    requires TenWide(b)
    ensures |BoardText(b)| == 10 * |b| && TextBoard(BoardText(b) + rest, |b|) == b
  {
    hide RowText, TextRow, TenWide, TextBoard;
    BoardLength(b);
    if b == [] {
      NoRows(rest);
    } else {
      var row, more := RowText(b[0]), BoardText(b[1..]) + rest;
      TenWideTail(b);
      BoardBack(b[1..], rest);
      assert BoardText(b) + rest == row + more;
      RowThenBoard(row, more, |b| - 1);
    }
  }

  // ----- The numbers

  /** The literal parts of the format: a comma before each of the n numbers. */
  function Commas(n: nat): (parts: seq<string>)
    ensures |parts| == n + 1 && parts[n] == "" && forall i :: 0 <= i < n ==> parts[i] == ","
  {
    seq(n, _ => ",") + [""]
  }

  function StateFormat(): Format {
    FormatOf(Commas(23))
  }

  lemma StateNums()
    ensures Nums(StateFormat()) == 23
  {
    hide FormatOf, Commas, Nums;
    FormatNums(Commas(23));
  }

  lemma CommasApart(n: nat)
    ensures Apart(Commas(n))
  {
    assert ","[0] == ',';
  }

  lemma {:induction false} FormatLength(n: nat)
    ensures |FormatOf(Commas(n))| == 2 * n
  {
    if n > 0 {
      assert Commas(n)[1..] == Commas(n - 1);
      FormatLength(n - 1);
    }
  }

  lemma NumberLength(v: int)
    requires IsU32(v) || IsI32(v)
    ensures |IntText(v)| <= 11
  {
    hide Dec;
    PowerTen();
    DecLength(if v < 0 then -v else v, 10);
  }

  lemma PowerTen()
    ensures Pow10(10) == 10_000_000_000
  {
    assert Pow10(3) == 1000;
    assert Pow10(6) == 1_000_000;
    assert Pow10(9) == 1_000_000_000;
  }

  lemma {:induction false} PrintfLength(f: Format, vals: seq<int>)
    requires |vals| == Nums(f) && forall i :: 0 <= i < |vals| ==> IsU32(vals[i]) || IsI32(vals[i])
    ensures |Printf(f, vals)| <= 11 * |f|
  {
    hide IntText, IsU32, IsI32;
    if f != [] {
      if f[0].Num? {
        NumberLength(vals[0]);
        PrintfLength(f[1..], vals[1..]);
      } else {
        PrintfLength(f[1..], vals);
      }
    }
  }

  // ----- The whole payload

  function EncodeState(p: StatePayload): string
    requires |p.preview| == 3
  {
    StateNums();
    BoardText(p.board) + Printf(StateFormat(), Fields(p))
  }

  /** The numbers read before any mismatch replace what the fields held. Nothing is read off a text that lacks cells. */
  function DecodeState(s: string, was: StatePayload): (r: Option<StatePayload>)
    requires |was.preview| == 3
    ensures r.Some? ==> |r.value.preview| == 3
  {
    if |s| < 200 then None
    else
      var v := Scanf(StateFormat(), s[200..]);
      Some(FromFields(TextBoard(s, 20), v, was))
  }

  lemma RangesBack()
    ensures forall v | IsU32(v) :: Unsigned(v) == v
    ensures forall v | IsI32(v) :: Signed(v) == v
  {
  }

  lemma FieldsBack(p: StatePayload, was: StatePayload)
    requires InRange(p) && |was.preview| == 3
    ensures FromFields(p.board, Fields(p), was) == p
  {
    hide Unsigned, Signed, IsU32, IsI32, BoardShape;
    RangesBack();
    assert [p.preview[0], p.preview[1], p.preview[2]] == p.preview;
  }

  lemma TextSplits(b: seq<seq<int>>, tail: string)
    requires BoardShape(b)
    ensures var s := BoardText(b) + tail; |s| >= 200 && s[200..] == tail && TextBoard(s, 20) == b
  {
    hide BoardText, TextBoard;
    BoardBack(b, tail);
  }

  /** Reading a snapshot undoes writing it, for every payload its field types can hold. */
  lemma StateRoundTrip(p: StatePayload, was: StatePayload)
    requires InRange(p) && |was.preview| == 3
    ensures DecodeState(EncodeState(p), was) == Some(p)
  {
    hide FromFields, Fields, StateFormat, Printf, Scanf, BoardText, TextBoard, IsU32, IsI32, Commas, BoardShape;
    FieldsBack(p, was);
    TailBack(Fields(p));
    StateNums();
    TextSplits(p.board, Printf(StateFormat(), Fields(p)));
  }

  lemma TailBack(vals: seq<int>)
    requires |vals| == 23
    ensures Nums(StateFormat()) == 23 && Scanf(StateFormat(), Printf(StateFormat(), vals)) == vals
  {
    hide Commas, FormatOf, Scanf, Printf;
    CommasApart(23);
    PartsBack(Commas(23), vals);
  }

  lemma FieldRanges(p: StatePayload)
    requires InRange(p)
    ensures forall i :: 0 <= i < 23 ==> IsU32(Fields(p)[i]) || IsI32(Fields(p)[i])
  {
    hide IsU32, IsI32, BoardShape;
  }

  /** A snapshot's text stays far below a message's size. */
  lemma StateLength(p: StatePayload)
    requires InRange(p)
    ensures |EncodeState(p)| <= 706
  {
    hide Fields, Printf, BoardText, FormatOf, Commas, IsU32, IsI32;
    StateNums();
    FieldRanges(p);
    FormatLength(23);
    PrintfLength(StateFormat(), Fields(p));
    BoardBack(p.board, "");
  }

  lemma BoardFrom(b: seq<seq<int>>, row: nat)
    requires row < |b|
    ensures BoardText(b[row..]) == RowText(b[row]) + BoardText(b[row + 1..])
  {
    hide RowText;
    assert b[row..][1..] == b[row + 1..];
  }

  method EncodeRow(row: seq<int>) returns (s: string)
    ensures s == RowText(row)
  {
    s := "";
    for col := 0 to |row|
      invariant s == RowText(row)[..col]
    {
      s := s + [CellChar(row[col])];
    }
  }

  /** Row by row, then the numbers, as the server writes it. */
  method EncodeStateText(p: StatePayload) returns (buffer: string)
    requires |p.preview| == 3
    ensures buffer == EncodeState(p)
  {
    hide RowText, Printf, Fields, StateFormat, Nums, BoardText;
    buffer := "";
    assert p.board[0..] == p.board;
    for row := 0 to |p.board|
      invariant buffer + BoardText(p.board[row..]) == BoardText(p.board)
    {
      BoardFrom(p.board, row);
      var cells := EncodeRow(p.board[row]);
      assert buffer + (cells + BoardText(p.board[row + 1..])) == (buffer + cells) + BoardText(p.board[row + 1..]);
      buffer := buffer + cells;
    }
    assert p.board[|p.board|..] == [];
    NoRows(buffer);
    assert buffer + "" == buffer;
    StateNums();
    buffer := buffer + Printf(StateFormat(), Fields(p));
  }

  method DecodeRow(buffer: string, from: nat) returns (cells: seq<int>)
    requires from + 10 <= |buffer|
    ensures cells == TextRow(buffer[from..from + 10])
  {
    hide CharCell;
    cells := [];
    for col := 0 to 10
      invariant |cells| == col && forall x :: 0 <= x < col ==> cells[x] == CharCell(buffer[from + x])
    {
      cells := cells + [CharCell(buffer[from + col])];
    }
  }

  lemma BoardRest(buffer: string, row: nat)
    requires row < 20 && |buffer| >= 200
    ensures TextBoard(buffer[10 * row..], 20 - row) == [TextRow(buffer[10 * row..10 * row + 10])] +
      TextBoard(buffer[10 * (row + 1)..], 19 - row)
  {
    hide TextRow;
    var rest := buffer[10 * row..];
    assert rest[..10] == buffer[10 * row..10 * row + 10] && rest[10..] == buffer[10 * (row + 1)..];
  }

  method DecodeBoard(buffer: string) returns (board: seq<seq<int>>)
    requires |buffer| >= 200
    ensures board == TextBoard(buffer, 20)
  {
    hide TextRow, TextBoard;
    board := [];
    assert buffer[0..] == buffer && [] + TextBoard(buffer, 20) == TextBoard(buffer, 20);
    for row := 0 to 20
      invariant board + TextBoard(buffer[10 * row..], 20 - row) == TextBoard(buffer, 20)
    {
      var cells := DecodeRow(buffer, 10 * row);
      BoardRest(buffer, row);
      ghost var more := TextBoard(buffer[10 * (row + 1)..], 19 - row);
      assert board + ([cells] + more) == (board + [cells]) + more;
      board := board + [cells];
    }
    NoRows(buffer[200..]);
    assert "" + buffer[200..] == buffer[200..] && board + [] == board;
  }

  /** Row by row, then the numbers, as the client reads it. */
  method DecodeStateText(buffer: string, was: StatePayload) returns (p: Option<StatePayload>)
    requires |was.preview| == 3
    ensures p == DecodeState(buffer, was)
  {
    hide TextBoard, Scanf, FromFields, StateFormat;
    if |buffer| < 200 {
      return None;
    }
    var board := DecodeBoard(buffer);
    var v := Scanf(StateFormat(), buffer[200..]);
    p := Some(FromFields(board, v, was));
  }
}
