/** Message bodies: attacks, rosters, inputs and board states as text. */
module Payloads {
  import opened Formats
  import opened Basics
  import opened Wrappers
  import HyperText

  // ----- Formats given by their literal parts

  function Lit(s: string): (f: Format)
    ensures |f| == |s| && forall i :: 0 <= i < |s| ==> f[i] == Ch(s[i])
  {
    seq(|s|, i requires 0 <= i < |s| => Ch(s[i]))
  }

  /** The parts with a number between each two. */
  function FormatOf(parts: seq<string>): Format
    requires parts != []
  {
    if |parts| == 1 then Lit(parts[0]) else Lit(parts[0]) + [Num] + FormatOf(parts[1..])
  }

  /** Only the last part may be empty, and no part after a number starts with a digit. */
  predicate Apart(parts: seq<string>) {
    && (forall i :: 1 <= i < |parts| - 1 ==> parts[i] != "")
    && (forall i :: 1 <= i < |parts| && parts[i] != "" ==> !IsDigit(parts[i][0]))
  }

  lemma {:induction false} LitNums(s: string)
    ensures Nums(Lit(s)) == 0
  {
    if s != "" {
      LitNums(s[1..]);
      assert Lit(s)[1..] == Lit(s[1..]);
    }
  }

  lemma {:induction false} NumsSplit(f: Format, g: Format)
    ensures Nums(f + g) == Nums(f) + Nums(g)
  {
    if f == [] {
      assert f + g == g;
    } else {
      NumsSplit(f[1..], g);
      assert (f + g)[1..] == f[1..] + g;
    }
  }

  lemma {:induction false} FormatNums(parts: seq<string>)
    requires parts != []
    ensures Nums(FormatOf(parts)) == |parts| - 1
  {
    hide Lit, Nums;
    LitNums(parts[0]);
    if |parts| > 1 {
      FormatNums(parts[1..]);
      NumsSplit(Lit(parts[0]), [Num]);
      NumsSplit(Lit(parts[0]) + [Num], FormatOf(parts[1..]));
      OneNum();
    }
  }

  lemma OneNum()
    ensures Nums([Num]) == 1
  {
    assert [Num][1..] == [];
  }

  lemma {:induction false} FormatSeparated(parts: seq<string>)
    requires parts != [] && Apart(parts)
    ensures Separated(FormatOf(parts))
  {
    hide IsDigit;
    if |parts| > 1 {
      var rest := FormatOf(parts[1..]);
      TailApart(parts);
      FormatSeparated(parts[1..]);
      FirstOfFormat(parts[1..]);
      var f, n := FormatOf(parts), |parts[0]|;
      forall i | 0 <= i < |f| && f[i].Num? && i + 1 < |f| ensures f[i + 1].Ch? && !IsDigit(f[i + 1].c) {
        if i == n {
          assert f[i + 1] == rest[0];
        } else {
          assert f[i] == rest[i - n - 1] && f[i + 1] == rest[i - n];
        }
      }
    }
  }

  lemma TailApart(parts: seq<string>)
    requires |parts| > 1 && Apart(parts)
    ensures Apart(parts[1..]) && (parts[1] != "" ==> !IsDigit(parts[1][0])) && (|parts| > 2 ==> parts[1] != "")
  {
    var rest := parts[1..];
    assert forall i :: 0 <= i < |rest| ==> rest[i] == parts[i + 1];
  }

  lemma FirstOfFormat(parts: seq<string>)
    requires parts != []
    ensures parts[0] != "" ==> FormatOf(parts) != [] && FormatOf(parts)[0] == Ch(parts[0][0])
    ensures parts[0] == "" && |parts| == 1 ==> FormatOf(parts) == []
  {
  }

  /** Reading by such a format undoes printing by it. */
  lemma PartsBack(parts: seq<string>, vals: seq<int>)
    requires parts != [] && Apart(parts) && |vals| == |parts| - 1
    ensures Nums(FormatOf(parts)) == |vals| && Scanf(FormatOf(parts), Printf(FormatOf(parts), vals)) == vals
  {
    hide FormatOf, Scanf, Apart;
    FormatNums(parts);
    FormatSeparated(parts);
    ScanfUndoesPrintf(FormatOf(parts), vals);
  }

  /** Literal text is printed as it is. */
  lemma {:induction false} PrintsLiteral(lit: string, f: Format, vals: seq<int>)
    requires |vals| == Nums(f)
    ensures Nums(Lit(lit) + f) == |vals| && Printf(Lit(lit) + f, vals) == lit + Printf(f, vals)
  {
    hide IntText;
    var g := Lit(lit) + f;
    if lit == "" {
      assert g == f && lit + Printf(f, vals) == Printf(f, vals);
    } else {
      PrintsLiteral(lit[1..], f, vals);
      assert g[0] == Ch(lit[0]) && g[1..] == Lit(lit[1..]) + f;
      assert [lit[0]] + (lit[1..] + Printf(f, vals)) == lit + Printf(f, vals);
    }
  }

  /** The parts, with the numbers in decimal between them. */
  function Interleaved(parts: seq<string>, vals: seq<int>): string
    requires |parts| == |vals| + 1
  {
    if vals == [] then parts[0] else parts[0] + IntText(vals[0]) + Interleaved(parts[1..], vals[1..])
  }

  lemma {:induction false} PrintsParts(parts: seq<string>, vals: seq<int>)
    requires |parts| == |vals| + 1
    ensures Nums(FormatOf(parts)) == |vals| && Printf(FormatOf(parts), vals) == Interleaved(parts, vals)
  {
    hide Lit, IntText;
    FormatNums(parts);
    if vals == [] {
      assert Lit(parts[0]) + [] == Lit(parts[0]);
      PrintsLiteral(parts[0], [], []);
    } else {
      var rest := FormatOf(parts[1..]);
      PrintsParts(parts[1..], vals[1..]);
      assert ([Num] + rest)[1..] == rest;
      PrintsLiteral(parts[0], [Num] + rest, vals);
      assert Lit(parts[0]) + [Num] + rest == Lit(parts[0]) + ([Num] + rest);
    }
  }

  // ----- Attack and input

  datatype AttackPayload = AttackPayload(source: nat, target: nat, lines: nat)

  function AttackParts(): seq<string> {
    ["{source-player: ", ", target-player: ", ", lines: ", "}"]
  }

  function EncodeAttack(p: AttackPayload): string {
    FormatNums(AttackParts());
    Printf(FormatOf(AttackParts()), [p.source, p.target, p.lines])
  }

  /** The fields read before any mismatch; the others keep what they held. */
  function DecodeAttack(s: string, was: AttackPayload): AttackPayload {
    var v := Scanf(FormatOf(AttackParts()), s);
    AttackPayload(if |v| > 0 then v[0] % U32 else was.source,
                  if |v| > 1 then v[1] % U32 else was.target,
                  if |v| > 2 then v[2] % U32 else was.lines)
  }

  lemma AttackRoundTrip(p: AttackPayload, was: AttackPayload)
    requires p.source < U32 && p.target < U32 && p.lines < U32
    ensures DecodeAttack(EncodeAttack(p), was) == p
  {
    hide FormatOf, Printf, Scanf;
    PartsBack(AttackParts(), [p.source, p.target, p.lines]);
  }

  /** The text of an attack. */
  lemma AttackText(p: AttackPayload)
    ensures EncodeAttack(p) ==
      "{source-player: " + Dec(p.source) + ", target-player: " + Dec(p.target) + ", lines: " + Dec(p.lines) + "}"
  {
    hide Dec, FormatOf, Printf;
    var parts, vals := AttackParts(), [p.source, p.target, p.lines];
    PrintsParts(parts, vals);
    assert parts[1..][1..] == [", lines: ", "}"] && [", lines: ", "}"][1..] == ["}"];
    assert vals[1..][1..] == [p.lines as int] && [p.lines as int][1..] == [];
    assert Interleaved(parts[1..][1..], [p.lines]) == ", lines: " + Dec(p.lines) + "}";
  }

  function InputParts(): seq<string> {
    ["{action-id: ", "}"]
  }

  function EncodeInput(action: nat): string {
    FormatNums(InputParts());
    Printf(FormatOf(InputParts()), [action])
  }

  function DecodeInput(s: string, was: nat): nat {
    var v := Scanf(FormatOf(InputParts()), s);
    if |v| > 0 then v[0] % U32 else was
  }

  lemma InputRoundTrip(action: nat, was: nat)
    requires action < U32
    ensures DecodeInput(EncodeInput(action), was) == action
  {
    hide FormatOf, Printf, Scanf;
    PartsBack(InputParts(), [action]);
  }

  /** The text of an input. */
  lemma InputText(action: nat)
    ensures EncodeInput(action) == "{action-id: " + Dec(action) + "}"
  {
    hide Dec, FormatOf, Printf;
    PrintsParts(InputParts(), [action]);
    assert InputParts()[1..] == ["}"] && [action as int][1..] == [];
  }

  // ----- Roster

  const IDS := "ids: ["

  function EncodeIds(ids: seq<nat>): string {
    if ids == [] then "" else EncodeIds(ids[..|ids| - 1]) + (Dec(ids[|ids| - 1]) + " ")
  }

  function EncodeRoster(ids: seq<nat>): string {
    "{count: " + Dec(|ids|) + ", " + IDS + EncodeIds(ids) + "]}"
  }

  /** Built piece by piece, as the server does. */
  method EncodeRosterText(ids: seq<nat>) returns (buffer: string)
    ensures buffer == EncodeRoster(ids)
  {
    hide Dec;
    var head := "{count: " + Dec(|ids|) + ", " + IDS;
    buffer := head;
    for i := 0 to |ids|
      invariant buffer == head + EncodeIds(ids[..i])
    {
      assert ids[..i + 1][..i] == ids[..i];
      buffer := buffer + (Dec(ids[i]) + " ");
    }
    assert ids[..|ids|] == ids;
    buffer := buffer + "]}";
  }

  /** Reads `n` ids, each followed by a space. */
  function DecodeIds(s: string, n: nat): Option<seq<nat>> {
    if n == 0 then Some([])
    else
      var q := HyperText.Index(s, " ");
      match ScanInt(s)
      case Fail => None
      case Read(v, _) =>
        if q == -1 then None
        else
          match DecodeIds(s[q + 1..], n - 1)
          case None => None
          case Some(more) => Some([v % U32] + more)
  }

  function DecodeRoster(s: string): Option<seq<nat>> {
    var v := Scanf(CountFormat(), s);
    var q := HyperText.Index(s, IDS);
    if |v| == 0 || q == -1 then None else DecodeIds(s[q + |IDS|..], v[0] % U32)
  }

  lemma {:induction false} IdsFromFront(ids: seq<nat>)
    requires ids != []
    ensures EncodeIds(ids) == Dec(ids[0]) + " " + EncodeIds(ids[1..])
  {
    hide Dec;
    var n := |ids| - 1;
    if n == 0 {
      assert ids[..0] == [] && ids[1..] == [];
    } else {
      IdsFromFront(ids[..n]);
      assert ids[..n][1..] == ids[1..][..n - 1] && ids[1..][n - 1] == ids[n];
      assert EncodeIds(ids) == Dec(ids[0]) + " " + EncodeIds(ids[1..][..n - 1]) + (Dec(ids[n]) + " ");
    }
  }

  lemma {:induction false} IdsBack(ids: seq<nat>, tail: string)
    requires forall i :: 0 <= i < |ids| ==> ids[i] < U32
    ensures DecodeIds(EncodeIds(ids) + tail, |ids|) == Some(ids)
  {
    hide Dec, ScanInt, EncodeIds, HyperText.Index, IntText;
    if ids != [] {
      var rest := EncodeIds(ids[1..]) + tail;
      var s := EncodeIds(ids) + tail;
      IdsFromFront(ids);
      assert s == Dec(ids[0]) + (" " + rest);
      IntIsDec(ids[0]);
      ScanBack(ids[0], " " + rest);
      SpaceAfter(ids[0], rest);
      assert s[|Dec(ids[0])| + 1..] == rest;
      IdsBack(ids[1..], tail);
      assert [ids[0]] + ids[1..] == ids;
    }
  }

  lemma IntIsDec(n: nat)
    ensures IntText(n) == Dec(n)
  {
  }

  lemma SpaceAfter(n: nat, rest: string)
    ensures HyperText.Index(Dec(n) + (" " + rest), " ") == |Dec(n)|
  {
    hide Dec;
    var d := Dec(n);
    var t := d + (" " + rest);
    DecDigits(n);
    assert t[|d|..|d| + 1] == " ";
    forall i | 0 <= i < |d| ensures !HyperText.OccursAt(t, " ", i) {
      assert IsDigit(d[i]) && " "[0] == ' ';
      assert t[i..i + |" "|][0] == d[i];
    }
    HyperText.IndexIsFirst(t, " ", |d|);
  }

  lemma IdsPosition(n: nat, rest: string)
    ensures HyperText.Index("{count: " + Dec(n) + ", " + IDS + rest, IDS) == 10 + |Dec(n)|
  {
    hide Dec;
    var d := Dec(n);
    DecDigits(n);
    var a := "{count: " + d + ", ";
    var t := a + IDS + rest;
    assert |a| == 10 + |d| && t[|a|..|a| + |IDS|] == IDS;
    forall i | 0 <= i < |a| ensures !HyperText.OccursAt(t, IDS, i) {
      NoIBefore(d, i);
      assert i + |IDS| <= |t| ==> t[i..i + |IDS|][0] == a[i];
    }
    HyperText.IndexIsFirst(t, IDS, |a|);
  }

  lemma NoIBefore(d: string, i: nat)
    requires AllDigits(d) && i < 10 + |d|
    ensures ("{count: " + d + ", ")[i] != 'i'
  {
    if i < 8 {
      assert ("{count: " + d + ", ")[i] == "{count: "[i];
    } else if i < 8 + |d| {
      assert ("{count: " + d + ", ")[i] == d[i - 8];
    } else {
      assert ("{count: " + d + ", ")[i] == ", "[i - 8 - |d|];
    }
  }

  function CountFormat(): Format {
    FormatOf(["{count: ", ", ids: ["])
  }

  lemma CountFormatShape()
    ensures CountFormat() == Lit("{count:") + ([Ch(' ')] + ([Num] + Lit(", ids: [")))
  {
    assert ["{count: ", ", ids: ["][1..] == [", ids: ["];
    assert Lit("{count: ") == Lit("{count:") + [Ch(' ')];
  }

  lemma CountBack(n: nat, rest: string)
    ensures |Scanf(CountFormat(), "{count: " + Dec(n) + ", " + IDS + rest)| > 0
    ensures Scanf(CountFormat(), "{count: " + Dec(n) + ", " + IDS + rest)[0] == n
  {
    hide Dec, IntText, ScanInt, IsSpace, Lit, CountFormat;
    var tail := ", " + IDS + rest;
    var g := [Num] + Lit(", ids: [");
    CountFormatShape();
    assert "{count: " + Dec(n) + ", " + IDS + rest == "{count:" + (" " + (Dec(n) + tail));
    IntIsDec(n);
    ScanBack(n, tail);
    NumberFirst(n, tail);
    CountLiteral();
    LiteralMatches("{count:", [Ch(' ')] + g, " " + (Dec(n) + tail));
    SpaceThenNumber(g, n, tail);
  }

  lemma CountLiteral()
    ensures forall i :: 0 <= i < 7 ==> !IsSpace("{count:"[i])
  {
  }

  lemma NumberFirst(n: nat, tail: string)
    ensures SkipSpace(Dec(n) + tail) == Dec(n) + tail
  {
    hide Dec;
    DecFirst(n);
    assert (Dec(n) + tail)[0] == Dec(n)[0];
    NoSpaceFirst(Dec(n) + tail);
  }

  lemma SpaceThenNumber(g: Format, n: nat, tail: string)
    requires SkipSpace(Dec(n) + tail) == Dec(n) + tail
    ensures Scanf([Ch(' ')] + g, " " + (Dec(n) + tail)) == Scanf(g, Dec(n) + tail)
  {
    hide Dec, ScanInt;
    assert ([Ch(' ')] + g)[1..] == g;
    var s := " " + (Dec(n) + tail);
    assert s[0] == ' ' && s[1..] == Dec(n) + tail;
    assert SkipSpace(s) == SkipSpace(Dec(n) + tail);
  }

  /** A literal without white space is matched character by character. */
  lemma {:induction false} LiteralMatches(lit: string, f: Format, s: string)
    requires forall i :: 0 <= i < |lit| ==> !IsSpace(lit[i])
    ensures Scanf(Lit(lit) + f, lit + s) == Scanf(f, s)
  {
    hide IsSpace, ScanInt;
    if lit == "" {
      assert Lit(lit) + f == f && lit + s == s;
    } else {
      LiteralMatches(lit[1..], f, s);
      assert (Lit(lit) + f)[1..] == Lit(lit[1..]) + f;
      assert (lit + s)[1..] == lit[1..] + s;
    }
  }

  /** Every roster that fits its count field is read back. */
  lemma RosterRoundTrip(ids: seq<nat>)
    requires |ids| < U32 && forall i :: 0 <= i < |ids| ==> ids[i] < U32
    ensures DecodeRoster(EncodeRoster(ids)) == Some(ids)
  {
    hide Dec, Scanf, CountFormat, DecodeIds, EncodeIds;
    var rest := EncodeIds(ids) + "]}";
    var s := EncodeRoster(ids);
    assert s == "{count: " + Dec(|ids|) + ", " + IDS + rest;
    CountBack(|ids|, rest);
    IdsPosition(|ids|, rest);
    assert s[10 + |Dec(|ids|)| + |IDS|..] == rest;
    IdsBack(ids, "]}");
  }
}
