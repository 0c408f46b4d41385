/** Decimal numbers and the formatted input and output the payloads are built from. */
module Formats {

  // ----- Decimal numbers

  function Digit(d: nat): (c: char)
    requires d < 10
  {
    "0123456789"[d]
  }

  predicate IsDigit(c: char) {
    '0' <= c <= '9'
  }

  function DigitValue(c: char): (d: nat)
    requires IsDigit(c)
    ensures d < 10
  {
    c as int - '0' as int
  }

  function Dec(n: nat): (s: string)
    ensures |s| > 0
  {
    if n < 10 then [Digit(n)] else Dec(n / 10) + [Digit(n % 10)]
  }

  /** Signed decimal. */
  function IntText(v: int): string {
    if v < 0 then "-" + Dec(-v) else Dec(v)
  }

  predicate AllDigits(s: string) {
    forall i :: 0 <= i < |s| ==> IsDigit(s[i])
  }

  function Value(s: string): nat
    requires AllDigits(s)
  {
    if s == "" then 0 else 10 * Value(s[..|s| - 1]) + DigitValue(s[|s| - 1])
  }

  lemma DigitBack(d: nat)
    requires d < 10
    ensures IsDigit(Digit(d)) && DigitValue(Digit(d)) == d
  {
  }

  lemma {:induction false} DecDigits(n: nat)
    ensures AllDigits(Dec(n)) && Value(Dec(n)) == n
  {
    hide Digit, IsDigit;
    DigitBack(n % 10);
    if n < 10 {
      assert Dec(n)[..0] == "" && Value("") == 0;
      assert Dec(n) == [Digit(n)];
    } else {
      DecDigits(n / 10);
      var s := Dec(n / 10);
      assert Dec(n) == s + [Digit(n % 10)];
      assert (s + [Digit(n % 10)])[..|s|] == s;
    }
  }

  function Pow10(k: nat): nat {
    if k == 0 then 1 else 10 * Pow10(k - 1)
  }

  lemma {:induction false} DecLength(n: nat, k: nat)
    requires k >= 1 && n < Pow10(k)
    ensures |Dec(n)| <= k
    decreases k
  {
    if n >= 10 {
      assert Pow10(1) == 10;
      DecLength(n / 10, k - 1);
    }
  }

  // ----- Reading numbers

  predicate IsSpace(c: char) {
    c == ' ' || c == '\t' || c == '\n' || c == '\r' || c as int == 11 || c as int == 12
  }

  function SkipSpace(s: string): string {
    if s != "" && IsSpace(s[0]) then SkipSpace(s[1..]) else s
  }

  /** Number of leading digits. */
  function Leading(s: string): (n: nat)
    ensures n <= |s| && AllDigits(s[..n]) && (n < |s| ==> !IsDigit(s[n]))
  {
    if s != "" && IsDigit(s[0]) then
      var n := Leading(s[1..]);
      assert s[..n + 1] == [s[0]] + s[1..][..n];
      n + 1
    else 0
  }

  datatype Scan = Fail | Read(value: int, rest: string)

  /** A number after optional white space and an optional sign. */
  function ScanInt(s: string): Scan {
    var t := SkipSpace(s);
    var negative := t != "" && t[0] == '-';
    var u := if t != "" && (t[0] == '-' || t[0] == '+') then t[1..] else t;
    var n := Leading(u);
    var value: int := Value(u[..n]);
    if n == 0 then Fail else Read(if negative then -value else value, u[n..])
  }

  /** The text does not go on with a digit. */
  predicate Ends(s: string) {
    s == "" || !IsDigit(s[0])
  }

  lemma {:induction false} LeadingOf(s: string, rest: string)
    requires AllDigits(s) && Ends(rest)
    ensures Leading(s + rest) == |s|
  {
    hide IsDigit;
    if s == "" {
      assert s + rest == rest;
    } else {
      LeadingOf(s[1..], rest);
      assert (s + rest)[1..] == s[1..] + rest;
    }
  }

  lemma DecFirst(n: nat)
    ensures IsDigit(Dec(n)[0])
  {
    DecDigits(n);
  }

  lemma NoSpaceFirst(s: string)
    requires s != "" && (IsDigit(s[0]) || s[0] == '-')
    ensures SkipSpace(s) == s
  {
  }

  /** Reading undoes printing, for every number, when no digit follows. */
  lemma ScanBack(v: int, rest: string)
    requires Ends(rest)
    ensures ScanInt(IntText(v) + rest) == Read(v, rest)
  {
    hide Dec, Leading, Value, AllDigits, SkipSpace, Digit;
    var n: nat := if v < 0 then -v else v;
    var digits := Dec(n);
    DecDigits(n);
    DecFirst(n);
    LeadingOf(digits, rest);
    var u := digits + rest;
    assert u[..|digits|] == digits && u[|digits|..] == rest;
    var s := IntText(v) + rest;
    if v < 0 {
      assert s == "-" + u && s[0] == '-' && s[1..] == u;
    } else {
      assert s == u && s[0] == digits[0];
    }
    NoSpaceFirst(s);
  }

  // ----- Formats

  /** One element of a format: a character to print or match, or a number. */
  datatype Directive = Ch(c: char) | Num

  type Format = seq<Directive>

  function Nums(f: Format): nat {
    if f == [] then 0 else (if f[0].Num? then 1 else 0) + Nums(f[1..])
  }

  function Printf(f: Format, vals: seq<int>): string
    requires |vals| == Nums(f)
  {
    if f == [] then ""
    else if f[0].Num? then IntText(vals[0]) + Printf(f[1..], vals[1..])
    else [f[0].c] + Printf(f[1..], vals)
  }

  /** The numbers read before the first mismatch. White space in the format matches any amount of it. */
  function Scanf(f: Format, s: string): seq<int>
    decreases f
  {
    if f == [] then []
    else if f[0].Num? then
      match ScanInt(s)
      case Fail => []
      case Read(v, rest) => [v] + Scanf(f[1..], rest)
    else if IsSpace(f[0].c) then Scanf(f[1..], SkipSpace(s))
    else if s != "" && s[0] == f[0].c then Scanf(f[1..], s[1..])
    else []
  }

  /** Every number is followed by something that is not a digit. */
  predicate Separated(f: Format) {
    forall i :: 0 <= i < |f| && f[i].Num? && i + 1 < |f| ==> f[i + 1].Ch? && !IsDigit(f[i + 1].c)
  }

  lemma SeparatedTail(f: Format)
    requires Separated(f) && f != []
    ensures Separated(f[1..])
  {
    var g := f[1..];
    forall i | 0 <= i < |g| && g[i].Num? && i + 1 < |g| ensures g[i + 1].Ch? && !IsDigit(g[i + 1].c) {
      assert g[i] == f[i + 1] && g[i + 1] == f[i + 2];
    }
  }

  lemma PrintfEnds(f: Format, vals: seq<int>)
    requires |vals| == Nums(f) && Separated(f) && f != [] && f[0].Num?
    ensures Ends(Printf(f[1..], vals[1..]))
  {
    hide IntText, IsDigit;
    if |f| > 1 {
      assert f[1..][0] == f[1];
    }
  }

  lemma {:induction false} SkipOne(s: string)
    ensures SkipSpace(SkipSpace(s)) == SkipSpace(s)
  {
    hide IsSpace;
    if s != "" && IsSpace(s[0]) {
      SkipOne(s[1..]);
    }
  }

  lemma ScanIntSkips(s: string)
    ensures ScanInt(SkipSpace(s)) == ScanInt(s)
  {
    hide Leading, Value;
    SkipOne(s);
  }

  /** Skipping white space first changes nothing for what is about to be read. */
  lemma {:induction false} ScanfSkips(f: Format, vals: seq<int>)
    requires |vals| == Nums(f)
    ensures Scanf(f, SkipSpace(Printf(f, vals))) == Scanf(f, Printf(f, vals))
  {
    hide ScanInt, IntText, IsSpace;
    var s := Printf(f, vals);
    if f != [] {
      if f[0].Num? {
        ScanIntSkips(s);
      } else if IsSpace(f[0].c) {
        SkipOne(s);
      }
    }
  }

  /** Reading by a format undoes printing by it: for every format whose numbers are separated and all values. */
  lemma {:induction false} ScanfUndoesPrintf(f: Format, vals: seq<int>)
    requires |vals| == Nums(f) && Separated(f)
    ensures Scanf(f, Printf(f, vals)) == vals
  {
    hide ScanInt, IntText, IsSpace, Separated, Ends;
    if f != [] {
      SeparatedTail(f);
      if f[0].Num? {
        PrintfEnds(f, vals);
        ScanBack(vals[0], Printf(f[1..], vals[1..]));
        ScanfUndoesPrintf(f[1..], vals[1..]);
      } else {
        var more := Printf(f[1..], vals);
        ScanfUndoesPrintf(f[1..], vals);
        assert ([f[0].c] + more)[1..] == more;
        if IsSpace(f[0].c) {
          ScanfSkips(f[1..], vals);
        }
      }
    }
  }
}
