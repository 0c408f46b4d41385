/** The text form of HTTTP messages: a printer, a parser, and when the parser undoes the printer. */
module HyperText {
  import opened Wrappers

  const MAX_BUF := 2048
  const MAX_HEADERS := 16
  const CRLF := "\r\n"
  const BLANK := "\r\n\r\n"
  const TOKEN_SEP := " "
  const HEADER_SEP := ": "

  datatype Header = Header(field: string, value: string)

  datatype Msg = Msg(token1: string, token2: string, token3: string, headers: seq<Header>, body: string)

  // ----- Finding text

  predicate OccursAt(t: string, d: string, p: int) {
    0 <= p && p + |d| <= |t| && t[p..p + |d|] == d
  }

  /** Position of the first occurrence of d in t at or after p, or -1. */
  function IndexFrom(t: string, d: string, p: nat): (q: int)
    requires p <= |t|
    ensures q == -1 || (p <= q && OccursAt(t, d, q))
    ensures forall i :: p <= i && (q == -1 || i < q) ==> !OccursAt(t, d, i)
    decreases |t| - p
  {
    if OccursAt(t, d, p) then p
    else if p == |t| then -1
    else IndexFrom(t, d, p + 1)
  }

  function Index(t: string, d: string): (q: int)
    ensures q == -1 || (0 <= q && OccursAt(t, d, q))
    ensures forall i :: 0 <= i && (q == -1 || i < q) ==> !OccursAt(t, d, i)
  {
    IndexFrom(t, d, 0)
  }

  ghost predicate FirstAt(t: string, d: string, q: int) {
    OccursAt(t, d, q) && forall i :: 0 <= i < q ==> !OccursAt(t, d, i)
  }

  lemma IndexIsFirst(t: string, d: string, q: int)
    requires FirstAt(t, d, q)
    ensures Index(t, d) == q
  {
  }

  datatype Cut = Cut(left: string, right: string)

  /** Text before and after the first occurrence of d. */
  function Split(t: string, d: string): Option<Cut> {
    var q := Index(t, d);
    if q == -1 then None else Some(Cut(t[..q], t[q + |d|..]))
  }

  // ----- Printing

  function PrintHeader(h: Header): string {
    h.field + HEADER_SEP + h.value + CRLF
  }

  function PrintHeaders(hs: seq<Header>): string {
    if hs == [] then "" else PrintHeader(hs[0]) + PrintHeaders(hs[1..])
  }

  function RequestLine(m: Msg): string {
    m.token1 + TOKEN_SEP + m.token2 + TOKEN_SEP + m.token3 + CRLF
  }

  function Print(m: Msg): string {
    RequestLine(m) + PrintHeaders(m.headers) + CRLF + m.body
  }

  /** What adding a header checks. */
  predicate LegalHeader(h: Header) {
    && '\r' !in h.field && '\n' !in h.field && ':' !in h.field
    && '\r' !in h.value && '\n' !in h.value
  }

  predicate LegalHeaders(hs: seq<Header>) {
    forall i :: 0 <= i < |hs| ==> LegalHeader(hs[i])
  }

  /** A header with a forbidden character is refused; nothing checks that there is a place left for one more. */
  function AddHeader(m: Msg, h: Header): Outcome<Msg> {
    if !LegalHeader(h) then Rejected
    else if |m.headers| >= MAX_HEADERS then Overran
    else Done(m.(headers := m.headers + [h]))
  }

  /** The headers that pass the check, in order. */
  function Accepted(hs: seq<Header>): seq<Header> {
    if hs == [] then [] else Accepted(hs[..|hs| - 1]) + (if LegalHeader(hs[|hs| - 1]) then [hs[|hs| - 1]] else [])
  }

  /** Headers added one after another; a refused one is simply not there. */
  function AddAll(m: Msg, hs: seq<Header>): Outcome<Msg> {
    if hs == [] then Done(m)
    else
      match AddAll(m, hs[..|hs| - 1])
      case Rejected => Rejected
      case Overran => Overran
      case Done(n) => var r := AddHeader(n, hs[|hs| - 1]); if r.Rejected? then Done(n) else r
  }

  /** Whatever headers are added to a message in whatever order: the header array is overrun if and only if more headers
      pass the check than there are places left, and otherwise the message ends up with exactly those that pass. */
  lemma {:induction false} BuilderOverruns(m: Msg, hs: seq<Header>)
    requires |m.headers| <= MAX_HEADERS
    ensures AddAll(m, hs) ==
      if |m.headers| + |Accepted(hs)| > MAX_HEADERS then Overran else Done(m.(headers := m.headers + Accepted(hs)))
  {
    hide LegalHeader;
    if hs == [] {
      assert m.headers + [] == m.headers;
    } else {
      var front := hs[..|hs| - 1];
      BuilderOverruns(m, front);
      assert Accepted(front) + [] == Accepted(front);
      assert (m.headers + Accepted(front)) + [hs[|hs| - 1]] == m.headers + (Accepted(front) + [hs[|hs| - 1]]);
    }
  }

  lemma {:induction false} AcceptedAreLegal(hs: seq<Header>)
    ensures LegalHeaders(Accepted(hs)) && |Accepted(hs)| <= |hs|
  {
    hide LegalHeader;
    if hs != [] {
      AcceptedAreLegal(hs[..|hs| - 1]);
    }
  }

  lemma {:induction false} PrintedAppend(hs: seq<Header>, h: Header)
    ensures PrintHeaders(hs + [h]) == PrintHeaders(hs) + PrintHeader(h)
  {
    hide PrintHeader;
    if hs == [] {
      assert hs + [h] == [h] && [h][1..] == [];
      assert PrintHeaders([h]) == PrintHeader(h) + PrintHeaders([]);
    } else {
      assert (hs + [h])[1..] == hs[1..] + [h];
      PrintedAppend(hs[1..], h);
    }
  }

  // ----- Parsing

  /** Lines that end before position `end` of t, seen from the start of t. */
  function CountLines(t: string, end: int): (n: nat)
    decreases |t|
  {
    if end <= 0 then 0
    else
      var q := Index(t, CRLF);
      if q == -1 then 0 else 1 + CountLines(t[q + 2..], end - (q + 2))
  }

  /** Number of header lines before the first blank line; none if there is no blank line. */
  function CountHeaders(t: string): nat {
    CountLines(t, Index(t, BLANK))
  }

  datatype Headers = Headers(headers: seq<Header>, rest: string)

  function ParseHeaders(t: string, n: nat): Option<Headers> {
    if n == 0 then Some(Headers([], t))
    else
      match Split(t, HEADER_SEP)
      case None => None
      case Some(f) =>
        match Split(f.right, CRLF)
        case None => None
        case Some(v) =>
          match ParseHeaders(v.right, n - 1)
          case None => None
          case Some(more) => Some(Headers([Header(f.left, v.left)] + more.headers, more.rest))
  }

  function ParseRest(t: string, t1: string, t2: string, t3: string): Option<Msg> {
    match ParseHeaders(t, CountHeaders(t))
    case None => None
    case Some(hs) =>
      match Split(hs.rest, CRLF)
      case None => None
      case Some(b) => Some(Msg(t1, t2, t3, hs.headers, b.right))
  }

  /** The message a text spells, however many headers it has. */
  function Spelled(t: string): Option<Msg> {
    match Split(t, TOKEN_SEP)
    case None => None
    case Some(a) =>
      match Split(a.right, TOKEN_SEP)
      case None => None
      case Some(b) =>
        match Split(b.right, CRLF)
        case None => None
        case Some(c) => ParseRest(c.right, a.left, b.left, c.left)
  }

  /** What follows the request line, if there is one. */
  function AfterLine(t: string): Option<string> {
    match Split(t, TOKEN_SEP)
    case None => None
    case Some(a) =>
      match Split(a.right, TOKEN_SEP)
      case None => None
      case Some(b) =>
        match Split(b.right, CRLF)
        case None => None
        case Some(c) => Some(c.right)
  }

  /** More header lines are counted than there are places, and enough of them can be read to fill one place too many. */
  predicate TooManyHeaders(t: string) {
    CountHeaders(t) > MAX_HEADERS && ParseHeaders(t, MAX_HEADERS + 1).Some?
  }

  predicate Overruns(t: string) {
    AfterLine(t).Some? && TooManyHeaders(AfterLine(t).value)
  }

  function Parse(t: string): Outcome<Msg> {
    if Overruns(t) then Overran
    else
      match Spelled(t)
      case None => Rejected
      case Some(m) => Done(m)
  }

  // ----- Splitting what was glued

  predicate Contains(t: string, d: string) {
    Index(t, d) != -1
  }

  /** Gluing with a one-character separator and splitting again gives the left part back exactly when it
      is free of it. */
  lemma SplitChar(a: string, c: char, b: string)
    ensures c !in a ==> Split(a + [c] + b, [c]) == Some(Cut(a, b))
    ensures Split(a + [c] + b, [c]).Some? && Split(a + [c] + b, [c]).value.left == a ==> c !in a
  {
    var t := a + [c] + b;
    assert t[..|a|] == a && t[|a| + 1..] == b && t[|a|..|a| + 1] == [c];
    assert OccursAt(t, [c], |a|);
    if c !in a {
      forall i | 0 <= i < |a| ensures !OccursAt(t, [c], i) {
        assert t[i..i + 1][0] == a[i];
      }
      IndexIsFirst(t, [c], |a|);
    } else {
      var i :| 0 <= i < |a| && a[i] == c;
      assert t[i..i + 1] == [c];
      assert OccursAt(t, [c], i);
    }
  }

  /** The same for a line end: the left part comes back exactly when it contains no line end. */
  lemma SplitLine(a: string, b: string)
    ensures !Contains(a, CRLF) ==> Split(a + CRLF + b, CRLF) == Some(Cut(a, b))
    ensures Split(a + CRLF + b, CRLF).Some? && Split(a + CRLF + b, CRLF).value.left == a ==> !Contains(a, CRLF)
  {
    var t := a + CRLF + b;
    assert t[..|a|] == a && t[|a| + 2..] == b && t[|a|..|a| + 2] == CRLF;
    assert OccursAt(t, CRLF, |a|);
    LineInside(a, b);
    if !Contains(a, CRLF) {
      IndexIsFirst(t, CRLF, |a|);
    } else {
      var i := Index(a, CRLF);
      assert OccursAt(t, CRLF, i);
    }
  }

  lemma LineInside(a: string, b: string)
    ensures forall i :: 0 <= i < |a| ==> (OccursAt(a + CRLF + b, CRLF, i) <==> OccursAt(a, CRLF, i))
  {
    var t := a + CRLF + b;
    forall i | 0 <= i < |a| ensures OccursAt(t, CRLF, i) <==> OccursAt(a, CRLF, i) {
      assert t[i..i + 2] == [t[i], t[i + 1]];
      if i + 2 <= |a| {
        assert a[i..i + 2] == t[i..i + 2];
      } else {
        assert t[i + 1] == '\r';
      }
    }
  }

  lemma NoReturnNoLine(a: string)
    requires '\r' !in a
    ensures !Contains(a, CRLF)
  {
    forall i | 0 <= i && i + 2 <= |a| ensures !OccursAt(a, CRLF, i) {
      assert a[i..i + 2][0] == a[i];
    }
  }

  /** A header line splits into its field and value again. */
  lemma SplitField(h: Header, rest: string)
    requires ':' !in h.field
    ensures Split(h.field + HEADER_SEP + rest, HEADER_SEP) == Some(Cut(h.field, rest))
  {
    var t := h.field + HEADER_SEP + rest;
    var n := |h.field|;
    assert t[..n] == h.field && t[n + 2..] == rest && t[n..n + 2] == HEADER_SEP;
    assert OccursAt(t, HEADER_SEP, |h.field|);
    forall i | 0 <= i < |h.field| ensures !OccursAt(t, HEADER_SEP, i) {
      assert i + 2 <= |t| ==> t[i..i + 2][0] == h.field[i];
    }
    IndexIsFirst(t, HEADER_SEP, |h.field|);
  }

  // ----- Counting the headers

  lemma StartsPlain(hs: seq<Header>, body: string)
    requires hs != [] && LegalHeaders(hs)
    ensures (PrintHeaders(hs) + CRLF + body)[0] != '\r'
  {
    hide PrintHeader;
    LineShape(hs[0]);
    assert (PrintHeaders(hs) + CRLF + body)[0] == PrintHeader(hs[0])[0];
  }

  /** No header line is empty, so the first blank line is the one after the last header. */
  lemma {:induction false} BlankAfterHeaders(hs: seq<Header>, body: string)
    requires hs != [] && LegalHeaders(hs)
    ensures FirstAt(PrintHeaders(hs) + CRLF + body, BLANK, |PrintHeaders(hs)| - 2)
  {
    hide PrintHeader, FirstAt, LegalHeader;
    var line := PrintHeader(hs[0]);
    var more := PrintHeaders(hs[1..]) + CRLF + body;
    LineShape(hs[0]);
    assert PrintHeaders(hs) + CRLF + body == line + more;
    if |hs| == 1 {
      assert hs[1..] == [] && PrintHeaders([]) == "";
      assert more == CRLF + body;
      LastLine(line, body);
    } else {
      BlankAfterHeaders(hs[1..], body);
      StartsPlain(hs[1..], body);
      NextLine(line, more, |PrintHeaders(hs[1..])| - 2);
    }
  }

  /** A printed header: at least a separator, then the line end, and no other carriage return. */
  ghost predicate IsLine(line: string) {
    |line| >= 4 && line[|line| - 2] == '\r' && line[|line| - 1] == '\n' && forall i ::
      0 <= i < |line| && i != |line| - 2 ==> line[i] != '\r'
  }

  lemma LineShape(h: Header)
    requires LegalHeader(h)
    ensures IsLine(PrintHeader(h)) && PrintHeader(h)[0] != '\r'
  {
    var line := PrintHeader(h);
    var n, k := |line|, |h.field|;
    assert line[n - 2] == '\r' && line[n - 1] == '\n';
    forall i | 0 <= i < n - 2 ensures line[i] != '\r' {
      if i < k {
        assert line[i] == h.field[i];
      } else if i < k + 2 {
        assert line[i] == HEADER_SEP[i - k];
      } else {
        assert line[i] == h.value[i - k - 2];
      }
    }
  }

  lemma BlankChars(t: string, p: int)
    ensures OccursAt(t, BLANK, p) <==>
      0 <= p && p + 4 <= |t| && t[p] == '\r' && t[p + 1] == '\n' && t[p + 2] == '\r' && t[p + 3] == '\n'
  {
    if 0 <= p && p + 4 <= |t| {
      assert t[p..p + 4] == [t[p], t[p + 1], t[p + 2], t[p + 3]];
    }
  }

  lemma LastLine(line: string, body: string)
    requires IsLine(line)
    ensures FirstAt(line + (CRLF + body), BLANK, |line| - 2)
  {
    var t := line + (CRLF + body);
    assert t[|line|] == '\r' && t[|line| + 1] == '\n';
    BlankChars(t, |line| - 2);
    forall i | 0 <= i < |line| - 2 ensures !OccursAt(t, BLANK, i) {
      BlankChars(t, i);
      assert t[i] == line[i];
    }
  }

  lemma NextLine(line: string, more: string, q: int)
    requires IsLine(line) && FirstAt(more, BLANK, q) && more != "" && more[0] != '\r'
    ensures FirstAt(line + more, BLANK, |line| + q)
  {
    var t := line + more;
    BlankChars(more, q);
    BlankChars(t, |line| + q);
    forall i | 0 <= i < |line| + q ensures !OccursAt(t, BLANK, i) {
      BlankChars(t, i);
      if i < |line| {
        if i == |line| - 2 {
          assert t[i + 2] == more[0];
        } else {
          assert t[i] == line[i];
        }
      } else {
        BlankChars(more, i - |line|);
      }
    }
  }

  lemma SplitPrintedLine(h: Header, more: string)
    requires LegalHeader(h)
    ensures Index(PrintHeader(h) + more, CRLF) == |PrintHeader(h)| - 2
  {
    hide IndexFrom;
    var line := PrintHeader(h);
    var n := |line| - 2;
    var t := line + more;
    LineShape(h);
    assert t[n..n + 2] == CRLF;
    forall i | 0 <= i < n ensures !OccursAt(t, CRLF, i) {
      assert i + 2 <= |t| ==> t[i..i + 2][0] == line[i];
    }
    IndexIsFirst(t, CRLF, n);
  }

  lemma {:induction false} CountPrinted(hs: seq<Header>, body: string)
    requires LegalHeaders(hs)
    ensures CountLines(PrintHeaders(hs) + CRLF + body, |PrintHeaders(hs)| - 2) == |hs|
  {
    hide Index, PrintHeader;
    if hs != [] {
      var line := PrintHeader(hs[0]);
      var more := PrintHeaders(hs[1..]) + CRLF + body;
      var t := PrintHeaders(hs) + CRLF + body;
      assert t == line + more;
      LineShape(hs[0]);
      SplitPrintedLine(hs[0], more);
      assert t[|line|..] == more;
      CountPrinted(hs[1..], body);
    }
  }

  lemma CountsHeaders(hs: seq<Header>, body: string)
    requires hs != [] && LegalHeaders(hs)
    ensures CountHeaders(PrintHeaders(hs) + CRLF + body) == |hs|
  {
    hide CountLines, Index, PrintHeaders;
    BlankAfterHeaders(hs, body);
    IndexIsFirst(PrintHeaders(hs) + CRLF + body, BLANK, |PrintHeaders(hs)| - 2);
    CountPrinted(hs, body);
  }

  lemma {:induction false} ParsesHeaders(hs: seq<Header>, tail: string)
    requires LegalHeaders(hs)
    ensures ParseHeaders(PrintHeaders(hs) + tail, |hs|) == Some(Headers(hs, tail))
  {
    hide Split;
    if hs == [] {
      assert PrintHeaders(hs) + tail == tail;
    } else {
      var h := hs[0];
      var more := PrintHeaders(hs[1..]) + tail;
      assert PrintHeaders(hs) + tail == h.field + HEADER_SEP + (h.value + CRLF + more);
      SplitField(h, h.value + CRLF + more);
      NoReturnNoLine(h.value);
      SplitLine(h.value, more);
      ParsesHeaders(hs[1..], tail);
      assert hs == [h] + hs[1..];
    }
  }

  // ----- The parser undoes the printer

  /** Read after the line end that precedes it, the body shows no blank line, or shows one right at its start. */
  predicate PlainBody(body: string) {
    Index(CRLF + body, BLANK) <= 0
  }

  /** What a caller can check before printing. */
  predicate Printable(m: Msg) {
    && ' ' !in m.token1 && ' ' !in m.token2 && !Contains(m.token3, CRLF)
    && (m.headers == [] ==> PlainBody(m.body))
  }

  lemma BodyReturns(body: string)
    ensures Split(CRLF + body, CRLF) == Some(Cut("", body))
  {
    hide Index;
    var t := CRLF + body;
    assert t[0..2] == CRLF && t[..0] == "" && t[2..] == body;
    IndexIsFirst(t, CRLF, 0);
  }

  /** Everything after the request line comes back, provided a message without headers has a plain body. */
  lemma RestReturns(m: Msg)
    requires LegalHeaders(m.headers)
    ensures var t := PrintHeaders(m.headers) + CRLF + m.body;
            ParseRest(t, m.token1, m.token2, m.token3) == Some(m) <==> m.headers != [] || PlainBody(m.body)
  {
    hide Split, ParseHeaders, CountLines, Index, PrintHeaders;
    var hs := m.headers;
    var t := PrintHeaders(hs) + CRLF + m.body;
    assert t == PrintHeaders(hs) + (CRLF + m.body);
    if hs != [] {
      CountsHeaders(hs, m.body);
      ParsesHeaders(hs, CRLF + m.body);
      BodyReturns(m.body);
    } else {
      assert PrintHeaders(hs) == "" by { NoHeaders(); }
      assert t == CRLF + m.body;
      BareReturns(m);
    }
  }

  lemma NoHeaders()
    ensures PrintHeaders([]) == ""
  {
  }

  lemma {:induction false} ParsedCount(t: string, n: nat)
    ensures ParseHeaders(t, n).Some? ==> |ParseHeaders(t, n).value.headers| == n
    decreases n
  {
    hide Split;
    if n > 0 && Split(t, HEADER_SEP).Some? {
      var f := Split(t, HEADER_SEP).value;
      if Split(f.right, CRLF).Some? {
        ParsedCount(Split(f.right, CRLF).value.right, n - 1);
      }
    }
  }

  lemma BareReturns(m: Msg)
    requires m.headers == []
    ensures ParseRest(CRLF + m.body, m.token1, m.token2, m.token3) == Some(m) <==> PlainBody(m.body)
  {
    hide Split, Index, CountLines;
    var t := CRLF + m.body;
    BareCount(m.body);
    if PlainBody(m.body) {
      BodyReturns(m.body);
    } else {
      ParsedCount(t, CountHeaders(t));
    }
  }

  lemma BareCount(body: string)
    ensures CountHeaders(CRLF + body) == 0 <==> PlainBody(body)
  {
    hide IndexFrom;
    var t := CRLF + body;
    assert t[0..2] == CRLF;
    IndexIsFirst(t, CRLF, 0);
  }

  lemma SplitsToken(a: string, b: string)
    ensures ' ' !in a ==> Split(a + TOKEN_SEP + b, TOKEN_SEP) == Some(Cut(a, b))
    ensures Split(a + TOKEN_SEP + b, TOKEN_SEP).Some? && Split(a + TOKEN_SEP + b, TOKEN_SEP).value.left == a ==>
      ' ' !in a
  {
    hide Split;
    SplitChar(a, ' ', b);
  }

  lemma {:induction false} FewerHeaders(t: string, n: nat, k: nat)
    requires k <= n && ParseHeaders(t, n).Some?
    ensures ParseHeaders(t, k).Some?
    decreases n
  {
    hide Split;
    if k > 0 {
      FewerHeaders(Split(Split(t, HEADER_SEP).value.right, CRLF).value.right, n - 1, k - 1);
    }
  }

  /** Reading a text that spells a message overruns the header array exactly when the message has more headers than
      places. */
  lemma OverrunsIff(t: string, m: Msg)
    requires Spelled(t) == Some(m)
    ensures Overruns(t) <==> |m.headers| > MAX_HEADERS
  {
    hide Split, CountHeaders, ParseHeaders;
    var rest := AfterLine(t).value;
    var n := CountHeaders(rest);
    ParsedCount(rest, n);
    if n > MAX_HEADERS {
      FewerHeaders(rest, n, MAX_HEADERS + 1);
    }
  }

  /** For every message whose headers passed the header check: parsing the printed text gives the message back if and
      only if its first two tokens are free of spaces, its third of line ends, it has a header or a plain body, and it
      has no more headers than the parser has places for. Bodies of messages with headers are arbitrary, blank lines
      included. */
  lemma ParserUndoesPrinter(m: Msg)
    requires LegalHeaders(m.headers)
    ensures Parse(Print(m)) == Done(m) <==> Printable(m) && |m.headers| <= MAX_HEADERS
  {
    hide Spelled, Overruns, Print, Printable;
    SpelledBack(m);
    if Spelled(Print(m)) == Some(m) {
      OverrunsIff(Print(m), m);
    }
  }

  lemma SpelledBack(m: Msg)
    requires LegalHeaders(m.headers)
    ensures Spelled(Print(m)) == Some(m) <==> Printable(m)
  {
    hide Split, ParseRest, PrintHeaders, Contains, PlainBody;
    var r3 := PrintHeaders(m.headers) + CRLF + m.body;
    var r2 := m.token3 + CRLF + r3;
    var r1 := m.token2 + TOKEN_SEP + r2;
    assert Print(m) == m.token1 + TOKEN_SEP + r1;
    SplitsToken(m.token1, r1);
    SplitsToken(m.token2, r2);
    SplitLine(m.token3, r3);
    RestReturns(m);
    if Spelled(Print(m)) == Some(m) {
      ParsedTokens(Print(m), m);
    }
  }

  /** Each token of a parsed message is what stood before its separator. */
  lemma ParsedTokens(t: string, m: Msg)
    requires Spelled(t) == Some(m)
    ensures Split(t, TOKEN_SEP).Some? && Split(t, TOKEN_SEP).value.left == m.token1
    ensures var a := Split(t, TOKEN_SEP).value;
            && Split(a.right, TOKEN_SEP).Some? && Split(a.right, TOKEN_SEP).value.left == m.token2
            && var b := Split(a.right, TOKEN_SEP).value;
               && Split(b.right, CRLF).Some? && Split(b.right, CRLF).value.left == m.token3
               && ParseRest(Split(b.right, CRLF).value.right, m.token1, m.token2, m.token3) == Some(m)
  {
    hide Split, CountHeaders, ParseHeaders;
  }

  /** Every message that is printable but has more headers than places makes the parser of its text leave its array. */
  lemma ManyHeadersOverrun(m: Msg)
    requires LegalHeaders(m.headers) && Printable(m) && |m.headers| > MAX_HEADERS
    ensures Parse(Print(m)) == Overran
  {
    hide Spelled, Overruns, Print, Printable;
    SpelledBack(m);
    OverrunsIff(Print(m), m);
  }

  /** The same small header n times. */
  function Repeated(n: nat): (hs: seq<Header>)
    ensures |hs| == n && forall i :: 0 <= i < n ==> hs[i] == Header("a", "b")
  {
    seq(n, _ => Header("a", "b"))
  }

  lemma {:induction false} RepeatedAccepted(n: nat)
    ensures Accepted(Repeated(n)) == Repeated(n)
  {
    if n > 0 {
      assert Repeated(n)[..n - 1] == Repeated(n - 1);
      RepeatedAccepted(n - 1);
    }
  }

  /** Seventeen headers, each accepted by the check: the builder leaves its array on them, and so does the parser on
      their printed text. */
  lemma SeventeenHeaders()
    ensures var m := Msg("A", "B", "C", Repeated(MAX_HEADERS + 1), "");
            && LegalHeaders(m.headers) && Parse(Print(m)) == Overran
            && AddAll(Msg("A", "B", "C", [], ""), m.headers) == Overran
  {
    hide Parse, Print, AddAll, Accepted, Repeated, Contains;
    var m := Msg("A", "B", "C", Repeated(MAX_HEADERS + 1), "");
    NoReturnNoLine("C");
    ManyHeadersOverrun(m);
    RepeatedAccepted(MAX_HEADERS + 1);
    BuilderOverruns(Msg("A", "B", "C", [], ""), m.headers);
  }

  /** n lines without a separator, then a blank line. */
  function BadLines(n: nat): string {
    if n == 0 then CRLF else "xx\r\n" + BadLines(n - 1)
  }

  lemma {:induction false} BadLinesEnd(n: nat)
    requires n > 0
    ensures FirstAt(BadLines(n), BLANK, 4 * n - 2) && BadLines(n)[0] == 'x'
  {
    hide FirstAt;
    var line := "xx\r\n";
    if n == 1 {
      assert BadLines(0) == CRLF + "";
      LastLine(line, "");
    } else {
      BadLinesEnd(n - 1);
      NextLine(line, BadLines(n - 1), 4 * (n - 1) - 2);
    }
  }

  lemma {:induction false} BadLinesCount(n: nat)
    ensures CountLines(BadLines(n), 4 * n - 2) == n
  {
    hide Index;
    if n > 0 {
      BadLine(BadLines(n - 1));
      BadLinesCount(n - 1);
    }
  }

  lemma BadLine(more: string)
    ensures var t := "xx\r\n" + more; Index(t, CRLF) == 2 && t[4..] == more
  {
    hide IndexFrom;
    var t := "xx\r\n" + more;
    assert t[2..4] == CRLF && t[0..2][0] == 'x' && t[1..3][0] == 'x';
    IndexIsFirst(t, CRLF, 2);
  }

  lemma {:induction false} NoSeparator(n: nat)
    ensures forall i :: 0 <= i < |BadLines(n)| ==> BadLines(n)[i] != ':'
  {
    if n > 0 {
      NoSeparator(n - 1);
    }
  }

  /** Counting more header lines than there are places is not enough to overrun them: lines that cannot be read as
      headers are rejected before one is stored. */
  lemma CountAloneDoesNotOverrun()
    ensures var t := "A B C\r\n" + BadLines(MAX_HEADERS + 1);
            && AfterLine(t) == Some(BadLines(MAX_HEADERS + 1))
            && CountHeaders(AfterLine(t).value) > MAX_HEADERS && !Overruns(t)
  {
    hide Index, CountLines, BadLines, FirstAt;
    var n := MAX_HEADERS + 1;
    var rest := BadLines(n);
    BadLinesEnd(n);
    IndexIsFirst(rest, BLANK, 4 * n - 2);
    BadLinesCount(n);
    NoSeparator(n);
    NothingToSplit(rest);
    LineOf(rest);
  }

  lemma NothingToSplit(t: string)
    requires ':' !in t
    ensures Split(t, HEADER_SEP) == None
  {
    hide IndexFrom;
    forall i | 0 <= i && i + 2 <= |t| ensures !OccursAt(t, HEADER_SEP, i) {
      assert t[i..i + 2][0] == t[i];
    }
  }

  lemma LineOf(rest: string)
    ensures AfterLine("A B C\r\n" + rest) == Some(rest)
  {
    hide Split;
    assert "A B C\r\n" + rest == "A" + TOKEN_SEP + ("B" + TOKEN_SEP + ("C" + CRLF + rest));
    SplitsToken("A", "B" + TOKEN_SEP + ("C" + CRLF + rest));
    SplitsToken("B", "C" + CRLF + rest);
    NoReturnNoLine("C");
    SplitLine("C", rest);
  }

  /** A message without headers need not come back: a blank line in its body is taken for the end of headers. */
  lemma BareBodyLost()
    ensures var m := Msg("GET", "/", "1", [], "x\r\n\r\n"); LegalHeaders(m.headers) && Parse(Print(m)) != Done(m)
  {
    hide Parse, Print, Contains;
    var m := Msg("GET", "/", "1", [], "x\r\n\r\n");
    var t := CRLF + m.body;
    assert t[3..7] == BLANK && t[0..4][2] == 'x';
    assert OccursAt(t, BLANK, 3) && !OccursAt(t, BLANK, 0);
    ParserUndoesPrinter(m);
  }
}
