/** The same codec on a character buffer: the parser cuts the text in place by writing NULs over separators and returns
    positions into it, the printer fills it piece by piece and stops at its end. */
module HyperTextBuffers {
  import opened Wrappers
  import opened HyperText

  const NUL := '\0'

  /** The buffer holds the NUL-terminated string w at position p. */
  ghost predicate Holds(b: seq<char>, p: int, w: string) {
    0 <= p && p + |w| < |b| && b[p..p + |w|] == w && b[p + |w|] == NUL && NUL !in w
  }

  /** Equal up to position e. */
  ghost predicate SameBelow(b: seq<char>, b': seq<char>, e: int) {
    |b| == |b'| && forall i :: 0 <= i < |b| && i < e ==> b[i] == b'[i]
  }

  lemma StillHolds(b: seq<char>, b': seq<char>, e: int, p: int, w: string)
    requires SameBelow(b, b', e) && Holds(b, p, w) && p + |w| < e
    ensures Holds(b', p, w)
  {
  }

  lemma HeldChar(b: seq<char>, p: int, w: string, i: int)
    requires Holds(b, p, w) && 0 <= i < |w|
    ensures b[p + i] == w[i] && b[p + i] != NUL
  {
    assert b[p..p + |w|][i] == w[i];
  }

  // ----- Searching

  /** Whether the separator stands at position i; a NUL stops the comparison. */
  method Matches(buf: array<char>, i: nat, d: string, ghost s: nat, ghost t: string) returns (yes: bool)
    requires Holds(buf[..], s, t) && s <= i <= s + |t| && NUL !in d
    ensures yes <==> OccursAt(t, d, i - s)
  {
    var k := 0;
    while k < |d|
      invariant 0 <= k <= |d| && i + k <= s + |t| && forall j :: 0 <= j < k ==> t[i - s + j] == d[j]
    {
      if i + k < s + |t| {
        HeldChar(buf[..], s, t, i - s + k);
      }
      if buf[i + k] != d[k] {
        return false;
      }
      k := k + 1;
    }
    assert t[i - s..i - s + |d|] == d;
    return true;
  }

  /** First position of the separator in the string at s, or -1. */
  method StrStr(buf: array<char>, s: nat, d: string, ghost t: string) returns (q: int)
    requires Holds(buf[..], s, t) && NUL !in d && d != ""
    ensures q == if Index(t, d) == -1 then -1 else s + Index(t, d)
  {
    hide OccursAt;
    var i := s;
    while true
      invariant s <= i <= s + |t| && IndexFrom(t, d, 0) == IndexFrom(t, d, i - s)
      decreases s + |t| - i
    {
      var here := Matches(buf, i, d, s, t);
      if here {
        return i;
      }
      if i < s + |t| {
        HeldChar(buf[..], s, t, i - s);
      }
      if buf[i] == NUL {
        return -1;
      }
      i := i + 1;
    }
  }

  // ----- Cutting

  lemma CutHolds(b: seq<char>, b': seq<char>, s: nat, t: string, q: nat, n: nat)
    requires Holds(b, s, t) && q + n <= |t| && n > 0 && |b'| == |b|
    requires forall i :: 0 <= i < |b| ==> b'[i] == if s + q <= i < s + q + n then NUL else b[i]
    ensures Holds(b', s, t[..q]) && Holds(b', s + q + n, t[q + n..])
  {
    assert b'[s..s + q] == b[s..s + |t|][..q];
    assert b'[s + q + n..s + |t|] == b[s..s + |t|][q + n..];
  }

  /** Writes NULs over the next separator and returns the position after it, or -1 and changes nothing. */
  method NextToken(buf: array<char>, s: nat, d: string, ghost t: string) returns (r: int)
    requires Holds(buf[..], s, t) && NUL !in d && d != ""
    modifies buf
    ensures if Split(t, d).None? then r == -1 && buf[..] == old(buf[..])
            else
              && r == s + |Split(t, d).value.left| + |d|
              && Holds(buf[..], s, Split(t, d).value.left) && Holds(buf[..], r, Split(t, d).value.right)
              && SameBelow(old(buf[..]), buf[..], s)
  {
    hide Index;
    r := StrStr(buf, s, d, t);
    if r == -1 {
      return;
    }
    ghost var b := buf[..];
    ghost var q := r - s;
    for i := 0 to |d|
      invariant r == s + q + i
      invariant forall j :: 0 <= j < buf.Length ==> buf[j] == if s + q <= j < s + q + i then NUL else b[j]
    {
      buf[r] := NUL;
      r := r + 1;
    }
    CutHolds(b, buf[..], s, t, q, |d|);
  }

  method CountHeaderLines(buf: array<char>, s: nat, ghost t: string) returns (n: nat)
    requires Holds(buf[..], s, t)
    ensures n == CountHeaders(t)
  {
    hide Index;
    var end := StrStr(buf, s, BLANK, t);
    n := 0;
    if end == -1 {
      return;
    }
    var p := s;
    ghost var rest := t;
    while p < end
      invariant Holds(buf[..], p, rest) && s <= p
      invariant n + CountLines(rest, end - p) == CountHeaders(t)
      decreases |rest|
    {
      var q := StrStr(buf, p, CRLF, rest);
      if q == -1 {
        return;
      }
      ghost var k := q - p;
      assert Holds(buf[..], q + 2, rest[k + 2..]) by { SuffixHolds(buf[..], p, rest, k + 2); }
      rest := rest[k + 2..];
      p := q + 2;
      n := n + 1;
    }
  }

  lemma SuffixHolds(b: seq<char>, p: int, w: string, k: nat)
    requires Holds(b, p, w) && k <= |w|
    ensures Holds(b, p + k, w[k..])
  {
    assert b[p + k..p + |w|] == b[p..p + |w|][k..];
  }

  // ----- Parsing

  datatype HeaderAt = HeaderAt(field: nat, value: nat)

  /** Positions of the parts of a message in the buffer. */
  datatype MsgAt = MsgAt(token1: nat, token2: nat, token3: nat, headers: seq<HeaderAt>, body: nat)

  ghost predicate HeadersHold(b: seq<char>, at: seq<HeaderAt>, hs: seq<Header>) {
    |at| == |hs| && forall i :: 0 <= i < |hs| ==>
      Holds(b, at[i].field, hs[i].field) && Holds(b, at[i].value, hs[i].value)
  }

  /** Every part can be read back at its position. */
  ghost predicate MsgHolds(b: seq<char>, at: MsgAt, m: Msg) {
    && Holds(b, at.token1, m.token1) && Holds(b, at.token2, m.token2) && Holds(b, at.token3, m.token3)
    && HeadersHold(b, at.headers, m.headers) && Holds(b, at.body, m.body)
  }

  /** All these strings end before position e. */
  ghost predicate HeadersBelow(at: seq<HeaderAt>, hs: seq<Header>, e: int) {
    |at| == |hs| && forall i :: 0 <= i < |hs| ==> at[i].field + |hs[i].field| < e && at[i].value + |hs[i].value| < e
  }

  lemma HeadersStillHold(b: seq<char>, b': seq<char>, e: int, at: seq<HeaderAt>, hs: seq<Header>)
    requires SameBelow(b, b', e) && HeadersHold(b, at, hs) && HeadersBelow(at, hs, e)
    ensures HeadersHold(b', at, hs)
  {
    hide Holds, SameBelow;
    forall i | 0 <= i < |hs| ensures Holds(b', at[i].field, hs[i].field) && Holds(b', at[i].value, hs[i].value) {
      StillHolds(b, b', e, at[i].field, hs[i].field);
      StillHolds(b, b', e, at[i].value, hs[i].value);
    }
  }

  function Prepend(hs: seq<Header>, more: Option<Headers>): Option<Headers> {
    if more.None? then None else Some(Headers(hs + more.value.headers, more.value.rest))
  }

  /** One more header has been read off the text. */
  lemma ReadOne(hs: seq<Header>, t: string, n: nat, f: Cut, v: Cut)
    requires n > 0 && Split(t, HEADER_SEP) == Some(f) && Split(f.right, CRLF) == Some(v)
    ensures Prepend(hs, ParseHeaders(t, n)) == Prepend(hs + [Header(f.left, v.left)], ParseHeaders(v.right, n - 1))
  {
    hide Split;
    if ParseHeaders(v.right, n - 1).Some? {
      var more := ParseHeaders(v.right, n - 1).value.headers;
      assert hs + ([Header(f.left, v.left)] + more) == hs + [Header(f.left, v.left)] + more;
    }
  }

  /** Reads one header line. */
  method ReadHeader(buf: array<char>, p: nat, ghost t: string) returns (ok: bool, at: HeaderAt, next: nat,
      ghost f: Cut, ghost v: Cut)
    requires Holds(buf[..], p, t)
    modifies buf
    ensures SameBelow(old(buf[..]), buf[..], p)
    ensures ok <==> Split(t, HEADER_SEP).Some? && Split(Split(t, HEADER_SEP).value.right, CRLF).Some?
    ensures ok ==>
              && Split(t, HEADER_SEP) == Some(f) && Split(f.right, CRLF) == Some(v)
              && Holds(buf[..], at.field, f.left) && Holds(buf[..], at.value, v.left) && Holds(buf[..], next, v.right)
              && p <= next && at.field + |f.left| < next && at.value + |v.left| < next
  {
    hide Split, Holds;
    ok, at, next, f, v := false, HeaderAt(p, p), p, Cut("", ""), Cut("", "");
    var q := NextToken(buf, p, HEADER_SEP, t);
    if q == -1 {
      SameIsSame(old(buf[..]), buf[..], p);
      return;
    }
    f := Split(t, HEADER_SEP).value;
    ghost var b := buf[..];
    var r := NextToken(buf, q, CRLF, f.right);
    SameTwice(old(buf[..]), b, buf[..], p, q);
    if r == -1 {
      return;
    }
    v := Split(f.right, CRLF).value;
    StillHolds(b, buf[..], q, p, f.left);
    ok, at, next := true, HeaderAt(p, q), r;
  }

  lemma SameIsSame(b: seq<char>, b': seq<char>, e: int)
    requires b == b'
    ensures SameBelow(b, b', e)
  {
  }

  lemma SameTwice(b: seq<char>, b1: seq<char>, b2: seq<char>, e: int, e1: int)
    requires SameBelow(b, b1, e) && (SameBelow(b1, b2, e1) || b1 == b2) && e <= e1
    ensures SameBelow(b, b2, e)
  {
  }

  /** Positions of the headers and the body. */
  datatype RestAt = RestAt(headers: seq<HeaderAt>, body: nat)

  /** What the header loop and the body are read as. */
  function RestRead(t: string): Outcome<Msg> {
    if TooManyHeaders(t) then Overran
    else
      match ParseRest(t, "", "", "")
      case None => Rejected
      case Some(m) => Done(m)
  }

  /** The header loop and the body, once the request line has been read. A header too many would be stored outside the
      array. */
  method ParseRestAt(buf: array<char>, p: nat, ghost t: string) returns (r: Outcome<RestAt>, ghost hs: seq<Header>,
      ghost text: string)
    requires Holds(buf[..], p, t)
    modifies buf
    ensures SameBelow(old(buf[..]), buf[..], p)
    ensures r.Overran? <==> RestRead(t).Overran?
    ensures r.Done? <==> RestRead(t).Done?
    ensures r.Done? ==>
              RestRead(t) == Done(Msg("", "", "", hs, text)) && HeadersHold(buf[..], r.value.headers, hs) &&
                Holds(buf[..], r.value.body, text)
  {
    hide Split, Holds, CountLines, SameBelow, ParseHeaders;
    r, hs, text := Rejected, [], "";
    var at := [];
    var n := CountHeaderLines(buf, p, t);
    ghost var all, many := ParseHeaders(t, n), ParseHeaders(t, MAX_HEADERS + 1);
    var next := p;
    ghost var rest := t;
    SameIsSame(old(buf[..]), buf[..], p);
    PrependNothing(all);
    PrependNothing(many);
    for i := 0 to n
      invariant p <= next && SameBelow(old(buf[..]), buf[..], p) && i <= MAX_HEADERS
      invariant Holds(buf[..], next, rest) && HeadersHold(buf[..], at, hs) && HeadersBelow(at, hs, next)
      invariant Prepend(hs, ParseHeaders(rest, n - i)) == all
      invariant Prepend(hs, ParseHeaders(rest, MAX_HEADERS + 1 - i)) == many
    {
      ghost var b := buf[..];
      var found, h, after, f, v := ReadHeader(buf, next, rest);
      SameTwice(old(buf[..]), b, buf[..], p, next);
      if !found {
        FailsWithout(rest, n - i);
        FailsWithout(rest, MAX_HEADERS + 1 - i);
        return;
      }
      ReadOne(hs, rest, n - i, f, v);
      ReadOne(hs, rest, MAX_HEADERS + 1 - i, f, v);
      if i == MAX_HEADERS {
        NothingLeft(v.right);
        r := Overran;
        return;
      }
      HeadersStillHold(b, buf[..], next, at, hs);
      at, hs, next, rest := at + [h], hs + [Header(f.left, v.left)], after, v.right;
    }
    NothingLeft(rest);
    assert all == Some(Headers(hs, rest)) by { assert hs + [] == hs; }
    ghost var b := buf[..];
    var q := NextToken(buf, next, CRLF, rest);
    SameTwice(old(buf[..]), b, buf[..], p, next);
    if q == -1 {
      return;
    }
    HeadersStillHold(b, buf[..], next, at, hs);
    text := Split(rest, CRLF).value.right;
    r := Done(RestAt(at, q));
  }

  lemma PrependNothing(more: Option<Headers>)
    ensures Prepend([], more) == more
  {
    if more.Some? {
      assert [] + more.value.headers == more.value.headers;
    }
  }

  lemma NothingLeft(t: string)
    ensures ParseHeaders(t, 0) == Some(Headers([], t))
  {
  }

  lemma FailsWithout(t: string, n: nat)
    requires n > 0 && !(Split(t, HEADER_SEP).Some? && Split(Split(t, HEADER_SEP).value.right, CRLF).Some?)
    ensures ParseHeaders(t, n).None?
  {
    hide Split;
  }

  lemma RestIgnoresTokens(t: string, t1: string, t2: string, t3: string)
    ensures ParseRest(t, t1, t2, t3) == match ParseRest(t, "", "", "") case None => None case Some(m) =>
      Some(m.(token1 := t1, token2 := t2, token3 := t3))
  {
    hide Split, ParseHeaders, CountHeaders;
  }

  /** Parses the message in the buffer, in place: it succeeds on exactly the texts the specification parses, every part
      then standing as a string of its own at the returned position, and it leaves its header array on exactly the texts
      that overrun it. */
  method ParseHypertext(buf: array<char>, ghost t: string) returns (r: Outcome<MsgAt>)
    requires Holds(buf[..], 0, t)
    modifies buf
    ensures r.Overran? <==> Parse(t).Overran?
    ensures r.Done? <==> Parse(t).Done?
    ensures r.Done? ==> MsgHolds(buf[..], r.value, Parse(t).value)
  {
    hide Split, Holds, ParseRest, SameBelow, HeadersHold, TooManyHeaders;
    r := Rejected;
    var p1 := NextToken(buf, 0, TOKEN_SEP, t);
    if p1 == -1 {
      return;
    }
    ghost var c1 := Split(t, TOKEN_SEP).value;
    ghost var b1 := buf[..];
    var p2 := NextToken(buf, p1, TOKEN_SEP, c1.right);
    if p2 == -1 {
      return;
    }
    ghost var c2 := Split(c1.right, TOKEN_SEP).value;
    ghost var b2 := buf[..];
    StillHolds(b1, b2, p1, 0, c1.left);
    var p3 := NextToken(buf, p2, CRLF, c2.right);
    if p3 == -1 {
      return;
    }
    ghost var c3 := Split(c2.right, CRLF).value;
    ghost var b3 := buf[..];
    StillHolds(b2, b3, p2, 0, c1.left);
    StillHolds(b2, b3, p2, p1, c2.left);
    var rest, hs, text := ParseRestAt(buf, p3, c3.right);
    RestIgnoresTokens(c3.right, c1.left, c2.left, c3.left);
    match rest
    case Rejected =>
    case Overran => r := Overran;
    case Done(parts) =>
      StillHolds(b3, buf[..], p3, 0, c1.left);
      StillHolds(b3, buf[..], p3, p1, c2.left);
      StillHolds(b3, buf[..], p3, p2, c3.left);
      r := Done(MsgAt(0, p1, p2, parts.headers, parts.body));
  }

  // ----- Printing

  /** What a buffer of size n can show of a text: all of it, or all but the end that would leave no room for the NUL. */
  function Shown(text: string, n: nat): string
    requires n > 0
  {
    if |text| < n then text else text[..n - 1]
  }

  /** Formatted output at an offset: what fits is written and terminated, and the full length is returned. */
  method Append(buf: array<char>, offset: nat, piece: string, ghost done: string) returns (n: nat)
    requires buf.Length > 0 && offset == |done| <= buf.Length
    requires Holds(buf[..], 0, Shown(done, buf.Length)) && NUL !in piece && NUL !in done
    modifies buf
    ensures n == |piece| && Holds(buf[..], 0, Shown(done + piece, buf.Length))
  {
    n := |piece|;
    if offset == buf.Length {
      assert (done + piece)[..buf.Length - 1] == done[..buf.Length - 1];
      return;
    }
    var room := buf.Length - 1 - offset;
    var k := if n < room then n else room;
    for i := 0 to k
      invariant buf[..offset + i] == done + piece[..i]
    {
      buf[offset + i] := piece[i];
      assert buf[..offset + i] == done + piece[..i];
      assert buf[..offset + i + 1] == (done + piece[..i]) + [piece[i]];
    }
    buf[offset + k] := NUL;
    assert buf[..offset + k] == done + piece[..k];
    assert Shown(done + piece, buf.Length) == done + piece[..k];
  }

  ghost predicate NulFree(m: Msg) {
    && NUL !in m.token1 && NUL !in m.token2 && NUL !in m.token3 && NUL !in m.body
    && forall i :: 0 <= i < |m.headers| ==> NUL !in m.headers[i].field && NUL !in m.headers[i].value
  }

  function Head(m: Msg): string {
    RequestLine(m) + PrintHeaders(m.headers)
  }

  /** Length of the head with its first i headers. */
  function HeadLength(m: Msg, i: nat): nat
    requires i <= |m.headers|
  {
    |RequestLine(m) + PrintHeaders(m.headers[..i])|
  }

  /** Headers are written until the buffer is used up; the body is then written where they stopped. That is inside the
      buffer or right at its end if and only if the whole head fits, or some part of it ends exactly at the end of the
      buffer. */
  ghost predicate HeadStops(m: Msg) {
    |Head(m)| <= MAX_BUF || exists i :: 0 <= i <= |m.headers| && HeadLength(m, i) == MAX_BUF
  }

  lemma HeadGrows(m: Msg, i: nat, j: nat)
    requires i < j <= |m.headers|
    ensures HeadLength(m, i) < HeadLength(m, j)
    decreases j - i
  {
    hide PrintHeaders, RequestLine;
    assert m.headers[..j] == m.headers[..j - 1] + [m.headers[j - 1]];
    PrintedAppend(m.headers[..j - 1], m.headers[j - 1]);
    if i < j - 1 {
      HeadGrows(m, i, j - 1);
    }
  }

  /** The head has grown past the end of the buffer at its i-th part and not met it before. */
  lemma HeadRunsOver(m: Msg, i: nat)
    requires i <= |m.headers| && HeadLength(m, i) > MAX_BUF && (i > 0 ==> HeadLength(m, i - 1) < MAX_BUF)
    ensures !HeadStops(m)
  {
    hide PrintHeaders, RequestLine, HeadLength;
    WholeHead(m);
    forall j | 0 <= j <= |m.headers| ensures HeadLength(m, j) != MAX_BUF {
      if j < i && j < i - 1 {
        HeadGrows(m, j, i - 1);
      } else if j > i {
        HeadGrows(m, i, j);
      }
    }
    if i < |m.headers| {
      HeadGrows(m, i, |m.headers|);
    }
  }

  lemma WholeHead(m: Msg)
    ensures HeadLength(m, |m.headers|) == |Head(m)|
  {
    assert m.headers[..|m.headers|] == m.headers;
  }

  /** The text up to any header is a beginning of the whole. */
  lemma {:induction false} PrintStarts(m: Msg, i: nat)
    requires i <= |m.headers|
    ensures RequestLine(m) + PrintHeaders(m.headers[..i]) <= Head(m)
    decreases |m.headers| - i
  {
    hide PrintHeader, RequestLine;
    if i == |m.headers| {
      assert m.headers[..i] == m.headers;
    } else {
      PrintStarts(m, i + 1);
      assert m.headers[..i + 1] == m.headers[..i] + [m.headers[i]];
      PrintedAppend(m.headers[..i], m.headers[i]);
      var a, b := RequestLine(m) + PrintHeaders(m.headers[..i]), RequestLine(m) + PrintHeaders(m.headers[..i + 1]);
      assert b == a + PrintHeader(m.headers[i]);
    }
  }

  /** Prints a message into the buffer: the request line, each header, a blank line and the body. The body is written
      outside the buffer if and only if the head does not stop. Otherwise the buffer holds what of the text leaves the
      last place to the NUL, which is all of it if and only if it is strictly shorter than the buffer, while success is
      reported for one of exactly the buffer's size as well. */
  method ConvertToHypertext(m: Msg, buf: array<char>) returns (r: Outcome<nat>)
    requires buf.Length == MAX_BUF && NulFree(m)
    modifies buf
    ensures r.Overran? <==> !HeadStops(m)
    ensures r.Done? <==> |Print(m)| <= MAX_BUF
    ensures r.Done? ==> r.value == |Print(m)|
    ensures !r.Overran? ==>
      Holds(buf[..], 0, Shown(Print(m), MAX_BUF)) && (Holds(buf[..], 0, Print(m)) <==> |Print(m)| < MAX_BUF)
  {
    hide PrintHeaders, PrintHeader, Holds, Shown, HeadStops;
    assert forall i :: 0 <= i < |m.headers| ==> NUL !in m.headers[i].field && NUL !in m.headers[i].value;
    Clear(buf);
    var offset := 0;
    ghost var done := "";
    NoHeaders();
    var n := Append(buf, offset, RequestLine(m), done);
    offset, done := n, "" + RequestLine(m);
    assert m.headers[..0] == [] && done == RequestLine(m) + PrintHeaders(m.headers[..0]);
    LineNulFree(m);
    var i := 0;
    while i < |m.headers| && offset < MAX_BUF
      invariant 0 <= i <= |m.headers| && offset == |done| && NUL !in done
      invariant done == RequestLine(m) + PrintHeaders(m.headers[..i])
      invariant Holds(buf[..], 0, Shown(done, MAX_BUF))
      invariant i > 0 ==> HeadLength(m, i - 1) < MAX_BUF
    {
      assert m.headers[..i + 1] == m.headers[..i] + [m.headers[i]];
      PrintedAppend(m.headers[..i], m.headers[i]);
      HeaderNulFree(m.headers[i]);
      n := Append(buf, offset, PrintHeader(m.headers[i]), done);
      offset, done := offset + n, done + PrintHeader(m.headers[i]);
      assert RequestLine(m) + (PrintHeaders(m.headers[..i]) + PrintHeader(m.headers[i])) == done;
      i := i + 1;
    }
    TextContinues(m, i);
    if offset > MAX_BUF {
      HeadRunsOver(m, i);
      return Overran;
    }
    HeadHasStopped(m, i);
    n := Append(buf, offset, CRLF + m.body, done);
    SameShown(m, i);
    WholeIffShorter(buf[..], Print(m));
    offset := offset + n;
    r := if offset > MAX_BUF then Rejected else Done(offset);
  }

  lemma HeadHasStopped(m: Msg, i: nat)
    requires i <= |m.headers| && HeadLength(m, i) <= MAX_BUF && (i == |m.headers| || HeadLength(m, i) >= MAX_BUF)
    ensures HeadStops(m)
  {
    hide HeadLength;
    if i == |m.headers| {
      WholeHead(m);
    }
  }

  /** What was written so far begins the text, and there is more to come. */
  lemma TextContinues(m: Msg, i: nat)
    requires i <= |m.headers|
    ensures RequestLine(m) + PrintHeaders(m.headers[..i]) <= Print(m) && HeadLength(m, i) + 2 <= |Print(m)|
    ensures i == |m.headers| ==> RequestLine(m) + PrintHeaders(m.headers[..i]) + (CRLF + m.body) == Print(m)
  {
    hide PrintHeaders, RequestLine;
    PrintStarts(m, i);
    assert m.headers[..|m.headers|] == m.headers;
    assert Head(m) <= Print(m);
  }

  /** Stopping at the end of the buffer shows as much of the text as the buffer can. */
  lemma SameShown(m: Msg, i: nat)
    requires i <= |m.headers| && HeadLength(m, i) <= MAX_BUF && (i == |m.headers| || HeadLength(m, i) == MAX_BUF)
    ensures var done := RequestLine(m) + PrintHeaders(m.headers[..i]);
            && Shown(done + (CRLF + m.body), MAX_BUF) == Shown(Print(m), MAX_BUF)
            && (|done + (CRLF + m.body)| <= MAX_BUF <==> |Print(m)| <= MAX_BUF)
            && (i == |m.headers| ==> |done + (CRLF + m.body)| == |Print(m)|)
  {
    hide PrintHeaders, RequestLine;
    var done := RequestLine(m) + PrintHeaders(m.headers[..i]);
    TextContinues(m, i);
    if i < |m.headers| {
      var text := done + (CRLF + m.body);
      assert text[..MAX_BUF - 1] == done[..MAX_BUF - 1] == Print(m)[..MAX_BUF - 1];
    }
  }

  lemma LineNulFree(m: Msg)
    requires NulFree(m)
    ensures NUL !in RequestLine(m)
  {
  }

  lemma HeaderNulFree(h: Header)
    requires NUL !in h.field && NUL !in h.value
    ensures NUL !in PrintHeader(h)
  {
  }

  /** Fills the buffer with NULs. */
  method Clear(buf: array<char>)
    requires buf.Length > 0
    modifies buf
    ensures Holds(buf[..], 0, Shown("", buf.Length))
  {
    for i := 0 to buf.Length
      invariant forall j :: 0 <= j < i ==> buf[j] == NUL
    {
      buf[i] := NUL;
    }
  }

  /** What is shown is all of the text if and only if that is strictly shorter than the buffer. */
  lemma WholeIffShorter(b: seq<char>, text: string)
    requires |b| > 0 && Holds(b, 0, Shown(text, |b|))
    ensures Holds(b, 0, text) <==> |text| < |b|
  {
  }

  function Filled(n: nat): (s: string)
    ensures |s| == n && forall i :: 0 <= i < n ==> s[i] == 'x'
  {
    seq(n, _ => 'x')
  }

  /** A message that fills the buffer to the last place. */
  function Brimful(): Msg {
    Msg("A", "B", "C", [], Filled(MAX_BUF - 9))
  }

  lemma BrimfulText()
    ensures NulFree(Brimful()) && |Print(Brimful())| == MAX_BUF && Print(Brimful())[MAX_BUF - 1] == 'x'
  {
    hide Filled;
    var m := Brimful();
    NoHeaders();
    assert RequestLine(m) == "A B C\r\n";
    assert Print(m) == "A B C\r\n\r\n" + m.body;
  }

  /** Printing it is reported as a success, and its last character is not in the buffer. */
  method LosesLastCharacter(buf: array<char>) returns (r: Outcome<nat>)
    requires buf.Length == MAX_BUF
    modifies buf
    ensures r == Done(MAX_BUF) && |Print(Brimful())| == MAX_BUF && Holds(buf[..], 0, Print(Brimful())[..MAX_BUF - 1])
  {
    hide Print, Filled, NulFree, Holds;
    BrimfulText();
    r := ConvertToHypertext(Brimful(), buf);
  }

  /** A message whose one header is longer than the buffer. */
  function Overlong(): Msg {
    Msg("A", "B", "C", [Header("a", Filled(MAX_BUF))], "")
  }

  lemma OverlongText()
    ensures NulFree(Overlong()) && LegalHeaders(Overlong().headers) && !HeadStops(Overlong())
  {
    hide Filled, HeadStops;
    var m := Overlong();
    NoHeaders();
    assert m.headers[..0] == [] && m.headers[..1] == m.headers && m.headers[1..] == [];
    assert PrintHeaders(m.headers) == PrintHeader(m.headers[0]) + PrintHeaders([]);
    assert RequestLine(m) == "A B C\r\n";
    HeadRunsOver(m, 1);
  }

  /** Printing it writes outside the buffer. */
  method WritesOutside(buf: array<char>) returns (r: Outcome<nat>)
    requires buf.Length == MAX_BUF
    modifies buf
    ensures r == Overran
  {
    hide NulFree, HeadStops, Filled, Print;
    OverlongText();
    r := ConvertToHypertext(Overlong(), buf);
  }

  lemma ShortHeadStops(m: Msg)
    ensures |Print(m)| <= MAX_BUF ==> HeadStops(m)
  {
    hide PrintHeaders, RequestLine, HeadLength;
  }

  /** Print, then parse the same buffer in place: every message that is printable, free of NULs, short enough and
      without more headers than places is read back part by part. */
  method PrintThenParse(m: Msg, buf: array<char>) returns (r: Outcome<MsgAt>)
    requires buf.Length == MAX_BUF && NulFree(m) && LegalHeaders(m.headers) && Printable(m)
    requires |Print(m)| < MAX_BUF && |m.headers| <= MAX_HEADERS
    modifies buf
    ensures r.Done? && MsgHolds(buf[..], r.value, m)
  {
    hide Printable, NulFree, Print, Parse, Holds, HeadStops;
    ShortHeadStops(m);
    var _ := ConvertToHypertext(m, buf);
    ParserUndoesPrinter(m);
    r := ParseHypertext(buf, Print(m));
  }
}
