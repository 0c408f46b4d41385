/** Log records: fixed-size text fields, sequence numbers, and the 292 bytes of a datagram. */
module LogRecords {
  import opened Basics
  import opened Wrappers

  const SOURCE_LENGTH := 16
  const MSG_LENGTH := 256
  const WIRE_SIZE := 292

  type Byte = b: int | 0 <= b < 256
  type Word = w: int | 0 <= w < U32

  datatype LogRecord = LogRecord(timeSec: Word, timeMsec: Word, level: Word, pid: Word, seqNo: Word, source: seq<Byte>,
    message: seq<Byte>)

  /** What the struct's arrays can hold. */
  predicate Sized(r: LogRecord) {
    |r.source| == SOURCE_LENGTH && |r.message| == MSG_LENGTH
  }

  // ----- Text in fixed arrays

  function Zeros(n: nat): (z: seq<Byte>)
    ensures |z| == n && forall i :: 0 <= i < n ==> z[i] == 0
  {
    seq(n, _ => 0)
  }

  /** As much of the text as leaves room for a terminator, then zeros. */
  function Fixed(text: seq<Byte>, size: nat): (s: seq<Byte>)
    requires size > 0
    ensures |s| == size && s[size - 1] == 0
  {
    var n := if |text| < size then |text| else size - 1;
    text[..n] + Zeros(size - n)
  }

  /** What a C reader sees: everything before the first zero. */
  function Text(s: seq<Byte>): seq<Byte> {
    if s == [] || s[0] == 0 then [] else [s[0]] + Text(s[1..])
  }

  predicate NoZero(s: seq<Byte>) {
    forall i :: 0 <= i < |s| ==> s[i] != 0
  }

  lemma {:induction false} TextOf(a: seq<Byte>, b: seq<Byte>)
    requires NoZero(a) && (b == [] || b[0] == 0)
    ensures Text(a + b) == a
  {
    if a == [] {
      assert a + b == b;
    } else {
      assert (a + b)[1..] == a[1..] + b;
      TextOf(a[1..], b);
    }
  }

  /** A text that fits is kept whole; a longer one loses exactly what does not fit. */
  lemma FixedText(text: seq<Byte>, size: nat)
    requires size > 0 && NoZero(text)
    ensures Text(Fixed(text, size)) == if |text| < size then text else text[..size - 1]
  {
    var n := if |text| < size then |text| else size - 1;
    TextOf(text[..n], Zeros(size - n));
    assert text[..|text|] == text;
  }

  /** Copies a C string, or clears the first byte when there is none. */
  method CopyFixed(dest: array<Byte>, src: Option<seq<Byte>>)
    requires dest.Length > 0
    modifies dest
    ensures dest[..] == match src case None => old(dest[..])[0 := 0] case Some(text) => Fixed(text, dest.Length)
  {
    match src {
      case None =>
        dest[0] := 0;
      case Some(text) =>
        for i := 0 to dest.Length - 1
          invariant dest[..i] == Fixed(text, dest.Length)[..i]
        {
          dest[i] := if i < |text| then text[i] else 0;
        }
        dest[dest.Length - 1] := 0;
    }
  }

  // ----- Building

  /** The process-wide sequence counter. */
  class RecordBuilder {
    var nextSeq: Word

    constructor ()
      ensures nextSeq == 0
    {
      nextSeq := 0;
    }

    method BuildLogRecord(level: Word, source: Option<seq<Byte>>, message: Option<seq<Byte>>, sec: nat, nsec: nat,
        pid: Word)
      returns (r: LogRecord)
      modifies this
      ensures r == Built(level, source, message, sec, nsec, pid, old(nextSeq)) && nextSeq == (old(nextSeq) + 1) % U32
    {
      var src := new Byte[SOURCE_LENGTH](_ => 0);
      var msg := new Byte[MSG_LENGTH](_ => 0);
      CopyFixed(src, source);
      CopyFixed(msg, message);
      r := LogRecord(sec % U32, nsec / 1_000_000 % U32, level, pid, nextSeq, src[..], msg[..]);
      nextSeq := (nextSeq + 1) % U32;
    }
  }

  function Given(text: Option<seq<Byte>>): seq<Byte> {
    match text
    case None => []
    case Some(t) => t
  }

  function Built(level: Word, source: Option<seq<Byte>>, message: Option<seq<Byte>>, sec: nat, nsec: nat, pid: Word,
      seqNo: Word): (r: LogRecord)
    ensures Sized(r) && Terminated(r)
  {
    LogRecord(sec % U32, nsec / 1_000_000 % U32, level, pid, seqNo, Fixed(Given(source), SOURCE_LENGTH),
      Fixed(Given(message), MSG_LENGTH))
  }

  // ----- On the wire

  /** Most significant byte first. */
  function WordBytes(w: Word): (b: seq<Byte>)
    ensures |b| == 4
  {
    [w / 256 / 256 / 256, w / 256 / 256 % 256, w / 256 % 256, w % 256]
  }

  function BytesWord(b: seq<Byte>): Word
    requires |b| == 4
  {
    var high: int := b[0];
    ((high * 256 + b[1]) * 256 + b[2]) * 256 + b[3]
  }

  lemma WordBack(w: Word)
    ensures BytesWord(WordBytes(w)) == w
  {
  }

  function Head(r: LogRecord): (b: seq<Byte>)
    ensures |b| == 20
  {
    WordBytes(r.timeSec) + WordBytes(r.timeMsec) + WordBytes(r.level) + WordBytes(r.pid) + WordBytes(r.seqNo)
  }

  function Packed(r: LogRecord): (b: seq<Byte>)
    requires Sized(r)
    ensures |b| == WIRE_SIZE
  {
    Head(r) + r.source + r.message
  }

  /** Whatever arrives, the two texts are terminated. */
  function Unpacked(b: seq<Byte>): (r: LogRecord)
    requires |b| == WIRE_SIZE
    ensures Sized(r) && Terminated(r)
  {
    LogRecord(BytesWord(b[..4]), BytesWord(b[4..8]), BytesWord(b[8..12]), BytesWord(b[12..16]), BytesWord(b[16..20]),
              b[20..36][15 := 0], b[36..292][255 := 0])
  }

  predicate Terminated(r: LogRecord)
    requires Sized(r)
  {
    r.source[SOURCE_LENGTH - 1] == 0 && r.message[MSG_LENGTH - 1] == 0
  }

  lemma HeadSplits(r: LogRecord, rest: seq<Byte>)
    ensures var b := Head(r) + rest;
            && b[..4] == WordBytes(r.timeSec) && b[4..8] == WordBytes(r.timeMsec) && b[8..12] == WordBytes(r.level)
            && b[12..16] == WordBytes(r.pid) && b[16..20] == WordBytes(r.seqNo)
  {
    hide WordBytes;
  }

  /** A record survives packing and unpacking if and only if both its texts are terminated. */
  lemma UnpackUndoesPack(r: LogRecord)
    requires Sized(r)
    ensures Unpacked(Packed(r)) == r <==> Terminated(r)
  {
    hide WordBytes, BytesWord, Head;
    var b := Packed(r);
    assert b == Head(r) + (r.source + r.message);
    HeadSplits(r, r.source + r.message);
    WordBack(r.timeSec);
    WordBack(r.timeMsec);
    WordBack(r.level);
    WordBack(r.pid);
    WordBack(r.seqNo);
    assert b[20..36] == r.source && b[36..292] == r.message;
  }

  /** What is left of a text in a field of this size. */
  function Clipped(text: seq<Byte>, size: nat): seq<Byte>
    requires size > 0
  {
    if |text| < size then text else text[..size - 1]
  }

  ghost predicate Tells(r: LogRecord, level: Word, source: seq<Byte>, message: seq<Byte>, sec: nat, nsec: nat,
      pid: Word,
      seqNo: Word) {
    && r.level == level && r.pid == pid && r.seqNo == seqNo && r.timeSec == sec % U32
    && (nsec < 1_000_000_000 ==> r.timeMsec * 1_000_000 <= nsec < (r.timeMsec + 1) * 1_000_000)
    && (NoZero(source) ==> Text(r.source) == Clipped(source, 16))
    && (NoZero(message) ==> Text(r.message) == Clipped(message, 256))
  }

  /** In particular every built record does, and its reader finds what it was built from: the time to the millisecond,
      the level, the sender with its number, and the texts as far as they fit. */
  lemma BuiltSurvives(level: Word, source: Option<seq<Byte>>, message: Option<seq<Byte>>, sec: nat, nsec: nat,
      pid: Word, seqNo: Word)
    ensures var r := Built(level, source, message, sec, nsec, pid, seqNo);
            Unpacked(Packed(r)) == r && Tells(r, level, Given(source), Given(message), sec, nsec, pid, seqNo)
  {
    hide Unpacked, Packed, Fixed, Text, NoZero;
    UnpackUndoesPack(Built(level, source, message, sec, nsec, pid, seqNo));
    if NoZero(Given(source)) {
      FixedText(Given(source), SOURCE_LENGTH);
    }
    if NoZero(Given(message)) {
      FixedText(Given(message), MSG_LENGTH);
    }
  }

  method CopyAt(buffer: array<Byte>, offset: nat, src: seq<Byte>)
    requires offset + |src| <= buffer.Length
    modifies buffer
    ensures buffer[..] == old(buffer[..offset]) + src + old(buffer[offset + |src|..])
  {
    for i := 0 to |src|
      invariant buffer[..] == old(buffer[..offset]) + src[..i] + old(buffer[offset + i..])
    {
      buffer[offset + i] := src[i];
    }
    assert src[..|src|] == src;
  }

  method PackLogRecord(buffer: array<Byte>, r: LogRecord)
    requires buffer.Length == WIRE_SIZE && Sized(r)
    modifies buffer
    ensures buffer[..] == Packed(r)
  {
    hide Head;
    for i := 0 to WIRE_SIZE {
      buffer[i] := 0;
    }
    var offset := 0;
    CopyAt(buffer, offset, Head(r));
    offset := offset + 20;
    CopyAt(buffer, offset, r.source);
    offset := offset + SOURCE_LENGTH;
    CopyAt(buffer, offset, r.message);
  }

  method UnpackLogRecord(buffer: array<Byte>) returns (r: LogRecord)
    requires buffer.Length == WIRE_SIZE
    ensures r == Unpacked(buffer[..])
  {
    hide BytesWord;
    var b := buffer[..];
    r := LogRecord(BytesWord(buffer[..4]), BytesWord(buffer[4..8]), BytesWord(buffer[8..12]),
      BytesWord(buffer[12..16]), BytesWord(buffer[16..20]),
                   buffer[20..36], buffer[36..292]);
    r := r.(source := r.source[SOURCE_LENGTH - 1 := 0], message := r.message[MSG_LENGTH - 1 := 0]);
    assert b[..4] == buffer[..4] && b[4..8] == buffer[4..8] && b[8..12] == buffer[8..12] &&
      b[12..16] == buffer[12..16] && b[16..20] == buffer[16..20];
    assert b[20..36] == buffer[20..36] && b[36..292] == buffer[36..292];
  }
}
