/** Requests: the method table, building a message, and reading one. */
module Htttp {
  import opened Basics
  import opened Wrappers
  import opened HyperText
  import opened Formats
  import opened Payloads

  const VERSION := "HTTTP/1.0"
  const PLAYER_ID := "Player-Id"
  const U64 := U32 * U32

  datatype Method = Unknown | Move | Drop | Rotate | State | Attack | Action | Roster

  datatype Entry = Entry(name: string, code: Method)

  const METHODS: seq<Entry> := [
    Entry("MOVE", Move), Entry("DROP", Drop), Entry("ROTATE", Rotate), Entry("STATE", State),
    Entry("ATTACK", Attack), Entry("ACTION", Action), Entry("ROSTER", Roster)]

  // ----- Methods by name and names by method

  function NameOf(m: Method): Option<string> {
    match m
    case Unknown => None
    case Move => Some("MOVE")
    case Drop => Some("DROP")
    case Rotate => Some("ROTATE")
    case State => Some("STATE")
    case Attack => Some("ATTACK")
    case Action => Some("ACTION")
    case Roster => Some("ROSTER")
  }

  function MethodOf(s: string): Method {
    if s == "MOVE" then Move else if s == "DROP" then Drop else if s == "ROTATE" then Rotate
      else if s == "STATE" then State
    else if s == "ATTACK" then Attack else if s == "ACTION" then Action else if s == "ROSTER" then Roster else Unknown
  }

  lemma NamesApart()
    ensures forall i, j :: 0 <= i < j < 7 ==> METHODS[i].name != METHODS[j].name
  {
    assert "MOVE"[0] == 'M' && "DROP"[0] == 'D';
    assert "ROTATE"[0] == 'R' && "ROTATE"[2] == 'T' && "ROSTER"[0] == 'R' && "ROSTER"[2] == 'S';
    assert "ATTACK"[0] == 'A' && "ATTACK"[1] == 'T' && "ACTION"[0] == 'A' && "ACTION"[1] == 'C';
  }

  /** A name stands for a method exactly when the method has that name, and the unknown method has none. */
  lemma NamesAndMethods(s: string, m: Method)
    ensures NameOf(m) == Some(s) <==> m != Unknown && MethodOf(s) == m
  {
    NamesApart();
    assert METHODS[0].name == "MOVE" && METHODS[1].name == "DROP" && METHODS[2].name == "ROTATE" &&
      METHODS[3].name == "STATE";
    assert METHODS[4].name == "ATTACK" && METHODS[5].name == "ACTION" && METHODS[6].name == "ROSTER";
  }

  lemma TableAgrees(i: nat)
    requires i < 7
    ensures NameOf(METHODS[i].code) == Some(METHODS[i].name) && METHODS[i].code != Unknown
  {
  }

  method StringToMethod(s: string) returns (m: Method)
    ensures m == MethodOf(s)
  {
    hide MethodOf, NameOf;
    for i := 0 to 7
      invariant forall j :: 0 <= j < i ==> METHODS[j].name != s
    {
      if METHODS[i].name == s {
        TableAgrees(i);
        NamesAndMethods(s, METHODS[i].code);
        return METHODS[i].code;
      }
    }
    NotInTable(s);
    return Unknown;
  }

  lemma NotInTable(s: string)
    requires forall j :: 0 <= j < 7 ==> METHODS[j].name != s
    ensures MethodOf(s) == Unknown
  {
    assert METHODS[0].name == "MOVE" && METHODS[1].name == "DROP" && METHODS[2].name == "ROTATE" &&
      METHODS[3].name == "STATE";
    assert METHODS[4].name == "ATTACK" && METHODS[5].name == "ACTION" && METHODS[6].name == "ROSTER";
  }

  method MethodToString(m: Method) returns (s: Option<string>)
    ensures s == NameOf(m)
  {
    hide NameOf;
    if m == Unknown {
      NamesAndMethods("", m);
      return NameOf(m);
    }
    for i := 0 to 7
      invariant forall j :: 0 <= j < i ==> METHODS[j].code != m
    {
      if METHODS[i].code == m {
        TableAgrees(i);
        return Some(METHODS[i].name);
      }
    }
    InTable(m);
    s := None;
  }

  lemma InTable(m: Method)
    ensures m != Unknown ==> exists i :: 0 <= i < 7 && METHODS[i].code == m
  {
    assert METHODS[0].code == Move && METHODS[1].code == Drop && METHODS[2].code == Rotate && METHODS[3].code == State;
    assert METHODS[4].code == Attack && METHODS[5].code == Action && METHODS[6].code == Roster;
  }

  // ----- Building a request

  function Path(id: nat): string {
    "/room/0/player/" + Dec(id)
  }

  function Offered(id: nat, contentType: string, date: string, body: string): seq<Header> {
    [Header(PLAYER_ID, Dec(id)), Header("Content-Type", contentType), Header("Date", date),
      Header("Content-Length", Dec(|body|))]
  }

  function Request(m: Method, id: nat, contentType: string, date: string, body: string): Msg
    requires m != Unknown
  {
    Msg(NameOf(m).value, Path(id), VERSION, Accepted(Offered(id, contentType, date, body)), if |body| < MAX_BUF then
      body else "")
  }

  method CreateRequest(m: Method, id: nat, contentType: string, date: string, body: string) returns (msg: Msg)
    requires m != Unknown
    ensures msg == Request(m, id, contentType, date, body)
  {
    hide LegalHeader, Dec, NameOf;
    var name := MethodToString(m);
    HasName(m);
    msg := Msg(name.value, Path(id), VERSION, [], "");
    var offered := Offered(id, contentType, date, body);
    for i := 0 to 4
      invariant msg == Msg(name.value, Path(id), VERSION, Accepted(offered[..i]), if i == 4 && |body| < MAX_BUF then
        body else "")
    {
      if i == 3 && |body| < MAX_BUF {
        msg := msg.(body := body);
      }
      assert offered[..i + 1][..i] == offered[..i];
      AcceptedAreLegal(offered[..i]);
      match AddHeader(msg, offered[i]) {
        case Done(n) => msg := n;
        case _ =>
      }
    }
    assert offered[..4] == offered;
  }

  lemma HasName(m: Method)
    ensures m != Unknown ==> NameOf(m).Some?
  {
  }

  // ----- Reading a request

  datatype Info = Info(code: Method, id: nat, body: string)

  /** C's strtoul cut to 32 bits: nothing readable is zero, too large a number is the largest. */
  function StrToU32(s: string): (v: nat)
    ensures v < U32
  {
    match ScanInt(s)
    case Fail => 0
    case Read(v, _) => if v >= U64 || v <= -U64 then U32 - 1 else v % U32
  }

  /** The first header of that name. */
  function Lookup(hs: seq<Header>, field: string): Option<string> {
    if hs == [] then None else if hs[0].field == field then Some(hs[0].value) else Lookup(hs[1..], field)
  }

  function IdOf(hs: seq<Header>): nat {
    match Lookup(hs, PLAYER_ID)
    case None => 0
    case Some(v) => StrToU32(v)
  }

  function Extract(m: Msg): Info {
    Info(MethodOf(m.token1), IdOf(m.headers), m.body)
  }

  method ExtractInfo(m: Msg) returns (info: Info)
    ensures info == Extract(m)
  {
    hide MethodOf, StrToU32;
    var code := StringToMethod(m.token1);
    var id := 0;
    var i := 0;
    while i < |m.headers|
      invariant 0 <= i <= |m.headers| && id == 0 && Lookup(m.headers, PLAYER_ID) == Lookup(m.headers[i..], PLAYER_ID)
    {
      if m.headers[i].field == PLAYER_ID {
        id := StrToU32(m.headers[i].value);
        break;
      }
      i := i + 1;
    }
    info := Info(code, id, m.body);
  }

  // ----- Reading undoes building

  lemma DecNumber(n: nat)
    requires n < U32
    ensures StrToU32(Dec(n)) == n
  {
    hide ScanInt, Dec;
    ScanBack(n, "");
    assert Dec(n) + "" == Dec(n);
    IntIsDec(n);
  }

  lemma DigitsAreLegal(s: string)
    requires AllDigits(s)
    ensures '\r' !in s && '\n' !in s && ' ' !in s && ':' !in s
  {
    forall i | 0 <= i < |s| ensures s[i] != '\r' && s[i] != '\n' && s[i] != ' ' && s[i] != ':' {
      assert IsDigit(s[i]);
    }
  }

  lemma {:induction false} AcceptedFirst(hs: seq<Header>)
    requires hs != [] && LegalHeader(hs[0])
    ensures Accepted(hs) != [] && Accepted(hs)[0] == hs[0]
  {
    hide LegalHeader;
    if |hs| > 1 {
      AcceptedFirst(hs[..|hs| - 1]);
    } else {
      assert hs[..0] == [] && Accepted([]) == [];
    }
  }

  lemma IdHeaderIsLegal(id: nat)
    ensures LegalHeader(Header(PLAYER_ID, Dec(id)))
  {
    hide Dec;
    DecDigits(id);
    DigitsAreLegal(Dec(id));
  }

  lemma PathHasNoSpace(id: nat)
    ensures ' ' !in Path(id)
  {
    hide Dec;
    DecDigits(id);
    DigitsAreLegal(Dec(id));
    var p := Path(id);
    forall i | 0 <= i < |p| ensures p[i] != ' ' {
      if i < 15 {
        assert p[i] == "/room/0/player/"[i];
      } else {
        assert p[i] == Dec(id)[i - 15];
      }
    }
  }

  lemma NameHasNoSpace(m: Method)
    requires m != Unknown
    ensures ' ' !in NameOf(m).value
  {
  }

  lemma VersionIsOneLine()
    ensures !Contains(VERSION, CRLF)
  {
    NoReturnNoLine(VERSION);
  }

  /** Whatever is put in a request, and whatever headers were refused on the way, the reader of the printed text gets
      the method, the player id and the body. */
  lemma RequestRoundTrip(m: Method, id: nat, contentType: string, date: string, body: string)
    requires m != Unknown && id < U32 && |body| < MAX_BUF
    ensures var msg := Request(m, id, contentType, date, body);
            && LegalHeaders(msg.headers) && 1 <= |msg.headers| <= 4 && Printable(msg)
            && Parse(Print(msg)) == Done(msg)
            && Extract(msg) == Info(m, id, body)
  {
    hide Parse, Print, NameOf, MethodOf, Accepted, Path, Dec, StrToU32, LegalHeader, LegalHeaders, Contains, PlainBody;
    var offered := Offered(id, contentType, date, body);
    var msg := Request(m, id, contentType, date, body);
    AcceptedAreLegal(offered);
    IdHeaderIsLegal(id);
    AcceptedFirst(offered);
    HasName(m);
    NameHasNoSpace(m);
    PathHasNoSpace(id);
    VersionIsOneLine();
    ParserUndoesPrinter(msg);
    NamesAndMethods(NameOf(m).value, m);
    DecNumber(id);
    assert Lookup(msg.headers, PLAYER_ID) == Some(Dec(id));
  }

  // ----- What the headers say

  lemma {:induction false} LookupLast(hs: seq<Header>, h: Header, field: string)
    ensures Lookup(hs + [h], field) ==
      if Lookup(hs, field).Some? then Lookup(hs, field) else if h.field == field then Some(h.value) else None
  {
    if hs == [] {
      assert hs + [h] == [h] && [h][1..] == [];
    } else {
      LookupLast(hs[1..], h, field);
      assert (hs + [h])[1..] == hs[1..] + [h];
    }
  }

  /** Among headers of different names each one that passes the check is found, whatever else was refused. */
  lemma {:induction false} AcceptedIsFound(hs: seq<Header>, field: string)
    requires forall i, j :: 0 <= i < j < |hs| ==> hs[i].field != hs[j].field
    ensures forall i :: 0 <= i < |hs| && hs[i].field == field && LegalHeader(hs[i]) ==>
      Lookup(Accepted(hs), field) == Some(hs[i].value)
    ensures (forall i :: 0 <= i < |hs| ==> hs[i].field != field) ==> Lookup(Accepted(hs), field) == None
  {
    hide LegalHeader;
    if hs != [] {
      var n := |hs| - 1;
      AcceptedIsFound(hs[..n], field);
      LookupLast(Accepted(hs[..n]), hs[n], field);
      assert Accepted(hs[..n]) + [] == Accepted(hs[..n]);
    }
  }

  lemma OfferedApart(id: nat, contentType: string, date: string, body: string)
    ensures var hs := Offered(id, contentType, date, body);
            forall i, j :: 0 <= i < j < |hs| ==> hs[i].field != hs[j].field
  {
    hide Dec;
    assert PLAYER_ID[0] == 'P' && "Content-Type"[0] == 'C' && "Date"[0] == 'D' && "Content-Length"[0] == 'C';
    assert "Content-Type"[8] == 'T' && "Content-Length"[8] == 'L';
  }

  lemma NameIsLegal(value: string)
    requires '\r' !in value && '\n' !in value
    ensures LegalHeader(Header("Content-Type", value)) && LegalHeader(Header("Date", value)) &&
      LegalHeader(Header("Content-Length", value))
  {
  }

  /** Every request states its path, the length of its body, and, if they hold no line break, its type and date. */
  lemma RequestSays(m: Method, id: nat, contentType: string, date: string, body: string)
    requires m != Unknown
    ensures var msg := Request(m, id, contentType, date, body);
            && msg.token2 == "/room/0/player/" + Dec(id) && msg.token3 == "HTTTP/1.0"
            && Lookup(msg.headers, "Content-Length") == Some(Dec(|body|))
            && ('\r' !in contentType && '\n' !in contentType ==>
               Lookup(msg.headers, "Content-Type") == Some(contentType))
            && ('\r' !in date && '\n' !in date ==> Lookup(msg.headers, "Date") == Some(date))
  {
    hide Dec, LegalHeader, Lookup, NameOf, Accepted;
    var hs := Offered(id, contentType, date, body);
    OfferedApart(id, contentType, date, body);
    DecDigits(|body|);
    DigitsAreLegal(Dec(|body|));
    NameIsLegal(Dec(|body|));
    AcceptedIsFound(hs, "Content-Length");
    assert hs[3].field == "Content-Length" && hs[1].field == "Content-Type" && hs[2].field == "Date";
    AcceptedIsFound(hs, "Content-Type");
    AcceptedIsFound(hs, "Date");
    if '\r' !in contentType && '\n' !in contentType {
      NameIsLegal(contentType);
    }
    if '\r' !in date && '\n' !in date {
      NameIsLegal(date);
    }
  }
}
