/** DNS queries and responses (sections 4.1.1 to 4.1.4 of RFC 1035). */
module DnsMessage {
  import opened Buffers
  import opened Bytes
  import opened Options
  import opened DnsName

  const HEADER_SIZE: nat := 12
  const TYPE_A: u16 := 1
  const TYPE_CNAME: u16 := 5
  const RCODE_NAME_ERROR: nat := 3

  // ---- Queries -------------------------------------------------------------------------------

  /** A header: id, flags and the four counts. */
  function HeaderBytes(id: u16, flags: u16, qd: u16, an: u16, ns: u16, ar: u16): (b: seq<byte>)
    ensures |b| == HEADER_SIZE
  {
    SetU16(id) + SetU16(flags) + SetU16(qd) + SetU16(an) + SetU16(ns) + SetU16(ar)
  }

  /** A query for one name with recursion desired, class IN. */
  function Query(id: u16, h: seq<byte>, qtype: u16): seq<byte>
    requires WireLabels(Split(h))
  {
    HeaderBytes(id, 0x0100, 1, 0, 0, 0) + Wire(Split(h)) + SetU16(qtype) + SetU16(1)
  }

  lemma QueryLength(id: u16, h: seq<byte>, qtype: u16)
    requires Hostname(h)
    ensures WireLabels(Split(h)) && |Query(id, h, qtype)| == |h| + 18 <= MAX_PACKET
  {
    hide Split, Wire;
    WireLength(h);
  }

  /** The packet buffer holds a query as section 4.1 of RFC 1035 lays it out, octet by octet:
      the identifier, recursion desired, one question and no records; the name h, as the
      decoder reads it; the type; class IN. */
  predicate AsksFor(buf: seq<byte>, id: u16, h: seq<byte>, qtype: u16)
    requires HEADER_SIZE + |h| + 6 <= |buf|
  {
    var p := HEADER_SIZE + |h| + 2;
    && buf[0] as int * 256 + buf[1] as int == id
    && buf[2] == 1 && buf[3] == 0
    && buf[4] == 0 && buf[5] == 1
    && (forall i :: 6 <= i < HEADER_SIZE ==> buf[i] == 0)
    && Decode(buf, p + 4, HEADER_SIZE, MAX_NAME, [], 0, false, HEADER_SIZE) == Decoded(h, p, false)
    && buf[p] as int * 256 + buf[p + 1] as int == qtype
    && buf[p + 2] == 0 && buf[p + 3] == 1
  }

  lemma QueryAsks(buf: seq<byte>, id: u16, h: seq<byte>, qtype: u16)
    requires Hostname(h) && WireLabels(Split(h)) && |h| + 18 <= |buf|
    requires |Query(id, h, qtype)| == |h| + 18 && buf[..|h| + 18] == Query(id, h, qtype)
    ensures AsksFor(buf, id, h, qtype)
  {
    hide Split, Wire, Decode, GetU16;
    var header, name, tail := HeaderBytes(id, 0x0100, 1, 0, 0, 0), Wire(Split(h)), SetU16(qtype) + SetU16(1);
    WireLength(h);
    U16RoundTrip(id);
    U16RoundTrip(qtype);
    var q := Query(id, h, qtype);
    var p := HEADER_SIZE + |name|;
    assert q == header + name + tail;
    assert forall i :: 0 <= i < HEADER_SIZE ==> buf[i] == header[i];
    assert q[HEADER_SIZE..p] == name && buf[HEADER_SIZE..p] == q[HEADER_SIZE..p];
    assert forall i :: 0 <= i < 4 ==> buf[p + i] == tail[i];
    NameRoundTrip(h, buf, p + 4, HEADER_SIZE);
  }

  class Client {
    var transactionId: u16

    constructor ()
      ensures transactionId == 1
    {
      transactionId := 1;
    }

    /** Every query gets the next 16-bit identifier. */
    method GenerateId() returns (id: u16)
      modifies this
      ensures id == old(transactionId) && transactionId == ToU16(id as int + 1)
    {
      id := transactionId;
      transactionId := ToU16(id as int + 1);
    }

    /** _dns_build_query; an identifier is used up even when the name is refused. */
    method BuildQuery(h: seq<byte>, qtype: u16, buffer: array<byte>) returns (r: Result<nat>)
      requires buffer.Length == MAX_PACKET
      modifies this, buffer
      ensures transactionId == ToU16(old(transactionId) as int + 1)
      ensures !Hostname(h) ==> r == Err(INVALID_PARAM)
      ensures Hostname(h) ==>
                && r == Ok(|h| + 18) && WireLabels(Split(h))
                && WrittenFrom(buffer[..], old(buffer[..]), 0, Query(old(transactionId), h, qtype))
                && AsksFor(buffer[..], old(transactionId), h, qtype)
    {
      hide Split, Wire, WrittenFrom, SetU16, HeaderBytes, AsksFor;
      ghost var before := buffer[..];
      UntouchedYet(before, 0);
      var id := GenerateId();
      var header := HeaderBytes(id, 0x0100, 1, 0, 0, 0);
      Append(buffer, 0, header, before, 0, []);
      assert [] + header == header;
      ghost var headed := buffer[..];
      var name := EncodeName(h, buffer, HEADER_SIZE);
      if name.Err? { return name; }
      NameAfter(headed, buffer[..], before, header, Wire(Split(h)));
      WireLength(h);
      var pos := HEADER_SIZE + name.value;
      ghost var done := header + Wire(Split(h));
      Append(buffer, pos, SetU16(qtype), before, 0, done);
      Append(buffer, pos + 2, SetU16(1), before, 0, done + SetU16(qtype));
      WrittenPrefix(buffer[..], before, Query(id, h, qtype));
      QueryAsks(buffer[..], id, h, qtype);
      r := Ok(pos + 4);
    }
  }

  lemma WrittenPrefix(now: seq<byte>, before: seq<byte>, bytes: seq<byte>)
    requires WrittenFrom(now, before, 0, bytes)
    ensures now[..|bytes|] == bytes
  {
  }

  lemma NameAfter(mid: seq<byte>, now: seq<byte>, before: seq<byte>, header: seq<byte>, name: seq<byte>)
    requires WrittenFrom(mid, before, 0, header) && WrittenFrom(now, mid, |header|, name)
    ensures WrittenFrom(now, before, 0, header + name)
  {
    OneMore(mid, now, before, 0, header, name);
  }

  // ---- Responses ---------------------------------------------------------------------------------

  datatype Answer = Answer(ttl: nat, ip: seq<byte>)
  /** No name: decoding it reads behind the buffer, so that the source does not determine it. */
  datatype Cname = Cname(ttl: nat, name: Option<seq<byte>>)
  datatype Response = Response(id: u16, flags: u16, qd: u16, an: u16, ns: u16, ar: u16,
                               answer: Option<Answer>, cname: Option<Cname>)

  function U32(b: seq<byte>): (v: nat)
    requires |b| == 4
    ensures v < 0x100000000
  {
    b[0] as int * 0x1000000 + b[1] as int * 0x10000 + b[2] as int * 0x100 + b[3] as int
  }

  function SetU32(v: nat): (b: seq<byte>)
    ensures |b| == 4
  {
    [(v / 0x1000000 % 256) as byte, (v / 0x10000 % 256) as byte, (v / 0x100 % 256) as byte, (v % 256) as byte]
  }

  function U16At(buf: seq<byte>, pos: nat): u16
    requires pos + 2 <= |buf|
  {
    GetU16(buf[pos..pos + 2])
  }

  /** The characters before the first zero. */
  function CString(s: seq<byte>): seq<byte> {
    if s == [] || s[0] == 0 then [] else [s[0]] + CString(s[1..])
  }

  lemma {:induction false} CStringWhole(s: seq<byte>)
    requires forall i :: 0 <= i < |s| ==> s[i] != 0
    ensures CString(s) == s
  {
    if s != [] { CStringWhole(s[1..]); }
  }

  /** The name an alias record at offset at points to, as the caller gets it. */
  function Target(buf: seq<byte>, len: nat, at: nat): Option<seq<byte>>
    requires len <= |buf|
  {
    var d := Decode(buf, len, at, MAX_NAME, [], 0, false, at);
    if d.escapes then None else Some(CString(d.text))
  }

  /** What one answer record adds to the response. */
  function Noted(buf: seq<byte>, len: nat, resp: Response, typ: u16, ttl: nat, at: nat, n: nat): Response
    requires at + n <= len <= |buf|
  {
    if typ == TYPE_A && n == 4 && resp.answer == None then
      resp.(answer := Some(Answer(ttl, buf[at..at + 4])))
    else if typ == TYPE_CNAME && resp.cname == None then
      resp.(cname := Some(Cname(ttl, Target(buf, len, at))))
    else resp
  }

  /** The answer records from the one numbered i on. */
  function ParseAnswers(buf: seq<byte>, len: nat, pos: nat, i: nat, resp: Response): Result<Response>
    requires len <= |buf| && i <= resp.an
    decreases resp.an - i
  {
    if i >= resp.an || pos >= len then Ok(resp)
    else
      var s := Skip(buf, len, pos);
      if s.Err? then Err(s.error)
      else if s.value + 10 > len then Err(FORMAT)
      else
        var p := s.value;
        var typ, ttl, n := U16At(buf, p), U32(buf[p + 4..p + 8]), U16At(buf, p + 8);
        if p + 10 + n > len then Err(FORMAT)
        else ParseAnswers(buf, len, p + 10 + n, i + 1, Noted(buf, len, resp, typ, ttl, p + 10, n))
  }

  function AfterQuestion(buf: seq<byte>, len: nat, qd: u16): Result<nat>
    requires HEADER_SIZE <= len <= |buf|
  {
    if qd == 0 then Ok(HEADER_SIZE)
    else
      var s := Skip(buf, len, HEADER_SIZE);
      if s.Err? then s else if s.value + 4 > len then Err(FORMAT) else Ok(s.value + 4)
  }

  function ParseResponse(buf: seq<byte>, len: nat): Result<Response>
    requires len <= |buf|
  {
    if len < HEADER_SIZE then Err(INVALID_PARAM)
    else
      var resp := Response(U16At(buf, 0), U16At(buf, 2), U16At(buf, 4), U16At(buf, 6), U16At(buf, 8), U16At(buf, 10),
                           None, None);
      var rcode := resp.flags % 16;
      if rcode != 0 then Err(if rcode == RCODE_NAME_ERROR then NAME_NOT_FOUND else SERVER_ERROR)
      else
        var q := AfterQuestion(buf, len, resp.qd);
        if q.Err? then Err(q.error) else ParseAnswers(buf, len, q.value, 0, resp)
  }

  method ReadU16(buf: seq<byte>, pos: nat) returns (v: u16)
    requires pos + 2 <= |buf|
    ensures v == U16At(buf, pos)
  {
    v := buf[pos] as int * 256 + buf[pos + 1] as int;
  }

  /** One answer record at its type field: what it adds, or an error. */
  method ReadRecord(buf: seq<byte>, len: nat, p: nat, resp: Response, nameBuffer: array<byte>)
      returns (r: Result<(Response, nat)>)
    requires len <= MAX_PACKET && len <= |buf| && nameBuffer.Length == MAX_NAME + 1
    modifies nameBuffer
    ensures r == if p + 10 > len || p + 10 + U16At(buf, p + 8) > len then Err(FORMAT)
                 else
                   var n := U16At(buf, p + 8);
                   Ok((Noted(buf, len, resp, U16At(buf, p), U32(buf[p + 4..p + 8]), p + 10, n), p + 10 + n))
  {
    hide Decode, GetU16;
    if p + 10 > len { return Err(FORMAT); }
    var pos := p;
    var typ := ReadU16(buf, pos);
    pos := pos + 2;
    pos := pos + 2;
    var ttl := U32(buf[pos..pos + 4]);
    pos := pos + 4;
    var n := ReadU16(buf, pos);
    pos := pos + 2;
    if pos + n > len { return Err(FORMAT); }
    var next := resp;
    if typ == TYPE_A && n == 4 && resp.answer == None {
      next := next.(answer := Some(Answer(ttl, buf[pos..pos + 4])));
    } else if typ == TYPE_CNAME && resp.cname == None {
      var after, escapes := DecodeName(buf, len, pos, nameBuffer, MAX_NAME + 1);
      var name: Option<seq<byte>> := None;
      if !escapes {
        var copied := CopyString(nameBuffer, Decode(buf, len, pos, MAX_NAME, [], 0, false, pos).text);
        name := Some(copied);
      }
      next := next.(cname := Some(Cname(ttl, name)));
    }
    r := Ok((next, pos + n));
  }

  /** The copy of a decoded name ends at its first zero octet. */
  method CopyString(name: array<byte>, ghost text: seq<byte>) returns (copied: seq<byte>)
    requires |text| < name.Length && name[..|text|] == text && name[|text|] == 0
    ensures copied == CString(text)
  {
    copied := [];
    var i := 0;
    while name[i] != 0
      invariant i <= |text| && copied + CString(text[i..]) == CString(text)
      decreases |text| - i
    {
      assert i < |text| && name[i] == text[i] by { assert i < |text| ==> name[..|text|][i] == text[i]; }
      assert text[i..][1..] == text[i + 1..];
      copied := copied + [name[i]];
      i := i + 1;
    }
    assert i < |text| ==> name[..|text|][i] == text[i];
    assert copied + [] == copied;
  }

  /** _dns_parse_response. */
  method Parse(buf: seq<byte>, len: nat, nameBuffer: array<byte>) returns (r: Result<Response>)
    requires len <= MAX_PACKET && len <= |buf| && nameBuffer.Length == MAX_NAME + 1
    modifies nameBuffer
    ensures r == ParseResponse(buf, len)
  {
    hide Decode, GetU16, Noted, Skip;
    if len < HEADER_SIZE { return Err(INVALID_PARAM); }
    var id := ReadU16(buf, 0);
    var flags := ReadU16(buf, 2);
    var qd := ReadU16(buf, 4);
    var an := ReadU16(buf, 6);
    var ns := ReadU16(buf, 8);
    var ar := ReadU16(buf, 10);
    var pos: nat := HEADER_SIZE;
    var resp := Response(id, flags, qd, an, ns, ar, None, None);
    var rcode := flags % 16;
    if rcode != 0 { return Err(if rcode == RCODE_NAME_ERROR then NAME_NOT_FOUND else SERVER_ERROR); }
    if qd > 0 {
      var s := SkipName(buf, len, pos);
      if s.Err? { return Err(s.error); }
      pos := s.value;
      if pos + 4 > len { return Err(FORMAT); }
      pos := pos + 4;
    }
    var i := 0;
    while i < an && pos < len
      invariant i <= an == resp.an
      invariant ParseAnswers(buf, len, pos, i, resp) == ParseResponse(buf, len)
      decreases an - i
    {
      var s := SkipName(buf, len, pos);
      if s.Err? { return Err(s.error); }
      var rr := ReadRecord(buf, len, s.value, resp, nameBuffer);
      if rr.Err? { return Err(rr.error); }
      NotedKeepsCount(buf, len, resp, U16At(buf, s.value), U32(buf[s.value + 4..s.value + 8]), s.value + 10,
                      U16At(buf, s.value + 8));
      resp, pos := rr.value.0, rr.value.1;
      i := i + 1;
    }
    r := Ok(resp);
  }

  lemma NotedKeepsCount(buf: seq<byte>, len: nat, resp: Response, typ: u16, ttl: nat, at: nat, n: nat)
    requires at + n <= len <= |buf|
    ensures Noted(buf, len, resp, typ, ttl, at, n).an == resp.an
  {
  }

  // ---- Any well-formed response is understood -------------------------------------------------------

  /** A resource record; its owner name is any name, compressed or not, as it stands on the
      wire. */
  datatype Record = Record(name: seq<byte>, typ: u16, cls: u16, ttl: nat, rdata: seq<byte>)

  /** Labels closed by a zero octet or by a pointer. */
  predicate NameBytes(b: seq<byte>)
    decreases |b|
  {
    && b != []
    && (if b[0] == 0 then |b| == 1
        else if b[0] as int >= 192 then |b| == 2
        else |b| > 1 + b[0] as int && NameBytes(b[1 + b[0] as int..]))
  }

  predicate WellFormed(r: Record) {
    NameBytes(r.name) && r.ttl < 0x100000000 && |r.rdata| < 65536
  }

  function RecordBytes(r: Record): seq<byte> {
    r.name + (SetU16(r.typ) + SetU16(r.cls) + SetU32(r.ttl) + SetU16(|r.rdata|)) + r.rdata
  }

  function RecordsBytes(rs: seq<Record>): seq<byte> {
    if rs == [] then [] else RecordBytes(rs[0]) + RecordsBytes(rs[1..])
  }

  /** A question; its name is any name as it stands on the wire. */
  datatype Question = Question(name: seq<byte>, qtype: u16, qclass: u16)

  function QuestionBytes(q: Option<Question>): seq<byte> {
    match q
    case None => []
    case Some(q) => q.name + (SetU16(q.qtype) + SetU16(q.qclass))
  }

  /** A response with one question or none: header, question, answers, and whatever follows. */
  function Message(id: u16, flags: u16, ns: u16, ar: u16, q: Option<Question>, rs: seq<Record>, rest: seq<byte>)
      : seq<byte>
    requires |rs| < 65536
  {
    HeaderBytes(id, flags, if q.Some? then 1 else 0, |rs|, ns, ar) + QuestionBytes(q) + RecordsBytes(rs) + rest
  }

  /** The first 4-byte address record. */
  function FirstA(rs: seq<Record>): Option<Answer> {
    if rs == [] then None
    else if rs[0].typ == TYPE_A && |rs[0].rdata| == 4 then Some(Answer(rs[0].ttl, rs[0].rdata))
    else FirstA(rs[1..])
  }

  /** The first alias record. */
  function FirstAlias(rs: seq<Record>): Option<Record> {
    if rs == [] then None
    else if rs[0].typ == TYPE_CNAME then Some(rs[0])
    else FirstAlias(rs[1..])
  }

  /** Where the data of the first alias record starts, the records standing at pos. */
  function AliasOffset(pos: nat, rs: seq<Record>): nat
    requires FirstAlias(rs).Some?
    decreases |rs|
  {
    if rs[0].typ == TYPE_CNAME then pos + |rs[0].name| + 10
    else AliasOffset(pos + |RecordBytes(rs[0])|, rs[1..])
  }

  /** What the response says about the first alias of the records standing at pos. */
  function AliasIn(buf: seq<byte>, len: nat, pos: nat, rs: seq<Record>): Option<Cname>
    requires len <= |buf|
  {
    match FirstAlias(rs)
    case None => None
    case Some(r) => Some(Cname(r.ttl, Target(buf, len, AliasOffset(pos, rs))))
  }

  /** A name, compressed or not, that the decoder can follow, that fits the name buffer and
      that holds no zero octet. */
  predicate ReadableName(buf: seq<byte>, len: nat, at: nat, ls: seq<Label>, hops: nat)
    requires len <= |buf|
  {
    && NameAt(buf, len, at, ls, hops) && hops < MAX_JUMPS && |Joined([], ls)| <= MAX_NAME
    && forall i :: 0 <= i < |Joined([], ls)| ==> Joined([], ls)[i] != 0
  }

  lemma {:induction false} SkipNameBytes(buf: seq<byte>, len: nat, at: nat, b: seq<byte>)
    requires NameBytes(b) && at + |b| <= len <= |buf| && buf[at..at + |b|] == b
    ensures SkipFrom(buf, len, at) == Ok(at + |b|) && Skip(buf, len, at) == Ok(at + |b|)
    decreases |b|
  {
    assert buf[at] == b[0];
    var k := 1 + b[0] as int;
    if 0 < b[0] as int < 192 {
      assert buf[at + k..at + |b|] == b[k..];
      SkipNameBytes(buf, len, at + k, b[k..]);
    }
  }

  lemma U32RoundTrip(v: nat)
    requires v < 0x100000000
    ensures U32(SetU32(v)) == v
  {
    assert v / 0x1000000 % 256 == v / 0x1000000;
    assert v == v / 0x1000000 * 0x1000000 + v / 0x10000 % 256 * 0x10000 + v / 0x100 % 256 * 0x100 + v % 256;
  }

  /** The fixed part of a record, read where the parser reads it. */
  lemma RecordFields(buf: seq<byte>, at: nat, r: Record)
    requires WellFormed(r) && at + |RecordBytes(r)| <= |buf| && buf[at..at + |RecordBytes(r)|] == RecordBytes(r)
    ensures var p := at + |r.name|;
            && |RecordBytes(r)| == |r.name| + 10 + |r.rdata|
            && buf[at..p] == r.name
            && U16At(buf, p) == r.typ && U32(buf[p + 4..p + 8]) == r.ttl && U16At(buf, p + 8) == |r.rdata|
            && buf[p + 10..p + 10 + |r.rdata|] == r.rdata
  {
    hide GetU16, SetU16, U32, SetU32, RecordBytes, NameBytes;
    FixedPart(r);
    var b, n := RecordBytes(r), |r.name|;
    U16RoundTrip(r.typ);
    U16RoundTrip(|r.rdata|);
    U32RoundTrip(r.ttl);
    SlicePart(buf, at, |b|, 0, n);
    SlicePart(buf, at, |b|, n, n + 2);
    SlicePart(buf, at, |b|, n + 4, n + 8);
    SlicePart(buf, at, |b|, n + 8, n + 10);
    SlicePart(buf, at, |b|, n + 10, n + 10 + |r.rdata|);
  }

  lemma FixedPart(r: Record)
    ensures var b, n := RecordBytes(r), |r.name|;
            && |b| == n + 10 + |r.rdata| && b[0..n] == r.name && b[n..n + 2] == SetU16(r.typ)
            && b[n + 4..n + 8] == SetU32(r.ttl) && b[n + 8..n + 10] == SetU16(|r.rdata|)
            && b[n + 10..n + 10 + |r.rdata|] == r.rdata
  {
    hide SetU16, SetU32;
  }

  /** The first address and the first alias, whichever the response has already. */
  function Both(resp: Response, a: Option<Answer>, c: Option<Cname>): Response {
    resp.(answer := if resp.answer == None then a else resp.answer,
          cname := if resp.cname == None then c else resp.cname)
  }

  /** If a readable name stands at offset at, it is the one the caller gets. */
  ghost predicate NameRead(buf: seq<byte>, len: nat, at: nat, name: Option<seq<byte>>)
    requires len <= |buf|
  {
    forall ls, hops :: ReadableName(buf, len, at, ls, hops) ==> name == Some(Joined([], ls))
  }

  lemma TargetRead(buf: seq<byte>, len: nat, at: nat, ls: seq<Label>, hops: nat)
    requires len <= |buf| && ReadableName(buf, len, at, ls, hops)
    ensures Target(buf, len, at) == Some(Joined([], ls))
  {
    hide Decode, Joined, NameAt, SkipFrom;
    DecodeResolves(buf, len, at, ls, hops, MAX_NAME, [], 0, false, at);
    CStringWhole(Joined([], ls));
  }

  lemma NotedRecord(buf: seq<byte>, len: nat, at: nat, r: Record, resp: Response)
    requires at + |r.rdata| <= len <= |buf| && buf[at..at + |r.rdata|] == r.rdata
    ensures Noted(buf, len, resp, r.typ, r.ttl, at, |r.rdata|)
            == Both(resp, if r.typ == TYPE_A && |r.rdata| == 4 then Some(Answer(r.ttl, r.rdata)) else None,
                    if r.typ == TYPE_CNAME then Some(Cname(r.ttl, Target(buf, len, at))) else None)
  {
    hide Target;
  }

  ghost predicate AllWellFormed(rs: seq<Record>) {
    forall i :: 0 <= i < |rs| ==> WellFormed(rs[i])
  }

  lemma RecordsSplit(buf: seq<byte>, at: nat, rs: seq<Record>)
    requires rs != [] && at + |RecordsBytes(rs)| <= |buf| && buf[at..at + |RecordsBytes(rs)|] == RecordsBytes(rs)
    ensures var n := |RecordBytes(rs[0])|;
            && |RecordsBytes(rs)| == n + |RecordsBytes(rs[1..])|
            && buf[at..at + n] == RecordBytes(rs[0])
            && buf[at + n..at + n + |RecordsBytes(rs[1..])|] == RecordsBytes(rs[1..])
  {
    hide RecordBytes;
    var b, n := RecordsBytes(rs), |RecordBytes(rs[0])|;
    assert b[0..n] == RecordBytes(rs[0]) && b[n..|b|] == RecordsBytes(rs[1..]);
    SlicePart(buf, at, |b|, 0, n);
    SlicePart(buf, at, |b|, n, |b|);
  }

  /** One record is read and the parser goes on behind it. */
  lemma AnswerStep(buf: seq<byte>, len: nat, pos: nat, i: nat, resp: Response, r: Record)
    requires len <= |buf| && WellFormed(r) && pos + |RecordBytes(r)| <= len && i < resp.an
    requires buf[pos..pos + |RecordBytes(r)|] == RecordBytes(r)
    ensures var at := pos + |r.name| + 10;
            && at + |r.rdata| == pos + |RecordBytes(r)| && buf[at..at + |r.rdata|] == r.rdata
            && ParseAnswers(buf, len, pos, i, resp)
               == ParseAnswers(buf, len, at + |r.rdata|, i + 1, Noted(buf, len, resp, r.typ, r.ttl, at, |r.rdata|))
  {
    hide Noted, RecordBytes, Skip, SkipFrom, U16At, U32, NameBytes;
    RecordFields(buf, pos, r);
    SkipNameBytes(buf, len, pos, r.name);
    NotedKeepsCount(buf, len, resp, r.typ, r.ttl, pos + |r.name| + 10, |r.rdata|);
  }

  lemma {:induction false} AnswersUnderstood(buf: seq<byte>, len: nat, pos: nat, i: nat, resp: Response,
                                             rs: seq<Record>)
    requires len <= |buf| && AllWellFormed(rs) && i + |rs| == resp.an
    requires pos + |RecordsBytes(rs)| <= len && buf[pos..pos + |RecordsBytes(rs)|] == RecordsBytes(rs)
    ensures ParseAnswers(buf, len, pos, i, resp) == Ok(Both(resp, FirstA(rs), AliasIn(buf, len, pos, rs)))
    decreases |rs|
  {
    hide RecordBytes, RecordsBytes, Noted, ParseAnswers, Both, AliasIn, AllWellFormed, Target;
    if rs == [] {
      NoMoreAnswers(buf, len, pos, i, resp);
    } else {
      var r := rs[0];
      RecordsSplit(buf, pos, rs);
      FirstWellFormed(rs);
      AnswerStep(buf, len, pos, i, resp, r);
      var at := pos + |r.name| + 10;
      var next := Noted(buf, len, resp, r.typ, r.ttl, at, |r.rdata|);
      NotedRecord(buf, len, at, r, resp);
      NotedKeepsCount(buf, len, resp, r.typ, r.ttl, at, |r.rdata|);
      BothStep(buf, len, pos, resp, next, rs);
      AnswersUnderstood(buf, len, at + |r.rdata|, i + 1, next, rs[1..]);
    }
  }

  lemma NoMoreAnswers(buf: seq<byte>, len: nat, pos: nat, i: nat, resp: Response)
    requires len <= |buf| && i == resp.an
    ensures ParseAnswers(buf, len, pos, i, resp) == Ok(Both(resp, FirstA([]), AliasIn(buf, len, pos, [])))
  {
  }

  lemma FirstWellFormed(rs: seq<Record>)
    requires AllWellFormed(rs) && rs != []
    ensures WellFormed(rs[0]) && AllWellFormed(rs[1..])
  {
    hide WellFormed;
    assert forall i :: 0 <= i < |rs[1..]| ==> rs[1..][i] == rs[i + 1];
  }

  /** Taking note of the first record and then of the rest is taking note of all. */
  lemma BothStep(buf: seq<byte>, len: nat, pos: nat, resp: Response, next: Response, rs: seq<Record>)
    requires len <= |buf| && rs != []
    requires var r := rs[0];
             next == Both(resp, if r.typ == TYPE_A && |r.rdata| == 4 then Some(Answer(r.ttl, r.rdata)) else None,
                          if r.typ == TYPE_CNAME then Some(Cname(r.ttl, Target(buf, len, pos + |r.name| + 10)))
                          else None)
    ensures Both(next, FirstA(rs[1..]), AliasIn(buf, len, pos + |RecordBytes(rs[0])|, rs[1..]))
            == Both(resp, FirstA(rs), AliasIn(buf, len, pos, rs))
  {
    hide Target, RecordBytes;
  }

  lemma HeaderFields(id: u16, flags: u16, qd: u16, an: u16, ns: u16, ar: u16, rest: seq<byte>)
    ensures var b := HeaderBytes(id, flags, qd, an, ns, ar) + rest;
            && U16At(b, 0) == id && U16At(b, 2) == flags && U16At(b, 4) == qd
            && U16At(b, 6) == an && U16At(b, 8) == ns && U16At(b, 10) == ar
  {
    hide GetU16, SetU16;
    var b := HeaderBytes(id, flags, qd, an, ns, ar) + rest;
    U16RoundTrip(id);
    U16RoundTrip(flags);
    U16RoundTrip(qd);
    U16RoundTrip(an);
    U16RoundTrip(ns);
    U16RoundTrip(ar);
    assert b[0..2] == SetU16(id) && b[2..4] == SetU16(flags) && b[4..6] == SetU16(qd);
    assert b[6..8] == SetU16(an) && b[8..10] == SetU16(ns) && b[10..12] == SetU16(ar);
  }

  lemma MessageParts(buf: seq<byte>, header: seq<byte>, asked: seq<byte>, answers: seq<byte>, rest: seq<byte>)
    requires |header| == HEADER_SIZE && |buf| >= |header + asked + answers + rest|
    requires buf[..|header + asked + answers + rest|] == header + asked + answers + rest
    ensures var q := HEADER_SIZE + |asked|;
            && buf[..HEADER_SIZE] == header && buf[HEADER_SIZE..q] == asked && buf[q..q + |answers|] == answers
            && |header + asked + answers + rest| == q + |answers| + |rest|
  {
    var m := header + asked + answers + rest;
    var q := HEADER_SIZE + |asked|;
    assert m[0..HEADER_SIZE] == header && m[HEADER_SIZE..q] == asked && m[q..q + |answers|] == answers;
    assert buf[0..|m|] == m;
    SlicePart(buf, 0, |m|, 0, HEADER_SIZE);
    SlicePart(buf, 0, |m|, HEADER_SIZE, q);
    SlicePart(buf, 0, |m|, q, q + |answers|);
  }

  lemma QuestionSkipped(buf: seq<byte>, len: nat, q: Option<Question>)
    requires HEADER_SIZE + |QuestionBytes(q)| <= len <= |buf| && (q.Some? ==> NameBytes(q.value.name))
    requires buf[HEADER_SIZE..HEADER_SIZE + |QuestionBytes(q)|] == QuestionBytes(q)
    ensures AfterQuestion(buf, len, if q.Some? then 1 else 0) == Ok(HEADER_SIZE + |QuestionBytes(q)|)
  {
    hide Skip, SkipFrom, SetU16, NameBytes;
    if q.Some? {
      SlicePart(buf, HEADER_SIZE, |QuestionBytes(q)|, 0, |q.value.name|);
      SkipNameBytes(buf, len, HEADER_SIZE, q.value.name);
    }
  }

  /** Every well-formed response with at most one question and response code 0 is understood:
      the address and time to live of the first 4-byte address record, presence and time to live
      of the first alias record, and what is absent is reported absent. The name of the alias is
      the one that stands in the packet, if the decoder can follow it. */
  lemma {:induction false} ResponseUnderstood(buf: seq<byte>, len: nat, id: u16, flags: u16, ns: u16, ar: u16,
                                              q: Option<Question>, rs: seq<Record>, rest: seq<byte>)
    requires len <= |buf| && |rs| < 65536
    requires var m := Message(id, flags, ns, ar, q, rs, rest); len == |m| && buf[..len] == m
    requires flags % 16 == 0 && (q.Some? ==> NameBytes(q.value.name)) && AllWellFormed(rs)
    ensures var r := ParseResponse(buf, len);
            && r.Ok?
            && r.value == Response(id, flags, if q.Some? then 1 else 0, |rs|, ns, ar, FirstA(rs), r.value.cname)
            && (r.value.cname.Some? <==> FirstAlias(rs).Some?)
            && (FirstAlias(rs).Some? ==>
                  && r.value.cname.value.ttl == FirstAlias(rs).value.ttl
                  && NameRead(buf, len, AliasOffset(HEADER_SIZE + |QuestionBytes(q)|, rs), r.value.cname.value.name))
  {
    hide HeaderBytes, RecordsBytes, ParseAnswers, NameBytes, AfterQuestion, GetU16, SetU16, Target, ReadableName,
         FirstA, FirstAlias, AliasOffset, QuestionBytes;
    var qd := if q.Some? then 1 else 0;
    var answers := RecordsBytes(rs);
    MessageParts(buf, HeaderBytes(id, flags, qd, |rs|, ns, ar), QuestionBytes(q), answers, rest);
    HeaderIs(buf, len, id, flags, qd, |rs|, ns, ar);
    QuestionSkipped(buf, len, q);
    var pos := HEADER_SIZE + |QuestionBytes(q)|;
    AnswersUnderstood(buf, len, pos, 0, Response(id, flags, qd, |rs|, ns, ar, None, None), rs);
    if FirstAlias(rs).Some? {
      forall ls, hops | ReadableName(buf, len, AliasOffset(pos, rs), ls, hops)
        ensures Target(buf, len, AliasOffset(pos, rs)) == Some(Joined([], ls))
      {
        TargetRead(buf, len, AliasOffset(pos, rs), ls, hops);
      }
    }
  }

  /** The data of the first alias record stands at AliasOffset. */
  lemma {:induction false} AliasStands(buf: seq<byte>, pos: nat, rs: seq<Record>)
    requires FirstAlias(rs).Some? && AllWellFormed(rs)
    requires pos + |RecordsBytes(rs)| <= |buf| && buf[pos..pos + |RecordsBytes(rs)|] == RecordsBytes(rs)
    ensures var at, d := AliasOffset(pos, rs), FirstAlias(rs).value.rdata;
            at + |d| <= pos + |RecordsBytes(rs)| && buf[at..at + |d|] == d
    decreases |rs|
  {
    hide RecordBytes, RecordsBytes, AllWellFormed;
    RecordsSplit(buf, pos, rs);
    FirstWellFormed(rs);
    RecordFields(buf, pos, rs[0]);
    if rs[0].typ != TYPE_CNAME { AliasStands(buf, pos + |RecordBytes(rs[0])|, rs[1..]); }
  }

  /** An uncompressed alias target is a readable name. */
  lemma PlainAlias(buf: seq<byte>, len: nat, pos: nat, rs: seq<Record>, ls: seq<Label>)
    requires FirstAlias(rs).Some? && AllWellFormed(rs) && pos + |RecordsBytes(rs)| <= len <= |buf|
    requires buf[pos..pos + |RecordsBytes(rs)|] == RecordsBytes(rs)
    requires WireLabels(ls) && FirstAlias(rs).value.rdata == Wire(ls) && |Joined([], ls)| <= MAX_NAME
    requires forall i :: 0 <= i < |Joined([], ls)| ==> Joined([], ls)[i] != 0
    ensures ReadableName(buf, len, AliasOffset(pos, rs), ls, 0)
  {
    hide Wire, Joined, NameAt, SkipFrom, RecordsBytes, AliasOffset, FirstAlias;
    AliasStands(buf, pos, rs);
    WireIsName(buf, len, AliasOffset(pos, rs), ls);
  }

  lemma HeaderIs(buf: seq<byte>, len: nat, id: u16, flags: u16, qd: u16, an: u16, ns: u16, ar: u16)
    requires HEADER_SIZE <= len <= |buf| && buf[..HEADER_SIZE] == HeaderBytes(id, flags, qd, an, ns, ar)
    ensures U16At(buf, 0) == id && U16At(buf, 2) == flags && U16At(buf, 4) == qd
    ensures U16At(buf, 6) == an && U16At(buf, 8) == ns && U16At(buf, 10) == ar
  {
    hide HeaderBytes, GetU16;
    HeaderFields(id, flags, qd, an, ns, ar, buf[HEADER_SIZE..]);
    assert buf == HeaderBytes(id, flags, qd, an, ns, ar) + buf[HEADER_SIZE..];
  }

  // ---- Any other response is refused ----------------------------------------------------------------

  lemma {:induction false} AnswerErrors(buf: seq<byte>, len: nat, pos: nat, i: nat, resp: Response)
    requires len <= |buf| && i <= resp.an
    ensures var r := ParseAnswers(buf, len, pos, i, resp); r.Err? ==> r.error == FORMAT
    decreases resp.an - i
  {
    hide SkipFrom, U16At, U32, Noted;
    if i < resp.an && pos < len {
      SkipErrors(buf, len, pos);
      var s := Skip(buf, len, pos);
      if s.Ok? && s.value + 10 <= len && s.value + 10 + U16At(buf, s.value + 8) <= len {
        var p, n := s.value, U16At(buf, s.value + 8);
        var typ, ttl := U16At(buf, p), U32(buf[p + 4..p + 8]);
        NotedKeepsCount(buf, len, resp, typ, ttl, p + 10, n);
        AnswerErrors(buf, len, p + 10 + n, i + 1, Noted(buf, len, resp, typ, ttl, p + 10, n));
      }
    }
  }

  lemma {:induction false} SkipErrors(buf: seq<byte>, len: nat, pos: nat)
    requires pos < len <= |buf|
    ensures SkipFrom(buf, len, pos).Err? ==> SkipFrom(buf, len, pos).error == FORMAT
    decreases len - pos
  {
    var n := buf[pos] as int;
    if 0 < n < 192 && pos + 1 + n < len { SkipErrors(buf, len, pos + 1 + n); }
  }

  /** The response code, the low four bits of octet 3, decides which error is reported: 3 means
      that the name does not exist, every other code but 0 that the server failed, and neither
      is reported for a response with code 0. */
  lemma ResponseCodes(buf: seq<byte>, len: nat)
    requires len <= |buf|
    ensures ParseResponse(buf, len) == Err(NAME_NOT_FOUND) <==> len >= 12 && buf[3] as int % 16 == 3
    ensures ParseResponse(buf, len) == Err(SERVER_ERROR) <==>
            len >= 12 && buf[3] as int % 16 != 0 && buf[3] as int % 16 != 3
    ensures len < 12 ==> ParseResponse(buf, len) == Err(INVALID_PARAM)
  {
    hide ParseAnswers, SkipFrom;
    if len >= 12 {
      FlagsLow(buf);
      if len > HEADER_SIZE { SkipErrors(buf, len, HEADER_SIZE); }
      var q := AfterQuestion(buf, len, U16At(buf, 4));
      if q.Ok? {
        AnswerErrors(buf, len, q.value, 0,
                     Response(U16At(buf, 0), U16At(buf, 2), U16At(buf, 4), U16At(buf, 6), U16At(buf, 8), U16At(buf, 10),
                              None, None));
      }
    }
  }

  lemma FlagsLow(buf: seq<byte>)
    requires |buf| >= 4
    ensures U16At(buf, 2) % 16 == buf[3] as int % 16
  {
    var x, y := buf[2] as int, buf[3] as int;
    assert buf[2..4][0] == buf[2] && buf[2..4][1] == buf[3];
    AddMultiple(y, 16 * x, 16);
  }

  /** The packet ends inside a name: it is found malformed, or its end lies behind the packet. */
  lemma {:induction false} SkipCut(buf: seq<byte>, len: nat, at: nat, b: seq<byte>)
    requires NameBytes(b) && at < len <= |buf| && len < at + |b| && buf[at..len] == b[..len - at]
    ensures var s := SkipFrom(buf, len, at); s == Err(FORMAT) || (s.Ok? && s.value > len)
    decreases |b|
  {
    assert buf[at] == b[0];
    var k := 1 + b[0] as int;
    if 0 < b[0] as int < 192 && at + k < len {
      assert buf[at + k..len] == b[k..][..len - (at + k)];
      SkipCut(buf, len, at + k, b[k..]);
    }
  }

  /** A response that announces one more record than is there in full is malformed, wherever in
      the record the packet ends. */
  lemma TruncatedRefused(buf: seq<byte>, len: nat, pos: nat, i: nat, resp: Response, r: Record)
    requires len <= |buf| && WellFormed(r) && i < resp.an
    requires pos < len < pos + |RecordBytes(r)| && buf[pos..len] == RecordBytes(r)[..len - pos]
    ensures ParseAnswers(buf, len, pos, i, resp) == Err(FORMAT)
  {
    hide Noted, NameBytes, SkipFrom, U32, SetU32, GetU16, SetU16;
    var n, k := |r.name|, len - pos;
    FixedPart(r);
    if k < n {
      assert buf[pos..len] == r.name[..k];
      SkipCut(buf, len, pos, r.name);
    } else {
      assert buf[pos..pos + n] == buf[pos..len][..n] == r.name;
      SkipNameBytes(buf, len, pos, r.name);
      if k >= n + 10 {
        SlicePart(buf, pos, k, n + 8, n + 10);
        SlicePart(RecordBytes(r), 0, k, n + 8, n + 10);
        U16RoundTrip(|r.rdata|);
      }
    }
  }

  // ---- A response that makes the decoder read behind its buffer ------------------------------------

  /** An alias whose target is a pointer to the last octet of the buffer. */
  const EDGE_ALIAS: Record := Record([0], TYPE_CNAME, 1, 60, [193, 255])

  /** Filler after the answer, the last octet opening a pointer. */
  function EdgeRest(): (b: seq<byte>)
    ensures |b| == 482 && b[481] == 192
  {
    seq(481, _ => 0) + [192]
  }

  /** A response without error that fills the packet buffer. */
  function EdgeMessage(): seq<byte> {
    Message(1, 0x8180, 0, 0, Some(Question([0], TYPE_A, 1)), [EDGE_ALIAS], EdgeRest())
  }

  lemma EdgeParts()
    ensures |RecordsBytes([EDGE_ALIAS])| == 13 && |EdgeMessage()| == MAX_PACKET && EdgeMessage()[511] == 192
    ensures WellFormed(EDGE_ALIAS) && NameBytes([0]) && FirstA([EDGE_ALIAS]) == None
    ensures FirstAlias([EDGE_ALIAS]) == Some(EDGE_ALIAS) && AliasOffset(17, [EDGE_ALIAS]) == 28
  {
    hide HeaderBytes, EdgeRest, SetU16, SetU32;
    assert [EDGE_ALIAS][1..] == [] && RecordsBytes([]) == [];
    assert |RecordBytes(EDGE_ALIAS)| == 13;
  }

  /** The target: one pointer, and the decoder stands on the last octet. */
  lemma EdgeTarget(buf: seq<byte>)
    requires |buf| == MAX_PACKET && buf[28] == 193 && buf[29] == 255 && buf[511] == 192
    ensures Target(buf, MAX_PACKET, 28) == None
  {
    hide Decode;
    DecodeJumps(buf, MAX_PACKET, 28, MAX_NAME, [], 0, false, 28);
    DecodeOver(buf, MAX_PACKET, 511, MAX_NAME, [], 1, true, 30);
  }

  /** It happens in the buffer of the only caller: a well-formed response whose alias the parser
      accepts although decoding its name reads behind the buffer. */
  lemma ResponseEscapes()
    ensures |EdgeMessage()| == MAX_PACKET
    ensures ParseResponse(EdgeMessage(), MAX_PACKET) == Ok(Response(1, 0x8180, 1, 1, 0, 0, None, Some(Cname(60, None))))
  {
    hide HeaderBytes, RecordsBytes, EdgeRest, NameBytes, Target, FirstA, FirstAlias, AliasOffset, WellFormed, SetU16,
         ParseAnswers, GetU16, Skip;
    EdgeParts();
    var buf, rs := EdgeMessage(), [EDGE_ALIAS];
    var q := Some(Question([0], TYPE_A, 1));
    assert buf[..MAX_PACKET] == buf && |QuestionBytes(q)| == 5;
    MessageParts(buf, HeaderBytes(1, 0x8180, 1, 1, 0, 0), QuestionBytes(q), RecordsBytes(rs), EdgeRest());
    HeaderIs(buf, MAX_PACKET, 1, 0x8180, 1, 1, 0, 0);
    QuestionSkipped(buf, MAX_PACKET, q);
    assert AllWellFormed(rs);
    AnswersUnderstood(buf, MAX_PACKET, 17, 0, Response(1, 0x8180, 1, 1, 0, 0, None, None), rs);
    AliasStands(buf, 17, rs);
    assert buf[28..30] == [193, 255];
    assert buf[28] == buf[28..30][0] && buf[29] == buf[28..30][1];
    EdgeTarget(buf);
  }
}
