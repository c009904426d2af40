/** DNS query parsing and the upstream response walker (`wire.rs`). */
module Wire {
  import opened Common
  import opened Bytes
  import opened DnsNames
  import opened WireNames
  import opened Edns

  const HEADER_LEN: nat := 12
  const TYPE_CNAME: u16 := 5
  const TYPE_SOA: u16 := 6
  const RCODE_NOERROR: byte := 0
  const RCODE_NXDOMAIN: byte := 3

  // ----- queries

  datatype Query = Query(
    id: u16, flags: u16, qname: seq<byte>, key: seq<byte>, qtype: u16, qclass: u16, questionEnd: nat,
    opt: Option<OptView>)

  datatype ParseError = TooShort | FormErr | NotImp | IsResponse

  datatype QueryResult = Accepted(query: Query) | Refused(error: ParseError)

  function QueryAt(buf: seq<byte>, n: Named, opt: Option<OptView>): Query
    requires HEADER_LEN <= n.end && n.end + 4 <= |buf|
  {
    Query(Be16(buf, 0), Be16(buf, 2), buf[HEADER_LEN..n.end], n.key, Be16(buf, n.end), Be16(buf, n.end + 2), n.end + 4,
          opt)
  }

  function ParseQuery(buf: seq<byte>): QueryResult {
    if |buf| < HEADER_LEN then Refused(TooShort)
    else if Be16(buf, 2) >= 0x8000 then Refused(IsResponse)
    else if Be16(buf, 2) / 0x800 % 16 != 0 then Refused(NotImp)
    else if Be16(buf, 4) != 1 || Be16(buf, 6) != 0 || Be16(buf, 8) != 0 || Be16(buf, 10) > 1 then Refused(FormErr)
    else
      match ReadName(buf, HEADER_LEN, false)
      case None => Refused(FormErr)
      case Some(n) =>
        var end := n.end + 4;
        if end > |buf| then Refused(FormErr)
        else if Be16(buf, 10) == 0 then
          if end == |buf| then Accepted(QueryAt(buf, n, None)) else Refused(FormErr)
        else
          match ParseOpt(buf[end..])
          case None => Refused(FormErr)
          case Some(p) =>
            if end + p.size == |buf| then Accepted(QueryAt(buf, n, Some(p.view))) else Refused(FormErr)
  }

  /** What every parsed query satisfies. */
  predicate QueryOk(q: Query) {
    && IsName(q.qname) && |q.qname| <= MAX_NAME_LEN && q.key == LowerSeq(q.qname)
    && q.questionEnd == HEADER_LEN + |q.qname| + 4
  }

  lemma ReadIsPlain(msg: seq<byte>, pos: nat)
    requires ReadName(msg, pos, false).Some?
    ensures var n := ReadName(msg, pos, false).value;
            && NameAt(msg, pos, n.end) && n.end - pos <= MAX_NAME_LEN && n.key == LowerSeq(msg[pos..n.end])
            && IsName(msg[pos..n.end])
  {
    var n := ReadName(msg, pos, false).value;
    assert ReadName(msg, pos, false) == Some(Named(n.key, n.end));
    ReadPlain(msg, pos, n.end);
    NameMoves(msg, pos, n.end, msg[pos..n.end], 0);
  }

  lemma ParsedQueryOk(buf: seq<byte>)
    requires ParseQuery(buf).Accepted?
    ensures QueryOk(ParseQuery(buf).query)
  {
    ReadIsPlain(buf, HEADER_LEN);
  }

  // ----- responses

  datatype Range = Range(start: nat, end: nat)

  datatype Info = Info(
    rcode: byte, tc: bool, minTtl: Option<u32>, negativeTtl: Option<u32>,
    ttlOffsets: seq<nat>, optRange: Option<Range>, cnames: seq<seq<byte>>, ancount: u16)

  datatype WalkResult = Walked(info: Info) | Unwalked(error: ParseError)

  /** The offset past the single question, when it is the expected one. */
  function QuestionEnd(msg: seq<byte>, key: seq<byte>, qtype: u16, qclass: u16): (r: Option<nat>)
    ensures r.Some? ==> HEADER_LEN + 5 <= r.value <= |msg|
  {
    if |msg| < HEADER_LEN || Be16(msg, 4) != 1 then None else
    match ReadName(msg, HEADER_LEN, false)
    case None => None
    case Some(n) =>
      if |msg| >= n.end + 4 && n.key == key && Be16(msg, n.end) == qtype && Be16(msg, n.end + 2) == qclass
      then Some(n.end + 4) else None
  }

  /** Section 8 of RFC 2181: a TTL with the top bit set is treated as zero. */
  function Capped(ttl: u32): u32 {
    if ttl > 0x7FFF_FFFF then 0 else ttl
  }

  /** A record's frame: its start, the end of its owner name, and its end. */
  datatype Frame = Frame(start: nat, nameEnd: nat, end: nat)

  predicate FrameOk(msg: seq<byte>, f: Frame) {
    f.start < f.nameEnd && f.nameEnd + 10 <= f.end <= |msg|
  }

  function FrameAt(msg: seq<byte>, pos: nat): (r: Option<Frame>)
    ensures r.Some? ==> r.value.start == pos && FrameOk(msg, r.value)
  {
    match ReadName(msg, pos, true)
    case None => None
    case Some(n) =>
      if n.end + 10 > |msg| then None else
      var end := n.end + 10 + Be16(msg, n.end + 8) as int;
      if end > |msg| then None else Some(Frame(pos, n.end, end))
  }

  function Least(m: Option<u32>, t: u32): u32 {
    if m.Some? && m.value < t then m.value else t
  }

  /** The RCODE after an OPT record. The extension is taken from octet 5 of the fixed part. */
  function Extended(rcode: byte, ext: byte): byte {
    if ext == 0 then rcode else if ext as int * 16 + rcode as int < 256 then ext * 16 + rcode else 255
  }

  function TakeOpt(msg: seq<byte>, section: nat, info: Info, f: Frame): Option<Info>
    requires FrameOk(msg, f)
  {
    if section != 2 || info.optRange.Some? then None
    else Some(info.(rcode := Extended(info.rcode, msg[f.nameEnd + 5]), optRange := Some(Range(f.start, f.end))))
  }

  function TakeAnswer(msg: seq<byte>, info: Info, f: Frame): Option<Info>
    requires FrameOk(msg, f)
  {
    var i := info.(minTtl := Some(Least(info.minTtl, Capped(Be32(msg, f.nameEnd + 4)))));
    if Be16(msg, f.nameEnd) != TYPE_CNAME then Some(i) else
    match ReadName(msg, f.nameEnd + 10, true)
    case None => None
    case Some(n) => if n.end != f.end then None else Some(i.(cnames := i.cnames + [n.key]))
  }

  function TakeSoa(msg: seq<byte>, info: Info, f: Frame): Option<Info>
    requires FrameOk(msg, f)
  {
    match ReadName(msg, f.nameEnd + 10, true)
    case None => None
    case Some(mname) =>
      match ReadName(msg, mname.end, true)
      case None => None
      case Some(rname) =>
        if rname.end + 20 != f.end then None else
        var minimum := Be32(msg, rname.end + 16);
        var ttl := Capped(Be32(msg, f.nameEnd + 4));
        Some(info.(negativeTtl := Some(Least(info.negativeTtl, if minimum < ttl then minimum else ttl))))
  }

  /** One record of `section` (0 answer, 1 authority, 2 additional). */
  function Take(msg: seq<byte>, section: nat, negative: bool, info: Info, f: Frame): Option<Info>
    requires FrameOk(msg, f)
  {
    if Be16(msg, f.nameEnd) == TYPE_OPT then TakeOpt(msg, section, info, f)
    else if f.nameEnd + 4 > 0xFFFF then None else
    var i := info.(ttlOffsets := info.ttlOffsets + [f.nameEnd + 4]);
    if section == 0 then TakeAnswer(msg, i, f)
    else if section == 1 && Be16(msg, f.nameEnd) == TYPE_SOA && negative then TakeSoa(msg, i, f)
    else Some(i)
  }

  datatype Progress = Progress(info: Info, pos: nat)

  function WalkSection(msg: seq<byte>, section: nat, negative: bool, count: nat, p: Progress): Option<Progress>
    decreases count
  {
    if count == 0 then Some(p) else
    match FrameAt(msg, p.pos)
    case None => None
    case Some(f) =>
      match Take(msg, section, negative, p.info, f)
      case None => None
      case Some(info) => WalkSection(msg, section, negative, count - 1, Progress(info, f.end))
  }

  function Begin(msg: seq<byte>, end: nat): Progress
    requires |msg| >= HEADER_LEN
  {
    Progress(Info(msg[3] % 16, msg[2] / 2 % 2 == 1, None, None, [], None, [], Be16(msg, 6)), end)
  }

  predicate Negative(msg: seq<byte>)
    requires |msg| >= HEADER_LEN
  {
    Be16(msg, 6) == 0 || msg[3] % 16 == RCODE_NXDOMAIN
  }

  /** The sections from `section` on. */
  function Sections(msg: seq<byte>, section: nat, at: Progress): Option<Progress>
    requires |msg| >= HEADER_LEN && section <= 3
    decreases 3 - section
  {
    if section == 3 then Some(at) else
    match WalkSection(msg, section, Negative(msg), Be16(msg, 6 + 2 * section), at)
    case None => None
    case Some(next) => Sections(msg, section + 1, next)
  }

  function WalkResponse(msg: seq<byte>, q: Query): WalkResult {
    if |msg| < HEADER_LEN then Unwalked(TooShort) else
    match QuestionEnd(msg, q.key, q.qtype, q.qclass)
    case None => Unwalked(FormErr)
    case Some(end) =>
      match Sections(msg, 0, Begin(msg, end))
      case None => Unwalked(FormErr)
      case Some(p) => if p.pos == |msg| then Walked(p.info) else Unwalked(FormErr)
  }

  method WalkRecords(msg: seq<byte>, section: nat, negative: bool, count: nat, p: Progress)
    returns (r: Option<Progress>)
    ensures r == WalkSection(msg, section, negative, count, p)
  {
    var at, left := p, count;
    while left > 0
      invariant WalkSection(msg, section, negative, count, p) == WalkSection(msg, section, negative, left, at)
    {
      var frame := FrameAt(msg, at.pos);
      if frame.None? {
        return None;
      }
      var info := Take(msg, section, negative, at.info, frame.value);
      if info.None? {
        return None;
      }
      at, left := Progress(info.value, frame.value.end), left - 1;
    }
    return Some(at);
  }

  method Walk(msg: seq<byte>, q: Query) returns (r: WalkResult)
    ensures r == WalkResponse(msg, q)
  {
    if |msg| < HEADER_LEN {
      return Unwalked(TooShort);
    }
    var end := QuestionEnd(msg, q.key, q.qtype, q.qclass);
    if end.None? {
      return Unwalked(FormErr);
    }
    var section, at := 0, Begin(msg, end.value);
    while section < 3
      invariant 0 <= section <= 3
      invariant Sections(msg, 0, Begin(msg, end.value)) == Sections(msg, section, at)
    {
      var next := WalkRecords(msg, section, Negative(msg), Be16(msg, 6 + 2 * section), at);
      if next.None? {
        return Unwalked(FormErr);
      }
      section, at := section + 1, next.value;
    }
    return if at.pos == |msg| then Walked(at.info) else Unwalked(FormErr);
  }
}
