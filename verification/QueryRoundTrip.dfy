/** A query written from its parts parses back to them (`wire.rs`, `edns.rs`). */
module QueryRoundTrip {
  import opened Common
  import opened Bytes
  import opened DnsNames
  import opened WireNames
  import opened Edns
  import opened Wire

  function QueryHeader(id: u16, flags: u16, ar: u16): (s: seq<byte>)
    ensures |s| == HEADER_LEN
  {
    U16(id) + U16(flags) + U16(1) + U16(0) + U16(0) + U16(ar)
  }

  /** One question and perhaps an OPT record. */
  function QueryBytes(id: u16, flags: u16, name: seq<byte>, qtype: u16, qclass: u16, opt: Option<ReplyOpt>): seq<byte>
    requires opt.Some? ==> OptOk(opt.value)
  {
    QueryHeader(id, flags, if opt.Some? then 1 else 0) + (name + (U16(qtype) + U16(qclass) + OptBytesOf(opt)))
  }

  lemma QueryHeaderReads(id: u16, flags: u16, ar: u16, rest: seq<byte>)
    ensures var b := QueryHeader(id, flags, ar) + rest;
            && Be16(b, 0) == id && Be16(b, 2) == flags && Be16(b, 4) == 1 && Be16(b, 6) == 0 && Be16(b, 8) == 0
            && Be16(b, 10) == ar
  {
    var h, b := QueryHeader(id, flags, ar), QueryHeader(id, flags, ar) + rest;
    assert forall k :: 0 <= k < HEADER_LEN ==> b[k] == h[k];
    var i, f, r := U16(id), U16(flags), U16(ar);
    assert h[0] == i[0] && h[1] == i[1] && h[2] == f[0] && h[3] == f[1] && h[10] == r[0] && h[11] == r[1];
  }

  lemma TailReads(head: seq<byte>, name: seq<byte>, qtype: u16, qclass: u16, rest: seq<byte>)
    requires |head| == HEADER_LEN
    ensures var b := head + (name + (U16(qtype) + U16(qclass) + rest)); var end := HEADER_LEN + |name|;
            && b[HEADER_LEN..end] == name && Be16(b, end) == qtype && Be16(b, end + 2) == qclass && b[end + 4..] == rest
  {
    var t, c := U16(qtype), U16(qclass);
    var b, end := head + (name + (t + c + rest)), HEADER_LEN + |name|;
    assert b[end] == t[0] && b[end + 1] == t[1] && b[end + 2] == c[0] && b[end + 3] == c[1];
    assert b[HEADER_LEN..end] == name;
    assert b[end + 4..] == rest;
  }

  lemma NameReads(b: seq<byte>, name: seq<byte>)
    requires IsName(name) && |name| <= MAX_NAME_LEN && HEADER_LEN + |name| <= |b|
             && b[HEADER_LEN..HEADER_LEN + |name|] == name
    ensures ReadName(b, HEADER_LEN, false) == Some(Named(LowerSeq(name), HEADER_LEN + |name|))
  {
    var s := b[HEADER_LEN..HEADER_LEN + |name|];
    forall k | 0 <= k < |name|
      ensures name[k] == b[HEADER_LEN + (k - 0)]
    {
      assert s[k] == b[HEADER_LEN + k];
    }
    NameMoves(name, 0, |name|, b, HEADER_LEN);
    ReadPlain(b, HEADER_LEN, HEADER_LEN + |name|);
  }

  /** Parsing, from what stands where. */
  lemma PartsParse(b: seq<byte>, name: seq<byte>, qtype: u16, qclass: u16, view: Option<OptView>, rest: seq<byte>)
    requires |b| == HEADER_LEN + |name| + 4 + |rest|
    requires Be16(b, 4) == 1 && Be16(b, 6) == 0 && Be16(b, 8) == 0 && Be16(b, 10) == (if view.Some? then 1 else 0)
    requires b[HEADER_LEN..HEADER_LEN + |name|] == name && b[HEADER_LEN + |name| + 4..] == rest
    requires Be16(b, HEADER_LEN + |name|) == qtype && Be16(b, HEADER_LEN + |name| + 2) == qclass
    requires ReadName(b, HEADER_LEN, false) == Some(Named(LowerSeq(name), HEADER_LEN + |name|))
    requires if view.Some? then ParseOpt(rest) == Some(Parsed(view.value, |rest|)) else rest == []
    ensures ParseQuery(b)
            == if Be16(b, 2) >= 0x8000 then Refused(IsResponse)
               else if Be16(b, 2) / 0x800 % 16 != 0 then Refused(NotImp)
               else Accepted(Query(Be16(b, 0), Be16(b, 2), name, LowerSeq(name), qtype, qclass,
                                   HEADER_LEN + |name| + 4, view))
  {
  }

  /** Every standard query with one valid name parses, and to exactly its parts: the name in its own
      casing, the key lowercased, the OPT view of what was written. Other opcodes are not implemented and
      responses are refused, whatever follows. */
  lemma QueryParses(id: u16, flags: u16, name: seq<byte>, qtype: u16, qclass: u16, opt: Option<ReplyOpt>)
    requires IsName(name) && |name| <= MAX_NAME_LEN && (opt.Some? ==> OptOk(opt.value))
    ensures ParseQuery(QueryBytes(id, flags, name, qtype, qclass, opt))
            == if flags >= 0x8000 then Refused(IsResponse)
               else if flags / 0x800 % 16 != 0 then Refused(NotImp)
               else Accepted(Query(id, flags, name, LowerSeq(name), qtype, qclass, HEADER_LEN + |name| + 4,
                                   if opt.Some? then Some(ViewOf(opt.value)) else None))
  {
    var b, rest := QueryBytes(id, flags, name, qtype, qclass, opt), OptBytesOf(opt);
    var ar := if opt.Some? then 1 else 0;
    QueryHeaderReads(id, flags, ar, name + (U16(qtype) + U16(qclass) + rest));
    TailReads(QueryHeader(id, flags, ar), name, qtype, qclass, rest);
    NameReads(b, name);
    if opt.Some? {
      OptRoundTrip(opt.value, []);
      assert OptBytes(opt.value) + [] == rest;
    }
    PartsParse(b, name, qtype, qclass, if opt.Some? then Some(ViewOf(opt.value)) else None, rest);
  }
}
