/** Appending a TSIG record and finding it again. */
module TsigRoundTrip {
  import opened Common
  import opened Bytes
  import opened DnsNames
  import opened Tsig

  // ----- writing

  function Low16(n: nat): u16 { n % 0x1_0000 }

  /** RDATA of a TSIG RR (RFC 8945 section 4.2); lengths are truncated to 16 bits as the casts do. */
  function Rdata(alg: seq<byte>, time: nat, mac: seq<byte>, id: u16, error: u16, other: seq<byte>): seq<byte> {
    alg
    + (U48(time)
       + (U16(FUDGE)
          + (U16(Low16(|mac|)) + (mac + (U16(id) + (U16(error) + (U16(Low16(|other|)) + other)))))))
  }

  function RrBytes(owner: seq<byte>, rtype: u16, rclass: u16, ttl: u32, rdata: seq<byte>): seq<byte> {
    owner + (U16(rtype) + (U16(rclass) + (U32(ttl) + (U16(Low16(|rdata|)) + rdata))))
  }

  function TsigRr(key: seq<byte>, rdata: seq<byte>): seq<byte> {
    RrBytes(key, TYPE_TSIG, CLASS_ANY, 0, rdata)
  }

  /** The message with ARCOUNT one higher (wrapping) and the record appended. */
  function WithTsig(wire: seq<byte>, rr: seq<byte>): seq<byte>
    requires |wire| >= HEADER_LEN
  {
    Splice(wire, 10, U16((Count(wire, 10) as int + 1) % 0x1_0000)) + rr
  }

  /** A message buffer that signing extends in place. */
  class Packet {
    var wire: seq<byte>

    constructor (wire: seq<byte>)
      ensures this.wire == wire
    {
      this.wire := wire;
    }

    method Append(key: seq<byte>, alg: seq<byte>, time: nat, mac: seq<byte>, id: u16, error: u16, other: seq<byte>)
      requires |wire| >= HEADER_LEN
      modifies this
      ensures wire == WithTsig(old(wire), TsigRr(key, Rdata(alg, time, mac, id, error, other)))
    {
      var rdata := BuildRdata(alg, time, mac, id, error, other);
      AppendRr(key, TYPE_TSIG, CLASS_ANY, 0, rdata);
      CountOne(|old(wire)|);
    }

    static method BuildRdata(alg: seq<byte>, time: nat, mac: seq<byte>, id: u16, error: u16, other: seq<byte>)
      returns (rdata: seq<byte>)
      ensures rdata == Rdata(alg, time, mac, id, error, other)
    {
      rdata := alg;
      rdata := rdata + U48(time) + U16(FUDGE);
      rdata := rdata + U16(|mac| % 0x1_0000) + mac;
      rdata := rdata + U16(id) + U16(error);
      rdata := rdata + U16(|other| % 0x1_0000) + other;
      assert rdata == Rdata(alg, time, mac, id, error, other);
    }

    method AppendRr(owner: seq<byte>, rtype: u16, rclass: u16, ttl: u32, rdata: seq<byte>)
      modifies this
      ensures wire == old(wire) + RrBytes(owner, rtype, rclass, ttl, rdata)
    {
      ghost var before := wire;
      wire := wire + owner + U16(rtype) + U16(rclass) + U32(ttl);
      wire := wire + U16(|rdata| % 0x1_0000) + rdata;
      assert wire == before + RrBytes(owner, rtype, rclass, ttl, rdata);
    }

    /** Raises ARCOUNT by one, wrapping. */
    method CountOne(ghost size: nat)
      requires HEADER_LEN <= size <= |wire|
      modifies this
      ensures var before := old(wire)[..size];
              wire == Splice(before, 10, U16((Count(before, 10) as int + 1) % 0x1_0000)) + old(wire)[size..]
    {
      var ar := U16((Be16(wire, 10) as int + 1) % 0x1_0000);
      wire := wire[..10] + ar + wire[12..];
      assert wire == Splice(old(wire)[..size], 10, ar) + old(wire)[size..];
    }
  }

  // ----- reading it back

  lemma Takes16(b: seq<byte>, i: nat, n: u16, rest: seq<byte>)
    requires Holds(b, i, U16(n) + rest)
    ensures i + 2 <= |b| && Be16(b, i) == n && Holds(b, i + 2, rest)
  {
    HoldsPart(b, i, U16(n), rest);
    HoldsSlice(b, i, U16(n));
    var s := b[i..i + 2];
    assert b[i] == s[0] && b[i + 1] == s[1];
  }

  lemma Takes48(b: seq<byte>, i: nat, n: nat, rest: seq<byte>)
    requires Holds(b, i, U48(n) + rest)
    ensures i + 6 <= |b| && Be48(b, i) == n % 0x1_0000_0000_0000 && Holds(b, i + 6, rest)
  {
    HoldsPart(b, i, U48(n), rest);
    HoldsSlice(b, i, U48(n));
    var s := b[i..i + 6];
    assert b[i] == s[0] && b[i + 1] == s[1] && b[i + 2] == s[2] && b[i + 3] == s[3] && b[i + 4] == s[4]
           && b[i + 5] == s[5];
  }

  /** The fields a TSIG RR is written with. */
  datatype Fields = Fields(key: Name, alg: Name, time: nat, mac: seq<byte>, id: u16, error: u16, other: seq<byte>)

  predicate Writable(f: Fields) {
    && ValidName(f.key) && ValidName(f.alg)
    && |f.mac| < 0x1_0000 && |f.other| < 0x1_0000 && |RdataOf(f)| < 0x1_0000
  }

  function RdataOf(f: Fields): seq<byte>
    requires ValidName(f.alg)
  {
    Rdata(Encode(f.alg), f.time, f.mac, f.id, f.error, f.other)
  }

  function RrOf(f: Fields): seq<byte>
    requires ValidName(f.key) && ValidName(f.alg)
  {
    TsigRr(Encode(f.key), RdataOf(f))
  }

  function RecordOf(f: Fields, start: nat): TsigRecord {
    TsigRecord(start, f.key, f.alg, f.time % 0x1_0000_0000_0000, FUDGE, f.mac, f.id, f.error, f.other)
  }

  /** The fixed part of a record header, where it stands at `j`. */
  lemma FixedPart(b: seq<byte>, j: nat, rtype: u16, rclass: u16, ttl: u32, rdlen: u16, rdata: seq<byte>)
    requires Holds(b, j, U16(rtype) + (U16(rclass) + (U32(ttl) + (U16(rdlen) + rdata))))
    ensures j + 10 <= |b| && Be16(b, j) == rtype && Be16(b, j + 2) == rclass && Be16(b, j + 8) == rdlen
    ensures Holds(b, j + 10, rdata)
  {
    Takes16(b, j, rtype, U16(rclass) + (U32(ttl) + (U16(rdlen) + rdata)));
    Takes16(b, j + 2, rclass, U32(ttl) + (U16(rdlen) + rdata));
    HoldsPart(b, j + 4, U32(ttl), U16(rdlen) + rdata);
    Takes16(b, j + 8, rdlen, rdata);
  }

  lemma NameReads(b: seq<byte>, i: nat, n: Name, rest: seq<byte>)
    requires ValidName(n) && Holds(b, i, Encode(n) + rest)
    ensures DecodeName(b, i) == Some((n, i + |Encode(n)|)) && SkipName(b, i) == Some(i + |Encode(n)|)
    ensures Holds(b, i + |Encode(n)|, rest)
  {
    HoldsPart(b, i, Encode(n), rest);
    EncodedNameReads(b, i, n);
  }

  /** What follows the MAC, where it stands at `t`. */
  lemma TailFields(b: seq<byte>, t: nat, f: Fields)
    requires |f.other| < 0x1_0000 && Holds(b, t, U16(f.id) + (U16(f.error) + (U16(Low16(|f.other|)) + f.other)))
    ensures t + 6 + |f.other| <= |b| && Be16(b, t) == f.id && Be16(b, t + 2) == f.error && Be16(b, t + 4) == |f.other|
    ensures b[t + 6..t + 6 + |f.other|] == f.other
  {
    Takes16(b, t, f.id, U16(f.error) + (U16(Low16(|f.other|)) + f.other));
    Takes16(b, t + 2, f.error, U16(Low16(|f.other|)) + f.other);
    Takes16(b, t + 4, Low16(|f.other|), f.other);
    HoldsSlice(b, t + 6, f.other);
  }

  function TailOf(f: Fields): seq<byte> {
    U16(f.id) + (U16(f.error) + (U16(Low16(|f.other|)) + f.other))
  }

  /** The times and the MAC, where they stand at `j`. */
  lemma MacFields(b: seq<byte>, j: nat, time: nat, fudge: u16, mac: seq<byte>, tail: seq<byte>)
    requires |mac| < 0x1_0000
    requires Holds(b, j, U48(time) + (U16(fudge) + (U16(Low16(|mac|)) + (mac + tail))))
    ensures j + 10 + |mac| <= |b|
    ensures Be48(b, j) == time % 0x1_0000_0000_0000 && Be16(b, j + 6) == fudge && Be16(b, j + 8) == |mac|
    ensures b[j + 10..j + 10 + |mac|] == mac && Holds(b, j + 10 + |mac|, tail)
  {
    Takes48(b, j, time, U16(fudge) + (U16(Low16(|mac|)) + (mac + tail)));
    Takes16(b, j + 6, fudge, U16(Low16(|mac|)) + (mac + tail));
    Takes16(b, j + 8, Low16(|mac|), mac + tail);
    HoldsPart(b, j + 10, mac, tail);
    HoldsSlice(b, j + 10, mac);
  }

  lemma RdataLength(f: Fields)
    requires ValidName(f.alg)
    ensures |RdataOf(f)| == |Encode(f.alg)| + 16 + |f.mac| + |f.other|
  {
  }

  /** The fields, each where it stands, are the record. */
  lemma FieldsParse(b: seq<byte>, off: nat, i: nat, j: nat, f: Fields, rdlen: nat)
    requires DecodeName(b, i) == Some((f.alg, j)) && |f.mac| < 0x1_0000 && |f.other| < 0x1_0000
    requires j + 16 + |f.mac| + |f.other| == |b| == i + rdlen
    requires Be48(b, j) == f.time % 0x1_0000_0000_0000 && Be16(b, j + 6) == FUDGE && Be16(b, j + 8) == |f.mac|
    requires b[j + 10..j + 10 + |f.mac|] == f.mac
    requires var t := j + 10 + |f.mac|;
             && Be16(b, t) == f.id && Be16(b, t + 2) == f.error && Be16(b, t + 4) == |f.other|
             && b[t + 6..t + 6 + |f.other|] == f.other
    ensures ParseRdata(b, off, f.key, i, rdlen) == Some(RecordOf(f, off))
  {
  }

  /** RDATA that ends the message parses to the fields it was written with. */
  lemma RdataParses(b: seq<byte>, off: nat, i: nat, f: Fields)
    requires Writable(f) && Holds(b, i, RdataOf(f)) && i + |RdataOf(f)| == |b|
    ensures ParseRdata(b, off, f.key, i, |RdataOf(f)|) == Some(RecordOf(f, off))
  {
    RdataLength(f);
    NameReads(b, i, f.alg, U48(f.time) + (U16(FUDGE) + (U16(Low16(|f.mac|)) + (f.mac + TailOf(f)))));
    var j := i + |Encode(f.alg)|;
    MacFields(b, j, f.time, FUDGE, f.mac, TailOf(f));
    TailFields(b, j + 10 + |f.mac|, f);
    FieldsParse(b, off, i, j, f, |RdataOf(f)|);
  }

  /** A record that ends the message, as the walkers see it. */
  lemma RrReads(b: seq<byte>, i: nat, owner: Name, rtype: u16, rclass: u16, ttl: u32, rdata: seq<byte>)
    requires ValidName(owner) && |rdata| < 0x1_0000 && Holds(b, i, RrBytes(Encode(owner), rtype, rclass, ttl, rdata))
    requires i + |RrBytes(Encode(owner), rtype, rclass, ttl, rdata)| == |b|
    ensures RecordAt(b, i) == Some(Rr(i, rtype, rclass, |b|))
    ensures var j := i + |Encode(owner)|;
            && DecodeName(b, i) == Some((owner, j)) && j + 10 + |rdata| == |b| && Be16(b, j + 8) == |rdata|
            && Holds(b, j + 10, rdata)
  {
    NameReads(b, i, owner, U16(rtype) + (U16(rclass) + (U32(ttl) + (U16(Low16(|rdata|)) + rdata))));
    FixedPart(b, i + |Encode(owner)|, rtype, rclass, ttl, Low16(|rdata|), rdata);
  }

  /** A TSIG RR that ends the message parses to the fields it was written with. */
  lemma WrittenRecordParses(b: seq<byte>, i: nat, f: Fields)
    requires Writable(f) && Holds(b, i, RrOf(f)) && i + |RrOf(f)| == |b|
    ensures RecordAt(b, i) == Some(Rr(i, TYPE_TSIG, CLASS_ANY, |b|))
    ensures ParseTsig(b, i) == Some(RecordOf(f, i))
  {
    var rdata := RdataOf(f);
    RrReads(b, i, f.key, TYPE_TSIG, CLASS_ANY, 0, rdata);
    RdataParses(b, i, i + |Encode(f.key)| + 10, f);
  }

  // ----- the walk over the extended message

  lemma {:induction false} QuestionsLocal(b: seq<byte>, c: seq<byte>, i: nat, n: nat)
    requires Questions(b, i, n).Some? && Questions(b, i, n).value <= |b| && Questions(b, i, n).value <= |c|
    requires forall k :: i <= k < Questions(b, i, n).value ==> b[k] == c[k]
    ensures Questions(c, i, n) == Questions(b, i, n)
    decreases n
  {
    if n > 0 {
      SkipNameLocal(b, c, i);
      QuestionsLocal(b, c, SkipName(b, i).value + 4, n - 1);
    }
  }

  lemma RecordAtLocal(b: seq<byte>, c: seq<byte>, i: nat)
    requires RecordAt(b, i).Some? && RecordAt(b, i).value.end <= |c|
    requires forall k :: i <= k < RecordAt(b, i).value.end ==> b[k] == c[k]
    ensures RecordAt(c, i) == RecordAt(b, i)
  {
    SkipNameLocal(b, c, i);
  }

  lemma {:induction false} RecordsLocal(b: seq<byte>, c: seq<byte>, i: nat, n: nat)
    requires Records(b, i, n).Some? && EndOf(i, Records(b, i, n).value) <= |c|
    requires forall k :: i <= k < EndOf(i, Records(b, i, n).value) && k < |b| ==> b[k] == c[k]
    ensures Records(c, i, n) == Records(b, i, n)
    decreases n
  {
    if n > 0 {
      var rr := RecordAt(b, i).value;
      RecordsAscend(b, rr.end, n - 1);
      EndOfTail(b, i, n);
      assert rr.end <= EndOf(i, Records(b, i, n).value);
      forall k | i <= k < rr.end
        ensures b[k] == c[k]
      {
      }
      RecordAtLocal(b, c, i);
      RecordsLocal(b, c, rr.end, n - 1);
    }
  }

  lemma EndOfTail(b: seq<byte>, i: nat, n: nat)
    requires n > 0 && Records(b, i, n).Some?
    ensures var rr := RecordAt(b, i).value;
            EndOf(i, Records(b, i, n).value) == EndOf(rr.end, Records(b, rr.end, n - 1).value)
  {
    var rest := Records(b, RecordAt(b, i).value.end, n - 1).value;
    assert Records(b, i, n).value == [RecordAt(b, i).value] + rest;
  }

  lemma {:induction false} RecordsAscend(b: seq<byte>, i: nat, n: nat)
    requires Records(b, i, n).Some?
    ensures i <= EndOf(i, Records(b, i, n).value)
    decreases n
  {
    if n > 0 {
      RecordsAscend(b, RecordAt(b, i).value.end, n - 1);
      EndOfTail(b, i, n);
    }
  }

  lemma {:induction false} RecordsSnoc(c: seq<byte>, i: nat, n: nat, last: Rr)
    requires Records(c, i, n).Some? && RecordAt(c, EndOf(i, Records(c, i, n).value)) == Some(last)
    ensures Records(c, i, n + 1) == Some(Records(c, i, n).value + [last])
    decreases n
  {
    if n == 0 {
      assert Records(c, last.end, 0) == Some([]);
      assert [last] + [] == [] + [last];
    } else {
      var rr := RecordAt(c, i).value;
      EndOfTail(c, i, n);
      RecordsSnoc(c, rr.end, n - 1, last);
      var rest := Records(c, rr.end, n - 1).value;
      assert [rr] + rest + [last] == [rr] + (rest + [last]);
    }
  }

  /** An unsigned message: it walks exactly to its end, carries no TSIG and leaves ARCOUNT room. */
  ghost predicate Plain(wire: seq<byte>) {
    && |wire| >= HEADER_LEN && Count(wire, 10) < 0xFFFF
    && Walk(wire).Some?
    && var (q, rs) := Walk(wire).value;
       EndOf(q, rs) == |wire| && forall k :: 0 <= k < |rs| ==> rs[k].rtype != TYPE_TSIG
  }

  /** `c` is `wire` with ARCOUNT raised by one, any ID, and `rr` appended. */
  predicate Extended(wire: seq<byte>, rr: seq<byte>, c: seq<byte>) {
    && HEADER_LEN <= |wire| && |c| == |wire| + |rr|
    && (forall k :: 2 <= k < |wire| && k != 10 && k != 11 ==> c[k] == wire[k])
    && Count(c, 10) as int == Count(wire, 10) as int + 1
    && c[|wire|..] == rr
  }

  lemma ExtendedCounts(wire: seq<byte>, rr: seq<byte>, c: seq<byte>)
    requires Extended(wire, rr, c)
    ensures Count(c, 4) == Count(wire, 4) && Count(c, 6) == Count(wire, 6) && Count(c, 8) == Count(wire, 8)
    ensures Holds(c, |wire|, rr)
  {
    assert c[|wire|..|wire| + |rr|] == c[|wire|..];
    HoldsSlice(c, |wire|, rr);
  }

  lemma SameBody(wire: seq<byte>, rr: seq<byte>, c: seq<byte>)
    requires Extended(wire, rr, c)
    ensures |wire| <= |c| && forall k :: HEADER_LEN <= k < |wire| ==> wire[k] == c[k]
  {
  }

  lemma ExtendedWalk(wire: seq<byte>, rr: seq<byte>, c: seq<byte>, last: Rr)
    requires Plain(wire) && Extended(wire, rr, c) && RecordAt(c, |wire|) == Some(last) && last.end == |c|
    ensures Walk(c) == Some((Walk(wire).value.0, Walk(wire).value.1 + [last]))
  {
    ExtendedCounts(wire, rr, c);
    var (q, rs) := Walk(wire).value;
    var n := Count(wire, 6) as int + Count(wire, 8) as int + Count(wire, 10) as int;
    RecordsAscend(wire, q, n);
    SameBody(wire, rr, c);
    QuestionsLocal(wire, c, HEADER_LEN, Count(wire, 4));
    RecordsLocal(wire, c, q, n);
    RecordsSnoc(c, q, n, last);
  }

  lemma LastRecordFound(wire: seq<byte>, rr: seq<byte>, c: seq<byte>, t: TsigRecord)
    requires Plain(wire) && Extended(wire, rr, c)
    requires RecordAt(c, |wire|) == Some(Rr(|wire|, TYPE_TSIG, CLASS_ANY, |c|)) && ParseTsig(c, |wire|) == Some(t)
    ensures FindTsig(c) == Present(t)
    ensures Walk(c).Some? && LastTsig(Walk(c).value.1) == Some(|wire|)
  {
    var last := Rr(|wire|, TYPE_TSIG, CLASS_ANY, |c|);
    ExtendedWalk(wire, rr, c, last);
    assert !Misplaced(Walk(wire).value.1 + [last], Count(c, 10));
  }

  /** What is appended is found: exactly the written fields, at the offset where the original
      message ended, whatever the ID became on the way. */
  lemma AppendedIsFound(wire: seq<byte>, f: Fields, c: seq<byte>)
    requires Plain(wire) && Writable(f) && Extended(wire, RrOf(f), c)
    ensures FindTsig(c) == Present(RecordOf(f, |wire|))
    ensures Walk(c).Some? && LastTsig(Walk(c).value.1) == Some(|wire|)
    ensures ParseTsig(c, |wire|) == Some(RecordOf(f, |wire|))
  {
    var rr := RrOf(f);
    ExtendedCounts(wire, rr, c);
    WrittenRecordParses(c, |wire|, f);
    LastRecordFound(wire, rr, c, RecordOf(f, |wire|));
  }

  /** Cutting at the record, restoring the ID and decrementing ARCOUNT gives the message back. */
  function Stripped(c: seq<byte>, start: nat, id: u16): seq<byte>
    requires HEADER_LEN <= start <= |c| && Count(c, 10) > 0
  {
    Splice(Splice(c[..start], 0, U16(id)), 10, U16(Count(c, 10) - 1))
  }

  lemma StrippedRestores(wire: seq<byte>, rr: seq<byte>, c: seq<byte>)
    requires Extended(wire, rr, c)
    ensures Stripped(c, |wire|, Be16(wire, 0)) == wire
  {
    var id, ar := U16(Be16(wire, 0)), U16(Count(wire, 10));
    assert id[0] == wire[0] && id[1] == wire[1];
    assert ar[0] == wire[10] && ar[1] == wire[11];
    Respliced(wire, c[..|wire|], id, ar);
  }

  lemma Respliced(wire: seq<byte>, cut: seq<byte>, id: seq<byte>, ar: seq<byte>)
    requires HEADER_LEN <= |wire| == |cut| && |id| == |ar| == 2
    requires id[0] == wire[0] && id[1] == wire[1] && ar[0] == wire[10] && ar[1] == wire[11]
    requires forall k :: 2 <= k < |wire| && k != 10 && k != 11 ==> cut[k] == wire[k]
    ensures Splice(Splice(cut, 0, id), 10, ar) == wire
  {
  }

  lemma WithTsigExtends(wire: seq<byte>, rr: seq<byte>)
    requires |wire| >= HEADER_LEN && Count(wire, 10) < 0xFFFF
    ensures Extended(wire, rr, WithTsig(wire, rr))
  {
    var ar := U16(Count(wire, 10) + 1);
    Recounted(wire, Splice(wire, 10, ar), ar, rr);
  }

  lemma Recounted(wire: seq<byte>, head: seq<byte>, ar: seq<byte>, rr: seq<byte>)
    requires HEADER_LEN <= |wire| == |head| && |ar| == 2 && Be16(ar, 0) as int == Count(wire, 10) as int + 1
    requires forall k :: 0 <= k < |wire| ==> head[k] == if 10 <= k < 12 then ar[k - 10] else wire[k]
    ensures Extended(wire, rr, head + rr)
  {
    var c := head + rr;
    assert c[|wire|..] == rr;
    assert c[10] == ar[0] && c[11] == ar[1];
  }

  /** Replacing the ID, as a forwarder may. */
  lemma RelayedExtends(wire: seq<byte>, rr: seq<byte>, c: seq<byte>, id: u16)
    requires Extended(wire, rr, c)
    ensures Extended(wire, rr, Splice(c, 0, U16(id)))
  {
    var d := Splice(c, 0, U16(id));
    assert d[|wire|..] == c[|wire|..];
  }
}
