/** Which messages carry a TSIG RR and where, told by what stands in them (`find_tsig` and `tsig_offset` in
    `tsig.rs`). */
module TsigFind {
  import opened Common
  import opened Bytes
  import opened DnsNames
  import opened Tsig
  import opened TsigAuth
  import opened TsigStream

  // ----- names

  /** The name at `i` stops at `j`: labels of at most 63 octets up to the root or one pointer. */
  predicate NameStops(b: seq<byte>, i: nat, j: nat)
    decreases j - i
  {
    && i < j <= |b|
    && if b[i] == 0 then j == i + 1
       else if b[i] < 64 then NameStops(b, i + 1 + b[i] as int, j)
       else b[i] >= 192 && j == i + 2
  }

  lemma {:induction false} SkipExact(b: seq<byte>, i: nat, j: nat)
    ensures SkipName(b, i) == Some(j) <==> NameStops(b, i, j)
    decreases |b| - i
  {
    if i < |b| && 0 < b[i] < 64 && i + 1 + b[i] as int <= |b| {
      SkipExact(b, i + 1 + b[i] as int, j);
    }
  }

  lemma EncodeCons(l: Label, rest: Name, n: Name)
    requires Labels(n) && Labels(rest) && n == [l] + rest
    ensures Encode(n) == [|l|] + l + Encode(rest)
  {
    assert n[0] == l && n[1..] == rest;
  }

  lemma Pieces(b: seq<byte>, i: nat, m: nat, j: nat)
    requires i < m <= j <= |b|
    ensures b[i..j] == [b[i]] + b[i + 1..m] + b[m..j]
  {
  }

  lemma {:induction false} DecodedEncodes(b: seq<byte>, i: nat, n: Name, j: nat)
    requires DecodeLabels(b, i) == Some((n, j))
    ensures Encode(n) == b[i..j]
    decreases |b| - i
  {
    if b[i] == 0 {
      assert Encode(n) == [0];
    } else {
      var m := i + 1 + b[i] as int;
      var (rest, end) := DecodeLabels(b, m).value;
      DecodedEncodes(b, m, rest, end);
      EncodeCons(b[i + 1..m], rest, n);
      Pieces(b, i, m, j);
    }
  }

  /** A name is read at `i` exactly if it stands there uncompressed, in at most 255 octets. */
  lemma DecodeExact(b: seq<byte>, i: nat, n: Name, j: nat)
    ensures DecodeName(b, i) == Some((n, j)) <==> ValidName(n) && i <= j <= |b| && b[i..j] == Encode(n)
  {
    if DecodeName(b, i) == Some((n, j)) {
      DecodedEncodes(b, i, n, j);
    }
    if ValidName(n) && i <= j <= |b| && b[i..j] == Encode(n) {
      HoldsSlice(b, i, Encode(n));
      EncodedNameReads(b, i, n);
    }
  }

  // ----- questions and records

  /** `n` questions stand from `i` on, and `q` follows them. */
  ghost predicate Asked(b: seq<byte>, i: nat, n: nat, q: nat)
    decreases n
  {
    if n == 0 then q == i else exists j: nat :: NameStops(b, i, j) && Asked(b, j + 4, n - 1, q)
  }

  lemma {:induction false} QuestionsExact(b: seq<byte>, i: nat, n: nat, q: nat)
    ensures Questions(b, i, n) == Some(q) <==> Asked(b, i, n, q)
    decreases n
  {
    if n > 0 {
      if SkipName(b, i).Some? {
        var j := SkipName(b, i).value;
        SkipExact(b, i, j);
        QuestionsExact(b, j + 4, n - 1, q);
      }
      forall j: nat | NameStops(b, i, j)
        ensures SkipName(b, i) == Some(j)
      {
        SkipExact(b, i, j);
      }
    }
  }

  /** A record stands at `i`: an owner name up to `j`, type, class, TTL, length, data. */
  predicate RecordFor(b: seq<byte>, i: nat, j: nat, rr: Rr) {
    && NameStops(b, i, j) && j + 10 <= |b|
    && rr == Rr(i, Be16(b, j), Be16(b, j + 2), j + 10 + Be16(b, j + 8)) && rr.end <= |b|
  }

  lemma RecordExact(b: seq<byte>, i: nat, rr: Rr)
    ensures RecordAt(b, i) == Some(rr) <==> exists j: nat :: RecordFor(b, i, j, rr)
  {
    if RecordAt(b, i) == Some(rr) {
      var j := SkipName(b, i).value;
      SkipExact(b, i, j);
      assert RecordFor(b, i, j, rr);
    }
    if j: nat :| RecordFor(b, i, j, rr) {
      SkipExact(b, i, j);
    }
  }

  /** Records stand one after the other from `i` on. */
  ghost predicate Chained(b: seq<byte>, i: nat, rs: seq<Rr>)
    decreases |rs|
  {
    rs != [] ==> (exists j: nat :: RecordFor(b, i, j, rs[0])) && Chained(b, rs[0].end, rs[1..])
  }

  lemma {:induction false} RecordsExact(b: seq<byte>, i: nat, n: nat, rs: seq<Rr>)
    ensures Records(b, i, n) == Some(rs) <==> |rs| == n && Chained(b, i, rs)
    decreases n
  {
    if n > 0 {
      if rs != [] {
        RecordExact(b, i, rs[0]);
        RecordsExact(b, rs[0].end, n - 1, rs[1..]);
        assert rs == [rs[0]] + rs[1..];
      }
      if Records(b, i, n) == Some(rs) {
        var rr := RecordAt(b, i).value;
        assert rs[0] == rr && rs[1..] == Records(b, rr.end, n - 1).value;
      }
    }
  }

  /** A message: a header, as many questions and records as it says, the questions within it. */
  ghost predicate Divided(b: seq<byte>, q: nat, rs: seq<Rr>) {
    && |b| >= 12 && Asked(b, 12, Be16(b, 4), q) && |rs| == Be16(b, 6) as int + Be16(b, 8) + Be16(b, 10)
    && Chained(b, q, rs) && (rs == [] ==> q <= |b|)
  }

  lemma {:induction false} ChainedEnds(b: seq<byte>, i: nat, rs: seq<Rr>)
    requires Chained(b, i, rs) && rs != []
    ensures EndOf(i, rs) <= |b|
    decreases |rs|
  {
    if |rs| > 1 {
      ChainedEnds(b, rs[0].end, rs[1..]);
    }
  }

  lemma WalkExact(b: seq<byte>, q: nat, rs: seq<Rr>)
    requires |b| >= 12
    ensures Walk(b) == Some((q, rs)) <==> Divided(b, q, rs)
  {
    var n := Be16(b, 6) as int + Be16(b, 8) + Be16(b, 10);
    QuestionsExact(b, 12, Be16(b, 4), q);
    RecordsExact(b, q, n, rs);
    if Chained(b, q, rs) && rs != [] {
      ChainedEnds(b, q, rs);
    }
  }

  // ----- finding the TSIG RR

  /** The data of a TSIG RR behind its algorithm's name, which ends at `j`. */
  predicate DataFor(b: seq<byte>, j: nat, t: TsigRecord) {
    && j + 16 + |t.mac| + |t.other| == |b|
    && Be48(b, j) == t.timeSigned && Be16(b, j + 6) == t.fudge && Be16(b, j + 8) == |t.mac|
    && var m := j + 10 + |t.mac|;
       && b[j + 10..m] == t.mac && Be16(b, m) == t.originalId && Be16(b, m + 2) == t.error
       && Be16(b, m + 4) == |t.other| && b[m + 6..] == t.other
  }

  /** A TSIG RR with its owner at `off`, the rest of its head at `i`, its data behind that, and its
      algorithm's end at `j`. */
  predicate TsigFor(b: seq<byte>, off: nat, i: nat, j: nat, t: TsigRecord) {
    && t.start == off && ValidName(t.keyName) && ValidName(t.algName)
    && off <= i && i + 10 <= j <= |b| && Be16(b, i + 8) == |b| - (i + 10)
    && b[off..i] == Encode(t.keyName) && b[i + 10..j] == Encode(t.algName) && DataFor(b, j, t)
  }

  /** A well-formed TSIG RR stands at `off` and ends the message. */
  ghost predicate TsigAt(b: seq<byte>, off: nat, t: TsigRecord) {
    exists i: nat, j: nat :: TsigFor(b, off, i, j, t)
  }

  lemma ParseExact(b: seq<byte>, off: nat, t: TsigRecord)
    ensures ParseTsig(b, off) == Some(t) <==> TsigAt(b, off, t)
  {
    if ParseTsig(b, off) == Some(t) {
      Parsed(b, off, t);
    }
    if TsigAt(b, off, t) {
      var i: nat, j: nat :| TsigFor(b, off, i, j, t);
      Parses(b, off, i, j, t);
    }
  }

  lemma DataParses(b: seq<byte>, off: nat, keyName: Name, rdata: nat, rdlen: nat, j: nat, t: TsigRecord)
    requires DecodeName(b, rdata) == Some((t.algName, j)) && t.start == off && t.keyName == keyName
    requires DataFor(b, j, t) && rdlen == |b| - rdata
    ensures ParseRdata(b, off, keyName, rdata, rdlen) == Some(t)
  {
    assert b[j + 16 + |t.mac|..|b|] == b[j + 16 + |t.mac|..];
  }

  lemma DataParsed(b: seq<byte>, off: nat, keyName: Name, rdata: nat, rdlen: nat, t: TsigRecord) returns (j: nat)
    requires ParseRdata(b, off, keyName, rdata, rdlen) == Some(t)
    ensures DecodeName(b, rdata) == Some((t.algName, j)) && t.start == off && t.keyName == keyName
    ensures DataFor(b, j, t) && rdlen == |b| - rdata
  {
    j := DecodeName(b, rdata).value.1;
  }

  /** The owner name first, then the data. */
  lemma ParseGoesOn(b: seq<byte>, off: nat, keyName: Name, i: nat, rdata: nat, rdlen: nat, r: Option<TsigRecord>)
    requires DecodeName(b, off) == Some((keyName, i)) && rdata == i + 10 <= |b| && rdlen == Be16(b, i + 8)
    requires r == ParseRdata(b, off, keyName, rdata, rdlen)
    ensures ParseTsig(b, off) == r
  {
    var d := DecodeName(b, off).value;
    assert d.0 == keyName && d.1 == i;
  }

  lemma Parsed(b: seq<byte>, off: nat, t: TsigRecord)
    requires ParseTsig(b, off) == Some(t)
    ensures TsigAt(b, off, t)
  {
    var (name, i) := DecodeName(b, off).value;
    var rdlen := Be16(b, i + 8);
    ParseGoesOn(b, off, name, i, i + 10, rdlen, ParseRdata(b, off, name, i + 10, rdlen));
    var j := DataParsed(b, off, name, i + 10, rdlen, t);
    NamesDecode(b, off, i, j, t);
    assert TsigFor(b, off, i, j, t);
  }

  lemma NamesDecode(b: seq<byte>, off: nat, i: nat, j: nat, t: TsigRecord)
    ensures DecodeName(b, off) == Some((t.keyName, i))
            <==> ValidName(t.keyName) && off <= i <= |b| && b[off..i] == Encode(t.keyName)
    ensures DecodeName(b, i + 10) == Some((t.algName, j))
            <==> ValidName(t.algName) && i + 10 <= j <= |b| && b[i + 10..j] == Encode(t.algName)
  {
    DecodeExact(b, off, t.keyName, i);
    DecodeExact(b, i + 10, t.algName, j);
  }

  lemma NamesOf(b: seq<byte>, off: nat, i: nat, j: nat, t: TsigRecord)
    requires TsigFor(b, off, i, j, t)
    ensures DecodeName(b, off) == Some((t.keyName, i)) && DecodeName(b, i + 10) == Some((t.algName, j))
    ensures i + 10 <= |b| && Be16(b, i + 8) == |b| - (i + 10) && DataFor(b, j, t) && t.start == off
  {
    DecodeExact(b, off, t.keyName, i);
    DecodeExact(b, i + 10, t.algName, j);
  }

  lemma Found(b: seq<byte>, off: nat, i: nat, j: nat, t: TsigRecord, rdlen: nat)
    requires DecodeName(b, off) == Some((t.keyName, i)) && DecodeName(b, i + 10) == Some((t.algName, j))
    requires i + 10 <= |b| && Be16(b, i + 8) == rdlen == |b| - (i + 10) && DataFor(b, j, t) && t.start == off
    ensures ParseTsig(b, off) == Some(t)
  {
    DataParses(b, off, t.keyName, i + 10, rdlen, j, t);
    ParseGoesOn(b, off, t.keyName, i, i + 10, rdlen, Some(t));
  }

  lemma Parses(b: seq<byte>, off: nat, i: nat, j: nat, t: TsigRecord)
    requires TsigFor(b, off, i, j, t)
    ensures ParseTsig(b, off) == Some(t)
  {
    NamesOf(b, off, i, j, t);
    Found(b, off, i, j, t, |b| - (i + 10));
  }

  /** The one TSIG RR stands last: type 250, class ANY, counted in ARCOUNT. */
  predicate TsigLast(b: seq<byte>, rs: seq<Rr>) {
    && rs != [] && rs[|rs| - 1].rtype == 250 && rs[|rs| - 1].rclass == 255 && |b| >= 12 && Be16(b, 10) > 0
    && forall k :: 0 <= k < |rs| - 1 ==> rs[k].rtype != 250
  }

  /** A divided message without a TSIG RR is unsigned, one whose last record is a well-formed TSIG RR and
      no other is one carries it, and every other message is malformed. */
  lemma FindExact(msg: seq<byte>, q: nat, rs: seq<Rr>, t: TsigRecord)
    requires Divided(msg, q, rs)
    ensures FindTsig(msg) == Absent <==> forall k :: 0 <= k < |rs| ==> rs[k].rtype != 250
    ensures FindTsig(msg) == Present(t) <==> TsigLast(msg, rs) && TsigAt(msg, rs[|rs| - 1].start, t)
  {
    WalkExact(msg, q, rs);
    MisplacedExact(rs, Be16(msg, 10));
    if rs != [] {
      ParseExact(msg, rs[|rs| - 1].start, t);
    }
    FindSteps(msg, q, rs);
  }

  /** `find_tsig` on a message that walks. */
  lemma FindSteps(msg: seq<byte>, q: nat, rs: seq<Rr>)
    requires |msg| >= 12 && Walk(msg) == Some((q, rs))
    ensures FindTsig(msg)
            == if Misplaced(rs, Be16(msg, 10)) then Malformed
               else if rs == [] || rs[|rs| - 1].rtype != 250 then Absent
               else if ParseTsig(msg, rs[|rs| - 1].start).None? then Malformed
               else Present(ParseTsig(msg, rs[|rs| - 1].start).value)
  {
  }

  lemma MisplacedExact(rs: seq<Rr>, ar: u16)
    ensures !Misplaced(rs, ar) <==>
              || (forall k :: 0 <= k < |rs| ==> rs[k].rtype != 250)
              || (rs[|rs| - 1].rtype == 250 && rs[|rs| - 1].rclass == 255 && ar > 0
                  && forall k :: 0 <= k < |rs| - 1 ==> rs[k].rtype != 250)
  {
    if forall k :: 0 <= k < |rs| ==> rs[k].rtype != 250 {
    } else {
      var k :| 0 <= k < |rs| && rs[k].rtype == 250;
    }
  }

  lemma FindDivides(msg: seq<byte>) returns (q: nat, rs: seq<Rr>)
    requires FindTsig(msg) != Malformed
    ensures Divided(msg, q, rs)
  {
    q, rs := Walk(msg).value.0, Walk(msg).value.1;
    WalkExact(msg, q, rs);
  }

  /** The message is divided and ends in a record of type 250 at `off`, and ARCOUNT is not zero. */
  ghost predicate EndsSigned(msg: seq<byte>, off: nat, q: nat, rs: seq<Rr>) {
    && Divided(msg, q, rs) && Be16(msg, 10) > 0 && rs != [] && rs[|rs| - 1].rtype == 250
    && rs[|rs| - 1].start == off
  }

  /** Where a stream message's TSIG RR starts. */
  lemma OffsetExact(msg: seq<byte>, off: nat)
    ensures TsigOffset(msg) == Some(off) <==> exists q: nat, rs :: EndsSigned(msg, off, q, rs)
  {
    if TsigOffset(msg) == Some(off) {
      var (q, rs) := Walk(msg).value;
      WalkExact(msg, q, rs);
      assert EndsSigned(msg, off, q, rs);
    }
    if q: nat, rs :| EndsSigned(msg, off, q, rs) {
      WalkExact(msg, q, rs);
    }
  }
}
