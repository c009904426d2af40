/** TSIG records in wire messages (`tsig.rs`): writing, locating and parsing them. */
module Tsig {
  import opened Common
  import opened Bytes
  import opened DnsNames

  const HEADER_LEN: nat := 12
  const TYPE_TSIG: u16 := 250
  const CLASS_ANY: u16 := 255
  const FUDGE: u16 := 300

  /** A resource record as the walkers see it: where it starts and ends, its type and class. */
  datatype Rr = Rr(start: nat, rtype: u16, rclass: u16, end: nat)

  function RecordAt(b: seq<byte>, i: nat): (r: Option<Rr>)
    ensures r.Some? ==> r.value.start == i && i + 10 < r.value.end <= |b|
  {
    match SkipName(b, i)
    case None => None
    case Some(j) =>
      if j + 10 > |b| then None else
      var end := j + 10 + Be16(b, j + 8) as int;
      if end > |b| then None else Some(Rr(i, Be16(b, j), Be16(b, j + 2), end))
  }

  /** The offset past `n` questions starting at `i`; the last one may run past the end. */
  function Questions(b: seq<byte>, i: nat, n: nat): (r: Option<nat>)
    ensures r.Some? ==> i <= r.value
    decreases n
  {
    if n == 0 then Some(i) else
    match SkipName(b, i)
    case None => None
    case Some(j) => Questions(b, j + 4, n - 1)
  }

  function Records(b: seq<byte>, i: nat, n: nat): (r: Option<seq<Rr>>)
    ensures r.Some? ==> |r.value| == n
    decreases n
  {
    if n == 0 then Some([]) else
    match RecordAt(b, i)
    case None => None
    case Some(rr) =>
      match Records(b, rr.end, n - 1)
      case None => None
      case Some(rest) => Some([rr] + rest)
  }

  function EndOf(i: nat, rs: seq<Rr>): nat {
    if rs == [] then i else rs[|rs| - 1].end
  }

  function Count(b: seq<byte>, o: nat): u16
    requires o + 2 <= |b|
  {
    Be16(b, o)
  }

  /** All records of a message with a complete header, and the offset past its questions. */
  function Walk(b: seq<byte>): Option<(nat, seq<Rr>)>
    requires |b| >= HEADER_LEN
  {
    match Questions(b, HEADER_LEN, Count(b, 4))
    case None => None
    case Some(q) =>
      match Records(b, q, Count(b, 6) as int + Count(b, 8) as int + Count(b, 10) as int)
      case None => None
      case Some(rs) => if EndOf(q, rs) > |b| then None else Some((q, rs))
  }

  datatype TsigRecord = TsigRecord(
    start: nat, keyName: Name, algName: Name, timeSigned: nat, fudge: u16,
    mac: seq<byte>, originalId: u16, error: u16, other: seq<byte>)

  /** The RDATA at `rdata`, which must be `rdlen` long and end the message. */
  function ParseRdata(b: seq<byte>, off: nat, keyName: Name, rdata: nat, rdlen: nat): Option<TsigRecord> {
    match DecodeName(b, rdata)
    case None => None
    case Some((algName, j)) =>
      if j + 10 > |b| then None else
      var macLen := Be16(b, j + 8) as int;
      var t := j + 10 + macLen;
      if t + 6 > |b| then None else
      var end := t + 6 + Be16(b, t + 4) as int;
      if end > |b| || end - rdata != rdlen || end != |b| then None else
      Some(TsigRecord(off, keyName, algName, Be48(b, j), Be16(b, j + 6), b[j + 10..t],
                      Be16(b, t), Be16(b, t + 2), b[t + 6..end]))
  }

  /** The TSIG RR whose owner name starts at `off`; it must end the message. */
  function ParseTsig(b: seq<byte>, off: nat): Option<TsigRecord> {
    match DecodeName(b, off)
    case None => None
    case Some((keyName, i)) =>
      if i + 10 > |b| then None else ParseRdata(b, off, keyName, i + 10, Be16(b, i + 8))
  }

  datatype Located = Malformed | Absent | Present(record: TsigRecord)

  /** A TSIG RR anywhere but last, twice, outside the additional section or of another class. */
  predicate Misplaced(rs: seq<Rr>, ar: u16) {
    exists k :: 0 <= k < |rs| && rs[k].rtype == TYPE_TSIG && (k + 1 != |rs| || ar == 0 || rs[k].rclass != CLASS_ANY)
  }

  function LastTsig(rs: seq<Rr>): Option<nat> {
    if rs == [] || rs[|rs| - 1].rtype != TYPE_TSIG then None else Some(rs[|rs| - 1].start)
  }

  function FindTsig(msg: seq<byte>): Located {
    if |msg| < HEADER_LEN then Malformed else
    match Walk(msg)
    case None => Malformed
    case Some((_, rs)) =>
      if Misplaced(rs, Count(msg, 10)) then Malformed else
      match LastTsig(rs)
      case None => Absent
      case Some(start) =>
        match ParseTsig(msg, start)
        case None => Malformed
        case Some(t) => Present(t)
  }

  method SkipQuestions(b: seq<byte>, start: nat, count: nat) returns (r: Option<nat>)
    ensures r == Questions(b, start, count)
  {
    var i, n := start, 0;
    while n < count
      invariant 0 <= n <= count
      invariant Questions(b, start, count) == Questions(b, i, count - n)
    {
      var skipped := Skip(b, i);
      if skipped.None? {
        return None;
      }
      i := skipped.value + 4;
      n := n + 1;
    }
    return Some(i);
  }

  method ReadRecord(b: seq<byte>, i: nat) returns (r: Option<Rr>)
    ensures r == RecordAt(b, i)
  {
    var skipped := Skip(b, i);
    if skipped.None? || skipped.value + 10 > |b| {
      return None;
    }
    var f := skipped.value;
    var end := f + 10 + Be16(b, f + 8) as int;
    if end > |b| {
      return None;
    }
    return Some(Rr(i, Be16(b, f), Be16(b, f + 2), end));
  }

  /** `rs` are the first `n` of `total` records from `q` on, and the others follow from `end` on. */
  ghost predicate Scanned(b: seq<byte>, q: nat, total: nat, rs: seq<Rr>, end: nat, n: nat) {
    && |rs| == n <= total && EndOf(q, rs) == end
    && match Records(b, end, total - n)
       case None => Records(b, q, total) == None
       case Some(rest) => Records(b, q, total) == Some(rs + rest)
  }

  lemma ScanStarts(b: seq<byte>, q: nat, total: nat)
    ensures Scanned(b, q, total, [], q, 0)
  {
    assert forall rest: seq<Rr> :: [] + rest == rest;
  }

  lemma ScanNext(b: seq<byte>, q: nat, total: nat, rs: seq<Rr>, end: nat, n: nat, rr: Rr)
    requires Scanned(b, q, total, rs, end, n) && n < total && RecordAt(b, end) == Some(rr)
    ensures Scanned(b, q, total, rs + [rr], rr.end, n + 1)
    ensures Records(b, q, total).Some? ==> Records(b, q, total).value[n] == rr
  {
    var rest := Records(b, rr.end, total - n - 1);
    if rest.Some? {
      assert rs + ([rr] + rest.value) == rs + [rr] + rest.value;
    }
  }

  lemma ScanEnds(b: seq<byte>, q: nat, total: nat, rs: seq<Rr>, end: nat)
    requires Scanned(b, q, total, rs, end, total)
    ensures Records(b, q, total) == Some(rs)
  {
    assert rs + [] == rs;
  }

  /** The record pass of `find_tsig`: where the records end and where a TSIG RR in last place starts. */
  method ScanRecords(b: seq<byte>, q: nat, total: nat, ar: u16) returns (ok: bool, end: nat, found: Option<nat>)
    ensures ok <==> Records(b, q, total).Some? && !Misplaced(Records(b, q, total).value, ar)
    ensures ok ==> end == EndOf(q, Records(b, q, total).value) && found == LastTsig(Records(b, q, total).value)
  {
    end, found := q, None;
    var n := 0;
    ghost var rs: seq<Rr> := [];
    ScanStarts(b, q, total);
    while n < total
      invariant 0 <= n <= total && Scanned(b, q, total, rs, end, n)
      invariant found.None? ==> forall k :: 0 <= k < n ==> rs[k].rtype != TYPE_TSIG
      invariant found.Some? ==> n == total && !Misplaced(rs, ar) && found == LastTsig(rs)
    {
      var next := ReadRecord(b, end);
      if next.None? {
        return false, end, found;
      }
      var rr := next.value;
      ScanNext(b, q, total, rs, end, n, rr);
      if rr.rtype == TYPE_TSIG {
        if found.Some? || n + 1 != total || ar == 0 || rr.rclass != CLASS_ANY {
          return false, end, found;
        }
        found := Some(end);
      }
      end := rr.end;
      rs := rs + [rr];
      n := n + 1;
    }
    ScanEnds(b, q, total, rs, end);
    ok := true;
  }

  /** `find_tsig`: questions, then the records, then the TSIG RR itself. */
  method Find(msg: seq<byte>) returns (r: Located)
    ensures r == FindTsig(msg)
  {
    if |msg| < HEADER_LEN {
      return Malformed;
    }
    var q := SkipQuestions(msg, HEADER_LEN, Count(msg, 4));
    if q.None? {
      return Malformed;
    }
    var ar := Count(msg, 10);
    var ok, end, found := ScanRecords(msg, q.value, Count(msg, 6) as int + Count(msg, 8) as int + ar as int, ar);
    if !ok || end > |msg| {
      return Malformed;
    }
    if found.None? {
      return Absent;
    }
    var t := ParseTsig(msg, found.value);
    return if t.None? then Malformed else Present(t.value);
  }
}
