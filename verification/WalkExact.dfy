/** Which responses the walker accepts and everything it records of them, told by the octets of the
    message (`walk_response` in `wire.rs`). */
module WalkExact {
  import opened Common
  import opened Bytes
  import opened DnsNames
  import opened WireNames
  import opened Wire
  import opened WalkFacts

  // ----- one record

  /** A record stands at `pos`: an owner name, ten octets of which the last two are the length of the
      data, and the data. */
  lemma FrameExact(msg: seq<byte>, pos: nat)
    ensures FrameAt(msg, pos).Some? <==>
              && ReadName(msg, pos, true).Some?
              && var n := ReadName(msg, pos, true).value.end;
                 n + 10 <= |msg| && n + 10 + Be16(msg, n + 8) <= |msg|
    ensures FrameAt(msg, pos).Some? ==>
              var n := ReadName(msg, pos, true).value.end;
              FrameAt(msg, pos).value == Frame(pos, n, n + 10 + Be16(msg, n + 8))
  {
  }

  predicate HasType(msg: seq<byte>, f: Frame, rtype: int) {
    FrameOk(msg, f) && Be16(msg, f.nameEnd) == rtype
  }

  /** The data of a CNAME record is one name and nothing else. */
  predicate CnameFits(msg: seq<byte>, f: Frame) {
    var n := ReadName(msg, f.nameEnd + 10, true);
    n.Some? && n.value.end == f.end
  }

  /** The data of a SOA record is two names and twenty octets. */
  predicate SoaFits(msg: seq<byte>, f: Frame) {
    var mname := ReadName(msg, f.nameEnd + 10, true);
    && mname.Some?
    && var rname := ReadName(msg, mname.value.end, true);
       rname.Some? && rname.value.end + 20 == f.end
  }

  /** What a record must satisfy in section 0 (answer), 1 (authority) or 2 (additional). */
  predicate Fits(msg: seq<byte>, section: nat, negative: bool, f: Frame) {
    && FrameOk(msg, f)
    && if HasType(msg, f, 41) then section == 2
       else
         && f.nameEnd + 4 <= 65535
         && (section == 0 && HasType(msg, f, 5) ==> CnameFits(msg, f))
         && (section == 1 && negative && HasType(msg, f, 6) ==> SoaFits(msg, f))
  }

  lemma TakeFits(msg: seq<byte>, section: nat, negative: bool, info: Info, f: Frame)
    requires FrameOk(msg, f)
    ensures Take(msg, section, negative, info, f).Some?
            <==> Fits(msg, section, negative, f) && (HasType(msg, f, 41) ==> info.optRange.None?)
  {
  }

  lemma TakeRecords(msg: seq<byte>, section: nat, negative: bool, info: Info, f: Frame)
    requires FrameOk(msg, f) && Take(msg, section, negative, info, f).Some?
    ensures var next := Take(msg, section, negative, info, f).value;
            && next.tc == info.tc && next.ancount == info.ancount
            && next.ttlOffsets == info.ttlOffsets + OffsetsIn(msg, f)
            && next.cnames == info.cnames + (if section == 0 then TargetsIn(msg, f) else [])
            && next.optRange == if HasType(msg, f, 41) then Some(Range(f.start, f.end)) else info.optRange
  {
  }

  // ----- a section

  /** Where the TTL of a record stands; an OPT record has none. */
  function OffsetsIn(msg: seq<byte>, f: Frame): seq<nat> {
    if HasType(msg, f, 41) then [] else [f.nameEnd + 4]
  }

  /** The name a CNAME record points to. */
  function TargetsIn(msg: seq<byte>, f: Frame): seq<seq<byte>> {
    var n := ReadName(msg, f.nameEnd + 10, true);
    if HasType(msg, f, 5) && n.Some? then [n.value.key] else []
  }

  function OptsIn(msg: seq<byte>, f: Frame): seq<Range> {
    if HasType(msg, f, 41) then [Range(f.start, f.end)] else []
  }

  /** The TTL fields of records, in order, OPT records left out. */
  function Offsets(msg: seq<byte>, fs: seq<Frame>): seq<nat> {
    if fs == [] then [] else OffsetsIn(msg, fs[0]) + Offsets(msg, fs[1..])
  }

  /** The targets of the CNAME records, in order. */
  function Targets(msg: seq<byte>, fs: seq<Frame>): seq<seq<byte>> {
    if fs == [] then [] else TargetsIn(msg, fs[0]) + Targets(msg, fs[1..])
  }

  /** The OPT records, in order. */
  function Opts(msg: seq<byte>, fs: seq<Frame>): seq<Range> {
    if fs == [] then [] else OptsIn(msg, fs[0]) + Opts(msg, fs[1..])
  }

  predicate AllFit(msg: seq<byte>, section: nat, negative: bool, fs: seq<Frame>) {
    forall i :: 0 <= i < |fs| ==> Fits(msg, section, negative, fs[i])
  }

  /** At most one OPT record, counting one seen before. */
  predicate OneOpt(msg: seq<byte>, before: Option<Range>, fs: seq<Frame>) {
    |Opts(msg, fs)| + (if before.Some? then 1 else 0) <= 1
  }

  predicate Records(msg: seq<byte>, section: nat, was: Info, fs: seq<Frame>, now: Info) {
    && now.tc == was.tc && now.ancount == was.ancount
    && now.ttlOffsets == was.ttlOffsets + Offsets(msg, fs)
    && now.cnames == was.cnames + (if section == 0 then Targets(msg, fs) else [])
    && now.optRange == if Opts(msg, fs) == [] then was.optRange else Some(Opts(msg, fs)[0])
  }

  lemma ConsFits(msg: seq<byte>, section: nat, negative: bool, before: Option<Range>, f: Frame, fs: seq<Frame>)
    ensures AllFit(msg, section, negative, [f] + fs)
            <==> Fits(msg, section, negative, f) && AllFit(msg, section, negative, fs)
    ensures OneOpt(msg, before, [f] + fs)
            <==> (HasType(msg, f, 41) ==> before.None?)
                 && OneOpt(msg, if HasType(msg, f, 41) then Some(Range(f.start, f.end)) else before, fs)
  {
    var all := [f] + fs;
    ConsLists(msg, f, fs);
    assert all[0] == f;
    if AllFit(msg, section, negative, all) {
      forall i | 0 <= i < |fs|
        ensures Fits(msg, section, negative, fs[i])
      {
        assert fs[i] == all[i + 1];
      }
    }
  }

  lemma ConsLists(msg: seq<byte>, f: Frame, fs: seq<Frame>)
    ensures Offsets(msg, [f] + fs) == OffsetsIn(msg, f) + Offsets(msg, fs)
    ensures Targets(msg, [f] + fs) == TargetsIn(msg, f) + Targets(msg, fs)
    ensures Opts(msg, [f] + fs) == OptsIn(msg, f) + Opts(msg, fs)
  {
    assert ([f] + fs)[0] == f && ([f] + fs)[1..] == fs;
  }

  lemma Joins<T>(a: seq<T>, b: seq<T>, c: seq<T>)
    ensures a + b + c == a + (b + c)
  {
  }

  lemma ConsRecords(msg: seq<byte>, section: nat, was: Info, mid: Info, now: Info, f: Frame, fs: seq<Frame>)
    requires Records(msg, section, mid, fs, now) && mid.tc == was.tc && mid.ancount == was.ancount
    requires mid.ttlOffsets == was.ttlOffsets + OffsetsIn(msg, f)
    requires mid.cnames == was.cnames + (if section == 0 then TargetsIn(msg, f) else [])
    requires mid.optRange == if HasType(msg, f, 41) then Some(Range(f.start, f.end)) else was.optRange
    requires HasType(msg, f, 41) ==> Opts(msg, fs) == []
    ensures Records(msg, section, was, [f] + fs, now)
  {
    ConsLists(msg, f, fs);
    Joins(was.ttlOffsets, OffsetsIn(msg, f), Offsets(msg, fs));
    Joins(was.cnames, TargetsIn(msg, f), Targets(msg, fs));
  }

  /** A section is accepted exactly if its records stand one after the other, each fits, and there is no
      second OPT record; what is recorded are theirs. */
  predicate Exactly(msg: seq<byte>, section: nat, negative: bool, count: nat, p: Progress) {
    var fs, next := Frames(msg, count, p.pos), WalkSection(msg, section, negative, count, p);
    && (next.Some? <==>
          fs.Some? && AllFit(msg, section, negative, fs.value) && OneOpt(msg, p.info.optRange, fs.value))
    && (next.Some? ==>
          && fs.Some? && Records(msg, section, p.info, fs.value, next.value.info)
          && next.value.pos == EndOfFrames(p.pos, fs.value))
  }

  lemma SectionStops(msg: seq<byte>, section: nat, negative: bool, count: nat, p: Progress, f: Frame)
    requires count > 0 && FrameAt(msg, p.pos) == Some(f) && Take(msg, section, negative, p.info, f).None?
    ensures Exactly(msg, section, negative, count, p)
  {
    TakeFits(msg, section, negative, p.info, f);
    var rest := Frames(msg, count - 1, f.end);
    if rest.Some? {
      ConsFits(msg, section, negative, p.info.optRange, f, rest.value);
    }
  }

  lemma SectionGoes(msg: seq<byte>, section: nat, negative: bool, count: nat, p: Progress, f: Frame, info: Info)
    requires count > 0 && FrameAt(msg, p.pos) == Some(f) && Take(msg, section, negative, p.info, f) == Some(info)
    requires Exactly(msg, section, negative, count - 1, Progress(info, f.end))
    ensures Exactly(msg, section, negative, count, p)
  {
    TakeFits(msg, section, negative, p.info, f);
    TakeRecords(msg, section, negative, p.info, f);
    var rest := Frames(msg, count - 1, f.end);
    if rest.Some? {
      ConsFits(msg, section, negative, p.info.optRange, f, rest.value);
    }
    var last := WalkSection(msg, section, negative, count - 1, Progress(info, f.end));
    if last.Some? {
      ConsRecords(msg, section, p.info, info, last.value.info, f, rest.value);
    }
  }

  lemma {:induction false} SectionExact(msg: seq<byte>, section: nat, negative: bool, count: nat, p: Progress)
    ensures Exactly(msg, section, negative, count, p)
    decreases count
  {
    if count > 0 && FrameAt(msg, p.pos).Some? {
      var f := FrameAt(msg, p.pos).value;
      var next := Take(msg, section, negative, p.info, f);
      if next.Some? {
        SectionExact(msg, section, negative, count - 1, Progress(next.value, f.end));
        SectionGoes(msg, section, negative, count, p, f, next.value);
      } else {
        SectionStops(msg, section, negative, count, p, f);
      }
    }
  }

  // ----- the question

  /** Exactly one question: a plain name of at most 255 octets, the key up to case, its type and class. */
  lemma QuestionExact(msg: seq<byte>, key: seq<byte>, qtype: u16, qclass: u16, end: nat)
    ensures QuestionEnd(msg, key, qtype, qclass) == Some(end) <==>
              && 17 <= end <= |msg| && Be16(msg, 4) == 1 && NameAt(msg, 12, end - 4) && end <= 271
              && LowerSeq(msg[12..end - 4]) == key
              && Be16(msg, end - 4) == qtype && Be16(msg, end - 2) == qclass
  {
    if |msg| >= 12 && ReadName(msg, 12, false).Some? {
      ReadIsPlain(msg, 12);
    }
    if 17 <= end <= |msg| && NameAt(msg, 12, end - 4) && end <= 271 {
      ReadPlain(msg, 12, end - 4);
    }
  }

  // ----- the whole response

  /** The three sections of a response whose question ends at `from`. */
  predicate Divides(msg: seq<byte>, from: nat, an: seq<Frame>, ns: seq<Frame>, ar: seq<Frame>) {
    && |msg| >= 12
    && Frames(msg, Be16(msg, 6), from) == Some(an)
    && Frames(msg, Be16(msg, 8), EndOfFrames(from, an)) == Some(ns)
    && Frames(msg, Be16(msg, 10), EndOfFrames(EndOfFrames(from, an), ns)) == Some(ar)
    && EndOfFrames(EndOfFrames(EndOfFrames(from, an), ns), ar) == |msg|
  }

  /** A reply without answers or with RCODE 3. */
  predicate Denies(msg: seq<byte>)
    requires |msg| >= 12
  {
    Be16(msg, 6) == 0 || msg[3] % 16 == 3
  }

  /** Every record fits its section, and there is at most one OPT record. */
  predicate Sound(msg: seq<byte>, an: seq<Frame>, ns: seq<Frame>, ar: seq<Frame>)
    requires |msg| >= 12
  {
    && AllFit(msg, 0, Denies(msg), an) && AllFit(msg, 1, Denies(msg), ns) && AllFit(msg, 2, Denies(msg), ar)
    && |Opts(msg, ar)| <= 1
  }

  lemma {:induction false} NoOpts(msg: seq<byte>, section: nat, negative: bool, fs: seq<Frame>)
    requires AllFit(msg, section, negative, fs) && section < 2
    ensures Opts(msg, fs) == []
  {
    if fs != [] {
      assert Fits(msg, section, negative, fs[0]);
      forall i | 0 <= i < |fs| - 1
        ensures Fits(msg, section, negative, fs[1..][i])
      {
        assert fs[1..][i] == fs[i + 1];
      }
      NoOpts(msg, section, negative, fs[1..]);
    }
  }

  /** The response that is accepted is divided into records that fit; what is recorded of it is its TC
      bit, its answer count, the offset of every TTL but an OPT record's, the targets of the CNAME records
      among its answers and the OPT record, if any. */
  lemma WalkedExact(msg: seq<byte>, q: Query) returns (from: nat, an: seq<Frame>, ns: seq<Frame>, ar: seq<Frame>)
    requires WalkResponse(msg, q).Walked?
    ensures QuestionEnd(msg, q.key, q.qtype, q.qclass) == Some(from) && Divides(msg, from, an, ns, ar)
            && Sound(msg, an, ns, ar)
    ensures var info := WalkResponse(msg, q).info;
            && info.tc == (msg[2] % 4 >= 2) && info.ancount == Be16(msg, 6)
            && info.ttlOffsets == Offsets(msg, an) + Offsets(msg, ns) + Offsets(msg, ar)
            && info.cnames == Targets(msg, an)
            && info.optRange == if Opts(msg, ar) == [] then None else Some(Opts(msg, ar)[0])
  {
    var a, b;
    from, a, b := WalkSteps(msg, q);
    BeginExact(msg, from);
    an := OptlessSection(msg, 0, Denies(msg), Be16(msg, 6), Begin(msg, from), a);
    ns := OptlessSection(msg, 1, Denies(msg), Be16(msg, 8), a, b);
    SectionExact(msg, 2, Denies(msg), Be16(msg, 10), b);
    ar := Frames(msg, Be16(msg, 10), b.pos).value;
    Gather(msg, Begin(msg, from).info, an, a.info, ns, b.info, ar, WalkResponse(msg, q).info);
  }

  lemma TcBit(x: byte)
    ensures x / 2 % 2 == 1 <==> x % 4 >= 2
  {
    assert x == 4 * (x / 4) + x % 4;
  }

  /** What is known before the first record: the TC bit, the answer count, and nothing else. */
  lemma BeginExact(msg: seq<byte>, from: nat)
    requires |msg| >= 12
    ensures var p := Begin(msg, from);
            && p.pos == from && p.info.tc == (msg[2] % 4 >= 2) && p.info.ancount == Be16(msg, 6)
            && p.info.ttlOffsets == [] && p.info.cnames == [] && p.info.optRange.None?
            && p.info.minTtl.None? && p.info.negativeTtl.None? && p.info.rcode == msg[3] % 16
  {
    TcBit(msg[2]);
  }

  /** A section that holds no OPT record because it may not. */
  lemma OptlessSection(msg: seq<byte>, section: nat, negative: bool, count: nat, p: Progress, next: Progress)
    returns (fs: seq<Frame>)
    requires WalkSection(msg, section, negative, count, p) == Some(next) && section < 2
    ensures Frames(msg, count, p.pos) == Some(fs) && AllFit(msg, section, negative, fs)
    ensures next.pos == EndOfFrames(p.pos, fs) && Records(msg, section, p.info, fs, next.info) && Opts(msg, fs) == []
  {
    SectionExact(msg, section, negative, count, p);
    fs := Frames(msg, count, p.pos).value;
    NoOpts(msg, section, negative, fs);
  }

  lemma Gather(msg: seq<byte>, i: Info, an: seq<Frame>, j: Info, ns: seq<Frame>, k: Info, ar: seq<Frame>, l: Info)
    requires i.ttlOffsets == [] && i.cnames == [] && i.optRange.None?
    requires Records(msg, 0, i, an, j) && Records(msg, 1, j, ns, k) && Records(msg, 2, k, ar, l)
    requires Opts(msg, an) == [] && Opts(msg, ns) == []
    ensures l.tc == i.tc && l.ancount == i.ancount && l.cnames == Targets(msg, an)
            && l.ttlOffsets == Offsets(msg, an) + Offsets(msg, ns) + Offsets(msg, ar)
            && l.optRange == if Opts(msg, ar) == [] then None else Some(Opts(msg, ar)[0])
  {
    assert j.ttlOffsets == Offsets(msg, an) && j.cnames == Targets(msg, an);
    assert k.ttlOffsets == Offsets(msg, an) + Offsets(msg, ns) && k.cnames == j.cnames + [];
  }

  /** And every such response is accepted. */
  lemma ExactWalks(msg: seq<byte>, q: Query, from: nat, an: seq<Frame>, ns: seq<Frame>, ar: seq<Frame>)
    requires QuestionEnd(msg, q.key, q.qtype, q.qclass) == Some(from) && Divides(msg, from, an, ns, ar)
             && Sound(msg, an, ns, ar)
    ensures WalkResponse(msg, q).Walked?
  {
    var a := SectionWalks(msg, 0, Denies(msg), Be16(msg, 6), Begin(msg, from), an);
    var b := SectionWalks(msg, 1, Denies(msg), Be16(msg, 8), a, ns);
    var c := SectionWalks(msg, 2, Denies(msg), Be16(msg, 10), b, ar);
    InTurn(msg, Begin(msg, from), a, b, c);
  }

  lemma InTurn(msg: seq<byte>, begin: Progress, a: Progress, b: Progress, c: Progress)
    requires |msg| >= 12 && WalkSection(msg, 0, Negative(msg), Be16(msg, 6), begin) == Some(a)
    requires WalkSection(msg, 1, Negative(msg), Be16(msg, 8), a) == Some(b)
    requires WalkSection(msg, 2, Negative(msg), Be16(msg, 10), b) == Some(c)
    ensures Sections(msg, 0, begin) == Some(c)
  {
    assert Sections(msg, 3, c) == Some(c);
    assert Sections(msg, 2, b) == Some(c);
    assert Sections(msg, 1, a) == Some(c);
  }

  lemma SectionWalks(msg: seq<byte>, section: nat, negative: bool, count: nat, p: Progress, fs: seq<Frame>)
    returns (next: Progress)
    requires Frames(msg, count, p.pos) == Some(fs) && AllFit(msg, section, negative, fs) && section <= 2
    requires p.info.optRange.None? && (section == 2 ==> |Opts(msg, fs)| <= 1)
    ensures WalkSection(msg, section, negative, count, p) == Some(next) && next.pos == EndOfFrames(p.pos, fs)
    ensures section < 2 ==> next.info.optRange.None?
  {
    if section < 2 {
      NoOpts(msg, section, negative, fs);
    }
    SectionExact(msg, section, negative, count, p);
    next := WalkSection(msg, section, negative, count, p).value;
  }

  lemma ErrorExact(msg: seq<byte>, q: Query)
    requires WalkResponse(msg, q).Unwalked?
    ensures WalkResponse(msg, q).error == if |msg| < 12 then TooShort else FormErr
  {
  }
}
