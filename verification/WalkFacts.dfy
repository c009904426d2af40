/** What an accepted walk establishes about the offsets it records (`wire.rs`). */
module WalkFacts {
  import opened Common
  import opened Bytes
  import opened Edns
  import opened WireNames
  import opened Wire

  /** TTL fields inside `from..pos`: in order, apart, small enough for 16 bits. */
  predicate Spaced(offsets: seq<nat>, from: nat, pos: nat) {
    && (forall i :: 0 <= i < |offsets| ==> from + 5 + 11 * i <= offsets[i] <= 0xFFFF && offsets[i] + 6 <= pos)
    && (forall i, j :: 0 <= i < j < |offsets| ==> offsets[i] + 11 <= offsets[j])
  }

  /** An OPT record apart from every TTL field. */
  predicate Apart(offsets: seq<nat>, opt: Option<Range>, from: nat, pos: nat) {
    opt.Some? ==>
      && from <= opt.value.start && opt.value.start + 11 <= opt.value.end <= pos
      && forall i :: 0 <= i < |offsets| ==> offsets[i] + 6 <= opt.value.start || opt.value.end + 5 <= offsets[i]
  }

  predicate Seen(records: nat, info: Info) {
    records == |info.ttlOffsets| + if info.optRange.Some? then 1 else 0
  }

  function TtlAt(msg: seq<byte>, off: nat): u32
    requires off + 4 <= |msg|
  {
    Be32(msg, off)
  }

  lemma CappedIs(ttl: u32)
    ensures Capped(ttl) == if ttl < 2147483648 then ttl else 0
  {
  }

  /** `m` is the least capped TTL of the first `n` records. */
  predicate LeastTtl(msg: seq<byte>, offsets: seq<nat>, n: nat, m: Option<u32>)
    requires n <= |offsets| && forall i :: 0 <= i < n ==> offsets[i] + 4 <= |msg|
  {
    && (m.Some? <==> n > 0)
    && (m.Some? ==>
          && (forall i :: 0 <= i < n ==> m.value <= Capped(TtlAt(msg, offsets[i])))
          && (exists i :: 0 <= i < n && m.value == Capped(TtlAt(msg, offsets[i]))))
  }

  /** After `records` records of a walk that began at `from`, the first `answers` of them answers. */
  predicate WalkOk(msg: seq<byte>, from: nat, records: nat, answers: nat, p: Progress) {
    && from + 11 * records <= p.pos <= |msg| && answers <= |p.info.ttlOffsets|
    && Spaced(p.info.ttlOffsets, from, p.pos)
    && Apart(p.info.ttlOffsets, p.info.optRange, from, p.pos)
    && Seen(records, p.info)
    && LeastTtl(msg, p.info.ttlOffsets, answers, p.info.minTtl)
  }

  lemma SpacedPush(offsets: seq<nat>, from: nat, pos: nat, f: Frame)
    requires Spaced(offsets, from, pos) && from + 11 * |offsets| <= pos == f.start
    requires f.start < f.nameEnd && f.nameEnd + 10 <= f.end && f.nameEnd + 4 <= 0xFFFF
    ensures Spaced(offsets + [f.nameEnd + 4], from, f.end)
  {
    var all := offsets + [f.nameEnd + 4];
    forall i, j | 0 <= i < j < |all|
      ensures all[i] + 11 <= all[j]
    {
    }
  }

  lemma LeastPush(msg: seq<byte>, offsets: seq<nat>, m: Option<u32>, off: nat)
    requires forall i :: 0 <= i < |offsets| ==> offsets[i] + 4 <= |msg|
    requires off + 4 <= |msg| && LeastTtl(msg, offsets, |offsets|, m)
    ensures LeastTtl(msg, offsets + [off], |offsets| + 1, Some(Least(m, Capped(TtlAt(msg, off)))))
  {
    var all, n := offsets + [off], Least(m, Capped(TtlAt(msg, off)));
    if m.Some? && m.value < Capped(TtlAt(msg, off)) {
      var i :| 0 <= i < |offsets| && m.value == Capped(TtlAt(msg, offsets[i]));
      assert n == Capped(TtlAt(msg, all[i]));
    } else {
      assert n == Capped(TtlAt(msg, all[|offsets|]));
    }
  }

  lemma LeastKeeps(msg: seq<byte>, offsets: seq<nat>, off: nat, n: nat, m: Option<u32>)
    requires n <= |offsets| && (forall i :: 0 <= i < n ==> offsets[i] + 4 <= |msg|) && LeastTtl(msg, offsets, n, m)
    ensures LeastTtl(msg, offsets + [off], n, m)
  {
    var all := offsets + [off];
    assert forall i :: 0 <= i < n ==> all[i] == offsets[i];
    if m.Some? {
      var i :| 0 <= i < n && m.value == Capped(TtlAt(msg, offsets[i]));
      assert m.value == Capped(TtlAt(msg, all[i]));
    }
  }

  /** What `Take` does to the recorded facts, whatever the section. */
  lemma TakeEffect(msg: seq<byte>, section: nat, negative: bool, info: Info, f: Frame)
    requires FrameOk(msg, f) && Take(msg, section, negative, info, f).Some?
    ensures var next := Take(msg, section, negative, info, f).value;
            if Be16(msg, f.nameEnd) == TYPE_OPT then
              && section == 2 && info.optRange.None? && next.optRange == Some(Range(f.start, f.end))
              && next.ttlOffsets == info.ttlOffsets && next.minTtl == info.minTtl
            else
              && f.nameEnd + 4 <= 0xFFFF && next.optRange == info.optRange
              && next.ttlOffsets == info.ttlOffsets + [f.nameEnd + 4]
              && next.minTtl
                 == if section == 0 then Some(Least(info.minTtl, Capped(Be32(msg, f.nameEnd + 4)))) else info.minTtl
    ensures Take(msg, section, negative, info, f).value.ancount == info.ancount
  {
  }

  lemma ApartPush(offsets: seq<nat>, opt: Option<Range>, from: nat, pos: nat, f: Frame)
    requires Apart(offsets, opt, from, pos) && pos == f.start && f.start < f.nameEnd && f.nameEnd + 10 <= f.end
    ensures Apart(offsets + [f.nameEnd + 4], opt, from, f.end)
  {
  }

  lemma ApartOpt(offsets: seq<nat>, from: nat, pos: nat, f: Frame)
    requires Spaced(offsets, from, pos) && from <= pos == f.start && f.start < f.nameEnd && f.nameEnd + 10 <= f.end
    ensures Apart(offsets, Some(Range(f.start, f.end)), from, f.end) && Spaced(offsets, from, f.end)
  {
  }

  lemma TakeKeeps(msg: seq<byte>, section: nat, negative: bool, from: nat, records: nat, answers: nat, p: Progress,
                  f: Frame)
    requires WalkOk(msg, from, records, answers, p) && (section == 0 ==> answers == records)
    requires FrameOk(msg, f) && f.start == p.pos && Take(msg, section, negative, p.info, f).Some?
    ensures WalkOk(msg, from, records + 1, if section == 0 then records + 1 else answers,
                   Progress(Take(msg, section, negative, p.info, f).value, f.end))
  {
    TakeEffect(msg, section, negative, p.info, f);
    if Be16(msg, f.nameEnd) != TYPE_OPT {
      SpacedPush(p.info.ttlOffsets, from, p.pos, f);
      ApartPush(p.info.ttlOffsets, p.info.optRange, from, p.pos, f);
      if section == 0 {
        LeastPush(msg, p.info.ttlOffsets, p.info.minTtl, f.nameEnd + 4);
      } else {
        LeastKeeps(msg, p.info.ttlOffsets, f.nameEnd + 4, answers, p.info.minTtl);
      }
    } else {
      ApartOpt(p.info.ttlOffsets, from, p.pos, f);
    }
  }

  /** A section goes on from its first record. */
  lemma SectionStep(msg: seq<byte>, section: nat, negative: bool, count: nat, p: Progress)
    returns (f: Frame, info: Info)
    requires count > 0 && WalkSection(msg, section, negative, count, p).Some?
    ensures FrameAt(msg, p.pos) == Some(f) && Take(msg, section, negative, p.info, f) == Some(info)
    ensures WalkSection(msg, section, negative, count, p)
            == WalkSection(msg, section, negative, count - 1, Progress(info, f.end))
  {
    f := FrameAt(msg, p.pos).value;
    info := Take(msg, section, negative, p.info, f).value;
  }

  function Answers(section: nat, answers: nat, n: nat): nat {
    if section == 0 then answers + n else answers
  }

  lemma StepKeeps(msg: seq<byte>, section: nat, negative: bool, from: nat, records: nat, answers: nat, p: Progress,
                  f: Frame, info: Info)
    requires WalkOk(msg, from, records, answers, p) && (section == 0 ==> answers == records)
    requires FrameOk(msg, f) && f.start == p.pos && Take(msg, section, negative, p.info, f) == Some(info)
    ensures WalkOk(msg, from, records + 1, Answers(section, answers, 1), Progress(info, f.end))
  {
    TakeKeeps(msg, section, negative, from, records, answers, p, f);
  }

  lemma {:induction false} SectionKeeps(msg: seq<byte>, section: nat, negative: bool, count: nat,
                                        from: nat, records: nat, answers: nat, p: Progress, next: Progress)
    requires WalkOk(msg, from, records, answers, p) && (section == 0 ==> answers == records)
    requires WalkSection(msg, section, negative, count, p) == Some(next)
    ensures WalkOk(msg, from, records + count, Answers(section, answers, count), next)
    decreases count
  {
    if count > 0 {
      var f, info := SectionStep(msg, section, negative, count, p);
      StepKeeps(msg, section, negative, from, records, answers, p, f, info);
      SectionKeeps(msg, section, negative, count - 1, from, records + 1, Answers(section, answers, 1),
                   Progress(info, f.end), next);
    }
  }

  lemma {:induction false} CountKept(msg: seq<byte>, section: nat, negative: bool, count: nat, p: Progress)
    requires WalkSection(msg, section, negative, count, p).Some?
    ensures WalkSection(msg, section, negative, count, p).value.info.ancount == p.info.ancount
    decreases count
  {
    if count > 0 {
      var f, info := SectionStep(msg, section, negative, count, p);
      TakeEffect(msg, section, negative, p.info, f);
      CountKept(msg, section, negative, count - 1, Progress(info, f.end));
    }
  }

  function Total(msg: seq<byte>): nat
    requires |msg| >= HEADER_LEN
  {
    Be16(msg, 6) as int + Be16(msg, 8) as int + Be16(msg, 10) as int
  }

  /** An accepted response is three sections, one after the other, ending at its end. */
  lemma WalkSteps(msg: seq<byte>, q: Query) returns (from: nat, a: Progress, b: Progress)
    requires WalkResponse(msg, q).Walked?
    ensures QuestionEnd(msg, q.key, q.qtype, q.qclass) == Some(from) && from <= |msg|
    ensures WalkSection(msg, 0, Negative(msg), Be16(msg, 6), Begin(msg, from)) == Some(a)
    ensures WalkSection(msg, 1, Negative(msg), Be16(msg, 8), a) == Some(b)
    ensures WalkSection(msg, 2, Negative(msg), Be16(msg, 10), b) == Some(Progress(WalkResponse(msg, q).info, |msg|))
  {
    from := QuestionEnd(msg, q.key, q.qtype, q.qclass).value;
    a := SectionsStep(msg, 0, Begin(msg, from));
    b := SectionsStep(msg, 1, a);
    var c := SectionsStep(msg, 2, b);
  }

  lemma SectionsStep(msg: seq<byte>, section: nat, at: Progress) returns (next: Progress)
    requires |msg| >= HEADER_LEN && section < 3 && Sections(msg, section, at).Some?
    ensures WalkSection(msg, section, Negative(msg), Be16(msg, 6 + 2 * section), at) == Some(next)
    ensures Sections(msg, section, at) == Sections(msg, section + 1, next)
  {
    next := WalkSection(msg, section, Negative(msg), Be16(msg, 6 + 2 * section), at).value;
  }

  /** Every accepted response: its TTL fields lie past the question, in order and apart, and apart
      from the OPT record; together they are all its records; and `min_ttl` is the least capped TTL
      of exactly the answers. */
  lemma WalkedOk(msg: seq<byte>, q: Query)
    requires WalkResponse(msg, q).Walked?
    ensures QuestionEnd(msg, q.key, q.qtype, q.qclass).Some?
    ensures var from := QuestionEnd(msg, q.key, q.qtype, q.qclass).value;
            var info := WalkResponse(msg, q).info;
            WalkOk(msg, from, Total(msg), Be16(msg, 6), Progress(info, |msg|)) && info.ancount == Be16(msg, 6)
  {
    var neg := Negative(msg);
    var an, ns, ar := Be16(msg, 6), Be16(msg, 8), Be16(msg, 10);
    var from, a, b := WalkSteps(msg, q);
    var c := Progress(WalkResponse(msg, q).info, |msg|);
    SectionKeeps(msg, 0, neg, an, from, 0, 0, Begin(msg, from), a);
    SectionKeeps(msg, 1, neg, ns, from, an, an, a, b);
    SectionKeeps(msg, 2, neg, ar, from, an as int + ns as int, an, b, c);
    CountKept(msg, 0, neg, an, Begin(msg, from));
    CountKept(msg, 1, neg, ns, a);
    CountKept(msg, 2, neg, ar, b);
  }

  /** ARCOUNT of an accepted response stays far from 16 bits, so one more record never wraps it. */
  lemma CountsSmall(msg: seq<byte>, q: Query)
    requires WalkResponse(msg, q).Walked?
    ensures Total(msg) <= 5959
    ensures WalkResponse(msg, q).info.optRange.Some? ==> Be16(msg, 10) > 0
  {
    WalkedOk(msg, q);
    var from := QuestionEnd(msg, q.key, q.qtype, q.qclass).value;
    var info := WalkResponse(msg, q).info;
    var n := |info.ttlOffsets|;
    if n > 0 {
      assert from + 5 + 11 * (n - 1) <= info.ttlOffsets[n - 1] <= 0xFFFF;
    }
    OptIsAdditional(msg, q);
  }

  lemma {:induction false} NoOptBefore(msg: seq<byte>, section: nat, negative: bool, count: nat, p: Progress)
    requires WalkSection(msg, section, negative, count, p).Some? && p.info.optRange.None? && (section < 2 || count == 0)
    ensures WalkSection(msg, section, negative, count, p).value.info.optRange.None?
    decreases count
  {
    if count > 0 {
      var f, info := SectionStep(msg, section, negative, count, p);
      TakeEffect(msg, section, negative, p.info, f);
      NoOptBefore(msg, section, negative, count - 1, Progress(info, f.end));
    }
  }

  lemma OptIsAdditional(msg: seq<byte>, q: Query)
    requires WalkResponse(msg, q).Walked?
    ensures WalkResponse(msg, q).info.optRange.Some? ==> Be16(msg, 10) > 0
  {
    var neg := Negative(msg);
    var from, a, b := WalkSteps(msg, q);
    NoOptBefore(msg, 0, neg, Be16(msg, 6), Begin(msg, from));
    NoOptBefore(msg, 1, neg, Be16(msg, 8), a);
    if Be16(msg, 10) == 0 {
      NoOptBefore(msg, 2, neg, 0, b);
    }
  }

  // ----- the root, for small messages

  /** A query for the root's address. */
  function RootQuery(): Query {
    Query(0, 0x100, [0], [0], 1, 1, 17, None)
  }

  lemma RootReads(msg: seq<byte>, at: nat, compressed: bool)
    requires at < |msg| && msg[at] == 0
    ensures ReadName(msg, at, compressed) == Some(Named([0], at + 1))
  {
  }

  // ----- negative replies (RFC 2308)

  /** The frames of `count` records from `pos` on. */
  function Frames(msg: seq<byte>, count: nat, pos: nat): Option<seq<Frame>>
    decreases count
  {
    if count == 0 then Some([]) else
    match FrameAt(msg, pos)
    case None => None
    case Some(f) =>
      match Frames(msg, count - 1, f.end)
      case None => None
      case Some(rest) => Some([f] + rest)
  }

  function EndOfFrames(pos: nat, fs: seq<Frame>): nat {
    if fs == [] then pos else fs[|fs| - 1].end
  }

  predicate IsSoa(msg: seq<byte>, f: Frame) {
    FrameOk(msg, f) && Be16(msg, f.nameEnd) == TYPE_SOA
  }

  /** The lesser of a SOA record's own TTL and its MINIMUM, the last field of its RDATA. */
  function SoaTtl(msg: seq<byte>, f: Frame): u32
    requires FrameOk(msg, f)
  {
    var ttl, minimum := Capped(Be32(msg, f.nameEnd + 4)), Be32(msg, f.end - 4);
    if minimum < ttl then minimum else ttl
  }

  /** `m` is the least TTL of the SOA records among `fs`, none if there are none. */
  predicate LeastSoa(msg: seq<byte>, fs: seq<Frame>, m: Option<u32>) {
    if m.None? then forall i :: 0 <= i < |fs| ==> !IsSoa(msg, fs[i])
    else
      && (forall i :: 0 <= i < |fs| && IsSoa(msg, fs[i]) ==> m.value <= SoaTtl(msg, fs[i]))
      && (exists i :: 0 <= i < |fs| && IsSoa(msg, fs[i]) && m.value == SoaTtl(msg, fs[i]))
  }

  lemma TakeNegative(msg: seq<byte>, section: nat, negative: bool, info: Info, f: Frame)
    requires FrameOk(msg, f) && Take(msg, section, negative, info, f).Some?
    ensures Take(msg, section, negative, info, f).value.negativeTtl
            == if section == 1 && negative && IsSoa(msg, f)
               then Some(Least(info.negativeTtl, SoaTtl(msg, f)))
               else info.negativeTtl
  {
  }

  lemma LeastSoaCons(msg: seq<byte>, f: Frame, fs: seq<Frame>, m: Option<u32>)
    requires FrameOk(msg, f) && LeastSoa(msg, fs, m)
    ensures LeastSoa(msg, [f] + fs, if IsSoa(msg, f) then Some(Least(m, SoaTtl(msg, f))) else m)
  {
    var all := [f] + fs;
    assert all[0] == f && forall i :: 0 <= i < |fs| ==> all[i + 1] == fs[i];
    if m.Some? {
      var i :| 0 <= i < |fs| && IsSoa(msg, fs[i]) && m.value == SoaTtl(msg, fs[i]);
      assert IsSoa(msg, all[i + 1]) && m.value == SoaTtl(msg, all[i + 1]);
    }
  }

  function Lesser(m: Option<u32>, n: Option<u32>): Option<u32> {
    if n.None? then m else Some(Least(m, n.value))
  }

  /** What a section adds to the negative TTL. */
  lemma {:induction false} SectionNegative(msg: seq<byte>, section: nat, negative: bool, count: nat, p: Progress)
    returns (fs: seq<Frame>, m: Option<u32>)
    requires WalkSection(msg, section, negative, count, p).Some?
    ensures Frames(msg, count, p.pos) == Some(fs) && LeastSoa(msg, fs, m)
    ensures WalkSection(msg, section, negative, count, p).value.pos == EndOfFrames(p.pos, fs)
    ensures WalkSection(msg, section, negative, count, p).value.info.negativeTtl
            == if section == 1 && negative then Lesser(p.info.negativeTtl, m) else p.info.negativeTtl
    decreases count
  {
    if count == 0 {
      fs, m := [], None;
    } else {
      var f, info := SectionStep(msg, section, negative, count, p);
      TakeNegative(msg, section, negative, p.info, f);
      var rest, n := SectionNegative(msg, section, negative, count - 1, Progress(info, f.end));
      fs, m := [f] + rest, if IsSoa(msg, f) then Some(Least(n, SoaTtl(msg, f))) else n;
      LeastSoaCons(msg, f, rest, n);
    }
  }

  /** The negative TTL of an accepted response: for NXDOMAIN or without answers the least TTL, MINIMUM
      included, of the SOA records in its authority section; otherwise none. */
  lemma NegativeTtlExact(msg: seq<byte>, q: Query) returns (answers: seq<Frame>, authority: seq<Frame>)
    requires WalkResponse(msg, q).Walked?
    ensures QuestionEnd(msg, q.key, q.qtype, q.qclass).Some?
    ensures var from := QuestionEnd(msg, q.key, q.qtype, q.qclass).value;
            && Frames(msg, Be16(msg, 6), from) == Some(answers)
            && Frames(msg, Be16(msg, 8), EndOfFrames(from, answers)) == Some(authority)
    ensures var m := WalkResponse(msg, q).info.negativeTtl;
            if Negative(msg) then LeastSoa(msg, authority, m) else m.None?
  {
    var from, a, b := WalkSteps(msg, q);
    var neg := Negative(msg);
    var m0, m1, f2, m2;
    answers, m0 := SectionNegative(msg, 0, neg, Be16(msg, 6), Begin(msg, from));
    authority, m1 := SectionNegative(msg, 1, neg, Be16(msg, 8), a);
    f2, m2 := SectionNegative(msg, 2, neg, Be16(msg, 10), b);
  }
}
