/** Synthesized replies (`wire.rs`): writing them and walking them back. */
module SynthReply {
  import opened Common
  import opened Bytes
  import opened WireNames
  import opened Edns
  import opened Wire
  import opened WalkFacts
  import opened Cache
  import opened CacheServing
  import Rcode

  const TYPE_A: u16 := 1
  const TYPE_AAAA: u16 := 28
  const CLASS_IN: u16 := 1

  datatype Address = V4(octets: seq<byte>) | V6(octets: seq<byte>)

  predicate AddressOk(a: Address) {
    |a.octets| == if a.V4? then 4 else 16
  }

  function AddressType(a: Address): u16 {
    if a.V4? then TYPE_A else TYPE_AAAA
  }

  /** QR, the query's opcode and RD. */
  function ReplyHigh(flags: u16): byte {
    128 + flags / 256 % 128 / 8 * 8 + flags / 256 % 2
  }

  function Header(q: Query, rcode: byte, an: u16, ar: u16): (s: seq<byte>)
    ensures |s| == HEADER_LEN
  {
    U16(q.id) + [ReplyHigh(q.flags), 128 + rcode % 16] + U16(1) + U16(an) + U16(0) + U16(ar)
  }

  function Question(q: Query): seq<byte> {
    q.qname + U16(q.qtype) + U16(q.qclass)
  }

  /** One answer; its owner is a pointer to the question name. */
  function AnswerBytes(a: Option<Address>, ttl: u32): (s: seq<byte>)
    requires a.Some? ==> AddressOk(a.value)
    ensures |s| == AnswerLen(a)
  {
    if a.None? then []
    else [0xC0, 0x0C] + U16(AddressType(a.value)) + U16(CLASS_IN) + U32(ttl) + U16(|a.value.octets|) + a.value.octets
  }

  function AnswerLen(a: Option<Address>): nat {
    if a.None? then 0 else if a.value.V4? then 16 else 28
  }

  function One(b: bool): u16 { if b then 1 else 0 }

  function Reply(q: Query, rcode: byte, a: Option<Address>, ttl: u32, opt: Option<ReplyOpt>): seq<byte>
    requires (a.Some? ==> AddressOk(a.value)) && (opt.Some? ==> OptOk(opt.value))
  {
    Header(q, rcode, One(a.Some?), One(opt.Some?)) + Question(q) + AnswerBytes(a, ttl) + OptBytesOf(opt)
  }

  /** Header, question and answer, in the order they are written. */
  method WriteFront(q: Query, rcode: byte, a: Option<Address>, ttl: u32, out: array<byte>, ar: u16) returns (n: nat)
    requires (a.Some? ==> AddressOk(a.value)) && HEADER_LEN + |q.qname| + 4 + AnswerLen(a) <= out.Length
    modifies out
    ensures n == HEADER_LEN + |q.qname| + 4 + AnswerLen(a)
    ensures out[..] == Splice(old(out[..]), 0, Header(q, rcode, One(a.Some?), ar) + Question(q) + AnswerBytes(a, ttl))
  {
    ghost var was := out[..];
    var head, question, answer := Header(q, rcode, One(a.Some?), ar), Question(q), AnswerBytes(a, ttl);
    Put(out, 0, head);
    Put(out, HEADER_LEN, question);
    SpliceJoin(was, 0, head, question);
    n := HEADER_LEN + |question|;
    if a.Some? {
      Put(out, n, answer);
    }
    SpliceJoin(was, 0, head + question, answer);
    n := n + |answer|;
  }

  method WriteSynthReply(q: Query, rcode: byte, a: Option<Address>, ttl: u32, out: array<byte>, opt: Option<ReplyOpt>)
    returns (n: nat)
    requires (a.Some? ==> AddressOk(a.value)) && (opt.Some? ==> OptOk(opt.value))
    modifies out
    ensures n == if |Reply(q, rcode, a, ttl, opt)| > out.Length then 0 else |Reply(q, rcode, a, ttl, opt)|
    ensures out[..] == if n == 0 then old(out[..]) else Splice(old(out[..]), 0, Reply(q, rcode, a, ttl, opt))
  {
    var total := HEADER_LEN + |q.qname| + 4 + AnswerLen(a) + OptLen(opt);
    if total > out.Length {
      return 0;
    }
    ghost var was, front := out[..], Header(q, rcode, One(a.Some?), One(opt.Some?)) + Question(q) + AnswerBytes(a, ttl);
    n := WriteFront(q, rcode, a, ttl, out, One(opt.Some?));
    if opt.Some? {
      var used := WriteOpt(out, n, opt.value);
      SpliceJoin(was, 0, front, OptBytes(opt.value));
      n := n + used;
    } else {
      assert front + [] == front;
    }
  }

  // ----- where everything stands

  predicate HeaderStands(q: Query, rcode: byte, an: u16, ar: u16, m: seq<byte>) {
    && |m| >= HEADER_LEN && Be16(m, 0) == q.id && m[2] == ReplyHigh(q.flags) && m[3] == 128 + rcode % 16
    && Be16(m, 4) == 1 && Be16(m, 6) == an && Be16(m, 8) == 0 && Be16(m, 10) == ar
  }

  predicate QuestionStandsIn(q: Query, m: seq<byte>) {
    && |m| >= HEADER_LEN + |q.qname| + 4 && m[HEADER_LEN..HEADER_LEN + |q.qname|] == q.qname
    && Be16(m, HEADER_LEN + |q.qname|) == q.qtype && Be16(m, HEADER_LEN + |q.qname| + 2) == q.qclass
  }

  predicate AnswerStands(a: Address, ttl: u32, m: seq<byte>, at: nat) {
    && at + 12 + |a.octets| <= |m| && m[at] == 0xC0 && m[at + 1] == 0x0C && Be16(m, at + 2) == AddressType(a)
    && Be16(m, at + 4) == CLASS_IN && Be32(m, at + 6) == ttl && Be16(m, at + 10) == |a.octets|
  }

  predicate OptStands(o: ReplyOpt, m: seq<byte>, at: nat) {
    && at + WireLen(o) <= |m| && m[at] == 0 && Be16(m, at + 1) == TYPE_OPT && m[at + 5] == o.extRcode && m[at + 6] == 0
    && Be16(m, at + 9) == WireLen(o) - OPT_BASE_LEN
  }

  lemma HeaderReads(q: Query, rcode: byte, an: u16, ar: u16, rest: seq<byte>)
    ensures HeaderStands(q, rcode, an, ar, Header(q, rcode, an, ar) + rest)
  {
    var h, m := Header(q, rcode, an, ar), Header(q, rcode, an, ar) + rest;
    assert forall k :: 0 <= k < HEADER_LEN ==> m[k] == h[k];
    var id, a, r := U16(q.id), U16(an), U16(ar);
    assert h[0] == id[0] && h[1] == id[1] && h[6] == a[0] && h[7] == a[1] && h[10] == r[0] && h[11] == r[1];
  }

  lemma QuestionReads(q: Query, head: seq<byte>, rest: seq<byte>)
    requires |head| == HEADER_LEN
    ensures QuestionStandsIn(q, head + (Question(q) + rest))
  {
    var m, end := head + (Question(q) + rest), HEADER_LEN + |q.qname|;
    var t, c := U16(q.qtype), U16(q.qclass);
    assert m[end] == t[0] && m[end + 1] == t[1] && m[end + 2] == c[0] && m[end + 3] == c[1];
    assert m[HEADER_LEN..end] == q.qname;
  }

  lemma AnswerReads(a: Address, ttl: u32, before: seq<byte>, rest: seq<byte>)
    requires AddressOk(a)
    ensures AnswerStands(a, ttl, before + (AnswerBytes(Some(a), ttl) + rest), |before|)
  {
    var x, at := AnswerBytes(Some(a), ttl), |before|;
    var m := before + (x + rest);
    assert forall k :: 0 <= k < |x| ==> m[at + k] == x[k];
    var t, l, n := U16(AddressType(a)), U32(ttl), U16(|a.octets|);
    assert x[2] == t[0] && x[3] == t[1] && x[10] == n[0] && x[11] == n[1];
    assert x[6] == l[0] && x[7] == l[1] && x[8] == l[2] && x[9] == l[3];
  }

  lemma OptReads(o: ReplyOpt, before: seq<byte>)
    requires OptOk(o)
    ensures OptStands(o, before + OptBytes(o), |before|)
  {
    var x, at := OptBytes(o), |before|;
    var m := before + x;
    var rdata := CookieOption(o.cookie) + EdeOption(o.ede);
    HeadReads(o.udpSize, o.extRcode, o.doBit, WireLen(o) - OPT_BASE_LEN, rdata);
    assert x == OptHead(o.udpSize, o.extRcode, o.doBit, WireLen(o) - OPT_BASE_LEN) + rdata;
    assert forall k :: 0 <= k < |x| ==> m[at + k] == x[k];
  }

  /** QR is set, the opcode and RD are the query's, AA and TC are clear. */
  lemma ReplyHighBits(flags: u16)
    ensures var hi := flags / 256;
            ReplyHigh(flags) == 128 + (if hi >= 128 then hi - 128 else hi) - hi % 8 + hi % 2
  {
    var hi := flags / 256;
    var low := if hi >= 128 then hi - 128 else hi;
    assert hi % 128 == low && low % 8 == hi % 8;
  }

  /** The octets of the header and of an answer. */
  lemma ReplyOctets(q: Query, rcode: byte, an: byte, ar: byte, a: Address, ttl: u32)
    requires AddressOk(a)
    ensures Header(q, rcode, an, ar)
            == [q.id / 256, q.id % 256, ReplyHigh(q.flags), 128 + rcode % 16, 0, 1, 0, an, 0, 0, 0, ar]
    ensures AnswerBytes(Some(a), ttl)
            == [0xC0, 12, 0, if a.V4? then 1 else 28, 0, 1, ttl / 0x100_0000, ttl / 0x1_0000 % 256, ttl / 256 % 256,
                ttl % 256, 0, if a.V4? then 4 else 16] + a.octets
  {
    assert U16(1) == [0, 1] && U16(an) == [0, an] && U16(0) == [0, 0] && U16(ar) == [0, ar];
    TtlOctets(ttl);
    assert U16(AddressType(a)) == [0, if a.V4? then 1 else 28] && U16(|a.octets|) == [0, |a.octets|];
  }

  lemma TtlOctets(ttl: u32)
    ensures U32(ttl) == [ttl / 0x100_0000, ttl / 0x1_0000 % 256, ttl / 256 % 256, ttl % 256]
  {
    var hi, lo := ttl / 0x1_0000, ttl % 0x1_0000;
    assert ttl / 0x100_0000 == hi / 256;
    assert ttl == 256 * (256 * hi + lo / 256) + lo % 256;
    assert ttl / 256 == 256 * hi + lo / 256;
  }

  // ----- walking it back

  function OffsetsOf(q: Query, a: Option<Address>): seq<nat> {
    if a.Some? then [q.questionEnd + 6] else []
  }

  function MinOf(a: Option<Address>, ttl: u32): Option<u32> {
    if a.Some? then Some(Capped(ttl)) else None
  }

  function InfoOf(q: Query, rcode: byte, a: Option<Address>, ttl: u32, opt: Option<ReplyOpt>): Info {
    var at := q.questionEnd + AnswerLen(a);
    Info(rcode % 16, false, MinOf(a, ttl), None, OffsetsOf(q, a),
         if opt.Some? then Some(Range(at, at + WireLen(opt.value))) else None, [], One(a.Some?))
  }

  /** The compressed owner name leads back to the question. */
  lemma PointerReads(m: seq<byte>, q: Query, at: nat)
    requires QueryOk(q) && QuestionStandsIn(q, m) && q.questionEnd <= at && at + 2 <= |m| && m[at] == 0xC0
             && m[at + 1] == 0x0C
    ensures ReadName(m, at, true) == Some(Named(q.key, at + 2))
  {
    var end := HEADER_LEN + |q.qname|;
    NameStands(m, q.qname);
    NameFollowed(m, HEADER_LEN, end, MAX_NAME_LEN, true, Some(1));
    PlainKey(m, HEADER_LEN, end);
    PointerFollowed(m, at);
  }

  lemma NameStands(m: seq<byte>, name: seq<byte>)
    requires IsName(name) && HEADER_LEN + |name| <= |m| && m[HEADER_LEN..HEADER_LEN + |name|] == name
    ensures NameAt(m, HEADER_LEN, HEADER_LEN + |name|)
  {
    var s := m[HEADER_LEN..HEADER_LEN + |name|];
    forall k | 0 <= k < |name|
      ensures name[k] == m[HEADER_LEN + (k - 0)]
    {
      assert s[k] == m[HEADER_LEN + k];
    }
    NameMoves(name, 0, |name|, m, HEADER_LEN);
  }

  lemma PointerFollowed(m: seq<byte>, at: nat)
    requires HEADER_LEN < at && at + 2 <= |m| && m[at] == 0xC0 && m[at + 1] == 0x0C
    requires Follow(m, HEADER_LEN, MAX_NAME_LEN, true, Some(1)).Some?
    ensures Follow(m, at, MAX_NAME_LEN, true, Some(0))
            == Some(Found(Follow(m, HEADER_LEN, MAX_NAME_LEN, true, Some(1)).value.trail, at + 2))
  {
    assert Look(m, at, MAX_NAME_LEN, true, Some(0)) == Jump(HEADER_LEN);
  }

  lemma AnswerWalks(m: seq<byte>, q: Query, a: Address, ttl: u32, info: Info, neg: bool)
    requires QueryOk(q) && QuestionStandsIn(q, m) && AddressOk(a) && AnswerStands(a, ttl, m, q.questionEnd)
    requires info.minTtl.None? && info.ttlOffsets == []
    ensures WalkSection(m, 0, neg, 1, Progress(info, q.questionEnd))
            == Some(Progress(info.(minTtl := Some(Capped(ttl)), ttlOffsets := [q.questionEnd + 6]),
                             q.questionEnd + AnswerLen(Some(a))))
  {
    PointerReads(m, q, q.questionEnd);
    var f := Frame(q.questionEnd, q.questionEnd + 2, q.questionEnd + AnswerLen(Some(a)));
    assert FrameAt(m, q.questionEnd) == Some(f);
    var next := info.(minTtl := Some(Capped(ttl)), ttlOffsets := [q.questionEnd + 6]);
    assert [] + [q.questionEnd + 6] == [q.questionEnd + 6];
    assert Take(m, 0, neg, info, f) == Some(next);
    assert WalkSection(m, 0, neg, 0, Progress(next, f.end)) == Some(Progress(next, f.end));
  }

  lemma OptWalks(m: seq<byte>, o: ReplyOpt, at: nat, info: Info, neg: bool)
    requires OptStands(o, m, at) && info.optRange.None?
    ensures WalkSection(m, 2, neg, 1, Progress(info, at))
            == Some(Progress(info.(optRange := Some(Range(at, at + WireLen(o)))), at + WireLen(o)))
  {
    RootReads(m, at, true);
    var f := Frame(at, at + 1, at + WireLen(o));
    assert FrameAt(m, at) == Some(f);
    var next := info.(optRange := Some(Range(at, f.end)));
    assert Take(m, 2, neg, info, f) == Some(next);
    assert WalkSection(m, 2, neg, 0, Progress(next, f.end)) == Some(Progress(next, f.end));
  }

  lemma FlagsWalk(flags: u16, rcode: byte)
    ensures ReplyHigh(flags) / 2 % 2 == 0 && (128 + rcode % 16) % 16 == rcode % 16
  {
    var h, r := flags / 256 % 128 / 8, flags / 256 % 2;
    assert ReplyHigh(flags) == 8 * (16 + h) + r;
    Octal(16 + h, r);
  }

  ghost predicate Stands(q: Query, rcode: byte, a: Option<Address>, ttl: u32, opt: Option<ReplyOpt>, m: seq<byte>)
    requires (a.Some? ==> AddressOk(a.value)) && (opt.Some? ==> OptOk(opt.value))
  {
    && |m| == HEADER_LEN + |q.qname| + 4 + AnswerLen(a) + OptLen(opt)
    && HeaderStands(q, rcode, One(a.Some?), One(opt.Some?), m) && QuestionStandsIn(q, m)
    && (a.Some? ==> AnswerStands(a.value, ttl, m, HEADER_LEN + |q.qname| + 4))
    && (opt.Some? ==> OptStands(opt.value, m, HEADER_LEN + |q.qname| + 4 + AnswerLen(a)))
  }

  lemma Regroup(h: seq<byte>, x: seq<byte>, y: seq<byte>, z: seq<byte>)
    ensures h + x + y + z == h + (x + y + z)
    ensures h + x + y + z == h + (x + (y + z))
    ensures h + x + y + z == (h + x) + (y + z)
  {
  }

  lemma ReplyHead(q: Query, rcode: byte, a: Option<Address>, ttl: u32, opt: Option<ReplyOpt>)
    requires (a.Some? ==> AddressOk(a.value)) && (opt.Some? ==> OptOk(opt.value))
    ensures HeaderStands(q, rcode, One(a.Some?), One(opt.Some?), Reply(q, rcode, a, ttl, opt))
    ensures QuestionStandsIn(q, Reply(q, rcode, a, ttl, opt))
  {
    var h, y, z := Header(q, rcode, One(a.Some?), One(opt.Some?)), AnswerBytes(a, ttl), OptBytesOf(opt);
    Regroup(h, Question(q), y, z);
    HeaderReads(q, rcode, One(a.Some?), One(opt.Some?), Question(q) + y + z);
    QuestionReads(q, h, y + z);
  }

  lemma ReplyTail(q: Query, rcode: byte, a: Option<Address>, ttl: u32, opt: Option<ReplyOpt>)
    requires (a.Some? ==> AddressOk(a.value)) && (opt.Some? ==> OptOk(opt.value))
    ensures a.Some? ==> AnswerStands(a.value, ttl, Reply(q, rcode, a, ttl, opt), HEADER_LEN + |q.qname| + 4)
    ensures opt.Some? ==> OptStands(opt.value, Reply(q, rcode, a, ttl, opt), HEADER_LEN + |q.qname| + 4 + AnswerLen(a))
  {
    var h, x := Header(q, rcode, One(a.Some?), One(opt.Some?)), Question(q);
    Regroup(h, x, AnswerBytes(a, ttl), OptBytesOf(opt));
    if a.Some? {
      AnswerReads(a.value, ttl, h + x, OptBytesOf(opt));
    }
    if opt.Some? {
      OptReads(opt.value, h + x + AnswerBytes(a, ttl));
    }
  }

  lemma ReplyStands(q: Query, rcode: byte, a: Option<Address>, ttl: u32, opt: Option<ReplyOpt>)
    requires (a.Some? ==> AddressOk(a.value)) && (opt.Some? ==> OptOk(opt.value))
    ensures Stands(q, rcode, a, ttl, opt, Reply(q, rcode, a, ttl, opt))
  {
    ReplyHead(q, rcode, a, ttl, opt);
    ReplyTail(q, rcode, a, ttl, opt);
  }

  lemma StandingAnswer(q: Query, rcode: byte, a: Option<Address>, ttl: u32, opt: Option<ReplyOpt>, m: seq<byte>)
    requires QueryOk(q) && (a.Some? ==> AddressOk(a.value)) && (opt.Some? ==> OptOk(opt.value))
             && Stands(q, rcode, a, ttl, opt, m)
    ensures WalkSection(m, 0, Negative(m), Be16(m, 6), Begin(m, q.questionEnd))
            == Some(Progress(InfoOf(q, rcode, a, ttl, None), q.questionEnd + AnswerLen(a)))
  {
    FlagsWalk(q.flags, rcode);
    if a.Some? {
      AnswerWalks(m, q, a.value, ttl, Begin(m, q.questionEnd).info, Negative(m));
    }
  }

  lemma StandingOpt(q: Query, rcode: byte, a: Option<Address>, ttl: u32, opt: Option<ReplyOpt>, m: seq<byte>)
    requires QueryOk(q) && (a.Some? ==> AddressOk(a.value)) && (opt.Some? ==> OptOk(opt.value))
             && Stands(q, rcode, a, ttl, opt, m)
    ensures WalkSection(m, 2, Negative(m), Be16(m, 10),
                        Progress(InfoOf(q, rcode, a, ttl, None), q.questionEnd + AnswerLen(a)))
            == Some(Progress(InfoOf(q, rcode, a, ttl, opt), |m|))
  {
    var at, none := q.questionEnd + AnswerLen(a), InfoOf(q, rcode, a, ttl, None);
    if opt.Some? {
      InfoWithOpt(q, rcode, a, ttl, opt.value);
      OptWalks(m, opt.value, at, none, Negative(m));
    } else {
      assert WalkSection(m, 2, Negative(m), 0, Progress(none, at)) == Some(Progress(none, at));
    }
  }

  lemma InfoWithOpt(q: Query, rcode: byte, a: Option<Address>, ttl: u32, o: ReplyOpt)
    ensures var at := q.questionEnd + AnswerLen(a);
            InfoOf(q, rcode, a, ttl, Some(o))
            == InfoOf(q, rcode, a, ttl, None).(optRange := Some(Range(at, at + WireLen(o))))
  {
  }

  lemma StandingWalks(q: Query, rcode: byte, a: Option<Address>, ttl: u32, opt: Option<ReplyOpt>, m: seq<byte>)
    requires QueryOk(q) && (a.Some? ==> AddressOk(a.value)) && (opt.Some? ==> OptOk(opt.value))
             && Stands(q, rcode, a, ttl, opt, m)
    ensures Sections(m, 0, Begin(m, q.questionEnd)) == Some(Progress(InfoOf(q, rcode, a, ttl, opt), |m|))
  {
    StandingAnswer(q, rcode, a, ttl, opt, m);
    StandingOpt(q, rcode, a, ttl, opt, m);
    ThreeSections(m, Begin(m, q.questionEnd), Progress(InfoOf(q, rcode, a, ttl, None), q.questionEnd + AnswerLen(a)),
                  Progress(InfoOf(q, rcode, a, ttl, opt), |m|));
  }

  lemma StandingIsWalked(q: Query, rcode: byte, a: Option<Address>, ttl: u32, opt: Option<ReplyOpt>, m: seq<byte>)
    requires QueryOk(q) && (a.Some? ==> AddressOk(a.value)) && (opt.Some? ==> OptOk(opt.value))
             && Stands(q, rcode, a, ttl, opt, m)
    ensures WalkResponse(m, q) == Walked(InfoOf(q, rcode, a, ttl, opt))
  {
    QuestionStands(m, q);
    StandingWalks(q, rcode, a, ttl, opt, m);
  }

  lemma ThreeSections(m: seq<byte>, begin: Progress, one: Progress, last: Progress)
    requires |m| >= HEADER_LEN && Be16(m, 8) == 0
    requires WalkSection(m, 0, Negative(m), Be16(m, 6), begin) == Some(one)
    requires WalkSection(m, 2, Negative(m), Be16(m, 10), one) == Some(last)
    ensures Sections(m, 0, begin) == Some(last)
  {
    assert WalkSection(m, 1, Negative(m), 0, one) == Some(one);
    assert Sections(m, 3, last) == Some(last);
    assert Sections(m, 2, one) == Some(last);
    assert Sections(m, 1, one) == Some(last);
  }

  /** A synthesized reply walks: the walker finds its low RCODE, its answer count, its TTL field and
      its trailing OPT record, and nothing else. */
  lemma SynthWalks(q: Query, rcode: byte, a: Option<Address>, ttl: u32, opt: Option<ReplyOpt>)
    requires QueryOk(q) && (a.Some? ==> AddressOk(a.value)) && (opt.Some? ==> OptOk(opt.value))
    ensures WalkResponse(Reply(q, rcode, a, ttl, opt), q) == Walked(InfoOf(q, rcode, a, ttl, opt))
  {
    ReplyStands(q, rcode, a, ttl, opt);
    StandingIsWalked(q, rcode, a, ttl, opt, Reply(q, rcode, a, ttl, opt));
  }

  /** Where the OPT record of a reply stands. */
  function OptFrame(q: Query, a: Option<Address>, opt: Option<ReplyOpt>): Option<Frame> {
    var at := HEADER_LEN + |q.qname| + 4 + AnswerLen(a);
    if opt.None? then None else Some(Frame(at, at + 1, at + WireLen(opt.value)))
  }

  /** Octets 5 and 6 of its OPT record are the extension and version 0. */
  lemma StandingRcode(q: Query, rcode: byte, a: Option<Address>, ttl: u32, opt: Option<ReplyOpt>, m: seq<byte>)
    requires (a.Some? ==> AddressOk(a.value)) && (opt.Some? ==> OptOk(opt.value)) && Stands(q, rcode, a, ttl, opt, m)
    ensures |m| >= HEADER_LEN && (opt.Some? ==> FrameOk(m, OptFrame(q, a, opt).value))
    ensures Rcode.FullRcode(m, OptFrame(q, a, opt))
            == (if opt.Some? then opt.value.extRcode as int * 16 else 0) + rcode as int % 16
  {
    FlagsWalk(q.flags, rcode);
  }

  /** `rcode` is the RCODE that `m` means, the extension in its OPT record included. */
  predicate Means(m: seq<byte>, opt: Option<Frame>, rcode: byte) {
    |m| >= HEADER_LEN && (opt.Some? ==> FrameOk(m, opt.value)) && rcode == Rcode.FullRcode(m, opt)
  }

  lemma StandingMeans(q: Query, rcode: byte, a: Option<Address>, ttl: u32, opt: Option<ReplyOpt>, m: seq<byte>)
    requires (a.Some? ==> AddressOk(a.value)) && (opt.Some? ==> OptOk(opt.value)) && Stands(q, rcode, a, ttl, opt, m)
    ensures Means(m, OptFrame(q, a, opt), rcode % 16) <==> opt.None? || opt.value.extRcode == 0
  {
    StandingRcode(q, rcode, a, ttl, opt, m);
  }

  /** The walker looks for the extension in the version octet, so of these replies it finds the full
      RCODE exactly when there is no extension. */
  lemma RcodeRecovered(q: Query, rcode: byte, a: Option<Address>, ttl: u32, opt: Option<ReplyOpt>, m: seq<byte>)
    requires QueryOk(q) && (a.Some? ==> AddressOk(a.value)) && (opt.Some? ==> OptOk(opt.value))
    requires m == Reply(q, rcode, a, ttl, opt)
    ensures WalkResponse(m, q).Walked? && WalkResponse(m, q).info.optRange == Rcode.RangeOf(OptFrame(q, a, opt))
    ensures Means(m, OptFrame(q, a, opt), WalkResponse(m, q).info.rcode) <==> opt.None? || opt.value.extRcode == 0
  {
    ReplyStands(q, rcode, a, ttl, opt);
    StandingRecovered(q, rcode, a, ttl, opt, m);
  }

  lemma StandingRecovered(q: Query, rcode: byte, a: Option<Address>, ttl: u32, opt: Option<ReplyOpt>, m: seq<byte>)
    requires QueryOk(q) && (a.Some? ==> AddressOk(a.value)) && (opt.Some? ==> OptOk(opt.value))
             && Stands(q, rcode, a, ttl, opt, m)
    ensures WalkResponse(m, q).Walked? && WalkResponse(m, q).info.optRange == Rcode.RangeOf(OptFrame(q, a, opt))
    ensures Means(m, OptFrame(q, a, opt), WalkResponse(m, q).info.rcode) <==> opt.None? || opt.value.extRcode == 0
  {
    StandingIsWalked(q, rcode, a, ttl, opt, m);
    FoundMeans(q, rcode, a, ttl, opt, m, WalkResponse(m, q));
  }

  lemma FoundMeans(q: Query, rcode: byte, a: Option<Address>, ttl: u32, opt: Option<ReplyOpt>, m: seq<byte>,
                   r: WalkResult)
    requires q.questionEnd == HEADER_LEN + |q.qname| + 4 && r == Walked(InfoOf(q, rcode, a, ttl, opt))
    requires (a.Some? ==> AddressOk(a.value)) && (opt.Some? ==> OptOk(opt.value)) && Stands(q, rcode, a, ttl, opt, m)
    ensures r.info.optRange == Rcode.RangeOf(OptFrame(q, a, opt))
    ensures Means(m, OptFrame(q, a, opt), r.info.rcode) <==> opt.None? || opt.value.extRcode == 0
  {
    StandingMeans(q, rcode, a, ttl, opt, m);
  }

  // ----- storing it

  lemma HeaderRecounted(q: Query, rcode: byte, an: u16, rest: seq<byte>)
    ensures Splice(Header(q, rcode, an, 1) + rest, 10, U16(0)) == Header(q, rcode, an, 0) + rest
  {
    var h, g, zero := Header(q, rcode, an, 1), Header(q, rcode, an, 0), U16(0);
    assert forall k :: 0 <= k < 10 ==> h[k] == g[k];
    assert g[10] == zero[0] && g[11] == zero[1];
  }

  lemma NameReplaced(h: seq<byte>, name: seq<byte>, key: seq<byte>, rest: seq<byte>)
    requires |h| == HEADER_LEN && |key| == |name|
    ensures Splice(h + (name + rest), HEADER_LEN, key) == h + (key + rest)
  {
  }

  function Lowercased(q: Query): Query {
    q.(qname := q.key)
  }

  /** Everything between the question name and the OPT record. */
  function Middle(q: Query, a: Option<Address>, ttl: u32): seq<byte>
    requires a.Some? ==> AddressOk(a.value)
  {
    U16(q.qtype) + U16(q.qclass) + AnswerBytes(a, ttl)
  }

  lemma ReplyParts(q: Query, rcode: byte, a: Option<Address>, ttl: u32, opt: Option<ReplyOpt>)
    requires (a.Some? ==> AddressOk(a.value)) && (opt.Some? ==> OptOk(opt.value))
    ensures Reply(q, rcode, a, ttl, opt)
            == Header(q, rcode, One(a.Some?), One(opt.Some?)) + (q.qname + Middle(q, a, ttl)) + OptBytesOf(opt)
  {
    var h, z := Header(q, rcode, One(a.Some?), One(opt.Some?)), OptBytesOf(opt);
    Regroup(h, Question(q), AnswerBytes(a, ttl), z);
    assert Question(q) + AnswerBytes(a, ttl) == q.qname + Middle(q, a, ttl);
    Regroup(h, Question(q) + AnswerBytes(a, ttl), [], z);
    assert Question(q) + AnswerBytes(a, ttl) + [] == Question(q) + AnswerBytes(a, ttl);
    assert h + (Question(q) + AnswerBytes(a, ttl)) + [] == h + (Question(q) + AnswerBytes(a, ttl));
  }

  /** The same, on any parts. */
  lemma StoredParts(h1: seq<byte>, h0: seq<byte>, name: seq<byte>, key: seq<byte>, middle: seq<byte>, z: seq<byte>,
                    opt: Option<Range>)
    requires |h1| == |h0| == HEADER_LEN && |name| == |key|
    requires opt.None? ==> h1 == h0 && z == []
    requires opt.Some? ==> opt.value.start == HEADER_LEN + |name| + |middle| && Be16(h1, 10) == 1
    requires opt.Some? ==> forall rest :: Splice(h1 + rest, 10, U16(0)) == h0 + rest
    ensures var m := h1 + (name + middle) + z;
            Be16(m, 10) == Be16(h1, 10) && Stored(m, key, opt) == h0 + (key + middle)
  {
    var m := h1 + (name + middle) + z;
    if opt.Some? {
      assert m[..opt.value.start] == h1 + (name + middle);
    } else {
      assert m == h1 + (name + middle);
    }
    NameReplaced(h0, name, key, middle);
  }

  lemma StoredReply(q: Query, rcode: byte, a: Option<Address>, ttl: u32, opt: Option<ReplyOpt>)
    requires QueryOk(q) && (a.Some? ==> AddressOk(a.value)) && (opt.Some? ==> OptOk(opt.value))
    ensures var m, range := Reply(q, rcode, a, ttl, opt), InfoOf(q, rcode, a, ttl, opt).optRange;
            && HEADER_LEN + |q.key| <= |m| && (range.Some? ==> range.value.start <= |m| && Be16(m, 10) > 0)
            && Stored(m, q.key, range) == Reply(Lowercased(q), rcode, a, ttl, None)
  {
    var an := One(a.Some?);
    var h1, h0 := Header(q, rcode, an, One(opt.Some?)), Header(q, rcode, an, 0);
    forall rest | opt.Some?
      ensures Splice(h1 + rest, 10, U16(0)) == h0 + rest
    {
      HeaderRecounted(q, rcode, an, rest);
    }
    HeaderReads(q, rcode, an, One(opt.Some?), []);
    assert h1 + [] == h1;
    ReplyParts(q, rcode, a, ttl, opt);
    ReplyParts(Lowercased(q), rcode, a, ttl, None);
    StoredParts(h1, h0, q.qname, q.key, Middle(q, a, ttl), OptBytesOf(opt), InfoOf(q, rcode, a, ttl, opt).optRange);
    assert h0 + (q.key + Middle(q, a, ttl)) + [] == h0 + (q.key + Middle(q, a, ttl));
  }

  /** Caching a synthesized reply with OPT stores the reply written without OPT, its question name
      lowercased, and the offset of its one TTL. */
  lemma SynthStored(q: Query, rcode: byte, a: Option<Address>, ttl: u32, opt: Option<ReplyOpt>, at: u32, life: u32,
                    stale: u32)
    requires QueryOk(q) && (a.Some? ==> AddressOk(a.value)) && (opt.Some? ==> OptOk(opt.value))
    ensures WalkResponse(Reply(q, rcode, a, ttl, opt), q).Walked?
    ensures EntryFrom(Reply(q, rcode, a, ttl, opt), q, at, life, stale)
            == Some(Entry(Reply(Lowercased(q), rcode, a, ttl, None), |q.qname|, OffsetsOf(q, a), at, life, stale,
                          rcode % 16))
  {
    SynthWalks(q, rcode, a, ttl, opt);
    ReplyStands(q, rcode, a, ttl, opt);
    StoredReply(q, rcode, a, ttl, opt);
  }
}
