/** The RCODE of an accepted response, extension included (`walk_response` in `wire.rs`). */
module Rcode {
  import opened Common
  import opened Bytes
  import opened Edns
  import opened Wire
  import opened WalkFacts

  predicate IsOpt(msg: seq<byte>, f: Frame) {
    FrameOk(msg, f) && Be16(msg, f.nameEnd) == TYPE_OPT
  }

  /** `opt` is the one OPT record among `fs`, none if there is none. */
  predicate TheOpt(msg: seq<byte>, fs: seq<Frame>, opt: Option<Frame>) {
    if opt.None? then forall i :: 0 <= i < |fs| ==> !IsOpt(msg, fs[i])
    else exists i :: 0 <= i < |fs| && fs[i] == opt.value && IsOpt(msg, fs[i])
                     && forall j :: 0 <= j < |fs| && j != i ==> !IsOpt(msg, fs[j])
  }

  /** Section 6.1.3 of RFC 6891: the first octet of the OPT record's TTL field is the extension. */
  function Extension(msg: seq<byte>, opt: Frame): byte
    requires FrameOk(msg, opt)
  {
    msg[opt.nameEnd + 4]
  }

  /** The octet behind it is the version. */
  function Version(msg: seq<byte>, opt: Frame): byte
    requires FrameOk(msg, opt)
  {
    msg[opt.nameEnd + 5]
  }

  /** The RCODE a response means: the header's four bits and the eight bits of its OPT record. */
  function FullRcode(msg: seq<byte>, opt: Option<Frame>): nat
    requires |msg| >= HEADER_LEN && (opt.Some? ==> FrameOk(msg, opt.value))
  {
    (if opt.Some? then Extension(msg, opt.value) as int * 16 else 0) + msg[3] as int % 16
  }

  function RangeOf(opt: Option<Frame>): Option<Range> {
    if opt.None? then None else Some(Range(opt.value.start, opt.value.end))
  }

  function RcodeAfter(msg: seq<byte>, rcode: byte, opt: Option<Frame>): byte
    requires opt.Some? ==> FrameOk(msg, opt.value)
  {
    if opt.None? then rcode else Extended(rcode, Version(msg, opt.value))
  }

  lemma TakeRcode(msg: seq<byte>, section: nat, negative: bool, info: Info, f: Frame)
    requires FrameOk(msg, f) && Take(msg, section, negative, info, f).Some?
    ensures var next := Take(msg, section, negative, info, f).value;
            if IsOpt(msg, f) then
              section == 2 && info.optRange.None? && next.optRange.Some? && next.optRange == RangeOf(Some(f))
              && next.rcode == RcodeAfter(msg, info.rcode, Some(f))
            else
              next.optRange == info.optRange && next.rcode == info.rcode
  {
  }

  lemma TheOptCons(msg: seq<byte>, f: Frame, fs: seq<Frame>, opt: Option<Frame>)
    requires TheOpt(msg, fs, opt) && (IsOpt(msg, f) ==> opt.None?)
    ensures TheOpt(msg, [f] + fs, if IsOpt(msg, f) then Some(f) else opt)
  {
    var all := [f] + fs;
    assert all[0] == f && forall j :: 0 < j < |all| ==> all[j] == fs[j - 1];
    if opt.None? {
      assert forall j :: 0 < j < |all| ==> !IsOpt(msg, all[j]);
      assert IsOpt(msg, f) ==> all[0] == f && IsOpt(msg, all[0]);
    } else {
      var i :| 0 <= i < |fs| && fs[i] == opt.value && IsOpt(msg, fs[i])
               && forall j :: 0 <= j < |fs| && j != i ==> !IsOpt(msg, fs[j]);
      assert all[i + 1] == opt.value && IsOpt(msg, all[i + 1]);
      assert forall j :: 0 <= j < |all| && j != i + 1 ==> !IsOpt(msg, all[j]);
    }
  }

  /** The one OPT record a section may hold, and what it does to the RCODE. */
  lemma {:induction false} SectionRcode(msg: seq<byte>, section: nat, negative: bool, count: nat, p: Progress)
    returns (fs: seq<Frame>, opt: Option<Frame>)
    requires WalkSection(msg, section, negative, count, p).Some?
    ensures Frames(msg, count, p.pos) == Some(fs) && TheOpt(msg, fs, opt)
    ensures opt.Some? ==> section == 2 && p.info.optRange.None? && FrameOk(msg, opt.value)
    ensures var next := WalkSection(msg, section, negative, count, p).value;
            && next.pos == EndOfFrames(p.pos, fs) && next.info.rcode == RcodeAfter(msg, p.info.rcode, opt)
            && next.info.optRange == if opt.Some? then RangeOf(opt) else p.info.optRange
    decreases count
  {
    fs, opt := [], None;
    if count > 0 {
      var f, info := SectionStep(msg, section, negative, count, p);
      TakeRcode(msg, section, negative, p.info, f);
      fs, opt := SectionRcode(msg, section, negative, count - 1, Progress(info, f.end));
      TheOptCons(msg, f, fs, opt);
      fs, opt := [f] + fs, if IsOpt(msg, f) then Some(f) else opt;
    }
  }

  /** Extension and version octets from which the walker, which reads the version, gets the RCODE. */
  predicate Recoverable(ext: byte, version: byte, low: nat) {
    (ext == version && version < 16) || (version >= 16 && ext as int * 16 + low == 255)
  }

  lemma ExtendedExact(low: byte, ext: byte, version: byte)
    requires low < 16
    ensures Extended(low, version) == ext as int * 16 + low <==> Recoverable(ext, version, low)
    ensures Extended(low, version) == if version < 16 then version * 16 + low else 255
  {
  }

  /** The RCODE found in an accepted response. Without an OPT record it is the header's; with one, it is
      the full RCODE exactly when extension and version are the same octet below 16, or the version is
      larger and the RCODE is 255. */
  lemma RcodeExact(msg: seq<byte>, q: Query)
    returns (answers: seq<Frame>, authority: seq<Frame>, additional: seq<Frame>, opt: Option<Frame>)
    requires WalkResponse(msg, q).Walked?
    ensures |msg| >= HEADER_LEN && QuestionEnd(msg, q.key, q.qtype, q.qclass).Some?
    ensures var from := QuestionEnd(msg, q.key, q.qtype, q.qclass).value;
            var ns := EndOfFrames(from, answers);
            && Frames(msg, Be16(msg, 6), from) == Some(answers) && TheOpt(msg, answers, None)
            && Frames(msg, Be16(msg, 8), ns) == Some(authority) && TheOpt(msg, authority, None)
            && Frames(msg, Be16(msg, 10), EndOfFrames(ns, authority)) == Some(additional)
    ensures TheOpt(msg, additional, opt) && (opt.Some? ==> FrameOk(msg, opt.value))
    ensures WalkResponse(msg, q).info.optRange == RangeOf(opt)
    ensures opt.None? ==> WalkResponse(msg, q).info.rcode == FullRcode(msg, opt)
    ensures opt.Some? ==>
              (WalkResponse(msg, q).info.rcode == FullRcode(msg, opt)
               <==> Recoverable(Extension(msg, opt.value), Version(msg, opt.value), msg[3] % 16))
  {
    var from, a, b := WalkSteps(msg, q);
    var neg := Negative(msg);
    var none, nothing;
    answers, none := SectionRcode(msg, 0, neg, Be16(msg, 6), Begin(msg, from));
    authority, nothing := SectionRcode(msg, 1, neg, Be16(msg, 8), a);
    additional, opt := SectionRcode(msg, 2, neg, Be16(msg, 10), b);
    if opt.Some? {
      ExtendedExact(msg[3] % 16, Extension(msg, opt.value), Version(msg, opt.value));
    }
  }

  // ----- an extension without a version

  /** BADVERS for the root, as section 6.1.3 of RFC 6891 asks for it: RCODE bits 0, extension 1, version 0. */
  function BadVersion(): (m: seq<byte>)
    ensures |m| == 28 && forall k :: 0 <= k < 28 ==> m[k] == BadVersionOctet(k)
  {
    seq(28, k => BadVersionOctet(k))
  }

  function BadVersionOctet(k: int): byte {
    if k == 2 then 0x81
    else if k == 3 then 0x80
    else if k in {5, 11, 14, 16, 22} then 1
    else if k == 19 then 41
    else if k == 20 then 2
    else 0
  }

  /** The octets of it that matter: counts, question, OPT record. */
  predicate Extends(m: seq<byte>) {
    && |m| == 28 && m[3] == 0x80 && Be16(m, 4) == 1 && Be16(m, 6) == 0 && Be16(m, 8) == 0 && Be16(m, 10) == 1
    && m[12] == 0 && Be16(m, 13) == 1 && Be16(m, 15) == 1
    && m[17] == 0 && Be16(m, 18) == TYPE_OPT && m[22] == 1 && m[23] == 0 && Be16(m, 26) == 0
  }

  lemma BadVersionExtends()
    ensures Extends(BadVersion())
  {
  }

  lemma ExtendsWalks(m: seq<byte>, q: Query)
    requires Extends(m) && q == RootQuery()
    ensures FrameAt(m, 17) == Some(Frame(17, 18, 28))
    ensures WalkResponse(m, q).Walked? && WalkResponse(m, q).info.rcode == RCODE_NOERROR
    ensures WalkResponse(m, q).info.optRange == Some(Range(17, 28))
  {
    RootReads(m, 12, false);
    RootReads(m, 17, true);
    var f, start := Frame(17, 18, 28), Begin(m, 17);
    assert QuestionEnd(m, [0], 1, 1) == Some(17);
    assert FrameAt(m, 17) == Some(f);
    var last := Progress(start.info.(optRange := Some(Range(17, 28))), 28);
    assert Take(m, 2, Negative(m), start.info, f) == Some(last.info);
    assert WalkSection(m, 2, Negative(m), 0, last) == Some(last);
    assert Sections(m, 3, last) == Some(last);
    assert Sections(m, 2, start) == Some(last);
    assert Sections(m, 1, start) == Some(last);
  }

  /** An upstream reply whose full RCODE is 16 and which is walked as NOERROR. */
  lemma BadVersionMissed(q: Query) returns (opt: Option<Frame>)
    requires q == RootQuery()
    ensures WalkResponse(BadVersion(), q).Walked? && WalkResponse(BadVersion(), q).info.optRange == RangeOf(opt)
    ensures opt.Some? && FrameOk(BadVersion(), opt.value) && FullRcode(BadVersion(), opt) == 16
    ensures WalkResponse(BadVersion(), q).info.rcode == RCODE_NOERROR
  {
    opt := Some(Frame(17, 18, 28));
    BadVersionExtends();
    ExtendsWalks(BadVersion(), q);
    ExtendsMeans(BadVersion());
  }

  lemma ExtendsMeans(m: seq<byte>)
    requires Extends(m)
    ensures FrameOk(m, Frame(17, 18, 28)) && FullRcode(m, Some(Frame(17, 18, 28))) == 16
  {
  }
}
