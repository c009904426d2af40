/** The wire-format response cache: storing upstream replies and serving them patched (`cache.rs`). */
module Cache {
  import opened Common
  import opened Bytes
  import opened DnsNames
  import opened WireNames
  import opened Edns
  import opened Wire
  import opened WalkFacts

  const STALE_TTL: u32 := 30
  const U32_MAX: u32 := 0xFFFF_FFFF

  // ----- storing

  datatype Entry = Entry(
    wire: seq<byte>, nameLen: nat, ttlOffsets: seq<nat>, insertedAt: u32, ttl: u32, staleDeadline: u32, rcode: byte)

  /** The question sits where the key's length says, the TTL fields past it, the counts are small. */
  predicate EntryOk(e: Entry) {
    && HEADER_LEN + e.nameLen + 4 <= |e.wire| && e.nameLen <= MAX_NAME_LEN
    && Spaced(e.ttlOffsets, HEADER_LEN + e.nameLen + 4, |e.wire|)
    && Be16(e.wire, 10) < 0xFFFF
  }

  /** Where the question of an accepted response ends. */
  lemma QuestionPlace(msg: seq<byte>, key: seq<byte>, qtype: u16, qclass: u16)
    requires QuestionEnd(msg, key, qtype, qclass).Some?
    ensures QuestionEnd(msg, key, qtype, qclass) == Some(HEADER_LEN + |key| + 4)
    ensures |key| <= MAX_NAME_LEN && LowerSeq(msg[HEADER_LEN..HEADER_LEN + |key|]) == key
  {
    ReadIsPlain(msg, HEADER_LEN);
  }

  /** The stored octets: without a trailing OPT record, the question name lowercased. */
  function Stored(upstream: seq<byte>, key: seq<byte>, opt: Option<Range>): seq<byte>
    requires HEADER_LEN + |key| <= |upstream|
    requires opt.Some? ==> HEADER_LEN + |key| <= opt.value.start <= |upstream| && Be16(upstream, 10) > 0
  {
    var bytes := if opt.None? then upstream else Splice(upstream[..opt.value.start], 10, U16(Be16(upstream, 10) - 1));
    Splice(bytes, HEADER_LEN, key)
  }

  function EntryFrom(upstream: seq<byte>, q: Query, insertedAt: u32, ttl: u32, staleDeadline: u32): Option<Entry>
    requires WalkResponse(upstream, q).Walked?
  {
    var info := WalkResponse(upstream, q).info;
    WalkedOk(upstream, q); CountsSmall(upstream, q); QuestionPlace(upstream, q.key, q.qtype, q.qclass);
    if info.optRange.Some? && info.optRange.value.end != |upstream| then None
    else Some(Entry(Stored(upstream, q.key, info.optRange), |q.key|, info.ttlOffsets, insertedAt, ttl, staleDeadline,
                    info.rcode))
  }

  /** Storing moves nothing: outside ARCOUNT and the question name every stored octet is the
      upstream's at the same offset, only a trailing OPT record is gone, and every TTL field is kept. */
  lemma EntryFrame(upstream: seq<byte>, q: Query, insertedAt: u32, ttl: u32, staleDeadline: u32)
    requires WalkResponse(upstream, q).Walked? && EntryFrom(upstream, q, insertedAt, ttl, staleDeadline).Some?
    ensures var e := EntryFrom(upstream, q, insertedAt, ttl, staleDeadline).value;
            var info := WalkResponse(upstream, q).info;
            && EntryOk(e) && e.ttlOffsets == info.ttlOffsets && e.nameLen == |q.key|
            && |e.wire| == (if info.optRange.Some? then info.optRange.value.start else |upstream|) <= |upstream|
            && (forall k :: 0 <= k < 10 || HEADER_LEN + |q.key| <= k < |e.wire| ==> e.wire[k] == upstream[k])
            && Be16(e.wire, 10) == Be16(upstream, 10) - (if info.optRange.Some? then 1 else 0)
            && e.wire[HEADER_LEN..HEADER_LEN + |q.key|] == q.key
            && (forall i :: 0 <= i < |e.ttlOffsets| ==>
                  Be32(e.wire, e.ttlOffsets[i]) == Be32(upstream, e.ttlOffsets[i]))
  {
    WalkedOk(upstream, q);
    CountsSmall(upstream, q);
    QuestionPlace(upstream, q.key, q.qtype, q.qclass);
    var info := WalkResponse(upstream, q).info;
    StoredFrame(upstream, q.key, info.optRange);
    StoredFields(upstream, q.key, info.optRange, info.ttlOffsets);
  }

  /** A trailing OPT record has no TTL field behind it. */
  lemma StoredFields(upstream: seq<byte>, key: seq<byte>, opt: Option<Range>, offs: seq<nat>)
    requires HEADER_LEN + |key| + 4 <= |upstream|
    requires Spaced(offs, HEADER_LEN + |key| + 4, |upstream|) && Apart(offs, opt, HEADER_LEN + |key| + 4, |upstream|)
    requires opt.Some? ==> opt.value.end == |upstream| && Be16(upstream, 10) > 0
    ensures var w := Stored(upstream, key, opt);
            && Spaced(offs, HEADER_LEN + |key| + 4, |w|)
            && forall i :: 0 <= i < |offs| ==> Be32(w, offs[i]) == Be32(upstream, offs[i])
  {
    StoredFrame(upstream, key, opt);
    FieldsStand(upstream, Stored(upstream, key, opt), HEADER_LEN + |key| + 4, offs, opt);
  }

  /** The same for any octets that agree past `from` up to the OPT record. */
  lemma FieldsStand(a: seq<byte>, w: seq<byte>, from: nat, offs: seq<nat>, opt: Option<Range>)
    requires from <= |a| && Spaced(offs, from, |a|) && Apart(offs, opt, from, |a|)
    requires opt.Some? ==> opt.value.end == |a|
    requires |w| == (if opt.Some? then opt.value.start else |a|) <= |a| && forall k :: from <= k < |w| ==> w[k] == a[k]
    ensures Spaced(offs, from, |w|) && forall i :: 0 <= i < |offs| ==> Be32(w, offs[i]) == Be32(a, offs[i])
  {
    forall i | 0 <= i < |offs|
      ensures offs[i] + 6 <= |w| && Be32(w, offs[i]) == Be32(a, offs[i])
    {
    }
  }

  lemma StoredFrame(upstream: seq<byte>, key: seq<byte>, opt: Option<Range>)
    requires HEADER_LEN + |key| <= |upstream|
    requires opt.Some? ==> HEADER_LEN + |key| <= opt.value.start <= |upstream| && Be16(upstream, 10) > 0
    ensures var w := Stored(upstream, key, opt);
            && |w| == (if opt.Some? then opt.value.start else |upstream|)
            && (forall k :: 0 <= k < 10 || HEADER_LEN + |key| <= k < |w| ==> w[k] == upstream[k])
            && Be16(w, 10) == Be16(upstream, 10) - (if opt.Some? then 1 else 0)
            && w[HEADER_LEN..HEADER_LEN + |key|] == key
  {
    var w := Stored(upstream, key, opt);
    assert w[HEADER_LEN..HEADER_LEN + |key|] == key;
    if opt.Some? {
      var ar := U16(Be16(upstream, 10) - 1);
      assert w[10] == ar[0] && w[11] == ar[1];
    }
  }

  // ----- serving

  datatype Mode = Fresh | Stale

  function ServedTtl(mode: Mode, stored: u32, elapsed: u32): u32 {
    if mode.Stale? then STALE_TTL else if stored >= elapsed then stored - elapsed else 0
  }

  function Elapsed(now: u32, insertedAt: u32): u32 {
    if now >= insertedAt then now - insertedAt else 0
  }

  predicate Rd(x: byte) { x % 2 == 1 }

  predicate Tc(x: byte) { x / 2 % 2 == 1 }

  predicate Aa(x: byte) { x / 4 % 2 == 1 }

  predicate Ad(x: byte) { x / 0x20 % 2 == 1 }

  function SetTc(x: byte): byte {
    if Tc(x) then x else x + 2
  }

  /** First flags octet: RD as the client's, never AA, TC forced or kept, the rest kept. */
  predicate FlagsHigh(was: byte, now: byte, rd: bool, tc: bool) {
    && Rd(now) == rd && !Aa(now) && Tc(now) == (tc || Tc(was)) && now / 8 == was / 8
  }

  /** Second flags octet: AD only for clients that asked for it (section 5.8 of RFC 6840). */
  predicate FlagsLow(was: byte, now: byte, ad: bool) {
    && (if ad then now == was else !Ad(now)) && now / 0x40 == was / 0x40 && now % 0x20 == was % 0x20
  }

  predicate WantsAd(q: Query) {
    q.flags / 0x20 % 2 == 1 || (q.opt.Some? && q.opt.value.doBit)
  }

  predicate RdBit(q: Query) {
    q.flags / 0x100 % 2 == 1
  }

  predicate InField(offsets: seq<nat>, k: nat) {
    exists i :: 0 <= i < |offsets| && offsets[i] <= k < offsets[i] + 4
  }

  /** What ID, flags, ARCOUNT, question name and OPT of a reply of `size` octets are. */
  ghost predicate Headed(e: Entry, q: Query, tc: bool, arcount: nat, opt: Option<ReplyOpt>, size: nat, reply: seq<byte>)
    requires EntryOk(e) && (opt.Some? ==> OptOk(opt.value))
  {
    && |reply| == size + OptLen(opt) && size >= HEADER_LEN + |q.qname|
    && Be16(reply, 0) == q.id
    && FlagsHigh(e.wire[2], reply[2], RdBit(q), tc) && FlagsLow(e.wire[3], reply[3], WantsAd(q))
    && Be16(reply, 10) == arcount + (if opt.Some? then 1 else 0)
    && reply[HEADER_LEN..HEADER_LEN + |q.qname|] == q.qname
    && reply[size..] == OptBytesOf(opt)
  }

  /** The whole stored message, patched. */
  ghost predicate Serves(e: Entry, q: Query, elapsed: u32, mode: Mode, opt: Option<ReplyOpt>, reply: seq<byte>)
    requires EntryOk(e) && (opt.Some? ==> OptOk(opt.value))
  {
    && Headed(e, q, false, Be16(e.wire, 10), opt, |e.wire|, reply)
    && (forall k :: 4 <= k < 10 || (HEADER_LEN + |q.qname| <= k < |e.wire| && !InField(e.ttlOffsets, k)) ==>
          reply[k] == e.wire[k])
    && (forall i :: 0 <= i < |e.ttlOffsets| ==>
          Left(mode, Be32(e.wire, e.ttlOffsets[i]), elapsed, Be32(reply, e.ttlOffsets[i])))
  }

  /** Of a stored TTL, what is left after `elapsed` seconds, nothing once it has passed; a stale answer
      lives for 30 seconds. */
  predicate Left(mode: Mode, stored: u32, elapsed: u32, ttl: u32) {
    if mode.Stale? then ttl == 30
    else ttl as int + elapsed as int == stored as int || (ttl == 0 && elapsed > stored)
  }

  /** What is served of a stored TTL is what is left of it. */
  lemma ServedIsLeft(mode: Mode, stored: u32, elapsed: u32)
    ensures Left(mode, stored, elapsed, ServedTtl(mode, stored, elapsed))
  {
  }

  /** Header and question only, with TC. */
  ghost predicate ServesTruncated(e: Entry, q: Query, opt: Option<ReplyOpt>, reply: seq<byte>)
    requires EntryOk(e) && (opt.Some? ==> OptOk(opt.value))
  {
    var end := HEADER_LEN + e.nameLen + 4;
    && Headed(e, q, true, 0, opt, end, reply)
    && Be16(reply, 4) == Be16(e.wire, 4) && Be16(reply, 6) == 0 && Be16(reply, 8) == 0
    && forall k :: HEADER_LEN + |q.qname| <= k < end ==> reply[k] == e.wire[k]
  }

  /** The first `n` TTL fields of `b` hold what is served, everything outside them is as in `a`. */
  ghost predicate Patched(a: seq<byte>, b: seq<byte>, e: Entry, n: nat, elapsed: u32, mode: Mode)
    requires EntryOk(e) && |e.wire| <= |a| && n <= |e.ttlOffsets|
  {
    && |b| == |a|
    && (forall k :: 0 <= k < |a| && !InField(e.ttlOffsets[..n], k) ==> b[k] == a[k])
    && (forall i :: 0 <= i < n ==> Be32(b, e.ttlOffsets[i]) == ServedTtl(mode, Be32(e.wire, e.ttlOffsets[i]), elapsed))
  }

  lemma FieldWritten(b: seq<byte>, off: nat, ttl: u32)
    requires off + 4 <= |b|
    ensures Be32(Splice(b, off, U32(ttl)), off) == ttl
    ensures forall o: nat :: o + 4 <= |b| && (o + 4 <= off || off + 4 <= o) ==>
              Be32(Splice(b, off, U32(ttl)), o) == Be32(b, o)
  {
    var s, c := U32(ttl), Splice(b, off, U32(ttl));
    assert c[off] == s[0] && c[off + 1] == s[1] && c[off + 2] == s[2] && c[off + 3] == s[3];
  }

  /** A field not yet patched still holds the stored TTL. */
  lemma FieldWaits(a: seq<byte>, b: seq<byte>, e: Entry, n: nat, elapsed: u32, mode: Mode)
    requires EntryOk(e) && |e.wire| <= |a| && a[..|e.wire|] == e.wire && n < |e.ttlOffsets|
    requires Patched(a, b, e, n, elapsed, mode)
    ensures Be32(b, e.ttlOffsets[n]) == Be32(e.wire, e.ttlOffsets[n])
  {
    var off := e.ttlOffsets[n];
    forall k | off <= k < off + 4
      ensures b[k] == e.wire[k]
    {
      assert !InField(e.ttlOffsets[..n], k);
      assert e.wire[k] == a[..|e.wire|][k];
    }
  }

  lemma PatchStep(a: seq<byte>, b: seq<byte>, e: Entry, n: nat, elapsed: u32, mode: Mode)
    requires EntryOk(e) && |e.wire| <= |a| && n < |e.ttlOffsets| && Patched(a, b, e, n, elapsed, mode)
    ensures var off := e.ttlOffsets[n];
            Patched(a, Splice(b, off, U32(ServedTtl(mode, Be32(e.wire, off), elapsed))), e, n + 1, elapsed, mode)
  {
    var off := e.ttlOffsets[n];
    var ttl := ServedTtl(mode, Be32(e.wire, off), elapsed);
    FieldWritten(b, off, ttl);
    var c := Splice(b, off, U32(ttl));
    forall k | 0 <= k < |a| && !InField(e.ttlOffsets[..n + 1], k)
      ensures c[k] == a[k]
    {
      FieldGrows(e.ttlOffsets, n, k);
    }
  }

  method PatchTtls(out: array<byte>, e: Entry, elapsed: u32, mode: Mode)
    requires EntryOk(e) && |e.wire| <= out.Length && out[..|e.wire|] == e.wire
    modifies out
    ensures Patched(old(out[..]), out[..], e, |e.ttlOffsets|, elapsed, mode)
  {
    ghost var a := out[..];
    assert a[..|e.wire|] == e.wire;
    var n := 0;
    while n < |e.ttlOffsets|
      invariant 0 <= n <= |e.ttlOffsets|
      invariant Patched(a, out[..], e, n, elapsed, mode)
    {
      var off := e.ttlOffsets[n];
      FieldWaits(a, out[..], e, n, elapsed, mode);
      PatchStep(a, out[..], e, n, elapsed, mode);
      var ttl := ServedTtl(mode, Be32(out[..], off), elapsed);
      Put(out, off, U32(ttl));
      n := n + 1;
    }
  }

  lemma FieldGrows(offs: seq<nat>, n: nat, k: nat)
    requires n < |offs| && !InField(offs[..n + 1], k)
    ensures !InField(offs[..n], k) && !(offs[n] <= k < offs[n] + 4)
  {
    var more := offs[..n + 1];
    assert more[n] == offs[n];
    forall i | 0 <= i < n
      ensures !(offs[i] <= k < offs[i] + 4)
    {
      assert more[i] == offs[i];
    }
  }

  // ----- ID, flags, question name, OPT

  /** RD and AA cleared, then RD as given. */
  function HighFor(x: byte, rd: bool): byte {
    x / 8 * 8 + (if Tc(x) then 2 else 0) + if rd then 1 else 0
  }

  function LowFor(x: byte, ad: bool): byte {
    if ad then x else x / 0x40 * 0x40 + x % 0x20
  }

  /** The low three bits of an octet. */
  lemma Octal(h: int, s: int)
    requires 0 <= s < 8 && 0 <= 8 * h + s < 256
    ensures (8 * h + s) / 8 == h && Rd(8 * h + s) == (s % 2 == 1)
    ensures Tc(8 * h + s) == (s / 2 % 2 == 1) && Aa(8 * h + s) == (s >= 4)
  {
  }

  lemma HighForOctal(h: int, t: int, rd: bool)
    requires 0 <= t < 8 && 0 <= 8 * h + t < 256
    ensures FlagsHigh(8 * h + t, HighFor(8 * h + t, rd), rd, false)
  {
    Octal(h, t);
    var u := (if t / 2 % 2 == 1 then 2 else 0) + if rd then 1 else 0;
    assert HighFor(8 * h + t, rd) == 8 * h + u;
    Octal(h, u);
  }

  lemma SetTcOctal(h: int, s: int)
    requires 0 <= s < 8 && 0 <= 8 * h + s < 256
    ensures SetTc(8 * h + s) == 8 * h + if s / 2 % 2 == 1 then s else s + 2
  {
    Octal(h, s);
  }

  lemma HighFlagsOctal(h: int, s: int, rd: bool, tc: bool)
    requires 0 <= s < 8 && 0 <= 8 * h + s < 256
    ensures FlagsHigh(8 * h + s, HighFor(if tc then SetTc(8 * h + s) else 8 * h + s, rd), rd, tc)
  {
    Octal(h, s);
    SetTcOctal(h, s);
    var t := if tc && s / 2 % 2 == 0 then s + 2 else s;
    Octal(h, t);
    HighForOctal(h, t, rd);
  }

  lemma HighFlags(x: byte, rd: bool, tc: bool)
    ensures FlagsHigh(x, HighFor(if tc then SetTc(x) else x, rd), rd, tc)
  {
    HighFlagsOctal(x / 8, x % 8, rd, tc);
  }

  lemma LowFlags(x: byte, ad: bool)
    ensures FlagsLow(x, LowFor(x, ad), ad)
  {
  }

  function Addressed(b: seq<byte>, q: Query): seq<byte>
    requires |b| >= HEADER_LEN + |q.qname|
  {
    Splice(Splice(b, 0, U16(q.id) + [HighFor(b[2], RdBit(q)), LowFor(b[3], WantsAd(q))]), HEADER_LEN, q.qname)
  }

  function Attached(b: seq<byte>, size: nat, arcount: nat, opt: Option<ReplyOpt>): seq<byte>
    requires HEADER_LEN <= size && size + OptLen(opt) <= |b| && arcount < 0xFFFF && (opt.Some? ==> OptOk(opt.value))
  {
    if opt.None? then b else Splice(Splice(b, size, OptBytes(opt.value)), 10, U16(arcount + 1))
  }

  lemma AddressedOctets(b: seq<byte>, q: Query)
    requires |b| >= HEADER_LEN + |q.qname|
    ensures var c := Addressed(b, q);
            && |c| == |b| && Be16(c, 0) == q.id && c[2] == HighFor(b[2], RdBit(q)) && c[3] == LowFor(b[3], WantsAd(q))
            && c[HEADER_LEN..HEADER_LEN + |q.qname|] == q.qname
            && forall k :: 4 <= k < 12 || HEADER_LEN + |q.qname| <= k < |b| ==> c[k] == b[k]
  {
    var c, id := Addressed(b, q), U16(q.id);
    assert c[0] == id[0] && c[1] == id[1];
    assert c[HEADER_LEN..HEADER_LEN + |q.qname|] == q.qname;
  }

  lemma AttachedOctets(b: seq<byte>, size: nat, arcount: nat, opt: Option<ReplyOpt>)
    requires HEADER_LEN <= size && size + OptLen(opt) <= |b| && arcount < 0xFFFF && (opt.Some? ==> OptOk(opt.value))
    requires Be16(b, 10) == arcount
    ensures var c := Attached(b, size, arcount, opt);
            && |c| == |b| && Be16(c, 10) == arcount + (if opt.Some? then 1 else 0)
            && c[size..size + OptLen(opt)] == OptBytesOf(opt)
            && forall k :: 0 <= k < 10 || 12 <= k < size || size + OptLen(opt) <= k < |b| ==> c[k] == b[k]
  {
    if opt.Some? {
      var c, ar := Attached(b, size, arcount, opt), U16(arcount + 1);
      assert c[10] == ar[0] && c[11] == ar[1];
      assert c[size..size + OptLen(opt)] == OptBytesOf(opt);
    }
  }

  /** What finishing does to `b`, octet by octet. */
  ghost predicate Completed(q: Query, size: nat, arcount: nat, opt: Option<ReplyOpt>, b: seq<byte>, c: seq<byte>)
    requires HEADER_LEN + |q.qname| <= size && size + OptLen(opt) <= |b| && (opt.Some? ==> OptOk(opt.value))
  {
    && |c| == |b| && Be16(c, 0) == q.id && c[2] == HighFor(b[2], RdBit(q)) && c[3] == LowFor(b[3], WantsAd(q))
    && Be16(c, 10) == arcount + (if opt.Some? then 1 else 0)
    && c[HEADER_LEN..HEADER_LEN + |q.qname|] == q.qname
    && c[size..size + OptLen(opt)] == OptBytesOf(opt)
    && forall k :: 4 <= k < 10 || HEADER_LEN + |q.qname| <= k < size || size + OptLen(opt) <= k < |b| ==> c[k] == b[k]
  }

  lemma Completes(q: Query, size: nat, arcount: nat, opt: Option<ReplyOpt>, b: seq<byte>)
    requires HEADER_LEN + |q.qname| <= size && size + OptLen(opt) <= |b| && (opt.Some? ==> OptOk(opt.value))
    requires Be16(b, 10) == arcount < 0xFFFF
    ensures Completed(q, size, arcount, opt, b, Attached(Addressed(b, q), size, arcount, opt))
  {
    AddressedOctets(b, q);
    AttachedOctets(Addressed(b, q), size, arcount, opt);
    var c := Attached(Addressed(b, q), size, arcount, opt);
    assert c[HEADER_LEN..HEADER_LEN + |q.qname|] == Addressed(b, q)[HEADER_LEN..HEADER_LEN + |q.qname|];
  }

  /** The finished reply, seen from the entry it started with. */
  lemma Finished(e: Entry, q: Query, tc: bool, arcount: nat, opt: Option<ReplyOpt>, size: nat, b: seq<byte>,
                 c: seq<byte>)
    requires EntryOk(e) && (opt.Some? ==> OptOk(opt.value))
    requires HEADER_LEN + |q.qname| <= size && size + OptLen(opt) <= |b| && Completed(q, size, arcount, opt, b, c)
    requires b[2] == (if tc then SetTc(e.wire[2]) else e.wire[2]) && b[3] == e.wire[3]
    ensures Headed(e, q, tc, arcount, opt, size, c[..size + OptLen(opt)])
  {
    HighFlags(e.wire[2], RdBit(q), tc);
    LowFlags(e.wire[3], WantsAd(q));
    var reply := c[..size + OptLen(opt)];
    assert reply[size..] == c[size..size + OptLen(opt)];
    assert reply[HEADER_LEN..HEADER_LEN + |q.qname|] == c[HEADER_LEN..HEADER_LEN + |q.qname|];
  }

  method Finish(out: array<byte>, q: Query, size: nat, arcount: nat, opt: Option<ReplyOpt>) returns (n: nat)
    requires HEADER_LEN + |q.qname| <= size && size + OptLen(opt) <= out.Length && (opt.Some? ==> OptOk(opt.value))
    requires Be16(out[..], 10) == arcount < 0xFFFF
    modifies out
    ensures n == size + OptLen(opt) && Completed(q, size, arcount, opt, old(out[..]), out[..])
  {
    Completes(q, size, arcount, opt, out[..]);
    Put(out, 0, U16(q.id) + [HighFor(out[2], RdBit(q)), LowFor(out[3], WantsAd(q))]);
    Put(out, HEADER_LEN, q.qname);
    n := size;
    if opt.Some? {
      var used := WriteOpt(out, size, opt.value);
      n := n + used;
      Put(out, 10, U16(arcount + 1));
    }
  }

  // ----- the two bodies

  /** A patched copy under the right head serves the entry. */
  lemma ServesPatched(e: Entry, q: Query, elapsed: u32, mode: Mode, opt: Option<ReplyOpt>, a: seq<byte>, b: seq<byte>,
                      reply: seq<byte>)
    requires EntryOk(e) && |q.qname| == e.nameLen && (opt.Some? ==> OptOk(opt.value)) && |e.wire| <= |a|
             && a[..|e.wire|] == e.wire
    requires Patched(a, b, e, |e.ttlOffsets|, elapsed, mode)
    requires Headed(e, q, false, Be16(e.wire, 10), opt, |e.wire|, reply)
    requires forall k :: 4 <= k < 10 || HEADER_LEN + |q.qname| <= k < |e.wire| ==> reply[k] == b[k]
    ensures Serves(e, q, elapsed, mode, opt, reply)
  {
    assert e.ttlOffsets[..|e.ttlOffsets|] == e.ttlOffsets;
    HeaderOutsideFields(e);
    FieldsKept(e, b, reply);
    forall i | 0 <= i < |e.ttlOffsets|
      ensures Left(mode, Be32(e.wire, e.ttlOffsets[i]), elapsed, Be32(reply, e.ttlOffsets[i]))
    {
      ServedIsLeft(mode, Be32(e.wire, e.ttlOffsets[i]), elapsed);
    }
    forall k | 4 <= k < 10 || (HEADER_LEN + |q.qname| <= k < |e.wire| && !InField(e.ttlOffsets, k))
      ensures reply[k] == e.wire[k]
    {
      assert a[k] == a[..|e.wire|][k];
    }
  }

  /** What is patched leaves the octets past the entry alone, and the header. */
  lemma PatchedBounds(e: Entry, elapsed: u32, mode: Mode, a: seq<byte>, b: seq<byte>)
    requires EntryOk(e) && |e.wire| <= |a| && a[..|e.wire|] == e.wire && Patched(a, b, e, |e.ttlOffsets|, elapsed, mode)
    ensures |b| == |a| && (forall k :: |e.wire| <= k < |a| ==> b[k] == a[k])
    ensures b[2] == e.wire[2] && b[3] == e.wire[3] && Be16(b, 10) == Be16(e.wire, 10)
  {
    assert e.ttlOffsets[..|e.ttlOffsets|] == e.ttlOffsets;
    HeaderOutsideFields(e);
    assert forall k :: 0 <= k < |e.wire| ==> a[k] == a[..|e.wire|][k];
    forall k | |e.wire| <= k < |a|
      ensures b[k] == a[k]
    {
      assert !InField(e.ttlOffsets, k);
    }
  }

  lemma ServesAll(e: Entry, q: Query, elapsed: u32, mode: Mode, opt: Option<ReplyOpt>, a: seq<byte>, b: seq<byte>,
                  c: seq<byte>)
    requires EntryOk(e) && |q.qname| == e.nameLen && (opt.Some? ==> OptOk(opt.value))
    requires |e.wire| + OptLen(opt) <= |a| && a[..|e.wire|] == e.wire && Patched(a, b, e, |e.ttlOffsets|, elapsed, mode)
    requires Completed(q, |e.wire|, Be16(e.wire, 10), opt, b, c)
    ensures var n := |e.wire| + OptLen(opt); Serves(e, q, elapsed, mode, opt, c[..n]) && c[n..] == a[n..]
  {
    PatchedBounds(e, elapsed, mode, a, b);
    Finished(e, q, false, Be16(e.wire, 10), opt, |e.wire|, b, c);
    ServesPatched(e, q, elapsed, mode, opt, a, b, c[..|e.wire| + OptLen(opt)]);
    BehindKept(q, |e.wire|, Be16(e.wire, 10), opt, a, b, c);
  }

  lemma BehindKept(q: Query, size: nat, arcount: nat, opt: Option<ReplyOpt>, a: seq<byte>, b: seq<byte>, c: seq<byte>)
    requires HEADER_LEN + |q.qname| <= size && size + OptLen(opt) <= |b| == |a| && (opt.Some? ==> OptOk(opt.value))
    requires Completed(q, size, arcount, opt, b, c) && forall k :: size <= k < |a| ==> b[k] == a[k]
    ensures c[size + OptLen(opt)..] == a[size + OptLen(opt)..]
  {
  }

  /** Every field can be patched. */
  lemma {:induction false} Patchable(a: seq<byte>, e: Entry, n: nat, elapsed: u32, mode: Mode) returns (b: seq<byte>)
    requires EntryOk(e) && |e.wire| <= |a| && n <= |e.ttlOffsets|
    ensures Patched(a, b, e, n, elapsed, mode)
  {
    b := a;
    if n > 0 {
      b := Patchable(a, e, n - 1, elapsed, mode);
      PatchStep(a, b, e, n - 1, elapsed, mode);
      var off := e.ttlOffsets[n - 1];
      b := Splice(b, off, U32(ServedTtl(mode, Be32(e.wire, off), elapsed)));
    }
  }

  /** Every entry can be served whole, at any time, to every client whose name fits. */
  lemma Servable(e: Entry, q: Query, elapsed: u32, mode: Mode, opt: Option<ReplyOpt>) returns (reply: seq<byte>)
    requires EntryOk(e) && |q.qname| == e.nameLen && (opt.Some? ==> OptOk(opt.value))
    ensures Serves(e, q, elapsed, mode, opt, reply)
  {
    var a := e.wire + OptBytesOf(opt);
    var b := Patchable(a, e, |e.ttlOffsets|, elapsed, mode);
    PatchedBounds(e, elapsed, mode, a, b);
    Completes(q, |e.wire|, Be16(e.wire, 10), opt, b);
    var c := Attached(Addressed(b, q), |e.wire|, Be16(e.wire, 10), opt);
    ServesAll(e, q, elapsed, mode, opt, a, b, c);
    reply := c[..|e.wire| + OptLen(opt)];
  }

  ghost predicate QuestionCopied(e: Entry, was: seq<byte>, b: seq<byte>)
    requires EntryOk(e) && HEADER_LEN + e.nameLen + 4 <= |was|
  {
    && |b| == |was| && b[2] == SetTc(e.wire[2]) && (forall k :: 6 <= k < 12 ==> b[k] == 0)
    && (forall k :: 0 <= k < |was| && k != 2 && !(6 <= k < 12) ==>
          b[k] == if k < HEADER_LEN + e.nameLen + 4 then e.wire[k] else was[k])
  }

  method CopyQuestion(out: array<byte>, e: Entry)
    requires EntryOk(e) && HEADER_LEN + e.nameLen + 4 <= out.Length
    modifies out
    ensures QuestionCopied(e, old(out[..]), out[..])
  {
    Put(out, 0, e.wire[..HEADER_LEN + e.nameLen + 4]);
    out[2] := SetTc(out[2]);
    Put(out, 6, [0, 0, 0, 0, 0, 0]);
  }

  /** Copied header and question, finished, are the truncated reply. */
  lemma ServesShort(e: Entry, q: Query, opt: Option<ReplyOpt>, was: seq<byte>, b: seq<byte>, c: seq<byte>)
    requires EntryOk(e) && |q.qname| == e.nameLen && (opt.Some? ==> OptOk(opt.value))
    requires HEADER_LEN + e.nameLen + 4 + OptLen(opt) <= |was| && QuestionCopied(e, was, b)
    requires Completed(q, HEADER_LEN + e.nameLen + 4, 0, opt, b, c)
    ensures var n := HEADER_LEN + e.nameLen + 4 + OptLen(opt); ServesTruncated(e, q, opt, c[..n]) && c[n..] == was[n..]
  {
    Finished(e, q, true, 0, opt, HEADER_LEN + e.nameLen + 4, b, c);
  }

  method WriteTruncated(e: Entry, q: Query, out: array<byte>, opt: Option<ReplyOpt>) returns (n: nat)
    requires EntryOk(e) && |q.qname| == e.nameLen && (opt.Some? ==> OptOk(opt.value))
    requires HEADER_LEN + e.nameLen + 4 + OptLen(opt) <= out.Length
    modifies out
    ensures n == HEADER_LEN + e.nameLen + 4 + OptLen(opt)
    ensures ServesTruncated(e, q, opt, out[..n]) && out[n..] == old(out[n..])
  {
    ghost var was := out[..];
    CopyQuestion(out, e);
    ghost var b := out[..];
    n := Finish(out, q, HEADER_LEN + e.nameLen + 4, 0, opt);
    ServesShort(e, q, opt, was, b, out[..]);
  }

  method CopyPatched(out: array<byte>, e: Entry, elapsed: u32, mode: Mode) returns (ghost a: seq<byte>)
    requires EntryOk(e) && |e.wire| <= out.Length
    modifies out
    ensures |a| == out.Length && a[..|e.wire|] == e.wire && a[|e.wire|..] == old(out[|e.wire|..])
    ensures Patched(a, out[..], e, |e.ttlOffsets|, elapsed, mode) && Be16(out[..], 10) == Be16(e.wire, 10)
  {
    Put(out, 0, e.wire);
    a := out[..];
    assert a[..|e.wire|] == e.wire;
    PatchTtls(out, e, elapsed, mode);
    PatchedBounds(e, elapsed, mode, a, out[..]);
  }

  lemma TailKept(a: seq<byte>, was: seq<byte>, size: nat, n: nat)
    requires size <= n <= |a| == |was| && a[size..] == was[size..]
    ensures a[n..] == was[n..]
  {
    assert a[n..] == a[size..][n - size..];
    assert was[n..] == was[size..][n - size..];
  }

  method WriteWhole(e: Entry, q: Query, elapsed: u32, mode: Mode, out: array<byte>, opt: Option<ReplyOpt>)
    returns (n: nat)
    requires EntryOk(e) && |q.qname| == e.nameLen && (opt.Some? ==> OptOk(opt.value))
    requires |e.wire| + OptLen(opt) <= out.Length
    modifies out
    ensures n == |e.wire| + OptLen(opt)
    ensures Serves(e, q, elapsed, mode, opt, out[..n]) && out[n..] == old(out[n..])
  {
    n := CopyFinished(e, q, elapsed, mode, out, opt);
    assert out[..n] == out[..][..n] && out[n..] == out[..][n..] && old(out[n..]) == old(out[..])[n..];
  }

  /** The reply is the first `n` octets of `c`, and behind it nothing has changed. */
  ghost predicate Wrote(e: Entry, q: Query, elapsed: u32, mode: Mode, opt: Option<ReplyOpt>, was: seq<byte>,
                        c: seq<byte>, n: nat)
    requires EntryOk(e) && (opt.Some? ==> OptOk(opt.value))
  {
    n <= |c| == |was| && Serves(e, q, elapsed, mode, opt, c[..n]) && c[n..] == was[n..]
  }

  method CopyFinished(e: Entry, q: Query, elapsed: u32, mode: Mode, out: array<byte>, opt: Option<ReplyOpt>)
    returns (n: nat)
    requires EntryOk(e) && |q.qname| == e.nameLen && (opt.Some? ==> OptOk(opt.value))
    requires |e.wire| + OptLen(opt) <= out.Length
    modifies out
    ensures n == |e.wire| + OptLen(opt) && Wrote(e, q, elapsed, mode, opt, old(out[..]), out[..], n)
  {
    ghost var was := out[..];
    ghost var a := CopyPatched(out, e, elapsed, mode);
    ghost var b := out[..];
    n := Finish(out, q, |e.wire|, Be16(e.wire, 10), opt);
    assert a[|e.wire|..] == was[|e.wire|..];
    ServedWhole(e, q, elapsed, mode, opt, was, a, b, out[..]);
  }

  lemma ServedWhole(e: Entry, q: Query, elapsed: u32, mode: Mode, opt: Option<ReplyOpt>, was: seq<byte>, a: seq<byte>,
                    b: seq<byte>, c: seq<byte>)
    requires EntryOk(e) && |q.qname| == e.nameLen && (opt.Some? ==> OptOk(opt.value))
    requires |e.wire| + OptLen(opt) <= |a| == |was| && a[..|e.wire|] == e.wire && a[|e.wire|..] == was[|e.wire|..]
    requires Patched(a, b, e, |e.ttlOffsets|, elapsed, mode) && Completed(q, |e.wire|, Be16(e.wire, 10), opt, b, c)
    ensures Wrote(e, q, elapsed, mode, opt, was, c, |e.wire| + OptLen(opt))
  {
    ServesAll(e, q, elapsed, mode, opt, a, b, c);
    TailKept(a, was, |e.wire|, |e.wire| + OptLen(opt));
  }

  /** Writes `e` as the reply to `q`: the whole message patched when it fits both limits, else header
      and question with TC, else nothing. */
  method WriteCached(e: Entry, q: Query, now: u32, mode: Mode, out: array<byte>, limit: nat, opt: Option<ReplyOpt>)
    returns (n: nat)
    requires EntryOk(e) && |q.qname| == e.nameLen && (opt.Some? ==> OptOk(opt.value))
    modifies out
    ensures n <= out.Length && out[n..] == old(out[n..])
    ensures forall view, t :: limit == ReplyLimit(view, t) ==> n <= limit
    ensures var whole, short := |e.wire| + OptLen(opt), 16 + e.nameLen + OptLen(opt);
            if whole <= limit && whole <= out.Length then
              && n == whole
              && Serves(e, q, if now > e.insertedAt then now - e.insertedAt else 0, mode, opt, out[..n])
            else if short <= out.Length then n == short && ServesTruncated(e, q, opt, out[..n])
            else n == 0
  {
    if |e.wire| + OptLen(opt) > (if limit < out.Length then limit else out.Length) {
      if HEADER_LEN + e.nameLen + 4 + OptLen(opt) > out.Length {
        return 0;
      }
      n := WriteTruncated(e, q, out, opt);
    } else {
      n := WriteWhole(e, q, Elapsed(now, e.insertedAt), mode, out, opt);
    }
  }

  lemma HeaderOutsideFields(e: Entry)
    requires EntryOk(e)
    ensures forall k :: 0 <= k < HEADER_LEN + e.nameLen + 4 ==> !InField(e.ttlOffsets, k)
  {
  }

  /** Finishing touches no TTL field. */
  lemma FieldsKept(e: Entry, b: seq<byte>, c: seq<byte>)
    requires EntryOk(e) && |e.wire| <= |b| && |e.wire| <= |c|
    requires forall k :: HEADER_LEN + e.nameLen <= k < |e.wire| ==> c[k] == b[k]
    ensures forall i :: 0 <= i < |e.ttlOffsets| ==> Be32(c, e.ttlOffsets[i]) == Be32(b, e.ttlOffsets[i])
  {
  }
}
