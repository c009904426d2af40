/** The cache as a whole: inserting, looking up, and what served replies say about upstream ones. */
module CacheServing {
  import opened Common
  import opened Bytes
  import opened WireNames
  import opened Edns
  import opened Wire
  import opened WalkFacts
  import opened Cache

  datatype CacheKey = CacheKey(name: seq<byte>, qtype: u16, qclass: u16, doBit: bool, cdBit: bool, partition: u16)

  datatype Settings = Settings(minTtl: u32, maxTtl: u32, negativeMaxTtl: u32, staleWindow: u32)

  function KeyFor(q: Query, partition: u16): CacheKey {
    CacheKey(q.key, q.qtype, q.qclass, q.opt.Some? && q.opt.value.doBit, q.flags / 0x10 % 2 == 1, partition)
  }

  /** The bits of a query that change what upstream answers: CD in its flags, DO in its OPT record. */
  predicate ChecksDisabled(q: Query) { q.flags % 32 >= 16 }

  predicate WantsDnssec(q: Query) { q.opt.Some? && q.opt.value.doBit }

  /** Queries share an entry exactly if they ask the same question, with the same CD and DO bits, in
      the same partition. */
  lemma KeySeparates(q: Query, partition: u16, c: Query, other: u16)
    ensures KeyFor(q, partition) == KeyFor(c, other) <==>
            && q.key == c.key && q.qtype == c.qtype && q.qclass == c.qclass && partition == other
            && ChecksDisabled(q) == ChecksDisabled(c) && WantsDnssec(q) == WantsDnssec(c)
  {
    CdBit(q.flags);
    CdBit(c.flags);
  }

  lemma CdBit(flags: u16)
    ensures flags / 0x10 % 2 == 1 <==> flags % 32 >= 16
  {
    var a, b := flags / 32, flags % 32;
    assert flags == 32 * a + b;
  }

  datatype Reason = MalformedReply | TruncatedReply | TtlZero | NegativeWithoutSoa | OtherRcode | OptNotLast

  datatype Lifetime = Lives(ttl: u32) | Never(reason: Reason)

  function SatAdd(a: u32, b: u32): u32 {
    if a as int + b as int > U32_MAX as int then U32_MAX else a + b
  }

  function Clamp(t: u32, lo: u32, hi: u32): u32 {
    if t < lo then lo else if t > hi then hi else t
  }

  /** RFC 2308 and the settings: how long a walked reply lives. */
  function LifetimeOf(s: Settings, info: Info): Lifetime {
    var chosen :=
      if info.rcode == RCODE_NOERROR && info.ancount > 0 then
        if info.minTtl.None? || info.minTtl.value == 0 then Never(TtlZero)
        else Lives(Clamp(info.minTtl.value, s.minTtl, s.maxTtl))
      else if info.rcode == RCODE_NOERROR || info.rcode == RCODE_NXDOMAIN then
        if info.negativeTtl.None? then Never(NegativeWithoutSoa)
        else Lives(if info.negativeTtl.value < s.negativeMaxTtl then info.negativeTtl.value else s.negativeMaxTtl)
      else Never(OtherRcode);
    if info.tc then Never(TruncatedReply) else if chosen == Lives(0) then Never(TtlZero) else chosen
  }

  /** A positive reply lives as long as its shortest answer, moved into the settings' bounds; a denial
      as long as the lesser of its SOA and its own setting; nothing truncated, of another RCODE or
      without time left lives at all. */
  predicate LivesFor(s: Settings, info: Info, ttl: u32) {
    && !info.tc && ttl > 0
    && if info.rcode == 0 && info.ancount > 0 then
         && info.minTtl.Some? && info.minTtl.value > 0
         && ttl == if info.minTtl.value < s.minTtl then s.minTtl
                   else if info.minTtl.value > s.maxTtl then s.maxTtl
                   else info.minTtl.value
       else
         && (info.rcode == 0 || info.rcode == 3) && info.negativeTtl.Some?
         && ttl <= info.negativeTtl.value && ttl <= s.negativeMaxTtl
         && (ttl == info.negativeTtl.value || ttl == s.negativeMaxTtl)
  }

  lemma LifetimeExact(s: Settings, info: Info, ttl: u32)
    ensures LifetimeOf(s, info) == Lives(ttl) <==> LivesFor(s, info, ttl)
  {
  }

  /** Why a walked reply is not cached. */
  predicate RefusedFor(s: Settings, info: Info, reason: Reason) {
    if info.tc then reason == TruncatedReply
    else if info.rcode != 0 && info.rcode != 3 then reason == OtherRcode
    else if info.rcode == 0 && info.ancount > 0 then reason == TtlZero
    else if info.negativeTtl.None? then reason == NegativeWithoutSoa
    else reason == TtlZero
  }

  lemma RefusalExact(s: Settings, info: Info)
    requires LifetimeOf(s, info).Never?
    ensures RefusedFor(s, info, LifetimeOf(s, info).reason)
  {
  }

  datatype Outcome = Inserted(entry: Entry) | NotCacheable(reason: Reason)

  function Insertion(s: Settings, upstream: seq<byte>, q: Query, now: u32): Outcome {
    if WalkResponse(upstream, q).Unwalked? then NotCacheable(MalformedReply) else
    match LifetimeOf(s, WalkResponse(upstream, q).info)
    case Never(reason) => NotCacheable(reason)
    case Lives(ttl) =>
      match EntryFrom(upstream, q, now, ttl, SatAdd(SatAdd(now, ttl), s.staleWindow))
      case None => NotCacheable(OptNotLast)
      case Some(e) => Inserted(e)
  }

  /** Only a trailing OPT record can be cut off. */
  predicate OptIsLast(upstream: seq<byte>, info: Info) {
    info.optRange.Some? ==> info.optRange.value.end == |upstream|
  }

  method Admit(s: Settings, upstream: seq<byte>, q: Query, now: u32) returns (r: Outcome)
    ensures r == Insertion(s, upstream, q, now)
    ensures forall ttl: u32 ::
              r.Inserted? && r.entry.ttl == ttl <==>
              && WalkResponse(upstream, q).Walked? && OptIsLast(upstream, WalkResponse(upstream, q).info)
              && LivesFor(s, WalkResponse(upstream, q).info, ttl)
    ensures r.Inserted? ==>
              && r.entry.insertedAt == now && r.entry.rcode == WalkResponse(upstream, q).info.rcode
              && var end := now + r.entry.ttl + s.staleWindow;
                 r.entry.staleDeadline == if end < 0xFFFF_FFFF then end else 0xFFFF_FFFF
    ensures r.NotCacheable? ==>
              match WalkResponse(upstream, q)
              case Unwalked(_) => r.reason == MalformedReply
              case Walked(info) =>
                if r.reason == OptNotLast then !OptIsLast(upstream, info) else RefusedFor(s, info, r.reason)
  {
    forall ttl: u32
      ensures WalkResponse(upstream, q).Walked? ==>
                (LifetimeOf(s, WalkResponse(upstream, q).info) == Lives(ttl)
                 <==> LivesFor(s, WalkResponse(upstream, q).info, ttl))
    {
      if WalkResponse(upstream, q).Walked? {
        LifetimeExact(s, WalkResponse(upstream, q).info, ttl);
      }
    }
    var walked := Walk(upstream, q);
    if walked.Unwalked? {
      return NotCacheable(MalformedReply);
    }
    var life := LifetimeOf(s, walked.info);
    if life.Never? {
      RefusalExact(s, walked.info);
      return NotCacheable(life.reason);
    }
    var entry := EntryFrom(upstream, q, now, life.ttl, SatAdd(SatAdd(now, life.ttl), s.staleWindow));
    return if entry.None? then NotCacheable(OptNotLast) else Inserted(entry.value);
  }

  datatype Lookup = FreshHit(entry: Entry) | StaleHit(entry: Entry) | Miss

  function LookupIn(entries: map<CacheKey, Entry>, key: CacheKey, now: u32): Lookup {
    if key !in entries then Miss
    else if now < SatAdd(entries[key].insertedAt, entries[key].ttl) then FreshHit(entries[key])
    else if now < entries[key].staleDeadline then StaleHit(entries[key])
    else Miss
  }

  /** In plain seconds: fresh for the lifetime, stale up to the deadline, and nothing is fresh in the
      clock's last second. */
  lemma LookupExact(entries: map<CacheKey, Entry>, key: CacheKey, now: u32)
    ensures key !in entries ==> LookupIn(entries, key, now) == Miss
    ensures key in entries ==>
              var e := entries[key];
              var young := now < e.insertedAt + e.ttl && now < 0xFFFF_FFFF;
              LookupIn(entries, key, now)
              == if young then FreshHit(e) else if now < e.staleDeadline then StaleHit(e) else Miss
  {
  }

  predicate Asks(key: CacheKey, q: Query) {
    key == KeyFor(q, key.partition)
  }

  /** An entry stands for an accepted upstream reply to its key's question. */
  ghost predicate Genuine(s: Settings, key: CacheKey, e: Entry) {
    exists upstream, q, at :: Asks(key, q) && Insertion(s, upstream, q, at) == Inserted(e)
  }

  /** An entry stands for some accepted upstream reply. */
  ghost predicate Sourced(s: Settings, e: Entry) {
    exists upstream, q, at :: Insertion(s, upstream, q, at) == Inserted(e)
  }

  class WireCache {
    const settings: Settings
    var entries: map<CacheKey, Entry>

    constructor (settings: Settings)
      requires settings.minTtl <= settings.maxTtl
      ensures Valid() && Honest() && entries == map[] && this.settings == settings
    {
      this.settings, entries := settings, map[];
    }

    ghost predicate Valid()
      reads this
    {
      settings.minTtl <= settings.maxTtl && forall key :: key in entries ==> Sourced(settings, entries[key])
    }

    /** Every entry answers the question of its own key. */
    ghost predicate Honest()
      reads this
    {
      forall key :: key in entries ==> Genuine(settings, key, entries[key])
    }

    method Insert(key: CacheKey, upstream: seq<byte>, q: Query, now: u32) returns (r: Outcome)
      requires Valid()
      modifies this
      ensures Valid() && r == Insertion(settings, upstream, q, now)
      ensures entries == if r.Inserted? then old(entries)[key := r.entry] else old(entries)
      ensures old(Honest()) && Asks(key, q) ==> Honest()
    {
      r := Admit(settings, upstream, q, now);
      if r.Inserted? {
        assert Sourced(settings, r.entry);
        assert Asks(key, q) ==> Genuine(settings, key, r.entry);
        entries := entries[key := r.entry];
      }
    }

    method Find(key: CacheKey, now: u32) returns (r: Lookup)
      requires Valid()
      ensures r == LookupIn(entries, key, now)
      ensures !r.Miss? ==> Sourced(settings, r.entry) && EntryOk(r.entry)
      ensures !r.Miss? && Honest() ==> Genuine(settings, key, r.entry) && r.entry.nameLen == |key.name|
    {
      r := LookupIn(entries, key, now);
      if !r.Miss? {
        SourcedOk(settings, r.entry);
        if Honest() {
          GenuineOk(settings, key, r.entry);
        }
      }
    }

    /** Weight limits may drop any entry at any time. */
    method Evict(key: CacheKey)
      requires Valid()
      modifies this
      ensures Valid() && entries == old(entries) - {key} && (old(Honest()) ==> Honest())
    {
      entries := entries - {key};
    }
  }

  lemma InsertedEntry(s: Settings, upstream: seq<byte>, q: Query, at: u32)
    requires Insertion(s, upstream, q, at).Inserted?
    ensures WalkResponse(upstream, q).Walked? && LifetimeOf(s, WalkResponse(upstream, q).info).Lives?
    ensures var e := Insertion(s, upstream, q, at).entry;
            var ttl := LifetimeOf(s, WalkResponse(upstream, q).info).ttl;
            && EntryFrom(upstream, q, at, ttl, e.staleDeadline) == Some(e)
            && e.insertedAt == at && e.ttl == ttl > 0 && SatAdd(at, ttl) <= e.staleDeadline
            && EntryOk(e) && e.nameLen == |q.key|
  {
    var e := Insertion(s, upstream, q, at).entry;
    EntryFrame(upstream, q, at, e.ttl, e.staleDeadline);
  }

  lemma SourcedOk(s: Settings, e: Entry)
    requires Sourced(s, e)
    ensures EntryOk(e)
  {
    var upstream, q, at :| Insertion(s, upstream, q, at) == Inserted(e);
    InsertedEntry(s, upstream, q, at);
  }

  lemma GenuineOk(s: Settings, key: CacheKey, e: Entry)
    requires Genuine(s, key, e)
    ensures EntryOk(e) && e.nameLen == |key.name|
  {
    var upstream, q, at :| Asks(key, q) && Insertion(s, upstream, q, at) == Inserted(e);
    InsertedEntry(s, upstream, q, at);
  }

  // ----- what a served reply says

  /** The served reply against the upstream one, octet by octet. */
  ghost predicate Relays(upstream: seq<byte>, info: Info, size: nat, c: Query, elapsed: u32, mode: Mode,
                         opt: Option<ReplyOpt>, reply: seq<byte>)
    requires opt.Some? ==> OptOk(opt.value)
  {
    && HEADER_LEN + |c.qname| + 4 <= size <= |upstream| && |reply| == size + OptLen(opt)
    && Spaced(info.ttlOffsets, HEADER_LEN + |c.qname| + 4, size)
    && Be16(reply, 0) == c.id
    && FlagsHigh(upstream[2], reply[2], RdBit(c), false) && FlagsLow(upstream[3], reply[3], WantsAd(c))
    && Be16(reply, 10) as int - OptCount(opt) == Be16(upstream, 10) as int - (if info.optRange.Some? then 1 else 0)
    && reply[HEADER_LEN..HEADER_LEN + |c.qname|] == c.qname
    && (forall k :: 4 <= k < 10 || (HEADER_LEN + |c.qname| <= k < size && !InField(info.ttlOffsets, k)) ==>
          reply[k] == upstream[k])
    && (forall i :: 0 <= i < |info.ttlOffsets| ==>
          Left(mode, Be32(upstream, info.ttlOffsets[i]), elapsed, Be32(reply, info.ttlOffsets[i])))
    && reply[size..] == OptBytesOf(opt)
  }

  function OptCount(opt: Option<ReplyOpt>): int {
    if opt.Some? then 1 else 0
  }

  /** A served reply is the upstream reply up to its trailing OPT record: only ID, RD, AA, AD, ARCOUNT,
      the question's casing and the TTL fields differ, and each TTL field holds what is served. */
  lemma ServedFrame(upstream: seq<byte>, q: Query, at: u32, ttl: u32, stale: u32, c: Query, elapsed: u32, mode: Mode,
                    opt: Option<ReplyOpt>, reply: seq<byte>)
    requires WalkResponse(upstream, q).Walked? && EntryFrom(upstream, q, at, ttl, stale).Some?
    requires |c.qname| == |q.key| && (opt.Some? ==> OptOk(opt.value))
    requires EntryOk(EntryFrom(upstream, q, at, ttl, stale).value)
             && Serves(EntryFrom(upstream, q, at, ttl, stale).value, c, elapsed, mode, opt, reply)
    ensures var info := WalkResponse(upstream, q).info;
            var size := if info.optRange.Some? then info.optRange.value.start else |upstream|;
            Relays(upstream, info, size, c, elapsed, mode, opt, reply)
  {
    EntryFrame(upstream, q, at, ttl, stale);
    var info := WalkResponse(upstream, q).info;
    var e := EntryFrom(upstream, q, at, ttl, stale).value;
    ServesRelays(upstream, info, e, c, elapsed, mode, opt, reply);
  }

  /** The flags a client sees: QR and opcode as upstream, AA cleared, TC kept, RD its own; RA, CD and
      RCODE as upstream, AD only if it set AD or DO. */
  lemma HeaderServed(upstream: seq<byte>, info: Info, size: nat, c: Query, elapsed: u32, mode: Mode,
                     opt: Option<ReplyOpt>, reply: seq<byte>)
    requires (opt.Some? ==> OptOk(opt.value)) && Relays(upstream, info, size, c, elapsed, mode, opt, reply)
    ensures reply[2] == upstream[2] / 8 * 8 + (if upstream[2] % 4 >= 2 then 2 else 0)
                        + if c.flags % 512 >= 256 then 1 else 0
    ensures var ad := c.flags % 64 >= 32 || WantsDnssec(c);
            reply[3] == upstream[3] - if !ad && upstream[3] % 64 >= 32 then 32 else 0
  {
    HighOctet(upstream[2], reply[2], c.flags);
    LowOctet(upstream[3], reply[3], c.flags, WantsDnssec(c));
  }

  lemma HighOctet(was: byte, now: byte, flags: u16)
    requires FlagsHigh(was, now, flags / 0x100 % 2 == 1, false)
    ensures now == was / 8 * 8 + (if was % 4 >= 2 then 2 else 0) + if flags % 512 >= 256 then 1 else 0
  {
    var h, s, t := was / 8, was % 8, now % 8;
    RdFlag(flags);
    Octal(h, s);
    Octal(h, t);
    LowBits(s, t, flags % 512 >= 256);
    Mod4(h, s);
  }

  lemma RdFlag(flags: u16)
    ensures flags / 0x100 % 2 == 1 <==> flags % 512 >= 256
  {
    var a, b := flags / 512, flags % 512;
    assert flags == 512 * a + b;
  }

  lemma Mod4(h: int, s: int)
    requires 0 <= s < 8
    ensures (8 * h + s) % 4 == s % 4
  {
  }

  lemma LowBits(s: int, t: int, rd: bool)
    requires 0 <= s < 8 && 0 <= t < 4 && (t % 2 == 1) == rd && (t / 2 % 2 == 1) == (s / 2 % 2 == 1)
    ensures t == (if s % 4 >= 2 then 2 else 0) + if rd then 1 else 0
  {
  }

  lemma LowOctet(was: byte, now: byte, flags: u16, dnssec: bool)
    requires FlagsLow(was, now, flags / 0x20 % 2 == 1 || dnssec)
    ensures now == was - if !(flags % 64 >= 32 || dnssec) && was % 64 >= 32 then 32 else 0
  {
    var a, b := flags / 64, flags % 64;
    assert flags == 64 * a + b;
  }

  /** The same from what storing keeps. */
  lemma ServesRelays(upstream: seq<byte>, info: Info, e: Entry, c: Query, elapsed: u32, mode: Mode,
                     opt: Option<ReplyOpt>, reply: seq<byte>)
    requires EntryOk(e) && e.nameLen == |c.qname| && e.ttlOffsets == info.ttlOffsets && (opt.Some? ==> OptOk(opt.value))
    requires |e.wire| <= |upstream| && Serves(e, c, elapsed, mode, opt, reply)
    requires forall k :: 0 <= k < 10 || HEADER_LEN + e.nameLen <= k < |e.wire| ==> e.wire[k] == upstream[k]
    requires Be16(e.wire, 10) == Be16(upstream, 10) - (if info.optRange.Some? then 1 else 0)
    requires forall i :: 0 <= i < |e.ttlOffsets| ==> Be32(e.wire, e.ttlOffsets[i]) == Be32(upstream, e.ttlOffsets[i])
    ensures Relays(upstream, info, |e.wire|, c, elapsed, mode, opt, reply)
  {
  }

  /** `prepare_uncached` served at time 0 keeps every upstream TTL. */
  lemma UncachedKeepsTtls(upstream: seq<byte>, q: Query, c: Query, opt: Option<ReplyOpt>, reply: seq<byte>)
    requires WalkResponse(upstream, q).Walked? && EntryFrom(upstream, q, 0, U32_MAX, 0).Some?
    requires |c.qname| == |q.key| && (opt.Some? ==> OptOk(opt.value))
    requires EntryOk(EntryFrom(upstream, q, 0, U32_MAX, 0).value)
             && Serves(EntryFrom(upstream, q, 0, U32_MAX, 0).value, c, Elapsed(0, 0), Fresh, opt, reply)
    ensures var offs := WalkResponse(upstream, q).info.ttlOffsets;
            forall i :: 0 <= i < |offs| ==> offs[i] + 4 <= |reply| && offs[i] + 4 <= |upstream|
                                            && Be32(reply, offs[i]) == Be32(upstream, offs[i])
  {
    ServedFrame(upstream, q, 0, U32_MAX, 0, c, 0, Fresh, opt, reply);
    var info := WalkResponse(upstream, q).info;
    RelayedAtZero(upstream, info, if info.optRange.Some? then info.optRange.value.start else |upstream|, c, opt, reply);
  }

  lemma RelayedAtZero(upstream: seq<byte>, info: Info, size: nat, c: Query, opt: Option<ReplyOpt>, reply: seq<byte>)
    requires opt.Some? ==> OptOk(opt.value)
    requires Relays(upstream, info, size, c, 0, Fresh, opt, reply)
    ensures forall i :: 0 <= i < |info.ttlOffsets| ==>
              && info.ttlOffsets[i] + 4 <= |reply| && info.ttlOffsets[i] + 4 <= |upstream|
              && Be32(reply, info.ttlOffsets[i]) == Be32(upstream, info.ttlOffsets[i])
  {
  }

  /** A question that stands in a reply is the one found there. */
  lemma QuestionStands(reply: seq<byte>, c: Query)
    requires QueryOk(c) && |reply| >= c.questionEnd && Be16(reply, 4) == 1
    requires reply[HEADER_LEN..HEADER_LEN + |c.qname|] == c.qname
    requires Be16(reply, HEADER_LEN + |c.qname|) == c.qtype && Be16(reply, HEADER_LEN + |c.qname| + 2) == c.qclass
    ensures QuestionEnd(reply, c.key, c.qtype, c.qclass) == Some(c.questionEnd)
  {
    var end := HEADER_LEN + |c.qname|;
    var name := reply[HEADER_LEN..end];
    forall k | 0 <= k < |c.qname|
      ensures c.qname[k] == reply[HEADER_LEN + (k - 0)]
    {
      assert name[k] == reply[HEADER_LEN + k];
    }
    NameMoves(c.qname, 0, |c.qname|, reply, HEADER_LEN);
    ReadPlain(reply, HEADER_LEN, end);
  }

  lemma QuestionFound(msg: seq<byte>, key: seq<byte>, qtype: u16, qclass: u16)
    requires QuestionEnd(msg, key, qtype, qclass).Some?
    ensures HEADER_LEN + |key| + 4 <= |msg| && Be16(msg, 4) == 1
    ensures Be16(msg, HEADER_LEN + |key|) == qtype && Be16(msg, HEADER_LEN + |key| + 2) == qclass
  {
    QuestionPlace(msg, key, qtype, qclass);
  }

  /** The reply carries the client's own question, in the client's casing. */
  lemma QuestionEchoed(upstream: seq<byte>, info: Info, c: Query, size: nat, elapsed: u32, mode: Mode,
                       opt: Option<ReplyOpt>, reply: seq<byte>)
    requires QueryOk(c) && (opt.Some? ==> OptOk(opt.value)) && QuestionEnd(upstream, c.key, c.qtype, c.qclass).Some?
    requires Relays(upstream, info, size, c, elapsed, mode, opt, reply)
    ensures QuestionEnd(reply, c.key, c.qtype, c.qclass) == Some(c.questionEnd)
  {
    var end := HEADER_LEN + |c.qname|;
    QuestionFound(upstream, c.key, c.qtype, c.qclass);
    forall k | end <= k < end + 4
      ensures reply[k] == upstream[k]
    {
      assert !InField(info.ttlOffsets, k);
    }
    QuestionStands(reply, c);
  }

  /** Serving an entry made from `upstream` relays it under the client's own question. */
  lemma EntryRelays(s: Settings, upstream: seq<byte>, q: Query, at: u32, e: Entry, c: Query, elapsed: u32, mode: Mode,
                    opt: Option<ReplyOpt>, reply: seq<byte>)
    requires Insertion(s, upstream, q, at) == Inserted(e) && |c.qname| == |q.key| && (opt.Some? ==> OptOk(opt.value))
    requires EntryOk(e) && Serves(e, c, elapsed, mode, opt, reply)
    ensures WalkResponse(upstream, q).Walked? && QuestionEnd(upstream, q.key, q.qtype, q.qclass).Some?
    ensures Relays(upstream, WalkResponse(upstream, q).info, |e.wire|, c, elapsed, mode, opt, reply)
  {
    InsertedEntry(s, upstream, q, at);
    EntryFrame(upstream, q, at, e.ttl, e.staleDeadline);
    ServesRelays(upstream, WalkResponse(upstream, q).info, e, c, elapsed, mode, opt, reply);
    WalkedOk(upstream, q);
  }

  /** Any hit under a client's key, served: some accepted upstream reply to the same question is relayed,
      under the client's own question. */
  lemma HitRelays(s: Settings, c: Query, partition: u16, e: Entry, elapsed: u32, mode: Mode, opt: Option<ReplyOpt>,
                  reply: seq<byte>)
    requires Genuine(s, KeyFor(c, partition), e) && QueryOk(c) && (opt.Some? ==> OptOk(opt.value))
    requires EntryOk(e) && Serves(e, c, elapsed, mode, opt, reply)
    ensures exists upstream, q, at :: Insertion(s, upstream, q, at) == Inserted(e) && WalkResponse(upstream, q).Walked?
              && ChecksDisabled(q) == ChecksDisabled(c) && WantsDnssec(q) == WantsDnssec(c)
              && Relays(upstream, WalkResponse(upstream, q).info, |e.wire|, c, elapsed, mode, opt, reply)
    ensures QuestionEnd(reply, c.key, c.qtype, c.qclass) == Some(c.questionEnd)
  {
    var upstream, q, at :| Asks(KeyFor(c, partition), q) && Insertion(s, upstream, q, at) == Inserted(e);
    KeySeparates(q, partition, c, partition);
    EntryRelays(s, upstream, q, at, e, c, elapsed, mode, opt, reply);
    QuestionEchoed(upstream, WalkResponse(upstream, q).info, c, |e.wire|, elapsed, mode, opt, reply);
  }

  // ----- freshness

  /** How long an entry inserted at `at` with lifetime `ttl` is fresh. */
  function FreshSpan(at: u32, ttl: u32): nat {
    SatAdd(at, ttl) - at
  }

  /** A positive TTL at least as long as that. */
  predicate Outlives(stored: u32, at: u32, ttl: u32) {
    stored >= 1 && stored >= FreshSpan(at, ttl)
  }

  /** A whole reply written for `c` from a fresh hit. */
  ghost predicate ServedFresh(entries: map<CacheKey, Entry>, key: CacheKey, c: Query, now: u32, opt: Option<ReplyOpt>,
                              reply: seq<byte>)
    requires opt.Some? ==> OptOk(opt.value)
  {
    var hit := LookupIn(entries, key, now);
    && hit.FreshHit? && EntryOk(hit.entry) && |c.qname| == hit.entry.nameLen
    && Serves(hit.entry, c, Elapsed(now, hit.entry.insertedAt), Fresh, opt, reply)
  }

  predicate SameQuestion(c: Query, q: Query) {
    c.key == q.key && c.qtype == q.qtype && c.qclass == q.qclass
  }

  /** The TTL field at `off` is positive in every whole reply to every parsed query for the question of
      `q` while the entry is fresh. */
  ghost predicate PositiveAt(entries: map<CacheKey, Entry>, key: CacheKey, q: Query, off: nat) {
    forall c: Query, now: u32, opt: Option<ReplyOpt>, reply: seq<byte> ::
      QueryOk(c) && SameQuestion(c, q) && (opt.Some? ==> OptOk(opt.value))
      && ServedFresh(entries, key, c, now, opt, reply) ==>
        off + 4 <= |reply| && Be32(reply, off) >= 1
  }

  /** A client asking the question of `q` in lower case. */
  function SomeClient(q: Query): (c: Query)
    requires IsKey(q.key)
    ensures QueryOk(c) && SameQuestion(c, q) && |c.qname| == |q.key|
  {
    Query(0, 0x100, q.key, q.key, q.qtype, q.qclass, HEADER_LEN + |q.key| + 4, None)
  }

  /** The last second in which an entry is fresh, or the first of all when it never is afterwards. */
  function LastFresh(at: u32, ttl: u32): (now: u32)
    requires ttl > 0
    ensures now < SatAdd(at, ttl)
  {
    SatAdd(at, ttl) - 1
  }

  /** What stands in a TTL field of such a reply. */
  lemma ServedField(entries: map<CacheKey, Entry>, key: CacheKey, i: nat, c: Query, now: u32, opt: Option<ReplyOpt>,
                    reply: seq<byte>)
    requires key in entries && EntryOk(entries[key]) && i < |entries[key].ttlOffsets|
    requires (opt.Some? ==> OptOk(opt.value)) && ServedFresh(entries, key, c, now, opt, reply)
    ensures var e := entries[key];
            var off := e.ttlOffsets[i];
            && now < SatAdd(e.insertedAt, e.ttl) && off + 4 <= |e.wire| && off + 4 <= |reply|
            && Be32(reply, off) == ServedTtl(Fresh, Be32(e.wire, off), Elapsed(now, e.insertedAt))
  {
  }

  lemma OutlivingPositive(stored: u32, at: u32, ttl: u32, now: u32)
    requires ttl > 0 && now < SatAdd(at, ttl)
    ensures Outlives(stored, at, ttl) ==> ServedTtl(Fresh, stored, Elapsed(now, at)) >= 1
    ensures !Outlives(stored, at, ttl) ==> ServedTtl(Fresh, stored, Elapsed(LastFresh(at, ttl), at)) == 0
  {
  }

  /** A TTL that outlives the span is positive in every such reply, whoever asked. */
  lemma OutlivedPositive(entries: map<CacheKey, Entry>, key: CacheKey, i: nat, c: Query, now: u32,
                         opt: Option<ReplyOpt>, reply: seq<byte>)
    requires key in entries && EntryOk(entries[key]) && entries[key].ttl > 0 && i < |entries[key].ttlOffsets|
    requires Outlives(Be32(entries[key].wire, entries[key].ttlOffsets[i]), entries[key].insertedAt, entries[key].ttl)
    requires (opt.Some? ==> OptOk(opt.value)) && ServedFresh(entries, key, c, now, opt, reply)
    ensures entries[key].ttlOffsets[i] + 4 <= |reply| && Be32(reply, entries[key].ttlOffsets[i]) >= 1
  {
    var e := entries[key];
    ServedField(entries, key, i, c, now, opt, reply);
    OutlivingPositive(Be32(e.wire, e.ttlOffsets[i]), e.insertedAt, e.ttl, now);
  }

  /** A whole reply to a parsed query is served in the last fresh second. */
  lemma LastServed(entries: map<CacheKey, Entry>, key: CacheKey, q: Query) returns (c: Query, reply: seq<byte>)
    requires key in entries && EntryOk(entries[key]) && entries[key].ttl > 0
    requires IsKey(q.key) && entries[key].nameLen == |q.key|
    ensures QueryOk(c) && SameQuestion(c, q)
    ensures ServedFresh(entries, key, c, LastFresh(entries[key].insertedAt, entries[key].ttl), None, reply)
  {
    var e := entries[key];
    c := SomeClient(q);
    reply := Servable(e, c, Elapsed(LastFresh(e.insertedAt, e.ttl), e.insertedAt), Fresh, None);
  }

  /** One TTL field is positive in all those replies exactly when the stored TTL outlives the span. */
  lemma FieldPositive(entries: map<CacheKey, Entry>, key: CacheKey, q: Query, i: nat)
    requires key in entries && EntryOk(entries[key]) && entries[key].ttl > 0 && i < |entries[key].ttlOffsets|
    requires IsKey(q.key) && entries[key].nameLen == |q.key|
    ensures var e := entries[key];
            PositiveAt(entries, key, q, e.ttlOffsets[i])
            <==> Outlives(Be32(e.wire, e.ttlOffsets[i]), e.insertedAt, e.ttl)
  {
    var e := entries[key];
    var off, now := e.ttlOffsets[i], LastFresh(e.insertedAt, e.ttl);
    if Outlives(Be32(e.wire, off), e.insertedAt, e.ttl) {
      forall c: Query, t: u32, opt: Option<ReplyOpt>, reply: seq<byte>
        | (opt.Some? ==> OptOk(opt.value)) && ServedFresh(entries, key, c, t, opt, reply)
        ensures off + 4 <= |reply| && Be32(reply, off) >= 1
      {
        OutlivedPositive(entries, key, i, c, t, opt, reply);
      }
    } else {
      var c, reply := LastServed(entries, key, q);
      ServedField(entries, key, i, c, now, None, reply);
      OutlivingPositive(Be32(e.wire, off), e.insertedAt, e.ttl, now);
      assert !PositiveAt(entries, key, q, off);
    }
  }

  /** The part of a lifetime that no answer bounds: the least lifetime of a positive reply, the
      whole lifetime of a denial. */
  function Unbounded(s: Settings, info: Info): u32
    requires info.rcode == RCODE_NOERROR || info.negativeTtl.Some?
  {
    if info.rcode == RCODE_NOERROR then s.minTtl
    else if info.negativeTtl.value < s.negativeMaxTtl then info.negativeTtl.value
    else s.negativeMaxTtl
  }

  lemma AnswerAtLeast(msg: seq<byte>, offs: seq<nat>, n: nat, m: Option<u32>, i: nat)
    requires n <= |offs| && (forall k :: 0 <= k < n ==> offs[k] + 4 <= |msg|) && LeastTtl(msg, offs, n, m) && i < n
    ensures m.Some? && m.value <= Be32(msg, offs[i])
  {
    assert m.value <= Capped(TtlAt(msg, offs[i]));
  }

  /** An answer outlives the entry exactly when it outlives what no answer bounds. */
  lemma LifetimeOutlived(s: Settings, info: Info, at: u32, stored: u32)
    requires s.minTtl <= s.maxTtl && LifetimeOf(s, info).Lives? && info.ancount > 0
    requires info.rcode == RCODE_NOERROR ==> info.minTtl.Some? && info.minTtl.value <= stored
    ensures info.rcode == RCODE_NOERROR || info.negativeTtl.Some?
    ensures Outlives(stored, at, LifetimeOf(s, info).ttl) <==> Outlives(stored, at, Unbounded(s, info))
  {
  }

  /** An upstream answer outlives its entry exactly when it outlives what no answer bounds. */
  lemma AnswerOutlives(s: Settings, upstream: seq<byte>, q: Query, at: u32, e: Entry, i: nat)
    requires s.minTtl <= s.maxTtl && Insertion(s, upstream, q, at) == Inserted(e) && i < Be16(upstream, 6)
    ensures var info := WalkResponse(upstream, q).info;
            && (info.rcode == RCODE_NOERROR || info.negativeTtl.Some?)
            && i < |info.ttlOffsets| && info.ttlOffsets[i] + 4 <= |upstream| && EntryOk(e)
            && e.ttl > 0 && e.insertedAt == at && e.nameLen == |q.key| && e.ttlOffsets == info.ttlOffsets
            && Be32(e.wire, e.ttlOffsets[i]) == Be32(upstream, info.ttlOffsets[i])
            && (Outlives(Be32(upstream, info.ttlOffsets[i]), at, e.ttl)
                <==> Outlives(Be32(upstream, info.ttlOffsets[i]), at, Unbounded(s, info)))
  {
    InsertedEntry(s, upstream, q, at);
    WalkedOk(upstream, q);
    var info := WalkResponse(upstream, q).info;
    EntryFrame(upstream, q, at, e.ttl, e.staleDeadline);
    AnswerAtLeast(upstream, info.ttlOffsets, Be16(upstream, 6), info.minTtl, i);
    LifetimeOutlived(s, info, at, Be32(upstream, info.ttlOffsets[i]));
  }

  /** The question of a cached reply is a key. */
  lemma CachedKey(s: Settings, upstream: seq<byte>, q: Query, at: u32)
    requires Insertion(s, upstream, q, at).Inserted?
    ensures IsKey(q.key)
  {
    InsertedEntry(s, upstream, q, at);
    WalkedOk(upstream, q);
    ReadNameYieldsKey(upstream, HEADER_LEN, false);
  }

  /** An answer's TTL is positive in every whole reply served while its entry is fresh exactly when it
      outlives the minimum setting or, beside a denial, the SOA's lifetime under its own setting. */
  lemma FreshAnswerExact(s: Settings, upstream: seq<byte>, q: Query, at: u32, entries: map<CacheKey, Entry>,
                         key: CacheKey, i: nat)
    requires s.minTtl <= s.maxTtl && key in entries && Insertion(s, upstream, q, at) == Inserted(entries[key])
    requires i < Be16(upstream, 6)
    ensures var info := WalkResponse(upstream, q).info;
            && (info.rcode == RCODE_NOERROR || info.negativeTtl.Some?)
            && i < |info.ttlOffsets| && info.ttlOffsets[i] + 4 <= |upstream|
            && (PositiveAt(entries, key, q, info.ttlOffsets[i])
                <==> Outlives(Be32(upstream, info.ttlOffsets[i]), at, Unbounded(s, info)))
  {
    AnswerOutlives(s, upstream, q, at, entries[key], i);
    CachedKey(s, upstream, q, at);
    FieldPositive(entries, key, q, i);
  }

  predicate AllOutlive(msg: seq<byte>, offs: seq<nat>, n: nat, at: u32, ttl: u32)
    requires n <= |offs| && forall i :: 0 <= i < n ==> offs[i] + 4 <= |msg|
  {
    forall i :: 0 <= i < n ==> Outlives(Be32(msg, offs[i]), at, ttl)
  }

  ghost predicate AllPositive(entries: map<CacheKey, Entry>, key: CacheKey, q: Query, offs: seq<nat>, n: nat)
    requires n <= |offs|
  {
    forall i :: 0 <= i < n ==> PositiveAt(entries, key, q, offs[i])
  }

  /** Where the answers' TTL fields stand. */
  lemma AnswersPlace(s: Settings, upstream: seq<byte>, q: Query, at: u32)
    requires Insertion(s, upstream, q, at).Inserted?
    ensures var info := WalkResponse(upstream, q).info;
            && Be16(upstream, 6) <= |info.ttlOffsets| && (info.rcode == RCODE_NOERROR || info.negativeTtl.Some?)
            && forall i :: 0 <= i < Be16(upstream, 6) ==> info.ttlOffsets[i] + 4 <= |upstream|
  {
    InsertedEntry(s, upstream, q, at);
    WalkedOk(upstream, q);
  }

  /** With `min_ttl` 0, the answers of a cached reply are served with positive TTLs while it is fresh
      exactly when it is no denial or they all outlive the SOA's lifetime. */
  lemma FreshAnswersExact(s: Settings, upstream: seq<byte>, q: Query, at: u32, entries: map<CacheKey, Entry>,
                          key: CacheKey)
    requires s.minTtl == 0 && key in entries && Insertion(s, upstream, q, at) == Inserted(entries[key])
    ensures var info := WalkResponse(upstream, q).info;
            && Be16(upstream, 6) <= |info.ttlOffsets| && (info.rcode == RCODE_NOERROR || info.negativeTtl.Some?)
            && (forall i :: 0 <= i < Be16(upstream, 6) ==> info.ttlOffsets[i] + 4 <= |upstream|)
            && (AllPositive(entries, key, q, info.ttlOffsets, Be16(upstream, 6)) <==>
                || info.rcode == RCODE_NOERROR
                || AllOutlive(upstream, info.ttlOffsets, Be16(upstream, 6), at, Unbounded(s, info)))
  {
    AnswersPlace(s, upstream, q, at);
    var info, n := WalkResponse(upstream, q).info, Be16(upstream, 6);
    forall i | 0 <= i < n
      ensures PositiveAt(entries, key, q, info.ttlOffsets[i])
              <==> info.rcode == RCODE_NOERROR || Outlives(Be32(upstream, info.ttlOffsets[i]), at, Unbounded(s, info))
    {
      FreshAnswerExact(s, upstream, q, at, entries, key, i);
      PositiveAnswer(s, upstream, q, at, i);
    }
    AllExact(upstream, info.ttlOffsets, n, at, Unbounded(s, info), entries, key, q, info.rcode == RCODE_NOERROR);
  }

  lemma AllExact(msg: seq<byte>, offs: seq<nat>, n: nat, at: u32, ttl: u32, entries: map<CacheKey, Entry>,
                 key: CacheKey, q: Query, plain: bool)
    requires n <= |offs| && forall i :: 0 <= i < n ==> offs[i] + 4 <= |msg|
    requires forall i :: 0 <= i < n ==>
               (PositiveAt(entries, key, q, offs[i]) <==> plain || Outlives(Be32(msg, offs[i]), at, ttl))
    ensures AllPositive(entries, key, q, offs, n) <==> plain || AllOutlive(msg, offs, n, at, ttl)
  {
  }

  /** The answers of a cached NOERROR reply have positive TTLs. */
  lemma PositiveAnswer(s: Settings, upstream: seq<byte>, q: Query, at: u32, i: nat)
    requires Insertion(s, upstream, q, at).Inserted? && i < Be16(upstream, 6)
    ensures var info := WalkResponse(upstream, q).info;
            && i < |info.ttlOffsets| && info.ttlOffsets[i] + 4 <= |upstream|
            && (info.rcode == RCODE_NOERROR ==> Be32(upstream, info.ttlOffsets[i]) >= 1)
  {
    InsertedEntry(s, upstream, q, at);
    WalkedOk(upstream, q);
    var info := WalkResponse(upstream, q).info;
    AnswerAtLeast(upstream, info.ttlOffsets, Be16(upstream, 6), info.minTtl, i);
  }

  /** With `min_ttl` 0, every answer of a NOERROR reply is served with a TTL of at least 1 while fresh. */
  lemma FreshAnswersPositive(s: Settings, upstream: seq<byte>, q: Query, at: u32, entries: map<CacheKey, Entry>,
                             key: CacheKey, c: Query, now: u32, opt: Option<ReplyOpt>, reply: seq<byte>, i: nat)
    requires s.minTtl == 0 && key in entries && Insertion(s, upstream, q, at) == Inserted(entries[key])
    requires WalkResponse(upstream, q).info.rcode == RCODE_NOERROR && i < Be16(upstream, 6)
    requires (opt.Some? ==> OptOk(opt.value)) && ServedFresh(entries, key, c, now, opt, reply)
    ensures var offs := WalkResponse(upstream, q).info.ttlOffsets;
            i < |offs| && offs[i] + 4 <= |reply| && Be32(reply, offs[i]) >= 1
  {
    AnswerOutlives(s, upstream, q, at, entries[key], i);
    PositiveAnswer(s, upstream, q, at, i);
    OutlivedPositive(entries, key, i, c, now, opt, reply);
  }

  // ----- a denied name with an answer

  /** NXDOMAIN for the root with one answer of TTL 0 and a SOA that allows one second: flags, one
      question, one answer of type A, one SOA, all names the root. */
  function DeniedWithAnswer(): (m: seq<byte>)
    ensures |m| == 61 && forall k :: 0 <= k < 61 ==> m[k] == DeniedOctet(k)
  {
    seq(61, k => DeniedOctet(k))
  }

  function DeniedOctet(k: int): byte {
    if k == 2 then 0x81
    else if k == 3 then 0x83
    else if k in {5, 7, 9, 14, 16, 19, 21, 32, 36, 60} then 1
    else if k == 30 then 6
    else if k == 38 then 22
    else 0
  }

  /** The octets of it that matter: question, counts, two records, the SOA's last field. */
  predicate Denied(m: seq<byte>) {
    && |m| == 61 && m[2] == 0x81 && m[3] == 0x83 && Be16(m, 4) == 1 && Be16(m, 6) == 1 && Be16(m, 8) == 1
    && Be16(m, 10) == 0
    && m[12] == 0 && Be16(m, 13) == 1 && Be16(m, 15) == 1
    && m[17] == 0 && Be16(m, 18) == 1 && Be32(m, 22) == 0 && Be16(m, 26) == 0
    && m[28] == 0 && Be16(m, 29) == 6 && Be32(m, 33) == 1 && Be16(m, 37) == 22
    && m[39] == 0 && m[40] == 0 && Be32(m, 57) == 1
  }

  lemma DeniedAnswer(m: seq<byte>)
    requires Denied(m)
    ensures QuestionEnd(m, [0], 1, 1) == Some(17)
    ensures WalkSection(m, 0, true, 1, Begin(m, 17))
            == Some(Progress(Info(3, false, Some(0), None, [22], None, [], 1), 28))
  {
    RootReads(m, 12, false);
    RootReads(m, 17, true);
    var f, start := Frame(17, 18, 28), Begin(m, 17);
    var one := Progress(Info(3, false, Some(0), None, [22], None, [], 1), 28);
    assert FrameAt(m, 17) == Some(f);
    assert [] + [22] == [22];
    assert Take(m, 0, true, start.info, f) == Some(one.info);
    assert WalkSection(m, 0, true, 0, one) == Some(one);
  }

  lemma DeniedSoa(m: seq<byte>, one: Info)
    requires Denied(m) && one == Info(3, false, Some(0), None, [22], None, [], 1)
    ensures WalkSection(m, 1, true, 1, Progress(one, 28))
            == Some(Progress(one.(negativeTtl := Some(1), ttlOffsets := [22, 33]), 61))
  {
    RootReads(m, 28, true);
    RootReads(m, 39, true);
    RootReads(m, 40, true);
    var f, two := Frame(28, 29, 61), one.(negativeTtl := Some(1), ttlOffsets := [22, 33]);
    assert FrameAt(m, 28) == Some(f);
    assert [22] + [33] == [22, 33];
    assert Take(m, 1, true, one, f) == Some(two);
    assert WalkSection(m, 1, true, 0, Progress(two, 61)) == Some(Progress(two, 61));
  }

  lemma DeniedWalks(m: seq<byte>)
    requires Denied(m)
    ensures WalkResponse(m, RootQuery()) == Walked(Info(3, false, Some(0), Some(1), [22, 33], None, [], 1))
  {
    var one := Info(3, false, Some(0), None, [22], None, [], 1);
    var two := Progress(one.(negativeTtl := Some(1), ttlOffsets := [22, 33]), 61);
    DeniedAnswer(m);
    DeniedSoa(m, one);
    assert Negative(m);
    assert WalkSection(m, 2, true, 0, two) == Some(two);
    assert Sections(m, 3, two) == Some(two);
    assert Sections(m, 2, two) == Some(two);
    assert Sections(m, 1, Progress(one, 28)) == Some(two);
    assert Sections(m, 0, Begin(m, 17)) == Some(two);
  }

  lemma DeniedInserted(m: seq<byte>, at: u32)
    requires Denied(m)
    ensures var r := Insertion(Settings(0, 86400, 3600, 60), m, RootQuery(), at);
            r.Inserted? && r.entry.ttl == 1 && r.entry.ttlOffsets == [22, 33]
  {
    DeniedWalks(m);
  }

  lemma DeniedHolds()
    ensures Denied(DeniedWithAnswer())
  {
  }

  /** A cached reply is served at once with the TTLs it came with. */
  lemma ServedAtOnce(s: Settings, upstream: seq<byte>, q: Query, at: u32, e: Entry, key: CacheKey)
    returns (reply: seq<byte>)
    requires Insertion(s, upstream, q, at) == Inserted(e) && |q.qname| == |q.key| && at < U32_MAX
    ensures ServedFresh(map[key := e], key, q, at, None, reply) && WalkResponse(upstream, q).Walked?
    ensures var offs := WalkResponse(upstream, q).info.ttlOffsets;
            forall i :: 0 <= i < |offs| ==>
              && offs[i] + 4 <= |reply| && offs[i] + 4 <= |upstream|
              && Be32(reply, offs[i]) == Be32(upstream, offs[i])
  {
    InsertedEntry(s, upstream, q, at);
    reply := Servable(e, q, Elapsed(at, at), Fresh, None);
    EntryRelays(s, upstream, q, at, e, q, Elapsed(at, at), Fresh, None, reply);
    RelayedAtZero(upstream, WalkResponse(upstream, q).info, |e.wire|, q, None, reply);
  }

  lemma DeniedServed(m: seq<byte>, s: Settings, q: Query, at: u32, e: Entry) returns (reply: seq<byte>)
    requires Denied(m) && q == RootQuery() && at < U32_MAX && Insertion(s, m, q, at) == Inserted(e)
    ensures WalkResponse(m, q).Walked? && WalkResponse(m, q).info.ttlOffsets == [22, 33]
    ensures ServedFresh(map[KeyFor(q, 0) := e], KeyFor(q, 0), q, at, None, reply)
    ensures |reply| > 26 && Be32(reply, 22) == 0
  {
    DeniedWalks(m);
    reply := ServedAtOnce(s, m, q, at, e, KeyFor(q, 0));
    assert WalkResponse(m, q).info.ttlOffsets[0] == 22;
  }

  /** A cached NXDOMAIN takes its lifetime from the SOA alone, so an answer beside it may be served
      with TTL 0 while the entry is fresh. */
  lemma DeniedAnswerAtZero(at: u32, s: Settings, q: Query) returns (e: Entry, reply: seq<byte>)
    requires at < U32_MAX && s == Settings(0, 86400, 3600, 60) && q == RootQuery()
    ensures Insertion(s, DeniedWithAnswer(), q, at) == Inserted(e)
    ensures WalkResponse(DeniedWithAnswer(), q).Walked?
            && WalkResponse(DeniedWithAnswer(), q).info.ttlOffsets == [22, 33]
    ensures ServedFresh(map[KeyFor(q, 0) := e], KeyFor(q, 0), q, at, None, reply)
    ensures |reply| > 26 && Be32(reply, 22) == 0
  {
    var m := DeniedWithAnswer();
    DeniedHolds();
    DeniedInserted(m, at);
    e := Insertion(s, m, q, at).entry;
    reply := DeniedServed(m, s, q, at, e);
  }
}
