/** Response streams (`tsig.rs`): chained MACs, unsigned messages in between, and their verifier. */
module TsigStream {
  import opened Common
  import opened Bytes
  import opened DnsNames
  import opened Tsig
  import opened TsigRoundTrip
  import opened TsigAuth

  const MAX_UNSIGNED: nat := 99

  // ----- where a stream message's TSIG RR starts

  function TsigOffset(b: seq<byte>): (r: Option<nat>)
    ensures r.Some? ==> HEADER_LEN <= r.value <= |b| && Count(b, 10) > 0
  {
    if |b| < HEADER_LEN || Count(b, 10) == 0 then None else
    match Walk(b)
    case None => None
    case Some((q, rs)) => RecordsStart(b, q, |rs|); LastTsig(rs)
  }

  /** The record pass of `tsig_offset`, which only remembers the last record. */
  method LastRecord(b: seq<byte>, q: nat, total: nat) returns (r: Option<Rr>)
    requires total > 0
    ensures Records(b, q, total).None? ==> r.None?
    ensures Records(b, q, total).Some? ==> r == Some(Records(b, q, total).value[total - 1]) && r.value.end <= |b|
  {
    var end, n := q, 0;
    r := None;
    ghost var rs: seq<Rr> := [];
    ScanStarts(b, q, total);
    while n < total
      invariant 0 <= n <= total && Scanned(b, q, total, rs, end, n)
      invariant n > 0 ==> r == Some(rs[n - 1]) && rs[n - 1].end <= |b|
    {
      var next := ReadRecord(b, end);
      if next.None? {
        return None;
      }
      r := next;
      ScanNext(b, q, total, rs, end, n, next.value);
      end := next.value.end;
      rs := rs + [next.value];
      n := n + 1;
    }
    ScanEnds(b, q, total, rs, end);
  }

  method Offset(b: seq<byte>) returns (r: Option<nat>)
    ensures r == TsigOffset(b)
  {
    if |b| < HEADER_LEN || Count(b, 10) == 0 {
      return None;
    }
    var q := SkipQuestions(b, HEADER_LEN, Count(b, 4));
    if q.None? {
      return None;
    }
    var last := LastRecord(b, q.value, Count(b, 6) as int + Count(b, 8) as int + Count(b, 10) as int);
    return if last.Some? && last.value.rtype == TYPE_TSIG then Some(last.value.start) else None;
  }

  // ----- the signing side

  function ResponseInput(prior: seq<byte>, unsigned: seq<byte>, message: seq<byte>, vars: seq<byte>): seq<byte> {
    (if prior == [] then [] else U16(Low16(|prior|)) + prior) + unsigned + message + vars
  }

  function ResponseMac(hmac: Hmac, k: Key, v: Chain, message: seq<byte>, time: nat, fudge: u16, error: u16,
                       other: seq<byte>): seq<byte>
    requires ValidName(k.name)
  {
    Mac(hmac, k, ResponseInput(v.prior, v.unsigned, message, Variables(k, time, fudge, error, other, !v.first)))
  }

  /** What both ends carry from message to message. */
  datatype Chain = Chain(prior: seq<byte>, first: bool, unsigned: seq<byte>, count: nat)

  method SignResponse(p: Packet, hmac: Hmac, k: Key, time: nat, prior: seq<byte>, first: bool, unsigned: seq<byte>)
    returns (mac: seq<byte>)
    requires |p.wire| >= HEADER_LEN && ValidName(k.name)
    modifies p
    ensures mac == ResponseMac(hmac, k, Chain(prior, first, unsigned, 0), old(p.wire), time, FUDGE, 0, [])
    ensures p.wire == Signed(old(p.wire), k, time, mac)
  {
    var vars := Variables(k, time, FUDGE, 0, [], !first);
    var input: seq<byte> := [];
    if prior != [] {
      input := U16(|prior| % 0x1_0000) + prior;
    }
    input := input + unsigned + p.wire + vars;
    mac := Mac(hmac, k, input);
    p.Append(NameWire(k.name), NameWire(AlgName(k.alg)), time, mac, Be16(p.wire, 0), 0, []);
  }

  /** One message of a stream as sent: signed at `time` and relayed under `id`, or left bare.
      `seen` is the receiver's clock. */
  datatype Item = Item(wire: seq<byte>, signed: bool, time: nat, id: u16, seen: nat)

  /** The sender's step: its next chain state and what reaches the receiver. */
  function Send(hmac: Hmac, k: Key, v: Chain, m: Item): (Chain, seq<byte>)
    requires ValidName(k.name) && |m.wire| >= HEADER_LEN
  {
    if m.signed then
      var mac := ResponseMac(hmac, k, v, m.wire, m.time, FUDGE, 0, []);
      (Chain(mac, false, [], 0), Splice(Signed(m.wire, k, m.time, mac), 0, U16(m.id)))
    else (v.(unsigned := v.unsigned + m.wire, count := v.count + 1), m.wire)
  }

  /** Signing leaves the ID in place. */
  lemma SameId(wire: seq<byte>, k: Key, time: nat, mac: seq<byte>)
    requires |wire| >= HEADER_LEN && ValidName(k.name)
    ensures Splice(Signed(wire, k, time, mac), 0, U16(Be16(wire, 0))) == Signed(wire, k, time, mac)
  {
    IdRewritten(Signed(wire, k, time, mac), Be16(wire, 0));
  }

  lemma IdRewritten(b: seq<byte>, id: u16)
    requires |b| >= 2 && Be16(b, 0) == id
    ensures Splice(b, 0, U16(id)) == b
  {
    var s := U16(id);
    assert s[0] == b[0] && s[1] == b[1];
  }

  class StreamSigner {
    const hmac: Hmac
    const key: Key
    var prevMac: seq<byte>
    var first: bool

    constructor (hmac: Hmac, key: Key, requestMac: seq<byte>)
      ensures this.hmac == hmac && this.key == key && View() == Chain(requestMac, true, [], 0)
    {
      this.hmac, this.key, this.prevMac, this.first := hmac, key, requestMac, true;
    }

    function View(): Chain
      reads this
    {
      Chain(prevMac, first, [], 0)
    }

    /** Signs in place; the packet is what `Send` delivers under its own ID. */
    method Sign(p: Packet, now: nat)
      requires |p.wire| >= HEADER_LEN && ValidName(key.name)
      modifies this, p
      ensures (View(), p.wire) == Send(hmac, key, old(View()), Item(old(p.wire), true, now, Be16(old(p.wire), 0), now))
    {
      ghost var before := p.wire;
      prevMac := SignResponse(p, hmac, key, now, prevMac, first, []);
      first := false;
      SameId(before, key, now, prevMac);
    }
  }

  // ----- the verifying side

  datatype StreamError = Missing | TooManyUnsigned | Unparsed | WrongKey | WrongMac | WrongTime

  function Reported(error: u16): Option<StreamError> {
    if error == 0 then None
    else if error == 16 then Some(WrongMac)
    else if error == 17 then Some(WrongKey)
    else if error == 18 then Some(WrongTime)
    else Some(Unparsed)
  }

  datatype Checked = Refused(error: StreamError) | Continues(mac: seq<byte>)

  /** A parsed TSIG RR against the chain: key names, reported error, MAC, time, in that order. */
  function Check(hmac: Hmac, k: Key, v: Chain, message: seq<byte>, t: TsigRecord, now: nat): Checked
    requires ValidName(k.name) && ValidName(t.keyName) && ValidName(t.algName)
  {
    if NameWire(t.keyName) != NameWire(k.name) || NameWire(t.algName) != NameWire(AlgName(k.alg)) then Refused(WrongKey)
    else if Reported(t.error).Some? then Refused(Reported(t.error).value)
    else if ResponseMac(hmac, k, v, message, t.timeSigned, t.fudge, t.error, t.other) != t.mac then Refused(WrongMac)
    else if !InTime(now, t.timeSigned, t.fudge) then Refused(WrongTime)
    else Continues(t.mac)
  }

  function CheckAt(hmac: Hmac, k: Key, v: Chain, wire: seq<byte>, off: nat, now: nat): Checked
    requires ValidName(k.name) && HEADER_LEN <= off <= |wire| && Count(wire, 10) > 0
  {
    match ParseTsig(wire, off)
    case None => Refused(Unparsed)
    case Some(t) => Check(hmac, k, v, Stripped(wire, off, t.originalId), t, now)
  }

  function VerifyStep(hmac: Hmac, k: Key, v: Chain, wire: seq<byte>, now: nat): (Chain, Option<StreamError>)
    requires ValidName(k.name)
  {
    match TsigOffset(wire)
    case None =>
      if v.first then (v, Some(Missing)) else
      var w := v.(unsigned := v.unsigned + wire, count := v.count + 1);
      (w, if w.count > MAX_UNSIGNED then Some(TooManyUnsigned) else None)
    case Some(off) =>
      match CheckAt(hmac, k, v, wire, off, now)
      case Refused(error) => (v, Some(error))
      case Continues(mac) => (Chain(mac, false, [], 0), None)
  }

  function FinishError(v: Chain): Option<StreamError> {
    if v.first || v.count > 0 then Some(Missing) else None
  }

  class TsigVerifier {
    const hmac: Hmac
    const key: Key
    var priorMac: seq<byte>
    var first: bool
    var unsigned: seq<byte>
    var unsignedCount: nat

    constructor (hmac: Hmac, key: Key, requestMac: seq<byte>)
      ensures this.hmac == hmac && this.key == key && View() == Chain(requestMac, true, [], 0)
    {
      this.hmac, this.key, this.priorMac, this.first := hmac, key, requestMac, true;
      unsigned, unsignedCount := [], 0;
    }

    function View(): Chain
      reads this
    {
      Chain(priorMac, first, unsigned, unsignedCount)
    }

    method CheckTsig(message: seq<byte>, t: TsigRecord, now: nat) returns (r: Option<StreamError>)
      requires ValidName(key.name) && ValidName(t.keyName) && ValidName(t.algName)
      ensures r == match Check(hmac, key, View(), message, t, now)
                   case Refused(error) => Some(error)
                   case Continues(_) => None
      ensures r.None? ==> Check(hmac, key, View(), message, t, now) == Continues(t.mac)
    {
      if NameWire(t.keyName) != NameWire(key.name) || NameWire(t.algName) != NameWire(AlgName(key.alg)) {
        return Some(WrongKey);
      }
      if t.error != 0 {
        return Reported(t.error);
      }
      var vars := Variables(key, t.timeSigned, t.fudge, t.error, t.other, !first);
      if Mac(hmac, key, ResponseInput(priorMac, unsigned, message, vars)) != t.mac {
        return Some(WrongMac);
      }
      return if InTime(now, t.timeSigned, t.fudge) then None else Some(WrongTime);
    }

    method Verify(wire: seq<byte>, now: nat) returns (r: Option<StreamError>)
      requires ValidName(key.name)
      modifies this
      ensures (View(), r) == VerifyStep(hmac, key, old(View()), wire, now)
    {
      var off := Offset(wire);
      if off.None? {
        if first {
          return Some(Missing);
        }
        unsigned := unsigned + wire;
        unsignedCount := unsignedCount + 1;
        return if unsignedCount > MAX_UNSIGNED then Some(TooManyUnsigned) else None;
      }
      var t := ParseTsig(wire, off.value);
      if t.None? {
        return Some(Unparsed);
      }
      var message := Restored(wire, off.value, t.value.originalId);
      r := CheckTsig(message, t.value, now);
      if r.None? {
        priorMac, first, unsigned, unsignedCount := t.value.mac, false, [], 0;
      }
    }

    /** The message as it was signed: cut before the TSIG RR, with its original ID and ARCOUNT. */
    static method Restored(wire: seq<byte>, off: nat, id: u16) returns (message: seq<byte>)
      requires HEADER_LEN <= off <= |wire| && Count(wire, 10) > 0
      ensures message == Stripped(wire, off, id)
    {
      message := wire[..off];
      message := U16(id) + message[2..];
      message := message[..10] + U16(Be16(wire, 10) - 1) + message[12..];
      assert message == Stripped(wire, off, id);
    }

    method Finish() returns (r: Option<StreamError>)
      ensures r == FinishError(View())
    {
      r := if first || unsignedCount > 0 then Some(Missing) else None;
    }
  }

  // ----- whole streams

  /** Messages fit for a stream: signed ones walk to their end without a TSIG and leave ARCOUNT
      room, bare ones carry no TSIG. */
  ghost predicate Sendable(m: Item) {
    && |m.wire| >= HEADER_LEN
    && (if m.signed then Plain(m.wire) else TsigOffset(m.wire).None?)
  }

  predicate OnTime(m: Item) {
    m.signed ==> m.seen <= m.time % 0x1_0000_0000_0000 + 300 && m.time % 0x1_0000_0000_0000 <= m.seen + 300
  }

  ghost predicate AllSendable(ms: seq<Item>) {
    forall i :: 0 <= i < |ms| ==> Sendable(ms[i])
  }

  /** The first refusal when the receiver gets the items as the sender sends them and then finishes. */
  ghost function Received(hmac: Hmac, k: Key, sender: Chain, v: Chain, ms: seq<Item>): Option<StreamError>
    requires ValidName(k.name) && AllSendable(ms)
    decreases |ms|
  {
    if ms == [] then FinishError(v) else
    assert Sendable(ms[0]);
    var (sent, wire) := Send(hmac, k, sender, ms[0]);
    var (w, refused) := VerifyStep(hmac, k, v, wire, ms[0].seen);
    if refused.Some? then refused else Received(hmac, k, sent, w, ms[1..])
  }

  /** What reaches the receiver parses back to the written fields and restores the signed message. */
  lemma SignedArrives(k: Key, m: Item, mac: seq<byte>)
    requires ValidName(k.name) && |m.wire| >= HEADER_LEN && Plain(m.wire) && |mac| == DigestLen(k.alg)
    ensures var wire := Splice(Signed(m.wire, k, m.time, mac), 0, U16(m.id));
            && TsigOffset(wire) == Some(|m.wire|)
            && ParseTsig(wire, |m.wire|) == Some(RecordOf(FieldsOf(m.wire, k, m.time, mac), |m.wire|))
            && Stripped(wire, |m.wire|, Be16(m.wire, 0)) == m.wire
    ensures ValidName(Lower(k.name))
  {
    SignedFound(m.wire, k, m.time, mac, m.id);
  }

  /** One signed step keeps both ends in the same state unless the clock refuses it. */
  lemma SignedStep(hmac: Hmac, k: Key, v: Chain, m: Item)
    requires FullLength(hmac) && ValidName(k.name) && Sendable(m) && m.signed
    ensures var (sent, wire) := Send(hmac, k, v, m);
            VerifyStep(hmac, k, v, wire, m.seen) == if OnTime(m) then (sent, None) else (v, Some(WrongTime))
  {
    var mac := ResponseMac(hmac, k, v, m.wire, m.time, FUDGE, 0, []);
    SignedArrives(k, m, mac);
    SignedChecks(hmac, k, v, m, mac);
  }

  lemma SignedChecks(hmac: Hmac, k: Key, v: Chain, m: Item, mac: seq<byte>)
    requires ValidName(k.name) && |m.wire| >= HEADER_LEN && m.signed && ValidName(Lower(k.name))
    requires mac == ResponseMac(hmac, k, v, m.wire, m.time, FUDGE, 0, [])
    ensures Check(hmac, k, v, m.wire, RecordOf(FieldsOf(m.wire, k, m.time, mac), |m.wire|), m.seen)
            == if OnTime(m) then Continues(mac) else Refused(WrongTime)
  {
    LowerTwice(k.name);
    TimeMod(k, m.time, FUDGE, 0, [], !v.first);
    OnTimeIs(m);
  }

  lemma OnTimeIs(m: Item)
    requires m.signed
    ensures OnTime(m) <==> InTime(m.seen, m.time % TIME_RANGE, FUDGE)
  {
  }

  /** Acceptance by schedule and clocks alone, from a state with `count` bare messages pending. */
  predicate Acceptable(first: bool, count: nat, ms: seq<Item>)
    decreases |ms|
  {
    if ms == [] then !first && count == 0
    else if ms[0].signed then OnTime(ms[0]) && Acceptable(false, 0, ms[1..])
    else !first && count < MAX_UNSIGNED && Acceptable(first, count + 1, ms[1..])
  }

  lemma {:induction false} ReceivedBySchedule(hmac: Hmac, k: Key, v: Chain, ms: seq<Item>)
    requires FullLength(hmac) && ValidName(k.name) && AllSendable(ms)
    requires v.count <= MAX_UNSIGNED
    ensures Received(hmac, k, v, v, ms).None? <==> Acceptable(v.first, v.count, ms)
    decreases |ms|
  {
    if ms != [] {
      assert Sendable(ms[0]);
      var (sent, wire) := Send(hmac, k, v, ms[0]);
      if ms[0].signed {
        SignedStep(hmac, k, v, ms[0]);
        ReceivedBySchedule(hmac, k, sent, ms[1..]);
      } else if !v.first && v.count < MAX_UNSIGNED {
        ReceivedBySchedule(hmac, k, sent, ms[1..]);
      }
    }
  }

  /** A hundred bare messages from `i` on. */
  predicate LongGap(ms: seq<Item>, i: nat) {
    i + 100 <= |ms| && forall j :: i <= j < i + 100 ==> !ms[j].signed
  }

  predicate NoLongGap(ms: seq<Item>) {
    forall i :: 0 <= i < |ms| ==> !LongGap(ms, i)
  }

  /** The gap at the front, continuing `count` bare messages. */
  predicate LongFront(count: nat, ms: seq<Item>) {
    count + |ms| > MAX_UNSIGNED && forall j :: 0 <= j < |ms| && count + j <= MAX_UNSIGNED ==> !ms[j].signed
  }

  predicate AllOnTime(ms: seq<Item>) {
    forall i :: 0 <= i < |ms| ==> OnTime(ms[i])
  }

  lemma GapsAfter(ms: seq<Item>)
    requires ms != []
    ensures NoLongGap(ms) <==> !LongGap(ms, 0) && NoLongGap(ms[1..])
    ensures AllOnTime(ms) <==> OnTime(ms[0]) && AllOnTime(ms[1..])
  {
    var rest := ms[1..];
    assert forall i :: 0 <= i < |rest| ==> rest[i] == ms[i + 1];
    forall i | 0 <= i < |rest|
      ensures LongGap(rest, i) == LongGap(ms, i + 1)
    {
      if LongGap(rest, i) {
        assert forall j :: i + 1 <= j <= i + 1 + MAX_UNSIGNED ==> ms[j] == rest[j - 1];
      }
    }
    assert forall i :: 0 < i < |ms| ==> LongGap(ms, i) == LongGap(rest, i - 1);
    assert forall i :: 0 < i < |ms| ==> OnTime(ms[i]) == OnTime(rest[i - 1]);
  }

  lemma FrontAfter(count: nat, ms: seq<Item>)
    requires ms != [] && !ms[0].signed && count < MAX_UNSIGNED
    ensures LongFront(count, ms) == LongFront(count + 1, ms[1..])
    ensures LongGap(ms, 0) ==> LongFront(count, ms)
  {
    var rest := ms[1..];
    assert forall j :: 0 <= j < |rest| ==> rest[j] == ms[j + 1];
    if LongFront(count + 1, rest) {
      assert forall j :: 0 < j < |ms| && count + j <= MAX_UNSIGNED ==> ms[j] == rest[j - 1];
    }
  }

  lemma {:induction false} AcceptableMeaning(count: nat, ms: seq<Item>)
    requires count <= MAX_UNSIGNED
    ensures Acceptable(false, count, ms) <==>
            && (if ms == [] then count == 0 else ms[|ms| - 1].signed)
            && AllOnTime(ms) && NoLongGap(ms) && !LongFront(count, ms)
    decreases |ms|
  {
    if ms != [] {
      GapsAfter(ms);
      if ms[0].signed {
        AcceptableMeaning(0, ms[1..]);
        assert LongFront(0, ms[1..]) ==> LongGap(ms[1..], 0);
        assert !LongGap(ms, 0);
      } else if count < MAX_UNSIGNED {
        FrontAfter(count, ms);
        AcceptableMeaning(count + 1, ms[1..]);
      }
    }
  }

  lemma AcceptableFromStart(ms: seq<Item>)
    ensures Acceptable(true, 0, ms) <==>
            ms != [] && ms[0].signed && ms[|ms| - 1].signed && AllOnTime(ms) && NoLongGap(ms)
  {
    if ms != [] && ms[0].signed {
      GapsAfter(ms);
      AcceptableMeaning(0, ms[1..]);
      assert LongFront(0, ms[1..]) ==> LongGap(ms[1..], 0);
      assert !LongGap(ms, 0);
    }
  }

  /** The whole-stream theorem. From one request MAC, whatever the sender signs and whatever IDs
      the messages arrive under, the receiver accepts every message and the end of the stream
      exactly when the first and the last message are signed, no hundred messages in a row are
      bare, and every signed message arrives within the fudge. */
  lemma StreamAccepted(hmac: Hmac, k: Key, requestMac: seq<byte>, ms: seq<Item>)
    requires FullLength(hmac) && ValidName(k.name) && AllSendable(ms)
    ensures var start := Chain(requestMac, true, [], 0);
            Received(hmac, k, start, start, ms).None? <==>
            ms != [] && ms[0].signed && ms[|ms| - 1].signed && AllOnTime(ms) && NoLongGap(ms)
  {
    ReceivedBySchedule(hmac, k, Chain(requestMac, true, [], 0), ms);
    AcceptableFromStart(ms);
  }

  /** `StreamSigner` signs every message, so only clocks can fail its streams. */
  lemma SignedStreamAccepted(hmac: Hmac, k: Key, requestMac: seq<byte>, ms: seq<Item>)
    requires FullLength(hmac) && ValidName(k.name) && AllSendable(ms)
    requires ms != [] && forall i :: 0 <= i < |ms| ==> ms[i].signed
    ensures var start := Chain(requestMac, true, [], 0);
            Received(hmac, k, start, start, ms).None? <==> AllOnTime(ms)
  {
    StreamAccepted(hmac, k, requestMac, ms);
    assert forall i :: 0 <= i < |ms| && LongGap(ms, i) ==> !ms[i].signed;
  }
}
