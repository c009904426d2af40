/** Signing and verifying requests and response streams (`tsig.rs`), over any MAC function. */
module TsigAuth {
  import opened Common
  import opened Bytes
  import opened DnsNames
  import opened Tsig
  import opened TsigRoundTrip

  datatype Alg = HmacSha256 | HmacSha384 | HmacSha512

  function AlgName(a: Alg): (n: Name)
    ensures ValidName(n) && Lower(n) == n
  {
    // "hmac-sha" and the digest size
    var hmac: seq<byte> := [104, 109, 97, 99, 45, 115, 104, 97];
    var digits: seq<byte> := match a
      case HmacSha256 => [50, 53, 54]
      case HmacSha384 => [51, 56, 52]
      case HmacSha512 => [53, 49, 50];
    var text := hmac + digits;
    assert LowerSeq(text) == text;
    assert Lower([text]) == [text];
    assert Encode([text][1..]) == [0];
    [text]
  }

  function DigestLen(a: Alg): nat {
    match a
    case HmacSha256 => 32
    case HmacSha384 => 48
    case HmacSha512 => 64
  }

  /** Times travel in 48 bits. */
  const TIME_RANGE: nat := 0x1_0000_0000_0000

  datatype Key = Key(name: Name, alg: Alg, secret: seq<byte>)

  /** HMAC is any function of algorithm, secret and input that returns a full-length digest. */
  type Hmac = (Alg, seq<byte>, seq<byte>) -> seq<byte>

  ghost predicate FullLength(hmac: Hmac) {
    forall a, s, m :: |hmac(a, s, m)| == DigestLen(a)
  }

  function Mac(hmac: Hmac, k: Key, input: seq<byte>): seq<byte> {
    hmac(k.alg, k.secret, input)
  }

  /** Times, error and other data. */
  function Tail(time: nat, fudge: u16, error: u16, other: seq<byte>): seq<byte> {
    U48(time) + (U16(fudge) + (U16(error) + (U16(Low16(|other|)) + other)))
  }

  /** The TSIG variables of RFC 8945 section 4.3.3, or only the timers of section 5.3.1. */
  function Variables(k: Key, time: nat, fudge: u16, error: u16, other: seq<byte>, timersOnly: bool): seq<byte>
    requires ValidName(k.name)
  {
    if timersOnly then U48(time) + U16(fudge)
    else NameWire(k.name) + (U16(CLASS_ANY) + (U32(0) + (NameWire(AlgName(k.alg)) + Tail(time, fudge, error, other))))
  }

  /** Only the 48 bits that travel in the record are signed. */
  lemma TimeMod(k: Key, time: nat, fudge: u16, error: u16, other: seq<byte>, timersOnly: bool)
    requires ValidName(k.name)
    ensures Variables(k, time % TIME_RANGE, fudge, error, other, timersOnly)
            == Variables(k, time, fudge, error, other, timersOnly)
  {
    U48Mod(time);
  }

  lemma U48Mod(time: nat)
    ensures U48(time % TIME_RANGE) == U48(time)
  {
    ModTwice(time, TIME_RANGE);
  }

  lemma ModTwice(n: nat, m: nat)
    requires m > 0
    ensures n % m % m == n % m
  {
  }

  /** What `append_tsig` writes for key `k`. */
  function Signed(wire: seq<byte>, k: Key, time: nat, mac: seq<byte>): seq<byte>
    requires |wire| >= HEADER_LEN && ValidName(k.name)
  {
    WithTsig(wire, TsigRr(NameWire(k.name), Rdata(NameWire(AlgName(k.alg)), time, mac, Be16(wire, 0), 0, [])))
  }

  function FieldsOf(wire: seq<byte>, k: Key, time: nat, mac: seq<byte>): Fields
    requires |wire| >= HEADER_LEN
  {
    Fields(Lower(k.name), AlgName(k.alg), time, mac, Be16(wire, 0), 0, [])
  }

  lemma SignedWritable(wire: seq<byte>, k: Key, time: nat, mac: seq<byte>)
    requires |wire| >= HEADER_LEN && ValidName(k.name) && |mac| == DigestLen(k.alg)
    ensures ValidName(Lower(k.name)) && Writable(FieldsOf(wire, k, time, mac))
    ensures Signed(wire, k, time, mac) == WithTsig(wire, RrOf(FieldsOf(wire, k, time, mac)))
  {
    EncodeLowerLength(k.name);
    RdataLength(FieldsOf(wire, k, time, mac));
  }

  // ----- requests

  function RequestInput(wire: seq<byte>, k: Key, time: nat, fudge: u16, error: u16, other: seq<byte>): seq<byte>
    requires ValidName(k.name)
  {
    wire + Variables(k, time, fudge, error, other, false)
  }

  method SignRequest(p: Packet, hmac: Hmac, k: Key, time: nat) returns (mac: seq<byte>)
    requires |p.wire| >= HEADER_LEN && ValidName(k.name)
    modifies p
    ensures mac == Mac(hmac, k, RequestInput(old(p.wire), k, time, FUDGE, 0, []))
    ensures p.wire == Signed(old(p.wire), k, time, mac)
  {
    var input := p.wire + Variables(k, time, FUDGE, 0, [], false);
    mac := Mac(hmac, k, input);
    p.Append(NameWire(k.name), NameWire(AlgName(k.alg)), time, mac, Be16(p.wire, 0), 0, []);
  }

  datatype Verdict = Unsigned | SignedBy(key: Key, mac: seq<byte>)
                   | FormErr | BadKey | BadSig | BadTime(key: Key, mac: seq<byte>, time: nat)

  type Ring = map<seq<byte>, Key>

  /** Keys are stored under their lowercase wire name. */
  predicate RingOk(ring: Ring) {
    forall w :: w in ring ==> ValidName(ring[w].name) && NameWire(ring[w].name) == w
  }

  predicate InTime(now: nat, time: nat, fudge: u16) {
    (if now < time then time - now else now - time) <= fudge as int
  }

  /** Section 5.2 of RFC 8945: key, then MAC, then time. */
  function VerifyRequest(msg: seq<byte>, hmac: Hmac, ring: Ring, now: nat): Verdict
    requires RingOk(ring)
  {
    match FindTsig(msg)
    case Malformed => FormErr
    case Absent => Unsigned
    case Present(t) =>
      TsigIsPlaced(msg);
      if NameWire(t.keyName) !in ring then BadKey else
      var k := ring[NameWire(t.keyName)];
      if NameWire(t.algName) != NameWire(AlgName(k.alg)) then BadKey
      else if |t.mac| != DigestLen(k.alg) then BadSig
      else if Mac(hmac, k, RequestInput(Stripped(msg, t.start, t.originalId), k, t.timeSigned, t.fudge, t.error,
                                        t.other)) != t.mac
        then BadSig
      else if !InTime(now, t.timeSigned, t.fudge) then BadTime(k, t.mac, t.timeSigned)
      else SignedBy(k, t.mac)
  }

  lemma {:induction false} RecordsStart(b: seq<byte>, i: nat, n: nat)
    requires Records(b, i, n).Some?
    ensures forall k :: 0 <= k < n ==> i <= Records(b, i, n).value[k].start <= |b|
    decreases n
  {
    if n > 0 {
      RecordsStart(b, RecordAt(b, i).value.end, n - 1);
    }
  }

  /** A TSIG that was found lies past the header, counts in ARCOUNT and carries valid names. */
  lemma TsigIsPlaced(msg: seq<byte>)
    requires FindTsig(msg).Present?
    ensures var t := FindTsig(msg).record;
            && HEADER_LEN <= t.start <= |msg| && Count(msg, 10) > 0 && ValidName(t.keyName) && ValidName(t.algName)
  {
    var (q, rs) := Walk(msg).value;
    RecordsStart(msg, q, |rs|);
    var last := rs[|rs| - 1];
    assert !Misplaced(rs, Count(msg, 10)) && last.rtype == TYPE_TSIG;
    ParsedNames(msg, last.start);
  }

  lemma ParsedNames(b: seq<byte>, off: nat)
    requires ParseTsig(b, off).Some?
    ensures var t := ParseTsig(b, off).value; t.start == off && ValidName(t.keyName) && ValidName(t.algName)
  {
  }

  /** A signed message, whatever its ID became, is found with its fields and restores what was signed. */
  lemma SignedFound(wire: seq<byte>, k: Key, time: nat, mac: seq<byte>, id: u16)
    requires Plain(wire) && ValidName(k.name) && |mac| == DigestLen(k.alg)
    ensures var msg := Splice(Signed(wire, k, time, mac), 0, U16(id));
            && FindTsig(msg) == Present(RecordOf(FieldsOf(wire, k, time, mac), |wire|))
            && Walk(msg).Some? && LastTsig(Walk(msg).value.1) == Some(|wire|) && Count(msg, 10) > 0
            && ParseTsig(msg, |wire|) == Some(RecordOf(FieldsOf(wire, k, time, mac), |wire|))
            && Stripped(msg, |wire|, Be16(wire, 0)) == wire
    ensures ValidName(Lower(k.name))
  {
    var f := FieldsOf(wire, k, time, mac);
    SignedWritable(wire, k, time, mac);
    WithTsigExtends(wire, RrOf(f));
    RelayedExtends(wire, RrOf(f), Signed(wire, k, time, mac), id);
    var msg := Splice(Signed(wire, k, time, mac), 0, U16(id));
    AppendedIsFound(wire, f, msg);
    StrippedRestores(wire, RrOf(f), msg);
  }

  /** Verification of a signed request, whatever its ID became on the way: it succeeds exactly when
      the ring's key of that name has the same algorithm and MAC and the time is within the fudge;
      with the signer's own key only the time can fail it. */
  lemma RequestRoundTrip(wire: seq<byte>, hmac: Hmac, k: Key, time: nat, id: u16, ring: Ring, now: nat)
    requires Plain(wire) && FullLength(hmac) && ValidName(k.name) && RingOk(ring)
    ensures var mac := Mac(hmac, k, RequestInput(wire, k, time, FUDGE, 0, []));
            var msg := Splice(Signed(wire, k, time, mac), 0, U16(id));
            var seen := time % TIME_RANGE;
            VerifyRequest(msg, hmac, ring, now) ==
            if NameWire(k.name) !in ring then BadKey else
            var r := ring[NameWire(k.name)];
            if r.alg != k.alg then BadKey
            else if Mac(hmac, r, RequestInput(wire, k, time, FUDGE, 0, [])) != mac then BadSig
            else if !InTime(now, seen, FUDGE) then BadTime(r, mac, seen)
            else SignedBy(r, mac)
  {
    var mac := Mac(hmac, k, RequestInput(wire, k, time, FUDGE, 0, []));
    var msg := Splice(Signed(wire, k, time, mac), 0, U16(id));
    SignedFound(wire, k, time, mac, id);
    LowerTwice(k.name);
    if NameWire(k.name) in ring {
      var r := ring[NameWire(k.name)];
      AlgNamesDiffer(r.alg, k.alg);
      if r.alg == k.alg {
        SameVariables(r, k, time);
      }
    }
  }

  lemma AlgNamesDiffer(a: Alg, b: Alg)
    ensures NameWire(AlgName(a)) == NameWire(AlgName(b)) <==> a == b
  {
    var x, y := NameWire(AlgName(a)), NameWire(AlgName(b));
    assert Encode(AlgName(a)) == [11] + AlgName(a)[0] + Encode(AlgName(a)[1..]);
    assert Encode(AlgName(b)) == [11] + AlgName(b)[0] + Encode(AlgName(b)[1..]);
    assert x[9] == AlgName(a)[0][8] && x[10] == AlgName(a)[0][9];
    assert y[9] == AlgName(b)[0][8] && y[10] == AlgName(b)[0][9];
  }

  /** Keys of one wire name and algorithm sign the same variables. */
  lemma SameVariables(r: Key, k: Key, time: nat)
    requires ValidName(r.name) && ValidName(k.name) && NameWire(r.name) == NameWire(k.name) && r.alg == k.alg
    ensures Variables(r, time % TIME_RANGE, FUDGE, 0, [], false) == Variables(k, time, FUDGE, 0, [], false)
  {
    TimeMod(k, time, FUDGE, 0, [], false);
  }

  /** A message that walks to its end without a TSIG RR is unsigned, under any ring. */
  lemma PlainIsUnsigned(wire: seq<byte>, hmac: Hmac, ring: Ring, now: nat)
    requires Plain(wire) && RingOk(ring)
    ensures VerifyRequest(wire, hmac, ring, now) == Unsigned
  {
    assert !Misplaced(Walk(wire).value.1, Count(wire, 10));
  }

  // ----- what is signed

  lemma SamePrefix(x: seq<byte>, r: seq<byte>, y: seq<byte>, s: seq<byte>)
    requires x + r == y + s && |x| == |y|
    ensures x == y && r == s
  {
    assert x == (x + r)[..|x|] && y == (y + s)[..|x|];
    assert r == (x + r)[|x|..] && s == (y + s)[|x|..];
  }

  /** No encoded name is the beginning of another. */
  lemma {:induction false} SameEncoded(m: Name, r: seq<byte>, n: Name, s: seq<byte>)
    requires Labels(m) && Labels(n) && Encode(m) + r == Encode(n) + s
    ensures m == n && r == s
    decreases |m|
  {
    assert (Encode(m) + r)[0] == Encode(m)[0] && (Encode(n) + s)[0] == Encode(n)[0];
    if m == [] || n == [] {
      SamePrefix([0], r, [0], s);
    } else {
      var x, y := [|m[0]|] + m[0], [|n[0]|] + n[0];
      assert x + (Encode(m[1..]) + r) == Encode(m) + r && y + (Encode(n[1..]) + s) == Encode(n) + s;
      SamePrefix(x, Encode(m[1..]) + r, y, Encode(n[1..]) + s);
      assert m[0] == x[1..] && n[0] == y[1..];
      SameEncoded(m[1..], r, n[1..], s);
      assert m == [m[0]] + m[1..] && n == [n[0]] + n[1..];
    }
  }

  lemma SameTail(time: nat, fudge: u16, error: u16, other: seq<byte>, time': nat, fudge': u16, error': u16,
                 other': seq<byte>)
    requires Tail(time, fudge, error, other) == Tail(time', fudge', error', other')
    ensures time % TIME_RANGE == time' % TIME_RANGE && fudge == fudge' && error == error' && other == other'
  {
    var n, n' := U16(Low16(|other|)), U16(Low16(|other'|));
    SamePrefix(U48(time), U16(fudge) + (U16(error) + (n + other)), U48(time'),
               U16(fudge') + (U16(error') + (n' + other')));
    SamePrefix(U16(fudge), U16(error) + (n + other), U16(fudge'), U16(error') + (n' + other'));
    SamePrefix(U16(error), n + other, U16(error'), n' + other');
    SamePrefix(n, other, n', other');
  }

  /** Equal variables come from equal keys' names, algorithms, times, errors and other data: no field is
      left out of the MAC and none can be read as another. */
  lemma VariablesDetermine(k: Key, time: nat, fudge: u16, error: u16, other: seq<byte>,
                           k': Key, time': nat, fudge': u16, error': u16, other': seq<byte>)
    requires ValidName(k.name) && ValidName(k'.name)
    requires Variables(k, time, fudge, error, other, false) == Variables(k', time', fudge', error', other', false)
    ensures Lower(k.name) == Lower(k'.name) && k.alg == k'.alg
    ensures time % TIME_RANGE == time' % TIME_RANGE && fudge == fudge' && error == error' && other == other'
  {
    var t, t' := Tail(time, fudge, error, other), Tail(time', fudge', error', other');
    EncodeLowerLength(k.name);
    EncodeLowerLength(k'.name);
    SameAround(Lower(k.name), U16(CLASS_ANY), U32(0), AlgName(k.alg), t, Lower(k'.name), AlgName(k'.alg), t');
    AlgNamesDiffer(k.alg, k'.alg);
    SameTail(time, fudge, error, other, time', fudge', error', other');
  }

  lemma SameAround(m: Name, x: seq<byte>, y: seq<byte>, n: Name, t: seq<byte>, m': Name, n': Name, t': seq<byte>)
    requires Labels(m) && Labels(n) && Labels(m') && Labels(n')
    requires Encode(m) + (x + (y + (Encode(n) + t))) == Encode(m') + (x + (y + (Encode(n') + t')))
    ensures m == m' && n == n' && t == t'
  {
    SameEncoded(m, x + (y + (Encode(n) + t)), m', x + (y + (Encode(n') + t')));
    SamePrefix(x, y + (Encode(n) + t), x, y + (Encode(n') + t'));
    SamePrefix(y, Encode(n) + t, y, Encode(n') + t');
    SameEncoded(n, t, n', t');
  }
}
