/** Octet by octet: what a TSIG MAC covers and what a signed message looks like (RFC 8945). */
module TsigLayout {
  import opened Common
  import opened Bytes
  import opened DnsNames
  import opened Tsig
  import opened TsigRoundTrip
  import opened TsigAuth
  import opened TsigStream

  predicate Stands(b: seq<byte>, i: nat, s: seq<byte>) {
    i + |s| <= |b| && b[i..i + |s|] == s
  }

  /** A name at `i`, uncompressed and in lower case: each label behind its length, then the root. */
  predicate NameStands(b: seq<byte>, i: nat, n: Name)
    decreases |n|
  {
    if n == [] then i < |b| && b[i] == 0
    else
      && i + 1 + |n[0]| <= |b| && b[i] == |n[0]|
      && (forall k {:trigger n[0][k]} :: 0 <= k < |n[0]| ==>
            b[i + 1 + k] == if 'A' as int <= n[0][k] <= 'Z' as int then n[0][k] + 32 else n[0][k])
      && NameStands(b, i + 1 + |n[0]|, n[1..])
  }

  function NameEnd(i: nat, n: Name): nat
    decreases |n|
  {
    if n == [] then i + 1 else NameEnd(i + 1 + |n[0]|, n[1..])
  }

  /** `hmac-sha256.`, `hmac-sha384.` or `hmac-sha512.` on the wire. */
  function AlgOctets(a: Alg): (s: seq<byte>)
    ensures |s| == 13
  {
    var hmac: seq<byte> := [11, 'h' as int, 'm' as int, 'a' as int, 'c' as int, '-' as int, 's' as int, 'h' as int,
                            'a' as int];
    match a
    case HmacSha256 => hmac + ['2' as int, '5' as int, '6' as int, 0]
    case HmacSha384 => hmac + ['3' as int, '8' as int, '4' as int, 0]
    case HmacSha512 => hmac + ['5' as int, '1' as int, '2' as int, 0]
  }

  lemma AlgWire(a: Alg)
    ensures NameWire(AlgName(a)) == AlgOctets(a)
  {
    var n := AlgName(a);
    assert Encode(n) == [|n[0]|] + n[0] + Encode(n[1..]);
    assert Encode(n[1..]) == [0];
    assert Lower(n) == n;
  }

  /** A label behind its length. */
  lemma LabelStands(b: seq<byte>, i: nat, l: seq<byte>, rest: seq<byte>)
    requires i <= |b| && |l| < 64 && b[i..] == [|l|] + (LowerSeq(l) + rest)
    ensures i + 1 + |l| <= |b| && b[i] == |l| && b[i + 1 + |l|..] == rest
    ensures forall k {:trigger l[k]} :: 0 <= k < |l| ==>
              b[i + 1 + k] == if 'A' as int <= l[k] <= 'Z' as int then l[k] + 32 else l[k]
  {
    var low := LowerSeq(l);
    Cut(b, i, [|l|], low + rest);
    assert b[i] == b[i..i + 1][0];
    Cut(b, i + 1, low, rest);
    forall k | 0 <= k < |l|
      ensures b[i + 1 + k] == if 'A' as int <= l[k] <= 'Z' as int then l[k] + 32 else l[k]
    {
      assert b[i + 1 + k] == b[i + 1..i + 1 + |l|][k] == low[k];
    }
  }

  lemma EncodedLower(n: Name)
    requires Labels(n) && Labels(Lower(n)) && n != []
    ensures Labels(n[1..]) && Labels(Lower(n[1..])) && |n[0]| < 64
    ensures Encode(Lower(n)) == [|n[0]|] + (LowerSeq(n[0]) + Encode(Lower(n[1..])))
  {
    assert Lower(n)[1..] == Lower(n[1..]);
  }

  lemma {:induction false} EncodedStands(n: Name, rest: seq<byte>, b: seq<byte>, i: nat)
    requires Labels(n) && Labels(Lower(n)) && i <= |b| && b[i..] == Encode(Lower(n)) + rest
    ensures NameStands(b, i, n) && NameEnd(i, n) == i + |Encode(Lower(n))|
    decreases |n|
  {
    if n == [] {
      assert b[i] == b[i..][0];
    } else {
      EncodedLower(n);
      var tail := Encode(Lower(n[1..]));
      assert b[i..] == [|n[0]|] + (LowerSeq(n[0]) + (tail + rest));
      LabelStands(b, i, n[0], tail + rest);
      EncodedStands(n[1..], rest, b, i + 1 + |n[0]|);
    }
  }

  lemma WireStands(n: Name, rest: seq<byte>, b: seq<byte>, i: nat)
    requires ValidName(n) && i <= |b| && b[i..] == NameWire(n) + rest
    ensures NameStands(b, i, n) && NameEnd(i, n) == i + |NameWire(n)|
  {
    EncodeLowerLength(n);
    EncodedStands(n, rest, b, i);
  }

  lemma Cut(b: seq<byte>, i: nat, s: seq<byte>, rest: seq<byte>)
    requires i <= |b| && b[i..] == s + rest
    ensures Stands(b, i, s) && b[i + |s|..] == rest
  {
    assert b[i..i + |s|] == b[i..][..|s|] == s;
    assert b[i + |s|..] == b[i..][|s|..];
  }

  lemma Cut16(b: seq<byte>, i: nat, n: u16, rest: seq<byte>)
    requires i <= |b| && b[i..] == U16(n) + rest
    ensures i + 2 <= |b| && Be16(b, i) == n && b[i + 2..] == rest
  {
    Cut(b, i, U16(n), rest);
    assert b[i] == b[i..i + 2][0] && b[i + 1] == b[i..i + 2][1];
  }

  lemma Cut32(b: seq<byte>, i: nat, n: u32, rest: seq<byte>)
    requires i <= |b| && b[i..] == U32(n) + rest
    ensures i + 4 <= |b| && Be32(b, i) == n && b[i + 4..] == rest
  {
    Cut(b, i, U32(n), rest);
    var s := b[i..i + 4];
    assert b[i] == s[0] && b[i + 1] == s[1] && b[i + 2] == s[2] && b[i + 3] == s[3];
  }

  lemma Cut48(b: seq<byte>, i: nat, n: nat, rest: seq<byte>)
    requires i <= |b| && b[i..] == U48(n) + rest
    ensures i + 6 <= |b| && Be48(b, i) == n % 0x1_0000_0000_0000 && b[i + 6..] == rest
  {
    Cut(b, i, U48(n), rest);
    var s := b[i..i + 6];
    assert b[i] == s[0] && b[i + 1] == s[1] && b[i + 2] == s[2] && b[i + 3] == s[3];
    assert b[i + 4] == s[4] && b[i + 5] == s[5];
  }

  // ----- the variables

  /** Time signed, fudge, error, length of other data and other data, from `p` to the end. */
  predicate TimesStand(b: seq<byte>, p: nat, time: nat, fudge: u16, error: u16, other: seq<byte>) {
    && p + 12 + |other| == |b| && Be48(b, p) == time % 0x1_0000_0000_0000 && Be16(b, p + 6) == fudge
    && Be16(b, p + 8) == error && Be16(b, p + 10) == |other| % 0x1_0000 && b[p + 12..] == other
  }

  lemma TailStands(b: seq<byte>, p: nat, time: nat, fudge: u16, error: u16, other: seq<byte>)
    requires p <= |b| && b[p..] == Tail(time, fudge, error, other)
    ensures TimesStand(b, p, time, fudge, error, other)
  {
    var n := U16(Low16(|other|));
    Cut48(b, p, time, U16(fudge) + (U16(error) + (n + other)));
    Cut16(b, p + 6, fudge, U16(error) + (n + other));
    Cut16(b, p + 8, error, n + other);
    Cut16(b, p + 10, Low16(|other|), other);
  }

  /** Section 4.3.3: key name, class ANY, TTL 0, algorithm name, then times, error and other data. */
  predicate VariablesStand(b: seq<byte>, i: nat, k: Key, time: nat, fudge: u16, error: u16, other: seq<byte>) {
    var n := NameEnd(i, k.name);
    && NameStands(b, i, k.name) && n + 19 <= |b| && Be16(b, n) == 255 && Be32(b, n + 2) == 0
    && b[n + 6..n + 19] == AlgOctets(k.alg) && TimesStand(b, n + 19, time, fudge, error, other)
  }

  lemma VariablesLayout(b: seq<byte>, i: nat, k: Key, time: nat, fudge: u16, error: u16, other: seq<byte>)
    requires ValidName(k.name) && i <= |b| && b[i..] == Variables(k, time, fudge, error, other, false)
    ensures VariablesStand(b, i, k, time, fudge, error, other)
  {
    var w, t := NameWire(k.name), Tail(time, fudge, error, other);
    AlgWire(k.alg);
    Around(b, i, w, CLASS_ANY, AlgOctets(k.alg), t);
    WireStands(k.name, b[i + |w|..], b, i);
    TailStands(b, i + |w| + 19, time, fudge, error, other);
  }

  lemma Around(b: seq<byte>, i: nat, w: seq<byte>, c: u16, a: seq<byte>, t: seq<byte>)
    requires i <= |b| && b[i..] == w + (U16(c) + (U32(0) + (a + t)))
    ensures var n := i + |w|;
            && n + 6 + |a| + |t| == |b| && b[i..] == w + b[n..] && Be16(b, n) == c && Be32(b, n + 2) == 0
            && b[n + 6..n + 6 + |a|] == a && b[n + 6 + |a|..] == t
  {
    var n := i + |w|;
    Cut(b, i, w, U16(c) + (U32(0) + (a + t)));
    Cut16(b, n, c, U32(0) + (a + t));
    Cut32(b, n + 2, 0, a + t);
    Cut(b, n + 6, a, t);
  }

  /** Section 5.3.1: the time signed and the fudge, nothing else. */
  lemma TimersLayout(b: seq<byte>, i: nat, k: Key, time: nat, fudge: u16, error: u16, other: seq<byte>)
    requires ValidName(k.name) && i <= |b| && b[i..] == Variables(k, time, fudge, error, other, true)
    ensures |b| == i + 8 && Be48(b, i) == time % 0x1_0000_0000_0000 && Be16(b, i + 6) == fudge
  {
    Cut48(b, i, time, U16(fudge));
    assert U16(fudge) == U16(fudge) + [];
    Cut16(b, i + 6, fudge, []);
  }

  // ----- what is signed

  /** A request's MAC covers the message, then the variables. */
  lemma RequestInputLayout(wire: seq<byte>, k: Key, time: nat, fudge: u16, error: u16, other: seq<byte>)
    requires ValidName(k.name)
    ensures var input := RequestInput(wire, k, time, fudge, error, other);
            Stands(input, 0, wire) && VariablesStand(input, |wire|, k, time, fudge, error, other)
  {
    var input := RequestInput(wire, k, time, fudge, error, other);
    Cut(input, 0, wire, Variables(k, time, fudge, error, other, false));
    VariablesLayout(input, |wire|, k, time, fudge, error, other);
  }

  /** Where the messages start: behind the prior MAC and its length, if there is one. */
  function Past(prior: seq<byte>): nat {
    if prior == [] then 0 else 2 + |prior|
  }

  /** A response's MAC covers the prior MAC behind its length, the unsigned messages, the message and
      the variables, in this order and nothing else. */
  lemma ResponseInputLayout(prior: seq<byte>, unsigned: seq<byte>, message: seq<byte>, vars: seq<byte>)
    ensures var input := ResponseInput(prior, unsigned, message, vars);
            var u := Past(prior);
            var m := u + |unsigned|;
            && |input| == m + |message| + |vars|
            && (prior != [] ==> Be16(input, 0) == |prior| % 0x1_0000 && Stands(input, 2, prior))
            && Stands(input, u, unsigned) && Stands(input, m, message) && input[m + |message|..] == vars
  {
    var input := ResponseInput(prior, unsigned, message, vars);
    var rest := unsigned + (message + vars);
    if prior == [] {
      assert input == rest;
      assert input[0..] == input;
    } else {
      assert input == U16(Low16(|prior|)) + (prior + rest);
      PriorStands(input, prior, rest);
    }
    MessagesStand(input, Past(prior), unsigned, message, vars);
  }

  lemma PriorStands(input: seq<byte>, prior: seq<byte>, rest: seq<byte>)
    requires input == U16(Low16(|prior|)) + (prior + rest)
    ensures Be16(input, 0) == |prior| % 0x1_0000 && Stands(input, 2, prior) && input[2 + |prior|..] == rest
  {
    assert input[0..] == input;
    Cut16(input, 0, Low16(|prior|), prior + rest);
    Cut(input, 2, prior, rest);
  }

  lemma MessagesStand(input: seq<byte>, u: nat, unsigned: seq<byte>, message: seq<byte>, vars: seq<byte>)
    requires u <= |input| && input[u..] == unsigned + (message + vars)
    ensures var m := u + |unsigned|;
            && |input| == m + |message| + |vars| && Stands(input, u, unsigned) && Stands(input, m, message)
            && input[m + |message|..] == vars
  {
    Cut(input, u, unsigned, message + vars);
    Cut(input, u + |unsigned|, message, vars);
  }

  /** No part of it can be exchanged: for MACs and pending messages of equal length, equal inputs come
      from equal prior MACs, unsigned messages, messages and variables. */
  lemma ResponseInputDetermines(prior: seq<byte>, unsigned: seq<byte>, message: seq<byte>, vars: seq<byte>,
                                prior': seq<byte>, unsigned': seq<byte>, message': seq<byte>, vars': seq<byte>)
    requires |prior| == |prior'| && |unsigned| == |unsigned'| && |vars| == |vars'|
    requires ResponseInput(prior, unsigned, message, vars) == ResponseInput(prior', unsigned', message', vars')
    ensures prior == prior' && unsigned == unsigned' && message == message' && vars == vars'
  {
    ResponseInputLayout(prior, unsigned, message, vars);
    ResponseInputLayout(prior', unsigned', message', vars');
  }

  predicate VarsStand(b: seq<byte>, i: nat, k: Key, time: nat, fudge: u16, error: u16, other: seq<byte>, first: bool) {
    if first then VariablesStand(b, i, k, time, fudge, error, other)
    else |b| == i + 8 && Be48(b, i) == time % 0x1_0000_0000_0000 && Be16(b, i + 6) == fudge
  }

  lemma VarsLayout(b: seq<byte>, i: nat, k: Key, time: nat, fudge: u16, error: u16, other: seq<byte>, first: bool)
    requires ValidName(k.name) && i <= |b| && b[i..] == Variables(k, time, fudge, error, other, !first)
    ensures VarsStand(b, i, k, time, fudge, error, other, first)
  {
    if first {
      VariablesLayout(b, i, k, time, fudge, error, other);
    } else {
      TimersLayout(b, i, k, time, fudge, error, other);
    }
  }

  /** The prior MAC behind its length, if there is one, the pending messages and the message. */
  predicate ChainStands(b: seq<byte>, v: Chain, message: seq<byte>) {
    var u := Past(v.prior);
    && (v.prior != [] ==> |b| >= 2 && Be16(b, 0) == |v.prior| % 0x1_0000 && Stands(b, 2, v.prior))
    && Stands(b, u, v.unsigned) && Stands(b, u + |v.unsigned|, message)
  }

  lemma ChainLayout(b: seq<byte>, v: Chain, message: seq<byte>, vars: seq<byte>)
    requires b == ResponseInput(v.prior, v.unsigned, message, vars)
    ensures ChainStands(b, v, message)
    ensures var p := Past(v.prior) + |v.unsigned| + |message|; p <= |b| && b[p..] == vars
  {
    ResponseInputLayout(v.prior, v.unsigned, message, vars);
  }

  /** The MAC of message after message covers that layout, with the full variables in the first
      message of a stream and only the timers in the rest. */
  lemma ResponseMacCovers(hmac: Hmac, k: Key, v: Chain, message: seq<byte>, time: nat, fudge: u16, error: u16,
                          other: seq<byte>)
    returns (input: seq<byte>)
    requires ValidName(k.name)
    ensures ResponseMac(hmac, k, v, message, time, fudge, error, other) == hmac(k.alg, k.secret, input)
    ensures ChainStands(input, v, message)
    ensures VarsStand(input, Past(v.prior) + |v.unsigned| + |message|, k, time, fudge, error, other, v.first)
  {
    var vars;
    input, vars := InputOf(hmac, k, v, message, time, fudge, error, other);
    ChainLayout(input, v, message, vars);
  }

  lemma InputOf(hmac: Hmac, k: Key, v: Chain, message: seq<byte>, time: nat, fudge: u16, error: u16, other: seq<byte>)
    returns (input: seq<byte>, vars: seq<byte>)
    requires ValidName(k.name)
    ensures ResponseMac(hmac, k, v, message, time, fudge, error, other) == hmac(k.alg, k.secret, input)
    ensures input == ResponseInput(v.prior, v.unsigned, message, vars)
    ensures VarsStand(input, Past(v.prior) + |v.unsigned| + |message|, k, time, fudge, error, other, v.first)
  {
    vars := Variables(k, time, fudge, error, other, !v.first);
    input := ResponseInput(v.prior, v.unsigned, message, vars);
    var p := Behind(input, v, message, vars);
    VarsLayout(input, p, k, time, fudge, error, other, v.first);
  }

  lemma Behind(b: seq<byte>, v: Chain, message: seq<byte>, vars: seq<byte>) returns (p: nat)
    requires b == ResponseInput(v.prior, v.unsigned, message, vars)
    ensures p == Past(v.prior) + |v.unsigned| + |message| <= |b| && b[p..] == vars
  {
    ChainLayout(b, v, message, vars);
    p := Past(v.prior) + |v.unsigned| + |message|;
  }

  // ----- what is sent

  /** The RDATA of section 4.2 at `p`, to the end: algorithm, time, fudge, MAC, original ID, no error. */
  predicate RdataStands(b: seq<byte>, p: nat, alg: Alg, time: nat, mac: seq<byte>, id: u16) {
    var m := p + 23;
    && m + |mac| + 6 == |b| && b[p..p + 13] == AlgOctets(alg)
    && Be48(b, p + 13) == time % 0x1_0000_0000_0000 && Be16(b, p + 19) == 300 && Be16(b, p + 21) == |mac| % 0x1_0000
    && b[m..m + |mac|] == mac && Be16(b, m + |mac|) == id && Be16(b, m + |mac| + 2) == 0 && Be16(b, m + |mac| + 4) == 0
  }

  lemma RdataLayout(b: seq<byte>, p: nat, alg: Alg, time: nat, mac: seq<byte>, id: u16)
    requires p <= |b| && b[p..] == Rdata(AlgOctets(alg), time, mac, id, 0, [])
    ensures RdataStands(b, p, alg, time, mac, id)
  {
    var tail := U16(id) + (U16(0) + (U16(0) + []));
    assert b[p..] == AlgOctets(alg) + (U48(time) + (U16(FUDGE) + (U16(Low16(|mac|)) + (mac + tail))));
    MacStands(b, p, AlgOctets(alg), time, FUDGE, mac, tail);
    NoErrorStands(b, p + 23 + |mac|, id);
  }

  lemma MacStands(b: seq<byte>, p: nat, a: seq<byte>, time: nat, fudge: u16, mac: seq<byte>, tail: seq<byte>)
    requires p <= |b| && |a| == 13 && b[p..] == a + (U48(time) + (U16(fudge) + (U16(Low16(|mac|)) + (mac + tail))))
    ensures p + 23 + |mac| + |tail| == |b| && b[p..p + 13] == a && Be48(b, p + 13) == time % 0x1_0000_0000_0000
    ensures Be16(b, p + 19) == fudge && Be16(b, p + 21) == |mac| % 0x1_0000
    ensures b[p + 23..p + 23 + |mac|] == mac && b[p + 23 + |mac|..] == tail
  {
    Cut(b, p, a, U48(time) + (U16(fudge) + (U16(Low16(|mac|)) + (mac + tail))));
    Cut48(b, p + 13, time, U16(fudge) + (U16(Low16(|mac|)) + (mac + tail)));
    Cut16(b, p + 19, fudge, U16(Low16(|mac|)) + (mac + tail));
    Cut16(b, p + 21, Low16(|mac|), mac + tail);
    Cut(b, p + 23, mac, tail);
  }

  lemma NoErrorStands(b: seq<byte>, e: nat, id: u16)
    requires e <= |b| && b[e..] == U16(id) + (U16(0) + (U16(0) + []))
    ensures e + 6 == |b| && Be16(b, e) == id && Be16(b, e + 2) == 0 && Be16(b, e + 4) == 0
  {
    Cut16(b, e, id, U16(0) + (U16(0) + []));
    Cut16(b, e + 2, 0, U16(0) + []);
    Cut16(b, e + 4, 0, []);
  }

  /** A TSIG RR at `p`, to the end: owner, type 250, class ANY, TTL 0, length and RDATA. */
  predicate RecordStands(b: seq<byte>, p: nat, k: Key, time: nat, mac: seq<byte>, id: u16) {
    var n := NameEnd(p, k.name);
    && NameStands(b, p, k.name) && n + 10 <= |b| && Be16(b, n) == 250 && Be16(b, n + 2) == 255 && Be32(b, n + 4) == 0
    && Be16(b, n + 8) == (|mac| + 29) % 0x1_0000 && RdataStands(b, n + 10, k.alg, time, mac, id)
  }

  lemma HeaderOf(b: seq<byte>, i: nat, w: seq<byte>, rdata: seq<byte>)
    requires i <= |b| && b[i..] == RrBytes(w, 250, 255, 0, rdata)
    ensures var n := i + |w|;
            && b[i..] == w + b[n..] && n + 10 <= |b| && Be16(b, n) == 250 && Be16(b, n + 2) == 255
            && Be32(b, n + 4) == 0 && Be16(b, n + 8) == |rdata| % 0x1_0000 && b[n + 10..] == rdata
  {
    var n := i + |w|;
    Cut(b, i, w, U16(250) + (U16(255) + (U32(0) + (U16(Low16(|rdata|)) + rdata))));
    Cut16(b, n, 250, U16(255) + (U32(0) + (U16(Low16(|rdata|)) + rdata)));
    Cut16(b, n + 2, 255, U32(0) + (U16(Low16(|rdata|)) + rdata));
    Cut32(b, n + 4, 0, U16(Low16(|rdata|)) + rdata);
    Cut16(b, n + 8, Low16(|rdata|), rdata);
  }

  lemma RecordLayout(b: seq<byte>, p: nat, k: Key, time: nat, mac: seq<byte>, id: u16)
    requires ValidName(k.name) && p <= |b|
    requires b[p..] == TsigRr(NameWire(k.name), Rdata(NameWire(AlgName(k.alg)), time, mac, id, 0, []))
    ensures RecordStands(b, p, k, time, mac, id)
  {
    var w, rdata := NameWire(k.name), Rdata(NameWire(AlgName(k.alg)), time, mac, id, 0, []);
    AlgWire(k.alg);
    HeaderOf(b, p, w, rdata);
    WireStands(k.name, b[p + |w|..], b, p);
    RdataLayout(b, p + |w| + 10, k.alg, time, mac, id);
  }

  /** A signed message is the message with one more additional record, the TSIG RR of its key, time
      and MAC with its own ID, and not an octet else. */
  lemma SignedLayout(wire: seq<byte>, k: Key, time: nat, mac: seq<byte>)
    requires |wire| >= 12 && ValidName(k.name)
    ensures var s := Signed(wire, k, time, mac);
            && |s| > |wire| && (forall i :: 0 <= i < |wire| && i != 10 && i != 11 ==> s[i] == wire[i])
            && Be16(s, 10) == (Be16(wire, 10) as int + 1) % 0x1_0000
            && RecordStands(s, |wire|, k, time, mac, Be16(wire, 0))
  {
    var s := Signed(wire, k, time, mac);
    var rr := TsigRr(NameWire(k.name), Rdata(NameWire(AlgName(k.alg)), time, mac, Be16(wire, 0), 0, []));
    Raised(wire, rr, s);
    RecordLayout(s, |wire|, k, time, mac, Be16(wire, 0));
  }

  lemma Raised(wire: seq<byte>, rr: seq<byte>, s: seq<byte>)
    requires |wire| >= 12 && s == WithTsig(wire, rr)
    ensures |s| == |wire| + |rr| && (forall i :: 0 <= i < |wire| && i != 10 && i != 11 ==> s[i] == wire[i])
    ensures Be16(s, 10) == (Be16(wire, 10) as int + 1) % 0x1_0000 && s[|wire|..] == rr
  {
    var n := (Count(wire, 10) as int + 1) % 0x1_0000;
    var head := Splice(wire, 10, U16(n));
    assert head[10] == U16(n)[0] && head[11] == U16(n)[1];
    assert forall i :: 0 <= i < |wire| ==> s[i] == head[i];
  }

  lemma VariablesLength(k: Key, time: nat, fudge: u16, error: u16, other: seq<byte>, timersOnly: bool)
    requires ValidName(k.name)
    ensures |Variables(k, time, fudge, error, other, timersOnly)|
            == if timersOnly then 8 else |NameWire(k.name)| + 31 + |other|
  {
    if !timersOnly {
      AlgWire(k.alg);
    }
  }

  /** One key's stream: messages with the same MAC input follow the same prior MAC and the same unsigned
      messages and are the same message, signed at the same time with the same fudge. */
  lemma StreamInputDetermines(k: Key, v: Chain, message: seq<byte>, time: nat, fudge: u16,
                              v': Chain, message': seq<byte>, time': nat, fudge': u16)
    requires ValidName(k.name) && v.first == v'.first
    requires |v.prior| == |v'.prior| && |v.unsigned| == |v'.unsigned|
    requires ResponseInput(v.prior, v.unsigned, message, Variables(k, time, fudge, 0, [], !v.first))
             == ResponseInput(v'.prior, v'.unsigned, message', Variables(k, time', fudge', 0, [], !v'.first))
    ensures v.prior == v'.prior && v.unsigned == v'.unsigned && message == message'
    ensures time % 0x1_0000_0000_0000 == time' % 0x1_0000_0000_0000 && fudge == fudge'
  {
    var x, y := Variables(k, time, fudge, 0, [], !v.first), Variables(k, time', fudge', 0, [], !v'.first);
    VariablesLength(k, time, fudge, 0, [], !v.first);
    VariablesLength(k, time', fudge', 0, [], !v'.first);
    ResponseInputDetermines(v.prior, v.unsigned, message, x, v'.prior, v'.unsigned, message', y);
    SameTimers(k, time, fudge, time', fudge', v.first);
  }

  lemma SameTimers(k: Key, time: nat, fudge: u16, time': nat, fudge': u16, first: bool)
    requires ValidName(k.name)
    requires Variables(k, time, fudge, 0, [], !first) == Variables(k, time', fudge', 0, [], !first)
    ensures time % 0x1_0000_0000_0000 == time' % 0x1_0000_0000_0000 && fudge == fudge'
  {
    if first {
      VariablesDetermine(k, time, fudge, 0, [], k, time', fudge', 0, []);
    } else {
      SamePrefix(U48(time), U16(fudge), U48(time'), U16(fudge'));
    }
  }

  // ----- what is received

  /** The fields of a TSIG RR that ends the message, counted from its end. */
  predicate FieldsStand(b: seq<byte>, t: TsigRecord) {
    var e := |b| - |t.other|;
    var m := e - 6 - |t.mac|;
    && m >= 10 && b[e..] == t.other && Be16(b, e - 2) == |t.other| && Be16(b, e - 4) == t.error
    && Be16(b, e - 6) == t.originalId && b[m..e - 6] == t.mac && Be16(b, m - 2) == |t.mac|
    && Be16(b, m - 4) == t.fudge && Be48(b, m - 10) == t.timeSigned
  }

  lemma ParsedFields(b: seq<byte>, off: nat)
    requires ParseTsig(b, off).Some?
    ensures FieldsStand(b, ParseTsig(b, off).value)
  {
  }

  /** A TSIG RR that was found is of type 250 and class ANY, and its fields stand at the message's end. */
  lemma FoundFields(msg: seq<byte>, t: TsigRecord)
    requires FindTsig(msg) == Present(t)
    ensures FieldsStand(msg, t) && |msg| >= 12 && Be16(msg, 10) > 0
    ensures HeadStands(msg, t.start)
  {
    TsigIsPlaced(msg);
    var last := LastIsTsig(msg);
    FieldsAt(msg, last, t);
  }

  predicate HeadStands(b: seq<byte>, i: nat) {
    var j := SkipName(b, i);
    j.Some? && j.value + 4 <= |b| && Be16(b, j.value) == 250 && Be16(b, j.value + 2) == 255
  }

  lemma FieldsAt(b: seq<byte>, last: Rr, t: TsigRecord)
    requires RecordAt(b, last.start) == Some(last) && ParseTsig(b, last.start) == Some(t)
    requires last.rtype == 250 && last.rclass == 255 && t.start == last.start
    ensures FieldsStand(b, t) && HeadStands(b, t.start)
  {
    ParsedFields(b, last.start);
    RecordRead(b, last.start, last);
  }

  lemma RecordRead(b: seq<byte>, i: nat, rr: Rr)
    requires RecordAt(b, i) == Some(rr)
    ensures var j := SkipName(b, i);
            j.Some? && j.value + 4 <= |b| && Be16(b, j.value) == rr.rtype && Be16(b, j.value + 2) == rr.rclass
  {
  }

  lemma LastIsTsig(msg: seq<byte>) returns (last: Rr)
    requires FindTsig(msg).Present?
    ensures ParseTsig(msg, last.start) == Some(FindTsig(msg).record) && FindTsig(msg).record.start == last.start
    ensures RecordAt(msg, last.start) == Some(last) && last.rtype == 250 && last.rclass == 255
  {
    var (q, rs) := Walk(msg).value;
    last := rs[|rs| - 1];
    assert !Misplaced(rs, Count(msg, 10)) && last.rtype == TYPE_TSIG;
    RecordsRead(msg, q, |rs|, |rs| - 1);
  }

  lemma {:induction false} RecordsRead(b: seq<byte>, i: nat, n: nat, k: nat)
    requires Records(b, i, n).Some? && k < n
    ensures RecordAt(b, Records(b, i, n).value[k].start) == Some(Records(b, i, n).value[k])
    decreases n
  {
    if k > 0 {
      RecordsRead(b, RecordAt(b, i).value.end, n - 1, k - 1);
    }
  }

  function MacLength(a: Alg): nat {
    if a == HmacSha256 then 32 else if a == HmacSha384 then 48 else 64
  }

  /** `message` is what precedes the TSIG RR, with the original ID and without it in ARCOUNT. */
  predicate SignedPart(msg: seq<byte>, t: TsigRecord, message: seq<byte>) {
    && 12 <= t.start <= |msg| && |message| == t.start && Be16(message, 0) == t.originalId
    && Be16(message, 10) as int == Be16(msg, 10) as int - 1
    && forall i :: 2 <= i < t.start && i != 10 && i != 11 ==> message[i] == msg[i]
  }

  lemma StrippedPart(msg: seq<byte>, t: TsigRecord)
    requires 12 <= t.start <= |msg| && Count(msg, 10) > 0
    ensures SignedPart(msg, t, Stripped(msg, t.start, t.originalId))
  {
    var id, n := U16(t.originalId), U16(Count(msg, 10) - 1);
    var m := Stripped(msg, t.start, t.originalId);
    assert m[0] == id[0] && m[1] == id[1] && m[10] == n[0] && m[11] == n[1];
  }

  /** The verdict on any request that carries a TSIG RR, for any fudge, error and other data: key by
      name and algorithm, then a full MAC over the message and the variables sent, then the time,
      at most the fudge away. */
  lemma VerdictExact(msg: seq<byte>, hmac: Hmac, ring: Ring, now: nat) returns (message: seq<byte>, input: seq<byte>)
    requires RingOk(ring) && FindTsig(msg).Present?
    ensures var t := FindTsig(msg).record;
            ValidName(t.keyName) && ValidName(t.algName) && SignedPart(msg, t, message) && Stands(input, 0, message)
    ensures var t := FindTsig(msg).record;
            NameWire(t.keyName) in ring ==>
              VariablesStand(input, |message|, ring[NameWire(t.keyName)], t.timeSigned, t.fudge, t.error, t.other)
    ensures var t := FindTsig(msg).record;
            VerifyRequest(msg, hmac, ring, now)
            == if NameWire(t.keyName) !in ring then BadKey else
               var k := ring[NameWire(t.keyName)];
               if NameWire(t.algName) != AlgOctets(k.alg) then BadKey
               else if |t.mac| != MacLength(k.alg) || hmac(k.alg, k.secret, input) != t.mac then BadSig
               else if now > t.timeSigned + t.fudge || t.timeSigned > now + t.fudge then BadTime(k, t.mac, t.timeSigned)
               else SignedBy(k, t.mac)
  {
    var t := FindTsig(msg).record;
    TsigIsPlaced(msg);
    message := Stripped(msg, t.start, t.originalId);
    StrippedPart(msg, t);
    input := message;
    assert Stands(input, 0, message);
    if NameWire(t.keyName) in ring {
      var k := ring[NameWire(t.keyName)];
      input := VerdictByKey(msg, hmac, ring, now, t, k, message);
    } else {
      assert VerifyRequest(msg, hmac, ring, now) == BadKey;
    }
  }

  lemma VerdictByKey(msg: seq<byte>, hmac: Hmac, ring: Ring, now: nat, t: TsigRecord, k: Key, message: seq<byte>)
    returns (input: seq<byte>)
    requires RingOk(ring) && FindTsig(msg) == Present(t) && ValidName(t.keyName) && ValidName(t.algName)
    requires NameWire(t.keyName) in ring && k == ring[NameWire(t.keyName)]
    requires 12 <= t.start <= |msg| && Count(msg, 10) > 0
    requires message == Stripped(msg, t.start, t.originalId)
    ensures Stands(input, 0, message)
    ensures VariablesStand(input, |message|, k, t.timeSigned, t.fudge, t.error, t.other)
    ensures VerifyRequest(msg, hmac, ring, now)
            == if NameWire(t.algName) != AlgOctets(k.alg) then BadKey
               else if |t.mac| != MacLength(k.alg) || hmac(k.alg, k.secret, input) != t.mac then BadSig
               else if now > t.timeSigned + t.fudge || t.timeSigned > now + t.fudge then BadTime(k, t.mac, t.timeSigned)
               else SignedBy(k, t.mac)
  {
    AlgWire(k.alg);
    RequestInputLayout(message, k, t.timeSigned, t.fudge, t.error, t.other);
    input := RequestInput(message, k, t.timeSigned, t.fudge, t.error, t.other);
    VerdictSteps(msg, hmac, ring, now, t, k, input);
  }

  lemma VerdictSteps(msg: seq<byte>, hmac: Hmac, ring: Ring, now: nat, t: TsigRecord, k: Key, input: seq<byte>)
    requires RingOk(ring) && FindTsig(msg) == Present(t) && ValidName(t.keyName) && ValidName(t.algName)
    requires NameWire(t.keyName) in ring && k == ring[NameWire(t.keyName)]
    requires 12 <= t.start <= |msg| && Count(msg, 10) > 0
    requires input == RequestInput(Stripped(msg, t.start, t.originalId), k, t.timeSigned, t.fudge, t.error, t.other)
    ensures VerifyRequest(msg, hmac, ring, now)
            == if NameWire(t.algName) != NameWire(AlgName(k.alg)) then BadKey
               else if |t.mac| != MacLength(k.alg) || hmac(k.alg, k.secret, input) != t.mac then BadSig
               else if now > t.timeSigned + t.fudge || t.timeSigned > now + t.fudge then BadTime(k, t.mac, t.timeSigned)
               else SignedBy(k, t.mac)
  {
  }

  /** What an error field reports. */
  function Reports(error: u16): StreamError
    requires error != 0
  {
    if error == 16 then WrongMac else if error == 17 then WrongKey else if error == 18 then WrongTime else Unparsed
  }

  /** The verdict on any message of a stream that ends in a TSIG RR: key, reported error, MAC over the
      chain, time; accepted, its MAC is the next one to chain. */
  lemma StreamVerdictExact(hmac: Hmac, k: Key, v: Chain, wire: seq<byte>, now: nat, off: nat, t: TsigRecord)
    returns (message: seq<byte>, input: seq<byte>)
    requires ValidName(k.name) && TsigOffset(wire) == Some(off) && ParseTsig(wire, off) == Some(t)
    ensures ValidName(t.keyName) && ValidName(t.algName) && FieldsStand(wire, t) && SignedPart(wire, t, message)
    ensures ChainStands(input, v, message)
    ensures VarsStand(input, Past(v.prior) + |v.unsigned| + |message|, k, t.timeSigned, t.fudge, t.error, t.other,
                      v.first)
    ensures VerifyStep(hmac, k, v, wire, now)
            == if NameWire(t.keyName) != NameWire(k.name) || NameWire(t.algName) != AlgOctets(k.alg) then
                 (v, Some(WrongKey))
               else if t.error != 0 then (v, Some(Reports(t.error)))
               else if hmac(k.alg, k.secret, input) != t.mac then (v, Some(WrongMac))
               else if now > t.timeSigned + t.fudge || t.timeSigned > now + t.fudge then (v, Some(WrongTime))
               else (Chain(t.mac, false, [], 0), None)
  {
    ParsedNames(wire, off);
    ParsedFields(wire, off);
    message := Stripped(wire, off, t.originalId);
    StrippedPart(wire, t);
    input := ResponseMacCovers(hmac, k, v, message, t.timeSigned, t.fudge, t.error, t.other);
    ChecksExact(hmac, k, v, message, t, now, input);
  }

  lemma ChecksExact(hmac: Hmac, k: Key, v: Chain, message: seq<byte>, t: TsigRecord, now: nat, input: seq<byte>)
    requires ValidName(k.name) && ValidName(t.keyName) && ValidName(t.algName)
    requires ResponseMac(hmac, k, v, message, t.timeSigned, t.fudge, t.error, t.other) == hmac(k.alg, k.secret, input)
    ensures Check(hmac, k, v, message, t, now)
            == if NameWire(t.keyName) != NameWire(k.name) || NameWire(t.algName) != AlgOctets(k.alg) then
                 Refused(WrongKey)
               else if t.error != 0 then Refused(Reports(t.error))
               else if hmac(k.alg, k.secret, input) != t.mac then Refused(WrongMac)
               else if now > t.timeSigned + t.fudge || t.timeSigned > now + t.fudge then Refused(WrongTime)
               else Continues(t.mac)
  {
    AlgWire(k.alg);
  }

  /** A message without one: refused in first place, else kept for the next MAC, up to 99 of them. */
  lemma BareVerdictExact(hmac: Hmac, k: Key, v: Chain, wire: seq<byte>, now: nat)
    requires ValidName(k.name) && TsigOffset(wire).None?
    ensures VerifyStep(hmac, k, v, wire, now)
            == if v.first then (v, Some(Missing))
               else (Chain(v.prior, false, v.unsigned + wire, v.count + 1),
                     if v.count >= 99 then Some(TooManyUnsigned) else None)
  {
  }
}
