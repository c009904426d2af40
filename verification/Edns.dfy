/** EDNS(0) OPT records: parsing, writing and reply limits (`edns.rs`). */
module Edns {
  import opened Common
  import opened Bytes

  const OPT_BASE_LEN: nat := 11
  const OPT_COOKIE_LEN: nat := 28
  const OPT_EDE_LEN: nat := 6
  const TYPE_OPT: u16 := 41
  const OPTION_COOKIE: u16 := 10
  const OPTION_EDE: u16 := 15

  datatype Transport = Udp | Tcp | Dot | Doh | Doq

  /** What a query's OPT record says. */
  datatype OptView = OptView(
    udpSize: u16, version: byte, doBit: bool,
    clientCookie: Option<seq<byte>>, serverCookie: Option<seq<byte>>, badCookieLen: bool)

  datatype Cookie = Cookie(client: seq<byte>, server: seq<byte>)

  /** The OPT record of a reply. */
  datatype ReplyOpt = ReplyOpt(udpSize: u16, doBit: bool, extRcode: byte, cookie: Option<Cookie>, ede: Option<u16>)

  predicate OptOk(o: ReplyOpt) {
    o.cookie.Some? ==> |o.cookie.value.client| == 8 && |o.cookie.value.server| == 16
  }

  function WireLen(o: ReplyOpt): nat {
    OPT_BASE_LEN + (if o.cookie.Some? then OPT_COOKIE_LEN else 0) + (if o.ede.Some? then OPT_EDE_LEN else 0)
  }

  function OptLen(o: Option<ReplyOpt>): nat {
    if o.Some? then WireLen(o.value) else 0
  }

  function ReplyLimit(opt: Option<OptView>, t: Transport): nat {
    if !t.Udp? then 65535
    else if opt.None? || opt.value.udpSize < 512 then 512
    else if opt.value.udpSize > 1232 then 1232
    else opt.value.udpSize
  }

  // ----- writing

  function CookieOption(c: Option<Cookie>): seq<byte> {
    if c.None? then [] else U16(OPTION_COOKIE) + U16(24) + c.value.client + c.value.server
  }

  function EdeOption(code: Option<u16>): seq<byte> {
    if code.None? then [] else U16(OPTION_EDE) + U16(2) + U16(code.value)
  }

  /** The OPT RR: root owner, TYPE, CLASS (UDP size), TTL (extended RCODE, version, flags), RDATA. */
  function OptHead(udpSize: u16, ext: byte, doBit: bool, rdlen: u16): (s: seq<byte>)
    ensures |s| == OPT_BASE_LEN
  {
    [0] + U16(TYPE_OPT) + U16(udpSize) + [ext, 0] + U16(if doBit then 0x8000 else 0) + U16(rdlen)
  }

  function OptBytes(o: ReplyOpt): (s: seq<byte>)
    requires OptOk(o)
    ensures |s| == WireLen(o)
  {
    OptHead(o.udpSize, o.extRcode, o.doBit, WireLen(o) - OPT_BASE_LEN) + CookieOption(o.cookie) + EdeOption(o.ede)
  }

  function OptBytesOf(o: Option<ReplyOpt>): seq<byte>
    requires o.Some? ==> OptOk(o.value)
  {
    if o.Some? then OptBytes(o.value) else []
  }

  /** Copies `s` into the buffer at `at`. */
  method Put(out: array<byte>, at: nat, s: seq<byte>)
    requires at + |s| <= out.Length
    modifies out
    ensures out[..] == Splice(old(out[..]), at, s)
  {
    var i := 0;
    while i < |s|
      invariant 0 <= i <= |s|
      invariant forall k :: 0 <= k < out.Length ==> out[k] == if at <= k < at + i then s[k - at] else old(out[k])
    {
      out[at + i] := s[i];
      i := i + 1;
    }
  }

  lemma SpliceJoin(b: seq<byte>, at: nat, x: seq<byte>, y: seq<byte>)
    requires at + |x| + |y| <= |b|
    ensures Splice(Splice(b, at, x), at + |x|, y) == Splice(b, at, x + y)
  {
  }

  method WriteOpt(out: array<byte>, at: nat, o: ReplyOpt) returns (n: nat)
    requires at <= out.Length && OptOk(o)
    modifies out
    ensures if at + WireLen(o) > out.Length then n == 0 && out[..] == old(out[..])
            else n == WireLen(o) && out[..] == Splice(old(out[..]), at, OptBytes(o))
  {
    n := WireLen(o);
    if at + n > out.Length {
      return 0;
    }
    ghost var b := out[..];
    var head := OptHead(o.udpSize, o.extRcode, o.doBit, n - OPT_BASE_LEN);
    Put(out, at, head);
    var cookie := CookieOption(o.cookie);
    if o.cookie.Some? {
      Put(out, at + OPT_BASE_LEN, cookie);
    }
    SpliceJoin(b, at, head, cookie);
    assert out[..] == Splice(b, at, head + cookie);
    var ede := EdeOption(o.ede);
    if o.ede.Some? {
      Put(out, at + n - OPT_EDE_LEN, ede);
    }
    SpliceJoin(b, at, head + cookie, ede);
  }

  // ----- parsing

  function WithOption(v: OptView, code: u16, data: seq<byte>): OptView {
    if code != OPTION_COOKIE then v
    else if |data| == 8 || 16 <= |data| <= 40 then
      v.(clientCookie := Some(data[..8]), serverCookie := if |data| > 8 then Some(data[8..]) else None)
    else v.(badCookieLen := true)
  }

  /** The options of `rdata` from `pos` on, folded into `v`. */
  function Options(rdata: seq<byte>, pos: nat, v: OptView): Option<OptView>
    requires pos <= |rdata|
    decreases |rdata| - pos
  {
    if pos == |rdata| then Some(v)
    else if |rdata| - pos < 4 then None
    else
      var next := pos + 4 + Be16(rdata, pos + 2) as int;
      if next > |rdata| then None else Options(rdata, next, WithOption(v, Be16(rdata, pos), rdata[pos + 4..next]))
  }

  datatype Parsed = Parsed(view: OptView, size: nat)

  function ParseOpt(rr: seq<byte>): (r: Option<Parsed>)
    ensures r.Some? ==> OPT_BASE_LEN <= r.value.size <= |rr|
  {
    if |rr| < OPT_BASE_LEN || rr[0] != 0 || Be16(rr, 1) != TYPE_OPT then None else
    var end := OPT_BASE_LEN + Be16(rr, 9) as int;
    if end > |rr| then None else
    match Options(rr[OPT_BASE_LEN..end], 0, OptView(Be16(rr, 3), rr[6], rr[7] >= 128, None, None, false))
    case None => None
    case Some(v) => Some(Parsed(v, end))
  }

  method ScanOpt(rr: seq<byte>) returns (r: Option<Parsed>)
    ensures r == ParseOpt(rr)
  {
    if |rr| < OPT_BASE_LEN || rr[0] != 0 || Be16(rr, 1) != TYPE_OPT {
      return None;
    }
    var end := OPT_BASE_LEN + Be16(rr, 9) as int;
    if end > |rr| {
      return None;
    }
    var rdata := rr[OPT_BASE_LEN..end];
    var view := OptView(Be16(rr, 3), rr[6], rr[7] >= 128, None, None, false);
    ghost var want := Options(rdata, 0, view);
    var pos := 0;
    while pos < |rdata|
      invariant 0 <= pos <= |rdata| && Options(rdata, pos, view) == want
    {
      if |rdata| - pos < 4 {
        return None;
      }
      var code := Be16(rdata, pos);
      var next := pos + 4 + Be16(rdata, pos + 2) as int;
      if next > |rdata| {
        return None;
      }
      view := WithOption(view, code, rdata[pos + 4..next]);
      pos := next;
    }
    return Some(Parsed(view, end));
  }

  // ----- writing, then parsing

  function ViewOf(o: ReplyOpt): OptView {
    OptView(o.udpSize, 0, o.doBit,
            if o.cookie.Some? then Some(o.cookie.value.client) else None,
            if o.cookie.Some? then Some(o.cookie.value.server) else None, false)
  }

  lemma HeadReads(udpSize: u16, ext: byte, doBit: bool, rdlen: u16, rest: seq<byte>)
    ensures var rr := OptHead(udpSize, ext, doBit, rdlen) + rest;
            && rr[0] == 0 && Be16(rr, 1) == TYPE_OPT && Be16(rr, 3) == udpSize && rr[5] == ext && rr[6] == 0
            && (rr[7] >= 128) == doBit && Be16(rr, 9) == rdlen
  {
    var h := OptHead(udpSize, ext, doBit, rdlen);
    var rr := h + rest;
    assert forall k :: 0 <= k < |h| ==> rr[k] == h[k];
    var size, flags, len := U16(udpSize), U16(if doBit then 0x8000 else 0), U16(rdlen);
    assert h[3] == size[0] && h[4] == size[1];
    assert h[7] == flags[0] && h[8] == flags[1];
    assert h[9] == len[0] && h[10] == len[1];
  }

  /** The octets of one option, standing between others. */
  lemma OptionStands(before: seq<byte>, code: u16, data: seq<byte>, after: seq<byte>, all: seq<byte>)
    requires |data| < 0x1_0000 && all == before + (U16(code) + U16(|data|) + data) + after
    ensures OptionAt(all, |before|, code, data)
  {
    var c, n, p := U16(code), U16(|data|), |before|;
    var one := c + n + data;
    assert forall k :: 0 <= k < |one| ==> all[p + k] == one[k];
    assert one[0] == c[0] && one[1] == c[1] && one[2] == n[0] && one[3] == n[1];
    assert one[4..] == data;
    assert all[p + 4..p + 4 + |data|] == one[4..];
  }

  /** An option with this code and data stands at `p`. */
  predicate OptionAt(all: seq<byte>, p: nat, code: u16, data: seq<byte>) {
    && p + 4 + |data| <= |all| && Be16(all, p) == code && Be16(all, p + 2) == |data|
    && all[p + 4..p + 4 + |data|] == data
  }

  lemma {:induction false} OptionStep(all: seq<byte>, p: nat, code: u16, data: seq<byte>, v: OptView)
    requires OptionAt(all, p, code, data)
    ensures Options(all, p, v) == Options(all, p + 4 + |data|, WithOption(v, code, data))
  {
  }

  function CookieData(o: ReplyOpt): seq<byte> {
    if o.cookie.None? then [] else o.cookie.value.client + o.cookie.value.server
  }

  lemma {:induction false} OptionsFrom(o: ReplyOpt, all: seq<byte>)
    requires OptOk(o) && |all| == WireLen(o) - OPT_BASE_LEN
    requires o.cookie.Some? ==> OptionAt(all, 0, OPTION_COOKIE, CookieData(o))
    requires o.ede.Some? ==> OptionAt(all, |all| - OPT_EDE_LEN, OPTION_EDE, U16(o.ede.value))
    ensures Options(all, 0, OptView(o.udpSize, 0, o.doBit, None, None, false)) == Some(ViewOf(o))
  {
    var v := OptView(o.udpSize, 0, o.doBit, None, None, false);
    if o.cookie.Some? {
      var data := CookieData(o);
      OptionStep(all, 0, OPTION_COOKIE, data, v);
      assert data[..8] == o.cookie.value.client && data[8..] == o.cookie.value.server;
    }
    if o.ede.Some? {
      OptionStep(all, |all| - OPT_EDE_LEN, OPTION_EDE, U16(o.ede.value), ViewOf(o));
    }
  }

  lemma OptionsRead(o: ReplyOpt)
    requires OptOk(o)
    ensures Options(CookieOption(o.cookie) + EdeOption(o.ede), 0, OptView(o.udpSize, 0, o.doBit, None, None, false))
            == Some(ViewOf(o))
  {
    var cookie, ede := CookieOption(o.cookie), EdeOption(o.ede);
    var all := cookie + ede;
    if o.cookie.Some? {
      var data := CookieData(o);
      assert [] + (U16(OPTION_COOKIE) + U16(|data|) + data) + ede == all;
      OptionStands([], OPTION_COOKIE, data, ede, all);
    }
    if o.ede.Some? {
      var data := U16(o.ede.value);
      assert cookie + (U16(OPTION_EDE) + U16(|data|) + data) + [] == all;
      OptionStands(cookie, OPTION_EDE, data, [], all);
    }
    OptionsFrom(o, all);
  }

  /** What is written is parsed back, whatever follows; the extended RCODE is not part of a view. */
  lemma OptRoundTrip(o: ReplyOpt, rest: seq<byte>)
    requires OptOk(o)
    ensures ParseOpt(OptBytes(o) + rest) == Some(Parsed(ViewOf(o), WireLen(o)))
  {
    var rdata := CookieOption(o.cookie) + EdeOption(o.ede);
    var head := OptHead(o.udpSize, o.extRcode, o.doBit, WireLen(o) - OPT_BASE_LEN);
    var rr := OptBytes(o) + rest;
    assert rr == head + (rdata + rest);
    HeadReads(o.udpSize, o.extRcode, o.doBit, WireLen(o) - OPT_BASE_LEN, rdata + rest);
    assert rr[OPT_BASE_LEN..WireLen(o)] == rdata;
    OptionsRead(o);
  }
}
