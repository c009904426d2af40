/** Which queries are accepted and what is found in them, and the octets of OPT records, told by position
    (`wire.rs`, `edns.rs`). */
module QueryExact {
  import opened Common
  import opened Bytes
  import opened DnsNames
  import opened WireNames
  import opened Edns
  import opened Wire

  // ----- OPT records

  /** An option of an OPT record. */
  datatype Item = Item(code: u16, data: seq<byte>)

  /** The options from `pos` to the end of the data: code, length, data, one after the other. */
  predicate Itemized(rdata: seq<byte>, pos: nat, items: seq<Item>)
    decreases |items|
  {
    if items == [] then pos == |rdata|
    else
      && pos + 4 + |items[0].data| <= |rdata|
      && Be16(rdata, pos) == items[0].code && Be16(rdata, pos + 2) == |items[0].data|
      && rdata[pos + 4..pos + 4 + |items[0].data|] == items[0].data
      && Itemized(rdata, pos + 4 + |items[0].data|, items[1..])
  }

  /** A cookie option of 8 octets, or of 16 to 40. */
  predicate GoodCookie(i: Item) {
    i.code == 10 && (|i.data| == 8 || 16 <= |i.data| <= 40)
  }

  predicate BadCookie(i: Item) {
    i.code == 10 && !(|i.data| == 8 || 16 <= |i.data| <= 40)
  }

  /** `last` is the last good cookie among the items, none if there is none. */
  predicate LastCookie(items: seq<Item>, last: Option<seq<byte>>) {
    if last.None? then forall i :: 0 <= i < |items| ==> !GoodCookie(items[i])
    else exists i :: 0 <= i < |items| && GoodCookie(items[i]) && items[i].data == last.value
                     && forall j :: i < j < |items| ==> !GoodCookie(items[j])
  }

  /** What the items make of a view: the last good cookie, split after 8 octets, and whether any cookie
      has a wrong length. */
  ghost predicate Views(items: seq<Item>, was: OptView, now: OptView) {
    && now.udpSize == was.udpSize && now.version == was.version && now.doBit == was.doBit
    && (now.badCookieLen <==> was.badCookieLen || exists i :: 0 <= i < |items| && BadCookie(items[i]))
    && exists last :: LastCookie(items, last) && Splits(last, was, now)
  }

  predicate Splits(last: Option<seq<byte>>, was: OptView, now: OptView) {
    if last.None? then now.clientCookie == was.clientCookie && now.serverCookie == was.serverCookie
    else
      && |last.value| >= 8 && now.clientCookie == Some(last.value[..8])
      && now.serverCookie == if |last.value| == 8 then None else Some(last.value[8..])
  }

  lemma ConsViews(i: Item, items: seq<Item>, was: OptView, mid: OptView, now: OptView)
    requires mid == WithOption(was, i.code, i.data) && Views(items, mid, now)
    ensures Views([i] + items, was, now)
  {
    var last :| LastCookie(items, last) && Splits(last, mid, now);
    ConsBad(i, items);
    var first := if last.None? && GoodCookie(i) then Some(i.data) else last;
    ConsLast(i, items, last);
    assert Splits(first, was, now);
  }

  lemma ConsBad(i: Item, items: seq<Item>)
    ensures (exists k :: 0 <= k < |[i] + items| && BadCookie(([i] + items)[k]))
            <==> BadCookie(i) || exists k :: 0 <= k < |items| && BadCookie(items[k])
  {
    var all := [i] + items;
    assert all[0] == i && forall k :: 0 <= k < |items| ==> all[k + 1] == items[k];
    if k :| 0 <= k < |all| && BadCookie(all[k]) {
      assert k > 0 ==> BadCookie(items[k - 1]);
    }
    if k :| 0 <= k < |items| && BadCookie(items[k]) {
      assert BadCookie(all[k + 1]);
    }
    if BadCookie(i) {
      assert BadCookie(all[0]);
    }
  }

  lemma ConsLast(i: Item, items: seq<Item>, last: Option<seq<byte>>)
    requires LastCookie(items, last)
    ensures LastCookie([i] + items, if last.None? && GoodCookie(i) then Some(i.data) else last)
  {
    var all := [i] + items;
    assert all[0] == i && forall k :: 0 <= k < |items| ==> all[k + 1] == items[k];
    assert forall k :: 0 < k < |all| ==> all[k] == items[k - 1];
    if last.Some? {
      var k :| 0 <= k < |items| && GoodCookie(items[k]) && items[k].data == last.value
               && forall j :: k < j < |items| ==> !GoodCookie(items[j]);
      assert GoodCookie(all[k + 1]) && all[k + 1].data == last.value;
    } else if GoodCookie(i) {
      assert GoodCookie(all[0]);
    }
  }

  /** The data of an OPT record is accepted exactly if it is a sequence of options. */
  lemma {:induction false} OptionsItemized(rdata: seq<byte>, pos: nat, v: OptView) returns (items: seq<Item>)
    requires pos <= |rdata| && Options(rdata, pos, v).Some?
    ensures Itemized(rdata, pos, items) && Views(items, v, Options(rdata, pos, v).value)
    decreases |rdata| - pos
  {
    items := [];
    if pos == |rdata| {
      assert LastCookie(items, None) && Splits(None, v, v);
    } else {
      var next := pos + 4 + Be16(rdata, pos + 2);
      var i := Item(Be16(rdata, pos), rdata[pos + 4..next]);
      var rest := OptionsItemized(rdata, next, WithOption(v, i.code, i.data));
      ConsViews(i, rest, v, WithOption(v, i.code, i.data), Options(rdata, pos, v).value);
      items := [i] + rest;
      assert items[1..] == rest;
    }
  }

  lemma {:induction false} ItemizedOptions(rdata: seq<byte>, pos: nat, v: OptView, items: seq<Item>)
    requires pos <= |rdata| && Itemized(rdata, pos, items)
    ensures Options(rdata, pos, v).Some?
    decreases |items|
  {
    if items != [] {
      var i := items[0];
      ItemizedOptions(rdata, pos + 4 + |i.data|, WithOption(v, i.code, i.data), items[1..]);
    }
  }

  /** An OPT record stands at the front of `rr`: root owner, type 41, UDP size, extended RCODE, version,
      flags with DO first, length, options. */
  predicate OptHeads(rr: seq<byte>, size: nat) {
    && 11 <= size <= |rr| && rr[0] == 0 && rr[1] == 0 && rr[2] == 41 && Be16(rr, 9) == size - 11
  }

  /** `parse_opt` accepts exactly such a record, and the view says what stands in it. */
  lemma OptParsed(rr: seq<byte>) returns (items: seq<Item>)
    requires ParseOpt(rr).Some?
    ensures var p := ParseOpt(rr).value;
            && OptHeads(rr, p.size) && Itemized(rr[11..p.size], 0, items)
            && Views(items, OptView(Be16(rr, 3), rr[6], rr[7] >= 128, None, None, false), p.view)
  {
    var p := ParseOpt(rr).value;
    items := OptionsItemized(rr[11..p.size], 0, OptView(Be16(rr, 3), rr[6], rr[7] >= 128, None, None, false));
  }

  lemma OptParses(rr: seq<byte>, size: nat, items: seq<Item>)
    requires OptHeads(rr, size) && Itemized(rr[11..size], 0, items)
    ensures ParseOpt(rr).Some? && ParseOpt(rr).value.size == size
  {
    ItemizedOptions(rr[11..size], 0, OptView(Be16(rr, 3), rr[6], rr[7] >= 128, None, None, false), items);
  }

  /** The octets of a written OPT record. */
  lemma OptOctets(o: ReplyOpt)
    requires OptOk(o)
    ensures var cookie := if o.cookie.None? then [] else [0, 10, 0, 24] + o.cookie.value.client + o.cookie.value.server;
            var ede := if o.ede.None? then [] else [0, 15, 0, 2, o.ede.value / 256, o.ede.value % 256];
            var head := [0, 0, 41, o.udpSize / 256, o.udpSize % 256, o.extRcode, 0, if o.doBit then 128 else 0, 0, 0,
                         |cookie| + |ede|];
            OptBytes(o) == head + cookie + ede
  {
    var n := WireLen(o) - 11;
    HeadOctets(o, n);
    OptionOctets(o);
  }

  lemma HeadOctets(o: ReplyOpt, n: byte)
    ensures OptHead(o.udpSize, o.extRcode, o.doBit, n)
            == [0, 0, 41, o.udpSize / 256, o.udpSize % 256, o.extRcode, 0, if o.doBit then 128 else 0, 0, 0, n]
  {
    assert U16(n) == [0, n] && U16(41) == [0, 41];
    assert U16(if o.doBit then 0x8000 else 0) == [if o.doBit then 128 else 0, 0];
  }

  lemma OptionOctets(o: ReplyOpt)
    ensures o.cookie.Some? ==>
              CookieOption(o.cookie) == [0, 10, 0, 24] + o.cookie.value.client + o.cookie.value.server
    ensures o.ede.Some? ==> EdeOption(o.ede) == [0, 15, 0, 2, o.ede.value / 256, o.ede.value % 256]
  {
    assert U16(10) == [0, 10] && U16(24) == [0, 24] && U16(15) == [0, 15] && U16(2) == [0, 2];
    assert U16(10) + U16(24) == [0, 10, 0, 24];
  }

  /** Over UDP a reply may have as many octets as the query allows, but at least 512 and at most 1232;
      other transports carry 65535. */
  lemma LimitExact(opt: Option<OptView>, t: Transport)
    ensures var n := ReplyLimit(opt, t);
            && (t != Udp ==> n == 65535) && (t == Udp ==> 512 <= n <= 1232) && (t == Udp && opt.None? ==> n == 512)
            && (t == Udp && opt.Some? && 512 <= opt.value.udpSize <= 1232 ==> n == opt.value.udpSize)
            && (t == Udp && opt.Some? && opt.value.udpSize <= 512 ==> n == 512)
            && (t == Udp && opt.Some? && opt.value.udpSize >= 1232 ==> n == 1232)
  {
  }

  // ----- queries

  /** A query stands in `buf`: QR and opcode clear, one question, perhaps one OPT record, nothing else. */
  predicate QueryStands(buf: seq<byte>, end: nat) {
    && 17 <= end <= |buf| && end <= 271 && buf[2] < 8
    && Be16(buf, 4) == 1 && Be16(buf, 6) == 0 && Be16(buf, 8) == 0 && NameAt(buf, 12, end - 4)
    && if Be16(buf, 10) == 0 then end == |buf|
       else Be16(buf, 10) == 1 && ParseOpt(buf[end..]).Some? && ParseOpt(buf[end..]).value.size == |buf| - end
  }

  lemma Opcode(hi: byte, lo: byte)
    ensures var f := hi as int * 256 + lo;
            (f >= 0x8000 <==> hi >= 128) && (hi < 128 ==> f / 0x800 % 16 == hi / 8)
  {
    var f := hi as int * 256 + lo;
    assert f == 2048 * (hi / 8) + (256 * (hi % 8) + lo);
    assert f / 0x800 == hi / 8;
  }

  /** A query is accepted exactly if it stands there, and then with the ID, flags, name, lowercased name,
      type, class and OPT record that stand there. */
  lemma QueryFound(buf: seq<byte>)
    requires ParseQuery(buf).Accepted?
    ensures var q := ParseQuery(buf).query;
            && QueryStands(buf, q.questionEnd) && q.id == Be16(buf, 0) && q.flags == Be16(buf, 2)
            && q.qname == buf[12..q.questionEnd - 4] && q.key == LowerSeq(q.qname)
            && q.qtype == Be16(buf, q.questionEnd - 4) && q.qclass == Be16(buf, q.questionEnd - 2)
            && q.opt == if Be16(buf, 10) == 0 then None else Some(ParseOpt(buf[q.questionEnd..]).value.view)
  {
    Opcode(buf[2], buf[3]);
    ReadIsPlain(buf, 12);
  }

  lemma QueryAccepted(buf: seq<byte>, end: nat)
    requires QueryStands(buf, end)
    ensures ParseQuery(buf).Accepted? && ParseQuery(buf).query.questionEnd == end
  {
    Opcode(buf[2], buf[3]);
    ReadPlain(buf, 12, end - 4);
  }

  /** Why a query is refused: too short, a response, another opcode, or malformed, in this order. */
  lemma QueryRefused(buf: seq<byte>)
    requires ParseQuery(buf).Refused?
    ensures ParseQuery(buf).error
            == if |buf| < 12 then TooShort else if buf[2] >= 128 then IsResponse else if buf[2] >= 8 then NotImp
               else FormErr
  {
    if |buf| >= 12 {
      Opcode(buf[2], buf[3]);
    }
  }
}
