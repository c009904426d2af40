/** The client allow list: CIDRs as merged ranges, searched by bisection (`acl.rs`). */
module Acl {
  import opened Common

  // ----- addresses and CIDRs

  const V4_MAX: nat := 0xFFFF_FFFF
  const V6_MAX: nat := 0xFFFF_FFFF_FFFF_FFFF_FFFF_FFFF_FFFF_FFFF
  /** The addresses of `::ffff:0:0/96`. */
  const MAPPED: nat := 0xFFFF_0000_0000

  datatype Ip = V4(bits: nat) | V6(bits: nat)

  predicate IpOk(ip: Ip) {
    ip.bits <= if ip.V4? then V4_MAX else V6_MAX
  }

  /** Both tables treat a v4-mapped address as the v4 address. */
  function Unmapped(ip: Ip): Ip {
    if ip.V6? && MAPPED <= ip.bits <= MAPPED + V4_MAX then V4(ip.bits - MAPPED) else ip
  }

  function Pow2(n: nat): (p: nat)
    ensures p > 0
  {
    if n == 0 then 1 else 2 * Pow2(n - 1)
  }

  datatype Cidr = Cidr(v6: bool, bits: nat, len: nat)

  function Width(v6: bool): nat { if v6 then 128 else 32 }

  predicate CidrOk(c: Cidr) {
    c.len <= Width(c.v6) && c.bits < Pow2(Width(c.v6))
  }

  /** The prefixes agree. */
  predicate Contains(c: Cidr, ip: Ip)
    requires CidrOk(c)
  {
    c.v6 == ip.V6? && ip.bits / Pow2(Width(c.v6) - c.len) == c.bits / Pow2(Width(c.v6) - c.len)
  }

  // ----- ranges

  /** An inclusive range. */
  datatype Range = Range(lo: nat, hi: nat)

  predicate In(r: Range, a: nat) {
    r.lo <= a <= r.hi
  }

  predicate Covers(rs: seq<Range>, a: nat) {
    exists i :: 0 <= i < |rs| && In(rs[i], a)
  }

  predicate RangesOk(rs: seq<Range>, max: nat) {
    forall i :: 0 <= i < |rs| ==> rs[i].lo <= rs[i].hi <= max
  }

  /** Sorted, non-overlapping and non-adjacent. */
  predicate Canonical(rs: seq<Range>, max: nat) {
    RangesOk(rs, max) && forall i, j :: 0 <= i < j < |rs| ==> rs[i].hi + 1 < rs[j].lo
  }

  // ----- sorting

  predicate Before(x: Range, y: Range) {
    x.lo < y.lo || (x.lo == y.lo && x.hi <= y.hi)
  }

  predicate Sorted(rs: seq<Range>) {
    forall i, j :: 0 <= i < j < |rs| ==> Before(rs[i], rs[j])
  }

  function Insert(r: Range, rs: seq<Range>): seq<Range> {
    if rs == [] || Before(r, rs[0]) then [r] + rs else [rs[0]] + Insert(r, rs[1..])
  }

  function Sort(rs: seq<Range>): seq<Range> {
    if rs == [] then [] else Insert(rs[0], Sort(rs[1..]))
  }

  lemma {:induction false} InsertKeeps(r: Range, rs: seq<Range>)
    ensures multiset(Insert(r, rs)) == multiset{r} + multiset(rs)
  {
    if rs != [] && !Before(r, rs[0]) {
      InsertKeeps(r, rs[1..]);
      assert rs == [rs[0]] + rs[1..];
    }
  }

  lemma {:induction false} InsertSorts(r: Range, rs: seq<Range>)
    requires Sorted(rs)
    ensures Sorted(Insert(r, rs))
  {
    if rs != [] && !Before(r, rs[0]) {
      InsertSorts(r, rs[1..]);
      var rest := Insert(r, rs[1..]);
      InsertKeeps(r, rs[1..]);
      forall i | 0 <= i < |rest|
        ensures Before(rs[0], rest[i])
      {
        assert rest[i] in multiset(rest);
      }
    }
  }

  /** Sorting orders the ranges and keeps each as often as it occurs. */
  lemma {:induction false} SortSorts(rs: seq<Range>)
    ensures Sorted(Sort(rs)) && multiset(Sort(rs)) == multiset(rs)
  {
    if rs != [] {
      SortSorts(rs[1..]);
      InsertSorts(rs[0], Sort(rs[1..]));
      InsertKeeps(rs[0], Sort(rs[1..]));
      assert rs == [rs[0]] + rs[1..];
    }
  }

  lemma SortCovers(rs: seq<Range>, a: nat)
    ensures Covers(Sort(rs), a) <==> Covers(rs, a)
  {
    var s := Sort(rs);
    SortSorts(rs);
    if i :| 0 <= i < |rs| && In(rs[i], a) {
      assert rs[i] in multiset(s);
      var j :| 0 <= j < |s| && s[j] == rs[i];
      assert In(s[j], a);
    }
    if i :| 0 <= i < |s| && In(s[i], a) {
      assert s[i] in multiset(rs);
      var j :| 0 <= j < |rs| && rs[j] == s[i];
      assert In(rs[j], a);
    }
  }

  // ----- merging

  /** One merging step: extend the last range or open a new one. */
  function Absorb(out: seq<Range>, r: Range, max: nat): seq<Range> {
    if out != [] && (out[|out| - 1].hi >= max || r.lo <= out[|out| - 1].hi + 1) then
      var last := out[|out| - 1];
      out[..|out| - 1] + [Range(last.lo, if last.hi >= r.hi then last.hi else r.hi)]
    else out + [r]
  }

  lemma AbsorbCanonical(out: seq<Range>, r: Range, max: nat)
    requires Canonical(out, max) && r.lo <= r.hi <= max && (out != [] ==> out[|out| - 1].lo <= r.lo)
    ensures var m := Absorb(out, r, max); Canonical(m, max) && m != [] && m[|m| - 1].lo <= r.lo
  {
  }

  lemma AbsorbCovers(out: seq<Range>, r: Range, max: nat, a: nat)
    requires Canonical(out, max) && r.lo <= r.hi <= max && (out != [] ==> out[|out| - 1].lo <= r.lo)
    ensures Covers(Absorb(out, r, max), a) <==> Covers(out, a) || In(r, a)
  {
    var m := Absorb(out, r, max);
    if i :| 0 <= i < |out| && In(out[i], a) {
      assert In(m[i], a);
    }
    if In(r, a) {
      assert In(m[|m| - 1], a);
    }
    if i :| 0 <= i < |m| && In(m[i], a) {
      if i < |m| - 1 {
        assert In(out[i], a);
      } else if |m| == |out| && !In(r, a) {
        assert In(out[|out| - 1], a);
      }
    }
  }

  method Merged(rs: seq<Range>, max: nat) returns (out: seq<Range>)
    requires RangesOk(rs, max)
    ensures Canonical(out, max) && forall a :: Covers(out, a) <==> Covers(rs, a)
  {
    var s := Sort(rs);
    SortedOk(rs, max);
    out := [];
    var n := 0;
    while n < |s|
      invariant 0 <= n <= |s| && Canonical(out, max)
      invariant n > 0 ==> out != [] && out[|out| - 1].lo <= s[n - 1].lo
      invariant n == 0 ==> out == []
      invariant forall a :: Covers(out, a) <==> Covers(s[..n], a)
    {
      var r := s[n];
      AbsorbNext(out, s, n, max);
      ghost var want := Absorb(out, r, max);
      if out != [] && (out[|out| - 1].hi >= max || r.lo <= out[|out| - 1].hi + 1) {
        var last := out[|out| - 1];
        out := out[|out| - 1 := Range(last.lo, if last.hi >= r.hi then last.hi else r.hi)];
      } else {
        out := out + [r];
      }
      assert out == want;
      n := n + 1;
    }
    assert s[..n] == s;
    forall a
      ensures Covers(s, a) <==> Covers(rs, a)
    {
      SortCovers(rs, a);
    }
  }

  lemma SortedOk(rs: seq<Range>, max: nat)
    requires RangesOk(rs, max)
    ensures Sorted(Sort(rs)) && RangesOk(Sort(rs), max)
  {
    var s := Sort(rs);
    SortSorts(rs);
    forall i | 0 <= i < |s|
      ensures s[i].lo <= s[i].hi <= max
    {
      assert s[i] in multiset(rs);
    }
  }

  /** Absorbing the next range covers what the ranges so far cover. */
  lemma AbsorbNext(out: seq<Range>, s: seq<Range>, n: nat, max: nat)
    requires n < |s| && Sorted(s) && RangesOk(s, max) && Canonical(out, max)
    requires (n > 0 ==> out != [] && out[|out| - 1].lo <= s[n - 1].lo) && (n == 0 ==> out == [])
    requires forall a :: Covers(out, a) <==> Covers(s[..n], a)
    ensures var m := Absorb(out, s[n], max); Canonical(m, max) && m != [] && m[|m| - 1].lo <= s[n].lo
    ensures forall a :: Covers(Absorb(out, s[n], max), a) <==> Covers(s[..n + 1], a)
  {
    assert n > 0 ==> Before(s[n - 1], s[n]);
    forall a
      ensures Covers(Absorb(out, s[n], max), a) <==> Covers(s[..n + 1], a)
    {
      AbsorbCovers(out, s[n], max, a);
      CoversSnoc(s, n, a);
    }
    AbsorbCanonical(out, s[n], max);
  }

  lemma CoversSnoc(s: seq<Range>, n: nat, a: nat)
    requires n < |s|
    ensures Covers(s[..n + 1], a) <==> Covers(s[..n], a) || In(s[n], a)
  {
    var p, q := s[..n], s[..n + 1];
    if i :| 0 <= i < |p| && In(p[i], a) {
      assert In(q[i], a);
    }
    if In(s[n], a) {
      assert In(q[n], a);
    }
    if i :| 0 <= i < |q| && In(q[i], a) {
      assert i < n ==> In(p[i], a);
    }
  }

  // ----- canonical lists are determined by what they cover

  lemma OutsideAfter(rs: seq<Range>, max: nat, a: nat)
    requires Canonical(rs, max) && rs != [] && a <= rs[0].hi + 1
    ensures Covers(rs, a) <==> In(rs[0], a)
  {
  }

  lemma TailCovers(rs: seq<Range>, max: nat, a: nat)
    requires Canonical(rs, max) && rs != []
    ensures Covers(rs[1..], a) <==> Covers(rs, a) && !In(rs[0], a)
  {
    var t := rs[1..];
    if i :| 0 <= i < |t| && In(t[i], a) {
      assert In(rs[i + 1], a);
    }
    if Covers(rs, a) && !In(rs[0], a) {
      var i :| 0 <= i < |rs| && In(rs[i], a);
      assert In(t[i - 1], a);
    }
  }

  ghost predicate Equivalent(x: seq<Range>, y: seq<Range>) {
    forall a :: Covers(x, a) <==> Covers(y, a)
  }

  /** The first ranges of equivalent lists agree. */
  lemma SameFirst(x: seq<Range>, y: seq<Range>, max: nat)
    requires Canonical(x, max) && Canonical(y, max) && Equivalent(x, y) && x != []
    ensures y != [] && x[0] == y[0]
  {
    assert In(x[0], x[0].lo);
    assert Covers(x, x[0].lo) && Covers(y, x[0].lo);
    assert In(y[0], y[0].lo);
    assert Covers(y, y[0].lo) && Covers(x, y[0].lo);
    NotLonger(x, y, max);
    NotLonger(y, x, max);
  }

  lemma NotLonger(x: seq<Range>, y: seq<Range>, max: nat)
    requires Canonical(x, max) && Canonical(y, max) && Equivalent(x, y) && x != [] && y != [] && x[0].lo == y[0].lo
    ensures y[0].hi <= x[0].hi
  {
    var a := x[0].hi + 1;
    OutsideAfter(x, max, a);
    assert Covers(x, a) == Covers(y, a);
    assert !In(y[0], a);
  }

  /** Two canonical lists are equal exactly when they cover the same addresses. */
  lemma {:induction false} CanonicalUnique(x: seq<Range>, y: seq<Range>, max: nat)
    requires Canonical(x, max) && Canonical(y, max)
    ensures x == y <==> Equivalent(x, y)
    decreases |x|
  {
    if Equivalent(x, y) {
      if x == [] {
        if y != [] {
          SameFirst(y, x, max);
        }
      } else {
        SameFirst(x, y, max);
        forall a
          ensures Covers(x[1..], a) <==> Covers(y[1..], a)
        {
          TailCovers(x, max, a);
          TailCovers(y, max, a);
        }
        assert Equivalent(x[1..], y[1..]);
        CanonicalUnique(x[1..], y[1..], max);
        assert x == [x[0]] + x[1..] && y == [y[0]] + y[1..];
      }
    }
  }

  // ----- searching

  /** Bisection for the number of ranges that start at or before `a`. */
  method PartitionPoint(rs: seq<Range>, a: nat) returns (n: nat)
    requires forall i, j :: 0 <= i < j < |rs| ==> rs[i].lo < rs[j].lo
    ensures n <= |rs| && (forall i :: 0 <= i < n ==> rs[i].lo <= a) && (forall i :: n <= i < |rs| ==> rs[i].lo > a)
  {
    var lo, hi := 0, |rs|;
    while lo < hi
      invariant 0 <= lo <= hi <= |rs|
      invariant forall i :: 0 <= i < lo ==> rs[i].lo <= a
      invariant forall i :: hi <= i < |rs| ==> rs[i].lo > a
    {
      var mid := (lo + hi) / 2;
      if rs[mid].lo <= a {
        lo := mid + 1;
      } else {
        hi := mid;
      }
    }
    return lo;
  }

  method Covered(rs: seq<Range>, max: nat, a: nat) returns (r: bool)
    requires Canonical(rs, max)
    ensures r == Covers(rs, a)
  {
    var i := PartitionPoint(rs, a);
    r := i > 0 && a <= rs[i - 1].hi;
    if r {
      assert In(rs[i - 1], a);
    }
  }

  // ----- the table

  datatype Table = Table(v4: seq<Range>, v6: seq<Range>, all: bool)

  predicate TableOk(t: Table) {
    Canonical(t.v4, V4_MAX) && Canonical(t.v6, V6_MAX)
  }

  /** Network and broadcast address: the host bits cleared and set. */
  function RangeOf(c: Cidr): Range
    requires CidrOk(c)
  {
    var p := Pow2(Width(c.v6) - c.len);
    DivMod(c.bits, p);
    var network := c.bits / p * p;
    Range(network, network + p - 1)
  }

  lemma DivMod(x: nat, p: nat)
    requires p > 0
    ensures 0 <= x / p * p <= x < x / p * p + p
  {
    assert x == x / p * p + x % p;
  }

  lemma {:induction false} MulLess(m: nat, n: nat, p: nat)
    requires m < n
    ensures m * p + p <= n * p
    decreases n
  {
    assert n * p == (n - 1) * p + p;
    if m < n - 1 {
      MulLess(m, n - 1, p);
    }
  }

  lemma BlockHolds(b: nat, p: nat, x: nat)
    requires p > 0
    ensures b / p * p <= x <= b / p * p + p - 1 <==> x / p == b / p
  {
    DivMod(x, p);
    if x / p < b / p {
      MulLess(x / p, b / p, p);
    } else if x / p > b / p {
      MulLess(b / p, x / p, p);
    }
  }

  lemma DivLess(b: nat, k: nat, p: nat)
    requires p > 0 && b < k * p
    ensures b / p * p + p <= k * p
  {
    DivMod(b, p);
    if b / p < k {
      MulLess(b / p, k, p);
    } else if b / p > k {
      MulLess(k, b / p, p);
    }
  }

  lemma RangeHolds(c: Cidr, ip: Ip)
    requires CidrOk(c) && c.v6 == ip.V6?
    ensures In(RangeOf(c), ip.bits) <==> Contains(c, ip)
  {
    BlockHolds(c.bits, Pow2(Width(c.v6) - c.len), ip.bits);
  }

  lemma {:induction false} Pow2Add(m: nat, n: nat)
    ensures Pow2(m + n) == Pow2(m) * Pow2(n)
  {
    if m > 0 {
      Pow2Add(m - 1, n);
    }
  }

  lemma Pow2Double(n: nat, v: nat)
    requires Pow2(n) == v
    ensures Pow2(n + n) == v * v
  {
    Pow2Add(n, n);
  }

  lemma Widths()
    ensures Pow2(32) == V4_MAX + 1 && Pow2(128) == V6_MAX + 1
  {
    assert Pow2(2) == 4;
    Pow2Double(2, 4);
    Pow2Double(4, 16);
    Pow2Double(8, 256);
    Pow2Double(16, 0x1_0000);
    Pow2Double(32, 0x1_0000_0000);
    Pow2Double(64, 0x1_0000_0000_0000_0000);
  }

  lemma RangeFits(c: Cidr)
    requires CidrOk(c)
    ensures RangeOf(c).lo <= RangeOf(c).hi < Pow2(Width(c.v6))
  {
    var p := Pow2(Width(c.v6) - c.len);
    Pow2Add(c.len, Width(c.v6) - c.len);
    DivLess(c.bits, Pow2(c.len), p);
  }

  /** Some CIDR of the list contains the address, v4-mapped ones as v4. */
  predicate Listed(cidrs: seq<Cidr>, ip: Ip)
    requires forall i :: 0 <= i < |cidrs| ==> CidrOk(cidrs[i])
  {
    exists i :: 0 <= i < |cidrs| && Contains(cidrs[i], Unmapped(ip))
  }

  function Max(v6: bool): nat { if v6 then V6_MAX else V4_MAX }

  lemma RangeWithin(c: Cidr)
    requires CidrOk(c)
    ensures RangeOf(c).lo <= RangeOf(c).hi <= Max(c.v6)
  {
    Widths();
    RangeFits(c);
  }

  /** The ranges of one family, in list order. */
  method Ranges(cidrs: seq<Cidr>, v6: bool) returns (rs: seq<Range>, ghost from: seq<nat>)
    requires forall i :: 0 <= i < |cidrs| ==> CidrOk(cidrs[i])
    ensures Collected(cidrs, |cidrs|, v6, rs, from)
  {
    rs, from := [], [];
    var n := 0;
    while n < |cidrs|
      invariant 0 <= n <= |cidrs| && Collected(cidrs, n, v6, rs, from)
    {
      if cidrs[n].v6 == v6 {
        var r := RangeOf(cidrs[n]);
        CollectedGrows(cidrs, n, v6, rs, from, r);
        rs := rs + [r];
        from := from + [n];
      }
      n := n + 1;
    }
  }

  lemma CollectedOk(cidrs: seq<Cidr>, v6: bool, rs: seq<Range>, from: seq<nat>)
    requires (forall i :: 0 <= i < |cidrs| ==> CidrOk(cidrs[i])) && Collected(cidrs, |cidrs|, v6, rs, from)
    ensures RangesOk(rs, Max(v6))
  {
    forall k | 0 <= k < |rs|
      ensures rs[k].lo <= rs[k].hi <= Max(v6)
    {
      RangeWithin(cidrs[from[k]]);
    }
  }

  /** `rs` are the ranges of the first `n` CIDRs of a family; `from` says which. */
  ghost predicate Collected(cidrs: seq<Cidr>, n: nat, v6: bool, rs: seq<Range>, from: seq<nat>)
    requires n <= |cidrs| && forall i :: 0 <= i < |cidrs| ==> CidrOk(cidrs[i])
  {
    && |from| == |rs|
    && (forall k :: 0 <= k < |rs| ==> from[k] < n && cidrs[from[k]].v6 == v6 && rs[k] == RangeOf(cidrs[from[k]]))
    && (forall i :: 0 <= i < n && cidrs[i].v6 == v6 ==> RangeOf(cidrs[i]) in rs)
  }

  lemma CollectedGrows(cidrs: seq<Cidr>, n: nat, v6: bool, rs: seq<Range>, from: seq<nat>, r: Range)
    requires n < |cidrs| && (forall i :: 0 <= i < |cidrs| ==> CidrOk(cidrs[i])) && Collected(cidrs, n, v6, rs, from)
    requires cidrs[n].v6 == v6 && r == RangeOf(cidrs[n])
    ensures Collected(cidrs, n + 1, v6, rs + [r], from + [n])
  {
    forall i | 0 <= i < n + 1 && cidrs[i].v6 == v6
      ensures RangeOf(cidrs[i]) in rs + [r]
    {
      if i == n {
        assert (rs + [r])[|rs|] == r;
      }
    }
  }

  lemma RangesExact(cidrs: seq<Cidr>, v6: bool, rs: seq<Range>, from: seq<nat>, ip: Ip)
    requires (forall i :: 0 <= i < |cidrs| ==> CidrOk(cidrs[i])) && ip.V6? == v6
             && Collected(cidrs, |cidrs|, v6, rs, from)
    ensures Covers(rs, ip.bits) <==> exists i :: 0 <= i < |cidrs| && Contains(cidrs[i], ip)
  {
    if k :| 0 <= k < |rs| && In(rs[k], ip.bits) {
      RangeHolds(cidrs[from[k]], ip);
    }
    if i :| 0 <= i < |cidrs| && Contains(cidrs[i], ip) {
      RangeHolds(cidrs[i], ip);
      var k :| 0 <= k < |rs| && rs[k] == RangeOf(cidrs[i]);
      assert In(rs[k], ip.bits);
    }
  }

  /** `Acl::parse`; `None` stands for a text that is no CIDR. */
  method Parse(texts: seq<Option<Cidr>>) returns (t: Option<Table>, ghost cidrs: seq<Cidr>)
    requires forall i :: 0 <= i < |texts| ==> texts[i].Some? ==> CidrOk(texts[i].value)
    ensures t.Some? <==> forall i :: 0 <= i < |texts| ==> texts[i].Some?
    ensures t.Some? ==>
              && |cidrs| == |texts| && (forall i :: 0 <= i < |texts| ==> texts[i] == Some(cidrs[i]))
              && TableOk(t.value) && Lists(t.value, cidrs)
              && (t.value.all <==> forall ip: Ip :: IpOk(ip) ==> TableHas(t.value, ip))
              && (t.value.all || OnlyMappedGap(t.value) <==> forall ip: Ip :: IpOk(ip) ==> Listed(cidrs, ip))
  {
    var list: seq<Cidr> := [];
    var n := 0;
    while n < |texts|
      invariant 0 <= n <= |texts| && |list| == n
      invariant forall i :: 0 <= i < n ==> texts[i] == Some(list[i])
    {
      if texts[n].None? {
        return None, [];
      }
      list := list + [texts[n].value];
      n := n + 1;
    }
    cidrs := list;
    assert forall i :: 0 <= i < |list| ==> texts[i] == Some(list[i]) && CidrOk(list[i]);
    ghost var from4: seq<nat>, from6: seq<nat>;
    var r4: seq<Range>, r6: seq<Range>;
    r4, from4 := Ranges(list, false);
    r6, from6 := Ranges(list, true);
    CollectedOk(list, false, r4, from4);
    CollectedOk(list, true, r6, from6);
    var v4 := Merged(r4, V4_MAX);
    var v6 := Merged(r6, V6_MAX);
    forall ip: Ip
      ensures (if ip.V4? then Covers(v4, ip.bits) else Covers(v6, ip.bits))
              <==> exists i :: 0 <= i < |list| && Contains(list[i], ip)
    {
      if ip.V4? {
        RangesExact(list, false, r4, from4, ip);
      } else {
        RangesExact(list, true, r6, from6, ip);
      }
    }
    t := Some(Table(v4, v6, v4 == [Range(0, V4_MAX)] && v6 == [Range(0, V6_MAX)]));
    AllExact(t.value);
    AllAdmits(t.value);
    AdmitsListed(t.value, list);
  }

  lemma AdmitsListed(t: Table, cidrs: seq<Cidr>)
    requires (forall i :: 0 <= i < |cidrs| ==> CidrOk(cidrs[i])) && Lists(t, cidrs)
    ensures AdmitsAll(t) <==> forall ip: Ip :: IpOk(ip) ==> Listed(cidrs, ip)
  {
    forall ip: Ip
      ensures TableHas(t, Unmapped(ip)) <==> Listed(cidrs, ip)
    {
    }
  }

  predicate TableHas(t: Table, ip: Ip) {
    if ip.V4? then Covers(t.v4, ip.bits) else Covers(t.v6, ip.bits)
  }

  ghost predicate Lists(t: Table, cidrs: seq<Cidr>)
    requires forall i :: 0 <= i < |cidrs| ==> CidrOk(cidrs[i])
  {
    forall ip: Ip :: TableHas(t, ip) <==> exists i :: 0 <= i < |cidrs| && Contains(cidrs[i], ip)
  }

  lemma FullExact(rs: seq<Range>, max: nat)
    requires Canonical(rs, max)
    ensures rs == [Range(0, max)] <==> forall a :: 0 <= a <= max ==> Covers(rs, a)
  {
    var full := [Range(0, max)];
    assert Canonical(full, max);
    forall a: nat
      ensures Covers(full, a) <==> a <= max
    {
      assert In(full[0], a) <==> a <= max;
    }
    if forall a :: 0 <= a <= max ==> Covers(rs, a) {
      assert Equivalent(rs, full);
      CanonicalUnique(rs, full, max);
    }
  }

  /** `allows_all` is exact: both families are one full range exactly when every address is covered. */
  lemma AllExact(t: Table)
    requires TableOk(t) && t.all == (t.v4 == [Range(0, V4_MAX)] && t.v6 == [Range(0, V6_MAX)])
    ensures t.all <==> forall ip: Ip :: IpOk(ip) ==> TableHas(t, ip)
  {
    FullExact(t.v4, V4_MAX);
    FullExact(t.v6, V6_MAX);
    if forall ip: Ip :: IpOk(ip) ==> TableHas(t, ip) {
      forall a | 0 <= a <= V4_MAX
        ensures Covers(t.v4, a)
      {
        assert TableHas(t, V4(a));
      }
      forall a | 0 <= a <= V6_MAX
        ensures Covers(t.v6, a)
      {
        assert TableHas(t, V6(a));
      }
    }
  }

  predicate Mapped(a: nat) {
    MAPPED <= a <= MAPPED + V4_MAX
  }

  /** No client is refused. */
  ghost predicate AdmitsAll(t: Table) {
    forall ip: Ip :: IpOk(ip) ==> TableHas(t, Unmapped(ip))
  }

  /** All of v4 and all of v6 but something in the block of v4-mapped addresses, which are looked up as v4. */
  ghost predicate OnlyMappedGap(t: Table) {
    && t.v4 == [Range(0, V4_MAX)] && (exists a :: 0 <= a <= V6_MAX && !Covers(t.v6, a))
    && forall a :: 0 <= a <= V6_MAX && !Covers(t.v6, a) ==> Mapped(a)
  }

  /** A table admits every client exactly when it says so or its only gap is in that block. */
  lemma AllAdmits(t: Table)
    requires TableOk(t) && t.all == (t.v4 == [Range(0, V4_MAX)] && t.v6 == [Range(0, V6_MAX)])
    ensures AdmitsAll(t) <==> t.all || OnlyMappedGap(t)
    ensures t.all ==> !OnlyMappedGap(t)
  {
    FullExact(t.v4, V4_MAX);
    FullExact(t.v6, V6_MAX);
    if AdmitsAll(t) {
      forall a | 0 <= a <= V4_MAX
        ensures Covers(t.v4, a)
      {
        assert TableHas(t, Unmapped(V4(a)));
      }
      forall a | 0 <= a <= V6_MAX && !Covers(t.v6, a)
        ensures Mapped(a)
      {
        assert TableHas(t, Unmapped(V6(a)));
      }
    }
  }

  /** Such a table: `allows_all` is false and nobody is refused. */
  lemma MappedGapAdmits() returns (t: Table)
    ensures TableOk(t) && !t.all && AdmitsAll(t)
  {
    t := Table([Range(0, V4_MAX)], [Range(0, MAPPED - 1), Range(MAPPED + V4_MAX + 1, V6_MAX)], false);
    assert In(t.v4[0], 0);
    assert !Covers(t.v6, MAPPED);
    forall a | 0 <= a <= V6_MAX && !Covers(t.v6, a)
      ensures Mapped(a)
    {
      assert !In(t.v6[0], a) && !In(t.v6[1], a);
    }
    AllAdmits(t);
  }

  /** `Acl::allows`: exactly when some CIDR of the list contains the address. */
  method Allows(t: Table, ghost cidrs: seq<Cidr>, ip: Ip) returns (r: bool)
    requires TableOk(t) && (forall i :: 0 <= i < |cidrs| ==> CidrOk(cidrs[i])) && Lists(t, cidrs)
    ensures r == Listed(cidrs, ip)
  {
    var u := Unmapped(ip);
    if u.V4? {
      r := Covered(t.v4, V4_MAX, u.bits);
    } else {
      r := Covered(t.v6, V6_MAX, u.bits);
    }
    assert r == TableHas(t, u);
  }

  /** Two parsed lists give equal tables exactly when they contain the same addresses. */
  lemma TablesEqual(s: Table, t: Table)
    requires TableOk(s) && TableOk(t)
    ensures s.v4 == t.v4 && s.v6 == t.v6 <==> forall ip: Ip :: TableHas(s, ip) <==> TableHas(t, ip)
  {
    CanonicalUnique(s.v4, t.v4, V4_MAX);
    CanonicalUnique(s.v6, t.v6, V6_MAX);
    if forall ip: Ip :: TableHas(s, ip) <==> TableHas(t, ip) {
      forall a: nat
        ensures (Covers(s.v4, a) <==> Covers(t.v4, a)) && (Covers(s.v6, a) <==> Covers(t.v6, a))
      {
        assert TableHas(s, V4(a)) <==> TableHas(t, V4(a));
        assert TableHas(s, V6(a)) <==> TableHas(t, V6(a));
      }
    }
  }
}
