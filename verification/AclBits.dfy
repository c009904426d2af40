/** Addresses and CIDRs bit by bit: what containment, truncation and v4-mapping mean (`acl.rs`,
    `filter.rs`). */
module AclBits {
  import opened Acl
  import opened Policy

  /** Bit `k` of `x`, counted from the right. */
  function Bit(x: nat, k: nat): (b: nat)
    ensures b < 2
  {
    x / Pow2(k) % 2
  }

  lemma QuotientIs(x: nat, p: nat, q: nat)
    requires p > 0 && q * p <= x < q * p + p
    ensures x / p == q
  {
    DivMod(x, p);
    if x / p < q {
      MulLess(x / p, q, p);
    } else if q < x / p {
      MulLess(q, x / p, p);
    }
  }

  lemma Halving(x: nat, p: nat)
    requires p > 0
    ensures x / p == 2 * (x / (2 * p)) + x / p % 2
  {
    var q := x / p;
    var h, b := q / 2, q % 2;
    DivMod(x, p);
    Twice(h, b, p);
    QuotientIs(x, 2 * p, h);
  }

  lemma Twice(h: nat, b: nat, p: nat)
    ensures (2 * h + b) * p == h * (2 * p) + b * p
  {
  }

  /** Halving the divisor shows one more bit. */
  lemma OneMoreBit(x: nat, k: nat)
    ensures x / Pow2(k) == 2 * (x / Pow2(k + 1)) + Bit(x, k)
  {
    Halving(x, Pow2(k));
  }

  lemma {:induction false} SameLeading(x: nat, y: nat, width: nat, len: nat)
    requires len <= width && x < Pow2(width) && y < Pow2(width)
    ensures x / Pow2(width - len) == y / Pow2(width - len)
            <==> forall k :: width - len <= k < width ==> Bit(x, k) == Bit(y, k)
  {
    if len == 0 {
      QuotientIs(x, Pow2(width), 0);
      QuotientIs(y, Pow2(width), 0);
    } else {
      SameLeading(x, y, width, len - 1);
      OneMoreBit(x, width - len);
      OneMoreBit(y, width - len);
    }
  }

  /** A CIDR contains exactly the addresses of its family whose first `len` bits are its own. */
  lemma ContainsByBits(c: Cidr, ip: Ip)
    requires CidrOk(c) && IpOk(ip)
    ensures ip.V4? ==>
              (Contains(c, ip) <==> !c.v6 && forall k :: 32 - c.len <= k < 32 ==> Bit(ip.bits, k) == Bit(c.bits, k))
    ensures ip.V6? ==>
              (Contains(c, ip) <==> c.v6 && forall k :: 128 - c.len <= k < 128 ==> Bit(ip.bits, k) == Bit(c.bits, k))
  {
    Widths();
    if c.v6 == ip.V6? {
      SameLeading(ip.bits, c.bits, Width(c.v6), c.len);
    }
  }

  lemma OneMoreClear(x: nat, p: nat, h: nat, b: nat)
    requires p > 0 && b < 2 && x / p == 2 * h + b
    ensures h * (2 * p) == x <==> x / p * p == x && b == 0
  {
    Twice(h, b, p);
    Twice(h, 0, p);
    if h * (2 * p) == x {
      QuotientIs(x, p, 2 * h);
    }
  }

  predicate Multiple(x: nat, p: nat)
    requires p > 0
  {
    x / p * p == x
  }

  lemma MultipleStep(x: nat, k: nat)
    ensures Multiple(x, Pow2(k + 1)) <==> Multiple(x, Pow2(k)) && Bit(x, k) == 0
  {
    OneMoreBit(x, k);
    OneMoreClear(x, Pow2(k), x / Pow2(k + 1), Bit(x, k));
  }

  /** The last `n` bits are clear exactly if `x` is a multiple of two to the `n`. */
  lemma {:induction false} TrailingClear(x: nat, n: nat)
    ensures Multiple(x, Pow2(n)) <==> forall k :: 0 <= k < n ==> Bit(x, k) == 0
  {
    if n > 0 {
      TrailingClear(x, n - 1);
      MultipleStep(x, n - 1);
    }
  }

  /** A CIDR is accepted exactly if its prefix fits its family and every host bit is clear. */
  lemma TruncatedExact(c: Cidr)
    ensures Truncated(c) <==>
              if c.v6 then c.len <= 128 && c.bits <= V6_MAX && forall k :: 0 <= k < 128 - c.len ==> Bit(c.bits, k) == 0
              else c.len <= 32 && c.bits <= V4_MAX && forall k :: 0 <= k < 32 - c.len ==> Bit(c.bits, k) == 0
  {
    Widths();
    if c.len <= Width(c.v6) {
      TrailingClear(c.bits, Width(c.v6) - c.len);
    }
  }

  /** `::ffff:a.b.c.d` is `a.b.c.d`; every other address is itself. */
  lemma UnmappedExact(ip: Ip)
    ensures ip.V4? ==> Unmapped(ip) == ip
    ensures ip.V6? ==>
              Unmapped(ip) == if ip.bits / 0x1_0000_0000 == 0xFFFF then V4(ip.bits % 0x1_0000_0000) else ip
  {
  }
}
