/** Domain names as label sequences, and the name skipping shared by the message walkers of `tsig.rs`. */
module DnsNames {
  import opened Common
  import opened Bytes

  type Label = seq<byte>
  type Name = seq<Label>

  predicate Labels(n: Name) {
    forall k :: 0 <= k < |n| ==> 1 <= |n[k]| <= 63
  }

  predicate ValidName(n: Name) {
    Labels(n) && |Encode(n)| <= 255
  }

  /** Uncompressed wire form. */
  function Encode(n: Name): (s: seq<byte>)
    requires Labels(n)
    ensures |s| >= 1
  {
    if n == [] then [0] else [|n[0]|] + n[0] + Encode(n[1..])
  }

  function LowerByte(x: byte): byte {
    if 65 <= x <= 90 then x + 32 else x
  }

  function LowerSeq(s: seq<byte>): (r: seq<byte>)
    ensures |r| == |s| && forall k {:trigger r[k]} :: 0 <= k < |s| ==> r[k] == LowerByte(s[k])
  {
    seq(|s|, k requires 0 <= k < |s| => LowerByte(s[k]))
  }

  function Lower(n: Name): (r: Name)
    ensures |r| == |n| && forall k :: 0 <= k < |n| ==> r[k] == LowerSeq(n[k])
  {
    seq(|n|, k requires 0 <= k < |n| => LowerSeq(n[k]))
  }

  lemma {:induction false} EncodeLowerLength(n: Name)
    requires Labels(n)
    ensures Labels(Lower(n)) && |Encode(Lower(n))| == |Encode(n)|
  {
    if n != [] {
      EncodeLowerLength(n[1..]);
      assert Lower(n)[1..] == Lower(n[1..]);
    }
  }

  lemma LowerTwice(n: Name)
    ensures Lower(Lower(n)) == Lower(n)
  {
    forall k | 0 <= k < |n|
      ensures Lower(Lower(n))[k] == Lower(n)[k]
    {
      assert LowerSeq(LowerSeq(n[k])) == LowerSeq(n[k]);
    }
  }

  /** Wire octets of the lowercased name: what keys are looked up and signed by. */
  function NameWire(n: Name): seq<byte>
    requires ValidName(n)
  {
    EncodeLowerLength(n);
    Encode(Lower(n))
  }

  /** The offset past the name at `i`: labels up to the root or one pointer, which is not followed. */
  function SkipName(b: seq<byte>, i: nat): (r: Option<nat>)
    ensures r.Some? ==> i < r.value <= |b|
    decreases |b| - i
  {
    if i >= |b| then None
    else if b[i] >= 192 then (if i + 1 < |b| then Some(i + 2) else None)
    else if b[i] >= 64 then None
    else if b[i] == 0 then Some(i + 1)
    else if i + 1 + b[i] as int > |b| then None
    else SkipName(b, i + 1 + b[i] as int)
  }

  method Skip(b: seq<byte>, start: nat) returns (r: Option<nat>)
    ensures r == SkipName(b, start)
  {
    var i := start;
    while true
      invariant start <= i
      invariant SkipName(b, start) == SkipName(b, i)
      decreases |b| - i
    {
      if i >= |b| {
        return None;
      }
      var len := b[i] as int;
      if len >= 192 {
        return if i + 1 < |b| then Some(i + 2) else None;
      }
      if len >= 64 {
        return None;
      }
      i := i + 1;
      if len == 0 {
        return Some(i);
      }
      i := i + len;
      if i > |b| {
        return None;
      }
    }
  }

  /** Skipping reads only the octets it skips. */
  lemma {:induction false} SkipNameLocal(b: seq<byte>, c: seq<byte>, i: nat)
    requires SkipName(b, i).Some? && SkipName(b, i).value <= |c|
    requires forall k :: i <= k < SkipName(b, i).value ==> b[k] == c[k]
    ensures SkipName(c, i) == SkipName(b, i)
    decreases |b| - i
  {
    if b[i] < 64 && b[i] != 0 {
      SkipNameLocal(b, c, i + 1 + b[i] as int);
    }
  }

  /** The labels of the uncompressed name at `i`, and the offset past it. */
  function DecodeLabels(b: seq<byte>, i: nat): (r: Option<(Name, nat)>)
    ensures r.Some? ==> i < r.value.1 <= |b| && Labels(r.value.0)
    decreases |b| - i
  {
    if i >= |b| || b[i] >= 64 then None
    else if b[i] == 0 then Some(([], i + 1))
    else if i + 1 + b[i] as int > |b| then None
    else
      match DecodeLabels(b, i + 1 + b[i] as int)
      case None => None
      case Some((rest, end)) => Some(([b[i + 1..i + 1 + b[i] as int]] + rest, end))
  }

  function DecodeName(b: seq<byte>, i: nat): (r: Option<(Name, nat)>)
    ensures r.Some? ==> i < r.value.1 <= |b| && ValidName(r.value.0)
  {
    var r := DecodeLabels(b, i);
    if r.Some? && r.value.1 - i <= 255 then DecodedLength(b, i); r else None
  }

  lemma {:induction false} DecodedLength(b: seq<byte>, i: nat)
    requires DecodeLabels(b, i).Some?
    ensures var (n, end) := DecodeLabels(b, i).value; |Encode(n)| == end - i
    decreases |b| - i
  {
    if b[i] != 0 {
      DecodedLength(b, i + 1 + b[i] as int);
      var (n, end) := DecodeLabels(b, i).value;
      var (rest, _) := DecodeLabels(b, i + 1 + b[i] as int).value;
      assert n[1..] == rest;
    }
  }

  /** `s` stands at offset `i` of `b`. */
  predicate Holds(b: seq<byte>, i: nat, s: seq<byte>)
    decreases |s|
  {
    if s == [] then i <= |b| else i < |b| && b[i] == s[0] && Holds(b, i + 1, s[1..])
  }

  lemma {:induction false} HoldsSlice(b: seq<byte>, i: nat, s: seq<byte>)
    ensures Holds(b, i, s) <==> i + |s| <= |b| && b[i..i + |s|] == s
    decreases |s|
  {
    if s != [] {
      HoldsSlice(b, i + 1, s[1..]);
      if i + |s| <= |b| {
        assert b[i..i + |s|] == [b[i]] + b[i + 1..i + |s|];
        assert s == [s[0]] + s[1..];
        assert b[i..i + |s|][0] == b[i] && b[i..i + |s|][1..] == b[i + 1..i + |s|];
      }
    }
  }

  lemma HoldsPart(b: seq<byte>, i: nat, s: seq<byte>, t: seq<byte>)
    requires Holds(b, i, s + t)
    ensures Holds(b, i, s) && Holds(b, i + |s|, t) && i + |s| + |t| <= |b|
  {
    HoldsSlice(b, i, s + t);
    assert b[i..i + |s|] == (s + t)[..|s|] && b[i + |s|..i + |s| + |t|] == (s + t)[|s|..];
    HoldsSlice(b, i, s);
    HoldsSlice(b, i + |s|, t);
  }

  /** Decoding and skipping both invert encoding, wherever the encoded name stands. */
  lemma {:induction false} EncodedNameReads(b: seq<byte>, i: nat, n: Name)
    requires Labels(n) && Holds(b, i, Encode(n))
    ensures DecodeLabels(b, i) == Some((n, i + |Encode(n)|)) && SkipName(b, i) == Some(i + |Encode(n)|)
    decreases |n|
  {
    if n != [] {
      HoldsPart(b, i, [|n[0]|] + n[0], Encode(n[1..]));
      HoldsPart(b, i, [|n[0]|], n[0]);
      HoldsSlice(b, i + 1, n[0]);
      EncodedNameReads(b, i + 1 + |n[0]|, n[1..]);
      assert [n[0]] + n[1..] == n;
    }
  }
}
