/** Octets and big-endian integers. */
module Bytes {
  type byte = x: int | 0 <= x < 256
  type u16 = x: int | 0 <= x < 0x1_0000
  type u32 = x: int | 0 <= x < 0x1_0000_0000

  function Be16(b: seq<byte>, i: nat): u16
    requires i + 2 <= |b|
  {
    b[i] as int * 256 + b[i + 1] as int
  }

  function Be32(b: seq<byte>, i: nat): u32
    requires i + 4 <= |b|
  {
    Be16(b, i) as int * 0x1_0000 + Be16(b, i + 2) as int
  }

  function U16(n: u16): (s: seq<byte>)
    ensures |s| == 2 && Be16(s, 0) == n
  {
    [n / 256, n % 256]
  }

  function U32(n: u32): (s: seq<byte>)
    ensures |s| == 4 && Be32(s, 0) == n
  {
    U16(n / 0x1_0000) + U16(n % 0x1_0000)
  }

  /** The low 48 bits, as `to_be_bytes()[2..]` writes them. */
  function U48(n: nat): (s: seq<byte>)
    ensures |s| == 6 && Be48(s, 0) == n % 0x1_0000_0000_0000
  {
    var m := n % 0x1_0000_0000_0000;
    U16(m / 0x1_0000_0000) + U32(m % 0x1_0000_0000)
  }

  function Be48(b: seq<byte>, i: nat): nat
    requires i + 6 <= |b|
  {
    Be16(b, i) as int * 0x1_0000_0000 + Be32(b, i + 2) as int
  }

  /** `b` with the octets at `i` replaced by `s`. */
  function Splice(b: seq<byte>, i: nat, s: seq<byte>): (r: seq<byte>)
    requires i + |s| <= |b|
    ensures |r| == |b|
    ensures forall k :: 0 <= k < |b| ==> r[k] == if i <= k < i + |s| then s[k - i] else b[k]
  {
    b[..i] + s + b[i + |s|..]
  }
}
