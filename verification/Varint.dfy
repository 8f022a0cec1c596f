/** Variable-length integers, section 16 of RFC 9000. */
module Varint {
  import opened Base

  const MAX_VARINT: nat := 0x3fff_ffff_ffff_ffff

  /** Bytes that `v` takes: the two most significant bits of the first byte hold the length class. */
  function VarintLen(v: nat): (n: nat)
    ensures n == 1 || n == 2 || n == 4 || n == 8
  {
    if v < 0x40 then 1 else if v < 0x4000 then 2 else if v < 0x4000_0000 then 4 else 8
  }

  function Pow256(n: nat): (p: nat)
    ensures p > 0
  {
    if n == 0 then 1 else 256 * Pow256(n - 1)
  }

  /** The `n` low bytes of `v`, most significant first. */
  function BigEndian(v: nat, n: nat): (b: Bytes)
    ensures |b| == n
  {
    if n == 0 then [] else BigEndian(v / 256, n - 1) + [v % 256]
  }

  function FromBigEndian(b: Bytes): nat {
    if b == [] then 0 else FromBigEndian(b[..|b| - 1]) * 256 + b[|b| - 1]
  }

  lemma {:induction false} BigEndianRoundTrip(v: nat, n: nat)
    requires v < Pow256(n)
    ensures FromBigEndian(BigEndian(v, n)) == v
  {
    if n > 0 {
      BigEndianRoundTrip(v / 256, n - 1);
      var b := BigEndian(v, n);
      assert b[..n - 1] == BigEndian(v / 256, n - 1);
    }
  }

  /** The class of a length is the exponent of 2 it is. */
  function ClassBits(len: nat): nat {
    if len == 1 then 0 else if len == 2 then 0x40 else if len == 4 then 0x80 else 0xc0
  }

  function PutVarint(v: nat): (b: Bytes)
    requires v <= MAX_VARINT
    ensures |b| == VarintLen(v)
  {
    var n := VarintLen(v);
    TopBits(v);
    var raw := BigEndian(v, n);
    [ClassBits(n) + raw[0]] + raw[1..]
  }

  /** Reads one integer from the front: its value and what follows it. */
  function GetVarint(b: Bytes): (r: Option<(nat, Bytes)>)
    ensures r.Some? ==> |r.value.1| < |b|
  {
    if b == [] then None
    else
      var n := if b[0] < 0x40 then 1 else if b[0] < 0x80 then 2 else if b[0] < 0xc0 then 4 else 8;
      if |b| < n then None
      else Some((FromBigEndian([b[0] % 0x40] + b[1..n]), b[n..]))
  }

  lemma Powers()
    ensures Pow256(1) == 0x100 && Pow256(2) == 0x1_0000 && Pow256(4) == 0x1_0000_0000
    ensures Pow256(8) == 0x1_0000_0000_0000_0000
  {
    assert Pow256(0) == 1;
    assert Pow256(1) == 0x100;
    assert Pow256(2) == 0x1_0000;
    assert Pow256(3) == 0x100_0000;
    assert Pow256(4) == 0x1_0000_0000;
    assert Pow256(5) == 0x100_0000_0000;
    assert Pow256(6) == 0x1_0000_0000_0000;
    assert Pow256(7) == 0x100_0000_0000_0000;
  }

  lemma {:induction false} FirstByte(v: nat, n: nat, k: nat)
    requires 0 < n && v < k * Pow256(n - 1) && k <= 256
    ensures BigEndian(v, n)[0] < k
  {
    if n > 1 {
      assert k * Pow256(n - 1) == 256 * (k * Pow256(n - 2));
      FirstByte(v / 256, n - 1, k);
    }
  }

  /** The length class leaves the two top bits of the first byte free. */
  lemma TopBits(v: nat)
    requires v <= MAX_VARINT
    ensures BigEndian(v, VarintLen(v))[0] < 0x40 && v < Pow256(VarintLen(v))
  {
    Powers();
    assert Pow256(0) == 1 && Pow256(3) == 0x100_0000 && Pow256(7) == 0x100_0000_0000_0000;
    FirstByte(v, VarintLen(v), 0x40);
  }

  lemma VarintRoundTrip(v: nat, rest: Bytes)
    requires v <= MAX_VARINT
    ensures GetVarint(PutVarint(v) + rest) == Some((v, rest))
  {
    var n := VarintLen(v);
    var raw := BigEndian(v, n);
    var b := PutVarint(v) + rest;
    TopBits(v);
    assert b[0] % 0x40 == raw[0];
    assert [raw[0]] + b[1..n] == raw;
    BigEndianRoundTrip(v, n);
    assert b[n..] == rest;
  }
}
