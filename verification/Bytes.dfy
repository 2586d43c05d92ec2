/** Byte strings, big-endian numbers and length frames. */
module Bytes {
  newtype byte = x: int | 0 <= x < 256

  function Pow256(n: nat): (p: nat)
    ensures p > 0
  {
    if n == 0 then 1 else 256 * Pow256(n - 1)
  }

  function BigEndian(n: nat, v: nat): (s: seq<byte>)
    ensures |s| == n
  {
    if n == 0 then [] else BigEndian(n - 1, v / 256) + [(v % 256) as byte]
  }

  function Number(s: seq<byte>): (v: nat)
    ensures v < Pow256(|s|)
  {
    if s == [] then 0 else Number(s[..|s| - 1]) * 256 + s[|s| - 1] as nat
  }

  lemma {:induction false} NumberOfBigEndian(n: nat, v: nat)
    requires v < Pow256(n)
    ensures Number(BigEndian(n, v)) == v
  {
    if n > 0 {
      var s := BigEndian(n, v);
      assert s[..n - 1] == BigEndian(n - 1, v / 256);
      assert v / 256 < Pow256(n - 1);
      NumberOfBigEndian(n - 1, v / 256);
    }
  }

  lemma {:induction false} BigEndianOfNumber(s: seq<byte>)
    ensures BigEndian(|s|, Number(s)) == s
  {
    if s != [] {
      var v := Number(s);
      assert v / 256 == Number(s[..|s| - 1]) && v % 256 == s[|s| - 1] as nat;
      BigEndianOfNumber(s[..|s| - 1]);
      assert s == s[..|s| - 1] + [s[|s| - 1]];
    }
  }

  lemma BigEndianInjective(n: nat, v: nat, w: nat)
    requires v < Pow256(n) && w < Pow256(n) && BigEndian(n, v) == BigEndian(n, w)
    ensures v == w
  {
    NumberOfBigEndian(n, v);
    NumberOfBigEndian(n, w);
  }

  lemma Powers()
    ensures Pow256(2) == 0x1_0000 && Pow256(4) == 0x1_0000_0000 && Pow256(8) == 0x1_0000_0000_0000_0000
  {
    assert Pow256(0) == 1 && Pow256(1) == 256 && Pow256(2) == 256 * 256 && Pow256(3) == 256 * 256 * 256;
    assert Pow256(4) == 0x1_0000_0000 && Pow256(5) == 0x100_0000_0000 && Pow256(6) == 0x1_0000_0000_0000;
    assert Pow256(7) == 0x100_0000_0000_0000;
  }

  // ----- signed 64-bit numbers -----

  const TWO63: int := 0x8000_0000_0000_0000
  const TWO64: int := 0x1_0000_0000_0000_0000

  predicate Int64(v: int) { -TWO63 <= v < TWO63 }

  /** The bits of a signed number as an unsigned one, and back. */
  function Unsigned(v: int): nat
    requires Int64(v)
  {
    if v < 0 then v + TWO64 else v
  }

  function Signed(u: nat): (v: int)
    requires u < TWO64
    ensures Int64(v) && Unsigned(v) == u
  {
    if u < TWO63 then u else u - TWO64
  }

  function PutInt64(v: int): seq<byte>
    requires Int64(v)
  {
    BigEndian(8, Unsigned(v))
  }

  function GetInt64(s: seq<byte>): int
    requires |s| == 8
  {
    Powers();
    Signed(Number(s))
  }

  lemma Int64RoundTrip(v: int)
    requires Int64(v)
    ensures GetInt64(PutInt64(v)) == v
  {
    Powers();
    NumberOfBigEndian(8, Unsigned(v));
  }

  lemma BytesRoundTrip(s: seq<byte>)
    requires |s| == 8
    ensures PutInt64(GetInt64(s)) == s
  {
    Powers();
    BigEndianOfNumber(s);
  }

  // ----- frames -----

  /** A value behind its length in n big-endian bytes. */
  function Frame(n: nat, value: seq<byte>): seq<byte> { BigEndian(n, |value|) + value }

  /** Equal concatenations whose first parts have equal length have equal parts. */
  lemma SplitAt(a: seq<byte>, x: seq<byte>, b: seq<byte>, y: seq<byte>)
    requires a + x == b + y && |a| == |b|
    ensures a == b && x == y
  {
    assert a == (a + x)[..|a|] && b == (b + y)[..|b|];
    assert x == (a + x)[|a|..] && y == (b + y)[|b|..];
  }

  /** A framed value can be split off the front of anything. */
  lemma FrameSplits(n: nat, a: seq<byte>, x: seq<byte>, b: seq<byte>, y: seq<byte>)
    requires |a| < Pow256(n) && |b| < Pow256(n) && Frame(n, a) + x == Frame(n, b) + y
    ensures a == b && x == y
  {
    assert Frame(n, a) + x == BigEndian(n, |a|) + (a + x) && Frame(n, b) + y == BigEndian(n, |b|) + (b + y);
    SplitAt(BigEndian(n, |a|), a + x, BigEndian(n, |b|), b + y);
    BigEndianInjective(n, |a|, |b|);
    SplitAt(a, x, b, y);
  }

  /** The bytes of an ASCII text. */
  function Ascii(s: string): (b: seq<byte>)
    requires forall i :: 0 <= i < |s| ==> s[i] < '\U{0080}'
    ensures |b| == |s| && forall i :: 0 <= i < |s| ==> b[i] == s[i] as int as byte
  {
    seq(|s|, i requires 0 <= i < |s| => s[i] as int as byte)
  }
}
