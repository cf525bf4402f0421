/** Bytes, and unsigned integers in little- and big-endian order (Go's encoding/binary). */
module Bytes {

  type Byte = x: int | 0 <= x < 256

  function Pow256(n: nat): nat {
    if n == 0 then 1 else 256 * Pow256(n - 1)
  }

  function ToLittle(u: nat, width: nat): (b: seq<Byte>)
    ensures |b| == width
  {
    if width == 0 then [] else [u % 256] + ToLittle(u / 256, width - 1)
  }

  function FromLittle(b: seq<Byte>): nat {
    if b == [] then 0 else b[0] as int + 256 * FromLittle(b[1..])
  }

  function ToBig(u: nat, width: nat): (b: seq<Byte>)
    ensures |b| == width
  {
    if width == 0 then [] else ToBig(u / 256, width - 1) + [u % 256]
  }

  function FromBig(b: seq<Byte>): nat {
    if b == [] then 0 else 256 * FromBig(b[..|b| - 1]) + b[|b| - 1] as int
  }

  // ---------- The byte orders spelled out ----------

  /** The number in two bytes, the low one first. */
  function U16(b: seq<Byte>, i: nat): nat
    requires i + 2 <= |b|
  {
    b[i] as int + 256 * b[i + 1] as int
  }

  /** The number in four bytes, the low one first. */
  function U32(b: seq<Byte>, i: nat): nat
    requires i + 4 <= |b|
  {
    b[i] as int + 0x100 * b[i + 1] as int + 0x1_0000 * b[i + 2] as int + 0x100_0000 * b[i + 3] as int
  }

  lemma OneByte(b: seq<Byte>, i: nat)
    requires i < |b|
    ensures FromLittle(b[i..i + 1]) == b[i]
  {
    assert b[i..i + 1] == [b[i]];
  }

  lemma TwoBytes(b: seq<Byte>, i: nat)
    requires i + 2 <= |b|
    ensures FromLittle(b[i..i + 2]) == U16(b, i)
  {
    assert b[i..i + 2][1..] == b[i + 1..i + 2];
    OneByte(b, i + 1);
  }

  lemma FourBytes(b: seq<Byte>, i: nat)
    requires i + 4 <= |b|
    ensures FromLittle(b[i..i + 4]) == U32(b, i)
  {
    assert b[i..i + 4][1..] == b[i + 1..i + 4] && b[i + 1..i + 4][1..] == b[i + 2..i + 4];
    TwoBytes(b, i + 2);
  }

  /** The upper half of eight bytes. */
  lemma UpperHalf(b: seq<Byte>, i: nat)
    requires i + 8 <= |b|
    ensures FromLittle(b[i + 4..i + 8]) < 0x1_0000_0000
    ensures FromLittle(b[i..i + 8]) / 0x1_0000_0000 == FromLittle(b[i + 4..i + 8])
  {
    var c := b[i..i + 8];
    assert c[1..] == b[i + 1..i + 8] && b[i + 1..i + 8][1..] == b[i + 2..i + 8];
    assert b[i + 2..i + 8][1..] == b[i + 3..i + 8] && b[i + 3..i + 8][1..] == b[i + 4..i + 8];
    FourBytes(b, i + 4);
    assert FromLittle(b[i + 3..i + 8]) == b[i + 3] as int + 256 * FromLittle(b[i + 4..i + 8]);
    assert FromLittle(b[i + 2..i + 8]) == b[i + 2] as int + 256 * FromLittle(b[i + 3..i + 8]);
    assert FromLittle(b[i + 1..i + 8]) == b[i + 1] as int + 256 * FromLittle(b[i + 2..i + 8]);
    assert FromLittle(c) == U32(b, i) + 0x1_0000_0000 * FromLittle(b[i + 4..i + 8]);
  }

  /** In big-endian order the same bytes count from the other end. */
  lemma FourBigBytes(b: seq<Byte>)
    requires |b| == 4
    ensures FromBig(b) == U32([b[3], b[2], b[1], b[0]], 0)
  {
    assert b[..2][..1] == b[..1] && b[..3][..2] == b[..2];
    assert FromBig(b[..1]) == b[0];
    assert FromBig(b[..2]) == 256 * FromBig(b[..1]) + b[1] as int;
    assert FromBig(b[..3]) == 256 * FromBig(b[..2]) + b[2] as int;
  }

  lemma {:induction false} LittleBound(b: seq<Byte>)
    ensures FromLittle(b) < Pow256(|b|)
  {
    if b != [] {
      LittleBound(b[1..]);
    }
  }

  lemma {:induction false} BigBound(b: seq<Byte>)
    ensures FromBig(b) < Pow256(|b|)
  {
    if b != [] {
      BigBound(b[..|b| - 1]);
    }
  }

  lemma {:induction false} LittleRoundTrip(u: nat, width: nat)
    requires u < Pow256(width)
    ensures FromLittle(ToLittle(u, width)) == u
  {
    if width > 0 {
      LittleRoundTrip(u / 256, width - 1);
      assert ToLittle(u, width)[1..] == ToLittle(u / 256, width - 1);
    }
  }

  lemma {:induction false} LittleOnto(b: seq<Byte>)
    ensures ToLittle(FromLittle(b), |b|) == b
  {
    if b != [] {
      LittleOnto(b[1..]);
      assert b == [b[0]] + b[1..];
      assert FromLittle(b) % 256 == b[0] && FromLittle(b) / 256 == FromLittle(b[1..]);
    }
  }

  lemma {:induction false} BigRoundTrip(u: nat, width: nat)
    requires u < Pow256(width)
    ensures FromBig(ToBig(u, width)) == u
  {
    if width > 0 {
      BigRoundTrip(u / 256, width - 1);
      assert ToBig(u, width)[..width - 1] == ToBig(u / 256, width - 1);
    }
  }

  lemma {:induction false} BigOnto(b: seq<Byte>)
    ensures ToBig(FromBig(b), |b|) == b
  {
    if b != [] {
      var n := |b| - 1;
      BigOnto(b[..n]);
      assert b == b[..n] + [b[n]];
      assert FromBig(b) % 256 == b[n] && FromBig(b) / 256 == FromBig(b[..n]);
    }
  }
}
