/** The fixed-width fields the stake layouts are built from: raw bytes, 32-byte
    public keys, and the little-endian integers Int32ul, Int64ul and Int64sl
    of the binary layout library. */
module Primitives {

  /** One byte of wire data. */
  type byte = b: int | 0 <= b < 256

  /** A public key as the layouts see it: exactly its 32 raw bytes. */
  type PublicKey = k: seq<byte> | |k| == 32 witness seq(32, _ => 0)

  datatype Option<T> = None | Some(value: T)

  datatype Result<T, E> = Ok(value: T) | Err(error: E)

  /** 256 to the power n: the number of values n bytes can hold. */
  function Pow256(n: nat): (p: nat)
    ensures p > 0
  {
    if n == 0 then 1 else 256 * Pow256(n - 1)
  }

  const U32_LIMIT: nat := 0x1_0000_0000
  const U64_LIMIT: nat := 0x1_0000_0000_0000_0000
  const I64_MIN: int := -0x8000_0000_0000_0000
  const I64_LIMIT: int := 0x8000_0000_0000_0000

  lemma LimitsArePowers()
    ensures Pow256(4) == U32_LIMIT
    ensures Pow256(8) == U64_LIMIT
  {
    calc {
      Pow256(8);
      256 * Pow256(7);
      256 * (256 * Pow256(6));
      256 * (256 * (256 * Pow256(5)));
      256 * (256 * (256 * (256 * Pow256(4))));
    }
    calc {
      Pow256(4);
      256 * Pow256(3);
      256 * (256 * Pow256(2));
      256 * (256 * (256 * Pow256(1)));
    }
  }

  /** x written as `width` bytes, least significant byte first. */
  function EncodeUnsigned(x: nat, width: nat): (s: seq<byte>)
    requires x < Pow256(width)
    ensures |s| == width
  {
    if width == 0 then []
    else [x % 256] + EncodeUnsigned(x / 256, width - 1)
  }

  /** The unsigned value of a little-endian byte string. */
  function DecodeUnsigned(s: seq<byte>): (x: nat)
    ensures x < Pow256(|s|)
  {
    if s == [] then 0
    else
      var rest := DecodeUnsigned(s[1..]);
      assert rest <= Pow256(|s| - 1) - 1;
      assert 256 * rest <= 256 * Pow256(|s| - 1) - 256;
      s[0] + 256 * rest
  }

  lemma {:induction false} DecodeEncodeUnsigned(x: nat, width: nat)
    requires x < Pow256(width)
    ensures DecodeUnsigned(EncodeUnsigned(x, width)) == x
  {
    if width > 0 {
      DecodeEncodeUnsigned(x / 256, width - 1);
      var s := EncodeUnsigned(x, width);
      assert s[1..] == EncodeUnsigned(x / 256, width - 1);
    }
  }

  lemma {:induction false} EncodeDecodeUnsigned(s: seq<byte>)
    ensures EncodeUnsigned(DecodeUnsigned(s), |s|) == s
  {
    if s != [] {
      EncodeDecodeUnsigned(s[1..]);
      var x := DecodeUnsigned(s);
      assert x % 256 == s[0];
      assert x / 256 == DecodeUnsigned(s[1..]);
    }
  }

  /** Two little-endian byte strings of one width are equal exactly when their values are. */
  lemma DecodeUnsignedInjective(s: seq<byte>, t: seq<byte>)
    requires |s| == |t|
    ensures DecodeUnsigned(s) == DecodeUnsigned(t) <==> s == t
  {
    if DecodeUnsigned(s) == DecodeUnsigned(t) {
      EncodeDecodeUnsigned(s);
      EncodeDecodeUnsigned(t);
    }
  }

  /** The top byte of a little-endian string weighs 256^(n-1). */
  lemma {:induction false} DecodeUnsignedLast(s: seq<byte>)
    requires |s| > 0
    ensures DecodeUnsigned(s) == DecodeUnsigned(s[..|s| - 1]) + Pow256(|s| - 1) * s[|s| - 1]
  {
    if |s| > 1 {
      DecodeUnsignedLast(s[1..]);
      assert s[1..][..|s| - 2] == s[..|s| - 1][1..];
    }
  }

  predicate IsU32(x: int) { 0 <= x < U32_LIMIT }

  predicate IsU64(x: int) { 0 <= x < U64_LIMIT }

  predicate IsI64(x: int) { I64_MIN <= x < I64_LIMIT }

  /** Int32ul: a 4-byte unsigned little-endian field. */
  function U32Le(x: int): (s: seq<byte>)
    requires IsU32(x)
    ensures |s| == 4 && DecodeUnsigned(s) == x
  {
    LimitsArePowers();
    DecodeEncodeUnsigned(x, 4);
    EncodeUnsigned(x, 4)
  }

  /** Int64ul: an 8-byte unsigned little-endian field. */
  function U64Le(x: int): (s: seq<byte>)
    requires IsU64(x)
    ensures |s| == 8 && DecodeUnsigned(s) == x
  {
    LimitsArePowers();
    DecodeEncodeUnsigned(x, 8);
    EncodeUnsigned(x, 8)
  }

  /** Int64sl: an 8-byte two's-complement little-endian field. */
  function I64Le(v: int): (s: seq<byte>)
    requires IsI64(v)
    ensures |s| == 8
    ensures DecodeUnsigned(s) == if v < 0 then v + U64_LIMIT else v
  {
    U64Le(if v < 0 then v + U64_LIMIT else v)
  }

  /** Reads an 8-byte two's-complement little-endian field. */
  function I64FromLe(s: seq<byte>): (v: int)
    requires |s| == 8
    ensures IsI64(v)
  {
    LimitsArePowers();
    var u := DecodeUnsigned(s);
    if u < I64_LIMIT then u else u - U64_LIMIT
  }

  lemma I64RoundTrip(v: int)
    requires IsI64(v)
    ensures I64FromLe(I64Le(v)) == v
  {
  }

  lemma I64RoundTripBytes(s: seq<byte>)
    requires |s| == 8
    ensures I64Le(I64FromLe(s)) == s
  {
    var v := I64FromLe(s);
    DecodeUnsignedInjective(I64Le(v), s);
  }

  /** The sign of an Int64sl value is the top bit of its last byte. */
  lemma I64SignBit(v: int)
    requires IsI64(v)
    ensures v < 0 <==> I64Le(v)[7] >= 128
  {
    var s := I64Le(v);
    DecodeUnsignedLast(s);
    LimitsArePowers();
    var low := DecodeUnsigned(s[..7]);
    assert low < Pow256(7);
    assert Pow256(7) * 128 == I64_LIMIT by {
      assert Pow256(8) == 256 * Pow256(7);
    }
    if s[7] >= 128 {
      assert Pow256(7) * s[7] >= Pow256(7) * 128;
    } else {
      assert Pow256(7) * s[7] <= Pow256(7) * 127;
    }
  }
}
