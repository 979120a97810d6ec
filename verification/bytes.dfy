/** The Python built-ins rsa.py uses to move between integers and bytes:
    `int.from_bytes(b, 'big')`, `v.to_bytes(len, 'big')` and `n.bit_length()`.
    They are the OS2IP and I2OSP conversions of sections 4.1 and 4.2 of RFC 8017. */
module Bytes {
  import opened Arith

  type byte = x: int | 0 <= x < 256

  /** int.from_bytes(b, byteorder='big'). */
  function FromBytes(b: seq<byte>): (v: nat)
    ensures v < Pow(256, |b|)
    decreases |b|
  {
    if |b| == 0 then 0
    else
      var w := FromBytes(b[..|b| - 1]);
      assert w * 256 + b[|b| - 1] < Pow(256, |b|) by {
        assert w + 1 <= Pow(256, |b| - 1);
        assert (w + 1) * 256 <= Pow(256, |b| - 1) * 256;
      }
      w * 256 + b[|b| - 1]
  }

  /** v.to_bytes(len, byteorder='big'); Python raises OverflowError when v does
      not fit, which no caller in the core lets happen. */
  function ToBytes(v: nat, len: nat): (b: seq<byte>)
    requires v < Pow(256, len)
    ensures |b| == len
    ensures FromBytes(b) == v
    decreases len
  {
    if len == 0 then []
    else
      assert v / 256 < Pow(256, len - 1) by {
        DivModUnique(v, 256, v / 256, v % 256);
        MulCancelBelow(256, Pow(256, len - 1), v / 256 + 1);
      }
      var b := ToBytes(v / 256, len - 1) + [v % 256];
      assert b[..len - 1] == ToBytes(v / 256, len - 1);
      b
  }

  /** Encoding is also a left inverse: fixed-length big-endian decoding is injective. */
  lemma {:induction false} ToBytesFromBytes(b: seq<byte>)
    ensures ToBytes(FromBytes(b), |b|) == b
    decreases |b|
  {
    if |b| > 0 {
      var init, last := b[..|b| - 1], b[|b| - 1];
      var v := FromBytes(b);
      assert v == FromBytes(init) * 256 + last;
      DivModUnique(v, 256, FromBytes(init), last);
      ToBytesFromBytes(init);
      assert b == init + [last];
    }
  }

  /** A leading zero byte does not change the value. */
  lemma {:induction false} FromBytesLeadingZero(b: seq<byte>)
    requires |b| >= 1 && b[0] == 0
    ensures FromBytes(b) == FromBytes(b[1..])
    decreases |b|
  {
    if |b| > 1 {
      var init := b[..|b| - 1];
      FromBytesLeadingZero(init);
      assert init[1..] == b[1..][..|b| - 2];
    }
  }

  /** n.bit_length(): the number of binary digits of n, 0 for n == 0. */
  function BitLength(n: nat): (r: nat)
    ensures n == 0 <==> r == 0
    ensures n < Pow(2, r)
    ensures n > 0 ==> Pow(2, r - 1) <= n
    decreases n
  {
    if n == 0 then 0
    else
      var r := 1 + BitLength(n / 2);
      assert Pow(2, r) == 2 * Pow(2, r - 1);
      r
  }

  /** (n.bit_length() + 7) // 8: the number of bytes n needs. */
  function ByteLength(n: nat): (r: nat)
    ensures r == 0 <==> n == 0
    ensures BitLength(n) <= 8 * r < BitLength(n) + 8
  {
    (BitLength(n) + 7) / 8
  }

  lemma PowOf256(k: nat)
    ensures Pow(256, k) == Pow(2, 8 * k)
  {
    PowMul(2, 8, k);
    assert Pow(2, 8) == 256;
  }

  /** n fits in ByteLength(n) bytes, and every value of ByteLength(n) - 1 bytes
      is below n: the bounds that make rsa.py's block sizes work. */
  lemma ByteLengthBounds(n: nat)
    requires n >= 1
    ensures n < Pow(256, ByteLength(n))
    ensures Pow(256, ByteLength(n) - 1) <= n
  {
    var bits, len := BitLength(n), ByteLength(n);
    PowOf256(len);
    PowMonotone(2, bits, 8 * len);
    PowOf256(len - 1);
    PowMonotone(2, 8 * (len - 1), bits - 1);
  }
}
