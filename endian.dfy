/**
 * The byte-order helpers of dmslite_utils.h.
 *
 * `Convert{16,32,64}DataBig2Little` rebuild an unsigned integer from the
 * N/8 bytes of a big-endian (wire order) buffer, one byte at a time;
 * `Convert{16,32,64}DataLittle2Big` copy the N/8 bytes of a value into an
 * output buffer in reverse order.  Values are unbounded integers here: each
 * shift `(uintN_t)b << bits` in the source moves a byte into bits that the
 * type still holds, so it is `b * 2^bits`, and each `|=` adds a byte into
 * bits that are still zero, so it is an addition.
 */
module Endian {

  /** uint8_t */
  type Byte = b: int | 0 <= b < 0x100

  // Byte offsets (ONE_BITE .. SEVEN_BITE).
  const OneByte: nat := 1
  const TwoBytes: nat := 2
  const ThreeBytes: nat := 3
  const FourBytes: nat := 4
  const FiveBytes: nat := 5
  const SixBytes: nat := 6
  const SevenBytes: nat := 7

  // Shift widths (BITS_NUM_OF_PER_BITE .. BITS_NUM_OF_SEVEN_BITE).
  const BitsPerByte: nat := 8
  const BitsOfTwoBytes: nat := BitsPerByte * TwoBytes
  const BitsOfThreeBytes: nat := BitsPerByte * ThreeBytes
  const BitsOfFourBytes: nat := BitsPerByte * FourBytes
  const BitsOfFiveBytes: nat := BitsPerByte * FiveBytes
  const BitsOfSixBytes: nat := BitsPerByte * SixBytes
  const BitsOfSevenBytes: nat := BitsPerByte * SevenBytes

  function Pow2(n: nat): nat {
    if n == 0 then 1 else 2 * Pow2(n - 1)
  }

  function Pow256(n: nat): (p: nat)
    ensures p >= 1
  {
    if n == 0 then 1 else 0x100 * Pow256(n - 1)
  }

  /** `(uintN_t)x << bits`, for an `x` whose shifted value still fits. */
  function ShiftLeft(x: nat, bits: nat): nat {
    x * Pow2(bits)
  }

  // ---------------------------------------------------------------------
  // Reference definitions of the two byte orders

  /** The number a big-endian byte string denotes: the first byte weighs most. */
  function BigEndianValue(s: seq<Byte>): nat {
    if |s| == 0 then 0 else s[0] * Pow256(|s| - 1) + BigEndianValue(s[1..])
  }

  /** Byte number `j` of `v`, counted from the least significant one. */
  function ByteAt(v: nat, j: nat): Byte {
    (v / Pow256(j)) % 0x100
  }

  /** The `n` bytes of `v` in wire order (most significant first). */
  function BigEndianBytes(v: nat, n: nat): seq<Byte> {
    seq(n, k requires 0 <= k < n => ByteAt(v, n - 1 - k))
  }

  /** The `n` bytes of `v` as a little-endian host stores them in memory. */
  function LittleEndianBytes(v: nat, n: nat): seq<Byte> {
    seq(n, k requires 0 <= k < n => ByteAt(v, k))
  }

  /** `s` back to front. */
  function Reversed<T>(s: seq<T>): (r: seq<T>)
    ensures |r| == |s|
  {
    if |s| == 0 then [] else [s[|s| - 1]] + Reversed(s[..|s| - 1])
  }

  // ---------------------------------------------------------------------
  // Big2Little: wire bytes to a value

  /** Convert16DataBig2Little: the value of the first two bytes of `dataIn`. */
  function Convert16DataBig2Little(dataIn: seq<Byte>): (value: nat)
    requires |dataIn| >= TwoBytes
    ensures value == BigEndianValue(dataIn[..TwoBytes])
  {
    Pow2OfBytes(1);
    var s := dataIn[..TwoBytes];
    assert s[1..][1..] == [];
    assert BigEndianValue(s[1..]) == (s[1] as int) * Pow256(0) + BigEndianValue(s[1..][1..]);
    ShiftLeft(dataIn[0], BitsPerByte)
    + dataIn[OneByte]
  }

  /** Convert32DataBig2Little: the value of the first four bytes of `dataIn`. */
  function Convert32DataBig2Little(dataIn: seq<Byte>): (value: nat)
    requires |dataIn| >= FourBytes
    ensures value == BigEndianValue(dataIn[..FourBytes])
  {
    Pow2OfBytes(1); Pow2OfBytes(2); Pow2OfBytes(3);
    Pow256Values();
    BigEndianValueSum4(dataIn[..FourBytes]);
    ShiftLeft(dataIn[0], BitsOfThreeBytes)
    + ShiftLeft(dataIn[OneByte], BitsOfTwoBytes)
    + ShiftLeft(dataIn[TwoBytes], BitsPerByte)
    + dataIn[ThreeBytes]
  }

  /** Convert64DataBig2Little: the value of the first eight bytes of `dataIn`. */
  function Convert64DataBig2Little(dataIn: seq<Byte>): (value: nat)
    requires |dataIn| >= 8
    ensures value == BigEndianValue(dataIn[..8])
  {
    Pow2OfBytes(1); Pow2OfBytes(2); Pow2OfBytes(3); Pow2OfBytes(4);
    Pow2OfBytes(5); Pow2OfBytes(6); Pow2OfBytes(7);
    Pow256Values();
    BigEndianValueSum4(dataIn[..8][4..]);
    BigEndianValueSplit4(dataIn[..8]);
    ShiftLeft(dataIn[0], BitsOfSevenBytes)
    + ShiftLeft(dataIn[OneByte], BitsOfSixBytes)
    + ShiftLeft(dataIn[TwoBytes], BitsOfFiveBytes)
    + ShiftLeft(dataIn[ThreeBytes], BitsOfFourBytes)
    + ShiftLeft(dataIn[FourBytes], BitsOfThreeBytes)
    + ShiftLeft(dataIn[FiveBytes], BitsOfTwoBytes)
    + ShiftLeft(dataIn[SixBytes], BitsPerByte)
    + dataIn[SevenBytes]
  }

  // ---------------------------------------------------------------------
  // Little2Big: a value's bytes written reversed into a caller's buffer

  /**
   * Convert16DataLittle2Big: writes the two bytes of `dataIn` reversed into
   * `dataOut[at..at + 2]` (the output pointer advances by one per byte) and
   * leaves every other byte of `dataOut` alone.
   */
  method Convert16DataLittle2Big(dataIn: seq<Byte>, dataOut: array<Byte>, at: nat)
    requires |dataIn| >= TwoBytes && at + TwoBytes <= dataOut.Length
    modifies dataOut
    ensures dataOut[at..at + TwoBytes] == Reversed(dataIn[..TwoBytes])
    ensures forall k :: 0 <= k < dataOut.Length && !(at <= k < at + TwoBytes) ==> dataOut[k] == old(dataOut[k])
  {
    var p := at;
    dataOut[p] := dataIn[OneByte]; p := p + 1;
    dataOut[p] := dataIn[0];
    ReversedAt(dataIn[..TwoBytes]);
  }

  /** Convert32DataLittle2Big: as above for four bytes. */
  method Convert32DataLittle2Big(dataIn: seq<Byte>, dataOut: array<Byte>, at: nat)
    requires |dataIn| >= FourBytes && at + FourBytes <= dataOut.Length
    modifies dataOut
    ensures dataOut[at..at + FourBytes] == Reversed(dataIn[..FourBytes])
    ensures forall k :: 0 <= k < dataOut.Length && !(at <= k < at + FourBytes) ==> dataOut[k] == old(dataOut[k])
  {
    var p := at;
    dataOut[p] := dataIn[ThreeBytes]; p := p + 1;
    dataOut[p] := dataIn[TwoBytes]; p := p + 1;
    dataOut[p] := dataIn[OneByte]; p := p + 1;
    dataOut[p] := dataIn[0];
    ReversedAt(dataIn[..FourBytes]);
  }

  /** Convert64DataLittle2Big: as above for eight bytes. */
  method Convert64DataLittle2Big(dataIn: seq<Byte>, dataOut: array<Byte>, at: nat)
    requires |dataIn| >= 8 && at + 8 <= dataOut.Length
    modifies dataOut
    ensures dataOut[at..at + 8] == Reversed(dataIn[..8])
    ensures forall k :: 0 <= k < dataOut.Length && !(at <= k < at + 8) ==> dataOut[k] == old(dataOut[k])
  {
    var p := at;
    dataOut[p] := dataIn[SevenBytes]; p := p + 1;
    dataOut[p] := dataIn[SixBytes]; p := p + 1;
    dataOut[p] := dataIn[FiveBytes]; p := p + 1;
    dataOut[p] := dataIn[FourBytes]; p := p + 1;
    dataOut[p] := dataIn[ThreeBytes]; p := p + 1;
    dataOut[p] := dataIn[TwoBytes]; p := p + 1;
    dataOut[p] := dataIn[OneByte]; p := p + 1;
    dataOut[p] := dataIn[0];
    ReversedAt(dataIn[..8]);
  }

  // ---------------------------------------------------------------------
  // Arithmetic facts

  lemma {:induction false} Pow2Add(a: nat, b: nat)
    ensures Pow2(a + b) == Pow2(a) * Pow2(b)
  {
    if b > 0 {
      Pow2Add(a, b - 1);
      calc {
        Pow2(a + b);
        2 * Pow2(a + b - 1);
        2 * (Pow2(a) * Pow2(b - 1));
        Pow2(a) * (2 * Pow2(b - 1));
      }
    }
  }

  /** Shifting by `8 * n` bits is multiplying by 256^n. */
  lemma {:induction false} Pow2OfBytes(n: nat)
    ensures Pow2(BitsPerByte * n) == Pow256(n)
  {
    if n > 0 {
      Pow2OfBytes(n - 1);
      Pow2Add(BitsPerByte * (n - 1), BitsPerByte);
      assert BitsPerByte * (n - 1) + BitsPerByte == BitsPerByte * n;
      assert Pow2(8) == 0x100;
    }
  }

  lemma MulMonotone(a: int, b: int, c: int)
    requires a <= b && c >= 0
    ensures a * c <= b * c
  {
  }

  lemma ZeroFromBounds(a: int, d: int)
    requires d > 0 && -d < a * d < d
    ensures a == 0
  {
    if a >= 1 {
      MulMonotone(1, a, d);
    } else if a <= -1 {
      MulMonotone(a, -1, d);
    }
  }

  /** Euclidean division has a unique quotient and remainder. */
  lemma DivModUnique(x: int, d: int, q: int, r: int)
    requires d > 0 && 0 <= r < d && x == q * d + r
    ensures x / d == q && x % d == r
  {
    var q', r' := x / d, x % d;
    assert (q - q') * d == r' - r;
    ZeroFromBounds(q - q', d);
  }

  /** v mod (a*b) splits into the digit above `a` and the rest below `a`. */
  lemma ModSplit(v: nat, a: nat, b: nat)
    requires a > 0 && b > 0
    ensures v % (a * b) == ((v / a) % b) * a + v % a
  {
    var q, r := v / a, v % a;
    var q2, r2 := q / b, q % b;
    assert q * a == (q2 * b + r2) * a;
    assert (q2 * b + r2) * a == q2 * (a * b) + r2 * a;
    MulMonotone(r2, b - 1, a);
    assert (b - 1) * a == a * b - a;
    DivModUnique(v, a * b, q2, r2 * a + r);
  }

  // ---------------------------------------------------------------------
  // Properties of the reference definitions

  /** Reversing puts byte `k` at position `|s| - 1 - k`. */
  lemma {:induction false} ReversedAt<T>(s: seq<T>)
    ensures |Reversed(s)| == |s|
    ensures forall k :: 0 <= k < |s| ==> Reversed(s)[k] == s[|s| - 1 - k]
  {
    if |s| > 0 {
      var init := s[..|s| - 1];
      ReversedAt(init);
      forall k | 0 <= k < |s| ensures Reversed(s)[k] == s[|s| - 1 - k] {
        if k > 0 {
          assert Reversed(s)[k] == Reversed(init)[k - 1];
        }
      }
    }
  }

  /** Reversing twice gives the input back: Little2Big applied twice is the identity. */
  lemma ReversedTwice<T>(s: seq<T>)
    ensures Reversed(Reversed(s)) == s
  {
    ReversedAt(s);
    ReversedAt(Reversed(s));
  }

  /** The bytes a little-endian host stores are the wire bytes back to front. */
  lemma LittleEndianReversedIsBigEndian(v: nat, n: nat)
    ensures Reversed(LittleEndianBytes(v, n)) == BigEndianBytes(v, n)
  {
    ReversedAt(LittleEndianBytes(v, n));
  }

  /** A big-endian byte string of length n denotes a number below 256^n. */
  lemma {:induction false} BigEndianValueBound(s: seq<Byte>)
    ensures BigEndianValue(s) < Pow256(|s|)
  {
    if |s| > 0 {
      var p := Pow256(|s| - 1);
      BigEndianValueBound(s[1..]);
      MulMonotone(s[0], 0xFF, p);
    }
  }

  /** Encoding n bytes big-endian and decoding them keeps v modulo 256^n. */
  lemma {:induction false} BigEndianBytesValue(v: nat, n: nat)
    ensures BigEndianValue(BigEndianBytes(v, n)) == v % Pow256(n)
  {
    if n > 0 {
      var s := BigEndianBytes(v, n);
      var p := Pow256(n - 1);
      assert s[1..] == BigEndianBytes(v, n - 1);
      BigEndianBytesValue(v, n - 1);
      assert BigEndianValue(s) == ByteAt(v, n - 1) * p + v % p;
      ModSplit(v, p, 0x100);
      assert p * 0x100 == Pow256(n);
    }
  }

  /** Two byte strings of equal length with the same big-endian value are equal. */
  lemma {:induction false} BigEndianValueInjective(s: seq<Byte>, t: seq<Byte>)
    requires |s| == |t| && BigEndianValue(s) == BigEndianValue(t)
    ensures s == t
  {
    if |s| > 0 {
      var p := Pow256(|s| - 1);
      var x := BigEndianValue(s);
      BigEndianValueBound(s[1..]);
      BigEndianValueBound(t[1..]);
      DivModUnique(x, p, s[0], BigEndianValue(s[1..]));
      DivModUnique(x, p, t[0], BigEndianValue(t[1..]));
      BigEndianValueInjective(s[1..], t[1..]);
      assert s == [s[0]] + s[1..];
      assert t == [t[0]] + t[1..];
    }
  }

  /** Decoding then re-encoding big-endian reproduces the bytes. */
  lemma BigEndianValueBytes(s: seq<Byte>)
    ensures BigEndianBytes(BigEndianValue(s), |s|) == s
  {
    var v := BigEndianValue(s);
    BigEndianBytesValue(v, |s|);
    BigEndianValueBound(s);
    DivModUnique(v, Pow256(|s|), 0, v);
    BigEndianValueInjective(BigEndianBytes(v, |s|), s);
  }

  /** Encoding then decoding a value that fits in n bytes gives it back. */
  lemma BigEndianRoundTrip(v: nat, n: nat)
    requires v < Pow256(n)
    ensures BigEndianValue(BigEndianBytes(v, n)) == v
  {
    BigEndianBytesValue(v, n);
    DivModUnique(v, Pow256(n), 0, v);
  }

  lemma Pow256Values()
    ensures Pow256(1) == 0x100 && Pow256(2) == 0x1_0000 && Pow256(3) == 0x100_0000
    ensures Pow256(4) == 0x1_0000_0000 && Pow256(5) == 0x100_0000_0000
    ensures Pow256(6) == 0x1_0000_0000_0000 && Pow256(7) == 0x100_0000_0000_0000
    ensures Pow256(8) == 0x1_0000_0000_0000_0000
  {
  }

  // ---------------------------------------------------------------------
  // The Big2Little helpers decode big-endian

  /** Convert16DataBig2Little yields in[0]*256 + in[1], the big-endian value, below 2^16. */
  lemma Convert16DataBig2LittleValue(dataIn: seq<Byte>)
    requires |dataIn| >= TwoBytes
    ensures Convert16DataBig2Little(dataIn) == (dataIn[0] as int) * 0x100 + dataIn[1]
    ensures Convert16DataBig2Little(dataIn) == BigEndianValue(dataIn[..TwoBytes])
    ensures Convert16DataBig2Little(dataIn) < 0x1_0000
  {
    Pow2OfBytes(1);
    var s := dataIn[..TwoBytes];
    assert s[1..][1..] == [];
    assert BigEndianValue(s[1..]) == (s[1] as int) * Pow256(0) + BigEndianValue(s[1..][1..]);
  }

  /** Convert32DataBig2Little yields the sum of in[i] * 256^(3-i), below 2^32. */
  lemma Convert32DataBig2LittleValue(dataIn: seq<Byte>)
    requires |dataIn| >= FourBytes
    ensures Convert32DataBig2Little(dataIn)
         == (dataIn[0] as int) * 0x100_0000 + (dataIn[1] as int) * 0x1_0000 + (dataIn[2] as int) * 0x100 + dataIn[3]
    ensures Convert32DataBig2Little(dataIn) == BigEndianValue(dataIn[..FourBytes])
    ensures Convert32DataBig2Little(dataIn) < 0x1_0000_0000
  {
    Pow2OfBytes(1); Pow2OfBytes(2); Pow2OfBytes(3);
    Pow256Values();
    var s := dataIn[..FourBytes];
    BigEndianValueSum4(s);
  }

  /** Convert64DataBig2Little yields the sum of in[i] * 256^(7-i), below 2^64. */
  lemma Convert64DataBig2LittleValue(dataIn: seq<Byte>)
    requires |dataIn| >= 8
    ensures Convert64DataBig2Little(dataIn)
         == (dataIn[0] as int) * 0x100_0000_0000_0000 + (dataIn[1] as int) * 0x1_0000_0000_0000
          + (dataIn[2] as int) * 0x100_0000_0000 + (dataIn[3] as int) * 0x1_0000_0000
          + (dataIn[4] as int) * 0x100_0000 + (dataIn[5] as int) * 0x1_0000 + (dataIn[6] as int) * 0x100 + dataIn[7]
    ensures Convert64DataBig2Little(dataIn) == BigEndianValue(dataIn[..8])
    ensures Convert64DataBig2Little(dataIn) < 0x1_0000_0000_0000_0000
  {
    Pow2OfBytes(1); Pow2OfBytes(2); Pow2OfBytes(3); Pow2OfBytes(4);
    Pow2OfBytes(5); Pow2OfBytes(6); Pow2OfBytes(7);
    Pow256Values();
    var s := dataIn[..8];
    BigEndianValueSum4(s[4..]);
    BigEndianValueSplit4(s);
  }

  lemma BigEndianValueSum4(s: seq<Byte>)
    requires |s| == 4
    ensures BigEndianValue(s) == (s[0] as int) * 0x100_0000 + (s[1] as int) * 0x1_0000 + (s[2] as int) * 0x100 + s[3]
  {
    Pow256Values();
    assert BigEndianValue(s[3..]) == s[3] by {
      assert s[3..][1..] == [];
    }
    assert BigEndianValue(s[2..]) == (s[2] as int) * 0x100 + BigEndianValue(s[3..]) by {
      assert s[2..][1..] == s[3..];
    }
    assert BigEndianValue(s[1..]) == (s[1] as int) * 0x1_0000 + BigEndianValue(s[2..]) by {
      assert s[1..][1..] == s[2..];
    }
  }

  lemma BigEndianValueSplit4(s: seq<Byte>)
    requires |s| == 8
    ensures BigEndianValue(s)
         == (s[0] as int) * 0x100_0000_0000_0000 + (s[1] as int) * 0x1_0000_0000_0000
          + (s[2] as int) * 0x100_0000_0000 + (s[3] as int) * 0x1_0000_0000 + BigEndianValue(s[4..])
  {
    Pow256Values();
    assert BigEndianValue(s[3..]) == (s[3] as int) * 0x1_0000_0000 + BigEndianValue(s[4..]) by {
      assert s[3..][1..] == s[4..];
    }
    assert BigEndianValue(s[2..]) == (s[2] as int) * 0x100_0000_0000 + BigEndianValue(s[3..]) by {
      assert s[2..][1..] == s[3..];
    }
    assert BigEndianValue(s[1..]) == (s[1] as int) * 0x1_0000_0000_0000 + BigEndianValue(s[2..]) by {
      assert s[1..][1..] == s[2..];
    }
  }

  // ---------------------------------------------------------------------
  // Round trips through the helpers

  /**
   * For every 16-bit value v: its little-endian host bytes, reversed by
   * Little2Big, decode to v with Big2Little, and decoding then re-encoding
   * wire bytes gives the bytes back.
   */
  lemma RoundTrip16(v: nat, wire: seq<Byte>)
    requires v < 0x1_0000 && |wire| == TwoBytes
    ensures Convert16DataBig2Little(Reversed(LittleEndianBytes(v, TwoBytes))) == v
    ensures BigEndianBytes(Convert16DataBig2Little(wire), TwoBytes) == wire
  {
    Pow256Values();
    LittleEndianReversedIsBigEndian(v, TwoBytes);
    var s := BigEndianBytes(v, TwoBytes);
    Convert16DataBig2LittleValue(s);
    assert s[..TwoBytes] == s;
    BigEndianRoundTrip(v, TwoBytes);
    Convert16DataBig2LittleValue(wire);
    assert wire[..TwoBytes] == wire;
    BigEndianValueBytes(wire);
  }

  /** The same two round trips for 32-bit values. */
  lemma RoundTrip32(v: nat, wire: seq<Byte>)
    requires v < 0x1_0000_0000 && |wire| == FourBytes
    ensures Convert32DataBig2Little(Reversed(LittleEndianBytes(v, FourBytes))) == v
    ensures BigEndianBytes(Convert32DataBig2Little(wire), FourBytes) == wire
  {
    Pow256Values();
    LittleEndianReversedIsBigEndian(v, FourBytes);
    var s := BigEndianBytes(v, FourBytes);
    Convert32DataBig2LittleValue(s);
    assert s[..FourBytes] == s;
    BigEndianRoundTrip(v, FourBytes);
    Convert32DataBig2LittleValue(wire);
    assert wire[..FourBytes] == wire;
    BigEndianValueBytes(wire);
  }

  /** The same two round trips for 64-bit values. */
  lemma RoundTrip64(v: nat, wire: seq<Byte>)
    requires v < 0x1_0000_0000_0000_0000 && |wire| == 8
    ensures Convert64DataBig2Little(Reversed(LittleEndianBytes(v, 8))) == v
    ensures BigEndianBytes(Convert64DataBig2Little(wire), 8) == wire
  {
    Pow256Values();
    LittleEndianReversedIsBigEndian(v, 8);
    var s := BigEndianBytes(v, 8);
    Convert64DataBig2LittleValue(s);
    assert s[..8] == s;
    BigEndianRoundTrip(v, 8);
    Convert64DataBig2LittleValue(wire);
    assert wire[..8] == wire;
    BigEndianValueBytes(wire);
  }
}
