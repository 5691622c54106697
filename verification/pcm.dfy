/** Conversion of one audio sample to signed 16-bit PCM and the two-byte
    little-endian encoding that `DataView.setInt16(offset, value, true)`
    writes, as used by the audio worklet. */
module Pcm {

  type Byte = b: int | 0 <= b < 256

  /** One float32 sample of the worklet's input channel. Every finite float32
      is a real; multiplying it by 0x8000 or 0x7fff is exact in a double, so
      the product is the real product. `NonFinite` covers NaN and the two
      infinities, which ToInt16 sends to 0 whatever they are scaled by. */
  datatype Sample = Finite(value: real) | NonFinite

  predicate IsInt16(v: int) {
    -32768 <= v <= 32767
  }

  /** Truncation toward zero of a real (the `truncate` step of ToInt16). */
  function Trunc(x: real): (n: int)
    ensures 0.0 <= x ==> n as real <= x < n as real + 1.0
    ensures x < 0.0 ==> n as real - 1.0 < x <= n as real
  {
    if x >= 0.0 then x.Floor else -((-x).Floor)
  }

  /** Reduction of an integer to the signed 16-bit range modulo 2^16, the
      final step of ToInt16 (section 7.1.8 of ECMA-262). */
  function Wrap16(n: int): (r: int)
    ensures IsInt16(r)
    ensures (n - r) % 65536 == 0
    ensures IsInt16(n) ==> r == n
  {
    var m := n % 65536;
    if m >= 32768 then m - 65536 else m
  }

  /** The scaling the worklet applies before `setInt16`: negative samples by
      0x8000, the others by 0x7fff. */
  function Scale(x: real): real {
    if x < 0.0 then x * 32768.0 else x * 32767.0
  }

  /** The 16-bit value `setInt16` stores for a sample: ToInt16 of the scaled
      sample. No clamping and no rounding to nearest take place. */
  function Quantise(s: Sample): (q: int)
    ensures IsInt16(q)
  {
    match s
    case NonFinite => 0
    case Finite(x) => Wrap16(Trunc(Scale(x)))
  }

  /** A sample in the normalised range [-1, 1] is truncated toward zero
      without wrapping: it lands within one step of its scaled value, on the
      same side of zero, and the two ends of the range reach the two ends
      of the 16-bit range. */
  lemma QuantiseNormalised(x: real)
    requires -1.0 <= x <= 1.0
    ensures var q := Quantise(Finite(x));
      && -1.0 < q as real - Scale(x) < 1.0
      && (0.0 <= x ==> 0 <= q <= 32767 && q as real <= Scale(x))
      && (x < 0.0 ==> -32768 <= q <= 0 && Scale(x) <= q as real)
    ensures x == 1.0 ==> Quantise(Finite(x)) == 32767
    ensures x == -1.0 ==> Quantise(Finite(x)) == -32768
  {
    var t := Trunc(Scale(x));
    if x < 0.0 {
      assert -32768.0 <= Scale(x) < 0.0;
      assert -32768 <= t <= 0;
    } else {
      assert 0.0 <= Scale(x) <= 32767.0;
      assert 0 <= t <= 32767;
    }
    assert Wrap16(t) == t;
  }

  /** Out-of-range samples wrap around instead of saturating: 1.5 scales to
      49150.5, truncates to 49150 and is stored as 49150 - 65536. */
  lemma OutOfRangeWraps()
    ensures Quantise(Finite(1.5)) == -16386
    ensures Quantise(Finite(-1.5)) == 16384
  {
    assert Trunc(Scale(1.5)) == 49150;
    assert Trunc(Scale(-1.5)) == -49152;
  }

  /** The two bytes `setInt16(offset, v, true)` writes: the low byte of the
      two's-complement value first, then the high byte. */
  function EncodeInt16LE(v: int): (bs: seq<Byte>)
    requires IsInt16(v)
    ensures |bs| == 2
    ensures bs[0] as int + 256 * (bs[1] as int) == if v < 0 then v + 65536 else v
  {
    var u := v % 65536;
    [u % 256, u / 256]
  }

  /** The value `getInt16(offset, true)` reads back from two bytes. */
  function DecodeInt16LE(lo: Byte, hi: Byte): (v: int)
    ensures IsInt16(v)
  {
    var u := hi as int * 256 + lo as int;
    if u >= 32768 then u - 65536 else u
  }

  /** Reading back the two written bytes yields the stored value. */
  lemma DecodeEncode(v: int)
    requires IsInt16(v)
    ensures DecodeInt16LE(EncodeInt16LE(v)[0], EncodeInt16LE(v)[1]) == v
  {
  }

  /** Every pair of bytes is the encoding of the value it decodes to, so the
      encoding is a bijection between 16-bit values and byte pairs. */
  lemma EncodeDecode(lo: Byte, hi: Byte)
    ensures EncodeInt16LE(DecodeInt16LE(lo, hi)) == [lo, hi]
  {
    var v := DecodeInt16LE(lo, hi);
    var bs := EncodeInt16LE(v);
    assert bs[0] as int + 256 * (bs[1] as int) == hi as int * 256 + lo as int;
  }

  /** The bytes of a block of samples, two per sample in order, as a reader
      of the PCM stream sees them. */
  function EncodeAll(samples: seq<Sample>): (bs: seq<Byte>)
    ensures |bs| == 2 * |samples|
  {
    if |samples| == 0 then []
    else EncodeInt16LE(Quantise(samples[0])) + EncodeAll(samples[1..])
  }

  lemma {:induction false} EncodeAllAppend(a: seq<Sample>, b: seq<Sample>)
    ensures EncodeAll(a + b) == EncodeAll(a) + EncodeAll(b)
    decreases |a|
  {
    if |a| == 0 {
      assert a + b == b;
    } else {
      assert (a + b)[1..] == a[1..] + b;
      EncodeAllAppend(a[1..], b);
    }
  }

  /** Sample `i` of a block occupies bytes 2i and 2i+1 of its encoding, and
      decoding them returns the sample's quantised value. */
  lemma {:induction false} EncodeAllAt(samples: seq<Sample>, i: int)
    requires 0 <= i < |samples|
    ensures EncodeAll(samples)[2 * i .. 2 * i + 2] == EncodeInt16LE(Quantise(samples[i]))
    ensures DecodeInt16LE(EncodeAll(samples)[2 * i], EncodeAll(samples)[2 * i + 1]) == Quantise(samples[i])
    decreases i
  {
    var bs := EncodeAll(samples);
    if i == 0 {
      assert bs[..2] == EncodeInt16LE(Quantise(samples[0]));
    } else {
      EncodeAllAt(samples[1..], i - 1);
      var rest := EncodeAll(samples[1..]);
      assert bs == EncodeInt16LE(Quantise(samples[0])) + rest;
      assert bs[2 * i .. 2 * i + 2] == rest[2 * (i - 1) .. 2 * (i - 1) + 2];
    }
    DecodeEncode(Quantise(samples[i]));
  }

  /** `setInt16(offset, v, true)` on a buffer: the two bytes at the offset
      become the encoding of `v` and every other byte is kept. */
  function SetInt16LE(buf: seq<Byte>, offset: int, v: int): (r: seq<Byte>)
    requires 0 <= offset && offset + 2 <= |buf|
    requires IsInt16(v)
    ensures |r| == |buf|
    ensures r[offset .. offset + 2] == EncodeInt16LE(v)
    ensures forall i :: 0 <= i < |buf| && (i < offset || offset + 2 <= i) ==> r[i] == buf[i]
  {
    buf[..offset] + EncodeInt16LE(v) + buf[offset + 2..]
  }

  /** After a write, the bytes up to the end of the written pair are the old
      prefix followed by the pair. */
  lemma SetInt16LEPrefix(buf: seq<Byte>, offset: int, v: int)
    requires 0 <= offset && offset + 2 <= |buf|
    requires IsInt16(v)
    ensures SetInt16LE(buf, offset, v)[..offset + 2] == buf[..offset] + EncodeInt16LE(v)
  {
    var r := SetInt16LE(buf, offset, v);
    assert r[..offset + 2] == r[..offset] + r[offset .. offset + 2];
    assert r[..offset] == buf[..offset];
  }

  /** Consecutive `setInt16` writes of a block of samples, two bytes apart,
      starting at `offset`. */
  function WriteAll(buf: seq<Byte>, offset: int, samples: seq<Sample>): (r: seq<Byte>)
    requires 0 <= offset && offset + 2 * |samples| <= |buf|
    ensures |r| == |buf|
    decreases |samples|
  {
    if |samples| == 0 then buf
    else WriteAll(SetInt16LE(buf, offset, Quantise(samples[0])), offset + 2, samples[1..])
  }

  /** The written region holds the encoding of the block right after the
      bytes before `offset`, and the bytes past it are untouched. */
  lemma {:induction false} WriteAllLayout(buf: seq<Byte>, offset: int, samples: seq<Sample>)
    requires 0 <= offset && offset + 2 * |samples| <= |buf|
    ensures WriteAll(buf, offset, samples)[..offset + 2 * |samples|] == buf[..offset] + EncodeAll(samples)
    ensures WriteAll(buf, offset, samples)[offset + 2 * |samples|..] == buf[offset + 2 * |samples|..]
    decreases |samples|
  {
    if |samples| > 0 {
      var q := Quantise(samples[0]);
      var written := SetInt16LE(buf, offset, q);
      var end := offset + 2 * |samples|;
      WriteAllLayout(written, offset + 2, samples[1..]);
      SetInt16LEPrefix(buf, offset, q);
      assert written[end..] == buf[end..];
    }
  }

  /** A buffer of `n` zero bytes, as `new ArrayBuffer(n)` allocates. */
  function Zeros(n: nat): (z: seq<Byte>)
    ensures |z| == n
    ensures forall i :: 0 <= i < n ==> z[i] == 0
  {
    seq(n, _ => 0)
  }
}
