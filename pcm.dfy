/**
 * Kotlin's fixed-width integers as they appear in the audio code: `Byte`,
 * `Short`, the conversions between them, and the little-endian 16-bit PCM
 * sample codec used by the resampler and the beamformer.
 */
module Pcm {

  /** A Kotlin `Byte`: a signed 8-bit integer. */
  type Byte = x: int | -128 <= x < 128

  /** A Kotlin `Short`: a signed 16-bit integer. */
  type Short = x: int | -32768 <= x < 32768

  const ShortMin: int := -32768
  const ShortMax: int := 32767

  /** `b.toInt() and 0xFF`: the byte's bit pattern read as unsigned. */
  function Unsigned(b: Byte): (u: int)
    ensures 0 <= u < 256
    ensures (u - b) % 256 == 0
  {
    if b < 0 then b + 256 else b
  }

  /** `x.toByte()`: keep the low 8 bits and read them as a signed byte. */
  function ToByte(x: int): (b: Byte)
    ensures (b - x) % 256 == 0
  {
    var u := x % 256;
    if u >= 128 then u - 256 else u
  }

  /** `x.toShort()`: keep the low 16 bits and read them as a signed short. */
  function ToShort(x: int): (s: Short)
    ensures (s - x) % 65536 == 0
    ensures ShortMin <= x <= ShortMax ==> s == x
  {
    var u := x % 65536;
    if u >= 32768 then u - 65536 else u
  }

  /**
   * `bytesToShort`: `((hi.toInt() shl 8) or (lo.toInt() and 0xFF)).toShort()`.
   * The low 8 bits of `hi shl 8` are zero, so the `or` is an addition.
   */
  function DecodeSample(lo: Byte, hi: Byte): (s: Short)
  {
    ToShort(hi * 256 + Unsigned(lo))
  }

  /** `(s.toInt() and 0xFF).toByte()`: the low byte of a sample. */
  function EncodeLo(s: Short): (lo: Byte)
  {
    ToByte(s % 256)
  }

  /** `(s.toInt() shr 8).toByte()`: the high byte; `shr` is an arithmetic (flooring) shift. */
  function EncodeHi(s: Short): (hi: Byte)
  {
    ToByte(s / 256)
  }

  /** The decoded value: the high byte is signed, the low byte unsigned. */
  lemma DecodeValue(lo: Byte, hi: Byte)
    ensures DecodeSample(lo, hi) == hi * 256 + Unsigned(lo)
  {
  }

  /** Encoding a sample and decoding its two bytes gives the sample back. */
  lemma DecodeEncode(s: Short)
    ensures DecodeSample(EncodeLo(s), EncodeHi(s)) == s
  {
    assert EncodeHi(s) == s / 256;
    assert Unsigned(EncodeLo(s)) == s % 256;
  }

  /** Decoding two bytes and encoding the sample gives the two bytes back. */
  lemma EncodeDecode(lo: Byte, hi: Byte)
    ensures EncodeLo(DecodeSample(lo, hi)) == lo
    ensures EncodeHi(DecodeSample(lo, hi)) == hi
  {
    var s := DecodeSample(lo, hi);
    DecodeValue(lo, hi);
    assert s % 256 == Unsigned(lo);
    assert s / 256 == hi;
  }

  /** `x.coerceIn(Short.MIN_VALUE.toInt(), Short.MAX_VALUE.toInt())`: the nearest 16-bit value. */
  function Clip16(x: int): (r: Short)
    ensures ShortMin <= x <= ShortMax ==> r == x
    ensures forall y: Short {:trigger Distance(y, x)} :: Distance(r, x) <= Distance(y, x)
  {
    if x < ShortMin then ShortMin else if x > ShortMax then ShortMax else x
  }

  function Distance(a: int, b: int): (d: nat)
  {
    if a <= b then b - a else a - b
  }

  /** Kotlin's integer `/` for a positive divisor: the quotient truncated toward zero. */
  function TruncDiv(a: int, b: int): (q: int)
    requires b > 0
    ensures Distance(q, 0) == Distance(a, 0) / b
    ensures (a < 0 ==> q <= 0) && (a >= 0 ==> q >= 0)
  {
    if a >= 0 then DivNonnegative(a, b); a / b else DivNonnegative(-a, b); -((-a) / b)
  }

  lemma DivNonnegative(a: int, b: int)
    requires a >= 0 && b > 0
    ensures a / b >= 0
  {
  }

  /** A mono sample stream written out little-endian, two bytes per sample. */
  function EncodeSamples(ss: seq<Short>): (bytes: seq<Byte>)
    ensures |bytes| == 2 * |ss|
  {
    seq(2 * |ss|, j requires 0 <= j < 2 * |ss| => if j % 2 == 0 then EncodeLo(ss[j / 2]) else EncodeHi(ss[j / 2]))
  }
}
