/**
 * The PCM16 codec of the audio bridge: the capture worklet's float-to-int16
 * conversion, the byte layout of an `Int16Array` (little-endian, two bytes
 * per sample), and the playback side's base64 to samples decoding.
 * Samples are mathematical reals; `Math.floor` is `.Floor`.
 */
module Pcm {
  import opened Wrappers
  import Base64
  import opened Json

  type byte = Base64.byte

  const MinInt16: int := -0x8000
  const MaxInt16: int := 0x7fff

  type int16 = v: int | -0x8000 <= v <= 0x7fff

  function Max(a: int, b: int): int { if a >= b then a else b }

  function Min(a: int, b: int): int { if a <= b then a else b }

  /**
   * One sample of `float32ToInt16`: floor of `x * 32767`, clamped to the int16
   * range. Away from the bounds the sample is the largest integer not above
   * the product; 32767 means the product reached it, -32768 that it was below -32767.
   */
  function ToInt16(x: real): (v: int16)
    ensures v == MinInt16 || v as real <= x * 32767.0
    ensures v == MaxInt16 || x * 32767.0 < v as real + 1.0
  {
    Max(MinInt16, Min(MaxInt16, (x * MaxInt16 as real).Floor))
  }

  /** A louder input never gives a smaller sample. */
  lemma {:induction false} ToInt16Monotone(x: real, y: real)
    requires x <= y
    ensures ToInt16(x) <= ToInt16(y)
  {
    assert x * 32767.0 <= y * 32767.0;
  }

  /**
   * Inputs in the nominal range [-1, 1] never reach the clamp: the sample is
   * the floor of `x * 32767` itself, within one unit below the exact product,
   * and never -32768.
   */
  lemma {:induction false} ToInt16InNominalRange(x: real)
    requires -1.0 <= x <= 1.0
    ensures ToInt16(x) == (x * 32767.0).Floor
    ensures ToInt16(x) as real <= x * 32767.0 < ToInt16(x) as real + 1.0
    ensures -32767 <= ToInt16(x) <= 32767
  {
    var p := x * 32767.0;
    assert -32767.0 <= p <= 32767.0;
    assert p.Floor as real <= p < p.Floor as real + 1.0;
  }

  /** The clamping examples: 2.0, -2.0 and 0.0 give 32767, -32768 and 0. */
  lemma {:induction false} ToInt16Clamps()
    ensures ToInt16(2.0) == 32767 && ToInt16(-2.0) == -32768 && ToInt16(0.0) == 0
  {
    assert (2.0 * 32767.0).Floor == 65534;
    assert (-2.0 * 32767.0).Floor == -65534;
  }

  /** The little-endian bytes of one sample: low byte first, two's complement. */
  function SampleBytes(v: int16): (b: seq<byte>)
    ensures |b| == 2
  {
    var u := if v < 0 then v + 0x10000 else v;
    [u % 0x100, u / 0x100]
  }

  /** The sample stored in a low byte and a high byte. */
  function SampleOf(lo: byte, hi: byte): int16
  {
    var u := lo + 0x100 * hi;
    if u >= 0x8000 then u - 0x10000 else u
  }

  lemma {:induction false} SampleOfBytes(v: int16)
    ensures SampleOf(SampleBytes(v)[0], SampleBytes(v)[1]) == v
  {
  }

  lemma {:induction false} BytesOfSample(lo: byte, hi: byte)
    ensures SampleBytes(SampleOf(lo, hi)) == [lo, hi]
  {
  }

  /** The bytes behind an `Int16Array` (its `.buffer`): sample i at bytes 2i and 2i + 1. */
  function ToBytes(s: seq<int16>): (b: seq<byte>)
    ensures |b| == 2 * |s|
    ensures forall i :: 0 <= i < |s| ==> b[2 * i] == SampleBytes(s[i])[0] && b[2 * i + 1] == SampleBytes(s[i])[1]
  {
    if s == [] then [] else SampleBytes(s[0]) + ToBytes(s[1..])
  }

  function Pairs(b: seq<byte>): (s: seq<int16>)
    requires |b| % 2 == 0
    ensures |s| == |b| / 2
    ensures forall i :: 0 <= i < |s| ==> s[i] == SampleOf(b[2 * i], b[2 * i + 1])
  {
    if b == [] then [] else [SampleOf(b[0], b[1])] + Pairs(b[2..])
  }

  /**
   * `new Int16Array(bytes.buffer)` on a buffer of exactly these bytes: a
   * RangeError when the byte count is odd, else one sample per byte pair.
   */
  function FromBytes(b: seq<byte>): (r: Result<seq<int16>, JsError>)
    ensures r.Failure? <==> |b| % 2 == 1
    ensures r.Failure? ==> r.error == RangeError
    ensures r.Success? ==> |r.value| == |b| / 2
    ensures r.Success? ==> forall i :: 0 <= i < |r.value| ==> r.value[i] == SampleOf(b[2 * i], b[2 * i + 1])
  {
    if |b| % 2 == 1 then Failure(RangeError) else Success(Pairs(b))
  }

  /** Samples laid out as bytes and read back are the same samples. */
  lemma {:induction false} FromToBytes(s: seq<int16>)
    ensures FromBytes(ToBytes(s)) == Success(s)
  {
    var b := ToBytes(s);
    var t := Pairs(b);
    forall i | 0 <= i < |s| ensures t[i] == s[i] {
      assert t[i] == SampleOf(b[2 * i], b[2 * i + 1]);
      assert b[2 * i] == SampleBytes(s[i])[0] && b[2 * i + 1] == SampleBytes(s[i])[1];
      SampleOfBytes(s[i]);
    }
    assert t == s;
  }

  /** An even run of bytes read as samples and laid out again is the same bytes. */
  lemma {:induction false} ToFromBytes(b: seq<byte>)
    requires |b| % 2 == 0
    ensures ToBytes(FromBytes(b).value) == b
  {
    var s := FromBytes(b).value;
    var b' := ToBytes(s);
    forall j | 0 <= j < |b| ensures b'[j] == b[j] {
      var i := j / 2;
      BytesOfSample(b[2 * i], b[2 * i + 1]);
      assert s[i] == SampleOf(b[2 * i], b[2 * i + 1]);
    }
  }

  /**
   * The playback decode of an audio delta: `atob`, one byte per character,
   * then `new Int16Array(bytes.buffer)`.
   */
  function DecodeDelta(b64: string): (r: Result<seq<int16>, JsError>)
    ensures Base64.Decode(b64).None? ==> r == Failure(InvalidCharacterError)
    ensures Base64.Decode(b64).Some? ==> r == FromBytes(Base64.Decode(b64).value)
  {
    match Base64.Decode(b64)
    case None => Failure(InvalidCharacterError)
    case Some(bytes) => FromBytes(bytes)
  }

  /** Samples laid out as bytes and base64-encoded, as capture sends them, decode to the same samples. */
  lemma {:induction false} CaptureToPlayback(s: seq<int16>)
    ensures DecodeDelta(Base64.Encode(ToBytes(s))) == Success(s)
  {
    Base64.DecodeEncode(ToBytes(s));
    FromToBytes(s);
  }
}
