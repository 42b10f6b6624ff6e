/**
 * 16-bit linear PCM as the voice changer uses it: floating-point samples are
 * scaled by 32767 and truncated to signed 16-bit integers, each integer is
 * serialised as two two's-complement bytes in the host's byte order, fixed
 * here as little-endian, and a PCM payload
 * received from the conversion service is read back two bytes at a time and
 * divided by 32767. Floating-point samples are modelled as exact reals.
 */
module Pcm {
  import opened Wrappers

  /** A signed 16-bit sample (numpy `int16`). */
  type Int16 = x: int | -32768 <= x <= 32767

  /** One byte of a serialised payload. */
  type Byte = x: int | 0 <= x <= 255

  /** The full-scale factor used both when quantizing and when dequantizing. */
  const FullScale: real := 32767.0

  /** Number of distinct 16-bit patterns. */
  const Modulus: int := 65536

  // ---------------------------------------------------------------------
  // Byte framing of one sample
  // ---------------------------------------------------------------------

  /** The two bytes `tobytes` writes for one `int16`, low byte first. */
  function EncodeSample(s: Int16): (bs: seq<Byte>)
    ensures |bs| == 2
    // the 16-bit pattern lo + 256 * hi is the two's-complement form of s
    ensures (bs[0] + 256 * bs[1] - s) % Modulus == 0
    // the sign bit is the top bit of the second byte
    ensures s < 0 <==> bs[1] >= 128
  {
    var u := if s < 0 then s + Modulus else s;
    [u % 256, u / 256]
  }

  /** The `int16` that `frombuffer` reads from a low byte and a high byte. */
  function DecodeSample(lo: Byte, hi: Byte): (s: Int16)
    ensures (lo + 256 * hi - s) % Modulus == 0
    ensures s < 0 <==> hi >= 128
  {
    var u := lo + 256 * hi;
    if u >= 32768 then u - Modulus else u
  }

  /** Decoding the bytes of a sample gives the sample back. */
  lemma DecodeEncodeSample(s: Int16)
    ensures DecodeSample(EncodeSample(s)[0], EncodeSample(s)[1]) == s
  {
  }

  /** Every pair of bytes is the encoding of the sample it decodes to. */
  lemma EncodeDecodeSample(lo: Byte, hi: Byte)
    ensures EncodeSample(DecodeSample(lo, hi)) == [lo, hi]
  {
  }

  // ---------------------------------------------------------------------
  // Framing of a sample sequence
  // ---------------------------------------------------------------------

  /** `ndarray.tobytes` on an `int16` array: the samples' encodings in order. */
  function ToBytes(samples: seq<Int16>): (bs: seq<Byte>)
    ensures |bs| == 2 * |samples|
    ensures forall i :: 0 <= i < |samples| ==>
              bs[2 * i] == EncodeSample(samples[i])[0] && bs[2 * i + 1] == EncodeSample(samples[i])[1]
  {
    if samples == [] then []
    else EncodeSample(samples[0]) + ToBytes(samples[1..])
  }

  /** Reads an even-length payload as consecutive little-endian `int16`s. */
  function DecodePairs(bs: seq<Byte>): (samples: seq<Int16>)
    requires |bs| % 2 == 0
    ensures 2 * |samples| == |bs|
    ensures forall i :: 0 <= i < |samples| ==> samples[i] == DecodeSample(bs[2 * i], bs[2 * i + 1])
  {
    if bs == [] then []
    else [DecodeSample(bs[0], bs[1])] + DecodePairs(bs[2..])
  }

  /**
   * `np.frombuffer(bs, dtype=np.int16)`: a payload whose length is not a
   * multiple of the sample width is rejected (numpy raises), any other
   * payload yields one sample per two bytes.
   */
  function FromBuffer(bs: seq<Byte>): (r: Option<seq<Int16>>)
    ensures r.Some? <==> |bs| % 2 == 0
    ensures r.Some? ==> 2 * |r.value| == |bs|
  {
    if |bs| % 2 == 0 then Some(DecodePairs(bs)) else None
  }

  /** Reading back what `tobytes` wrote reproduces the samples. */
  lemma {:induction false} FrameRoundTrip(samples: seq<Int16>)
    ensures FromBuffer(ToBytes(samples)) == Some(samples)
  {
    var bs := ToBytes(samples);
    var d := DecodePairs(bs);
    forall i | 0 <= i < |samples|
      ensures d[i] == samples[i]
    {
      DecodeEncodeSample(samples[i]);
    }
    assert d == samples;
  }

  /** Re-serialising a decoded payload reproduces the payload byte for byte. */
  lemma {:induction false} BytesRoundTrip(bs: seq<Byte>)
    requires |bs| % 2 == 0
    ensures ToBytes(DecodePairs(bs)) == bs
  {
    var d := DecodePairs(bs);
    var e := ToBytes(d);
    forall k | 0 <= k < |bs|
      ensures e[k] == bs[k]
    {
      var i := k / 2;
      EncodeDecodeSample(bs[2 * i], bs[2 * i + 1]);
    }
  }

  // ---------------------------------------------------------------------
  // Scaling between floating-point and 16-bit samples
  // ---------------------------------------------------------------------

  /** Truncation toward zero, as a C cast from float to integer performs it. */
  function Trunc(r: real): (n: int)
    ensures 0.0 <= r ==> n as real <= r < n as real + 1.0
    ensures r < 0.0 ==> n as real - 1.0 < r <= n as real
  {
    if r >= 0.0 then r.Floor else -((-r).Floor)
  }

  /**
   * The samples whose scaled value truncates into the `int16` range, so that
   * `astype(np.int16)` converts them without wrapping around.
   */
  predicate NoWrap(x: real)
  {
    -32769.0 < x * FullScale < 32768.0
  }

  predicate AllNoWrap(audio: seq<real>)
  {
    forall i :: 0 <= i < |audio| ==> NoWrap(audio[i])
  }

  /** `(x * 32767).astype(np.int16)` for one sample. */
  function Quantize(x: real): (s: Int16)
    requires NoWrap(x)
    // at most one quantization step away from the scaled sample, toward zero
    ensures 0.0 <= x ==> 0 <= s && s as real <= x * FullScale < s as real + 1.0
    ensures x < 0.0 ==> s <= 0 && s as real - 1.0 < x * FullScale <= s as real
    // samples in the nominal range never reach -32768
    ensures -1.0 <= x <= 1.0 ==> -32767 <= s <= 32767
  {
    Trunc(x * FullScale)
  }

  /** `astype(np.float32) / 32767` for one sample. */
  function Dequantize(s: Int16): (x: real)
    ensures x * FullScale == s as real
  {
    s as real / FullScale
  }

  /** Every sample in [-1, 1] is converted without wrap-around. */
  lemma UnitRangeNoWrap(x: real)
    requires -1.0 <= x <= 1.0
    ensures NoWrap(x)
  {
  }

  /**
   * A dequantized sample lies in [-1, 1] exactly when it is not -32768; that
   * one value maps just below -1.
   */
  lemma DequantizeRange(s: Int16)
    ensures -1.0 <= Dequantize(s) <= 1.0 <==> s != -32768
    ensures Dequantize(-32768) < -1.0
  {
  }

  /** Quantizing then dequantizing loses less than one step of 1/32767. */
  lemma QuantizeRoundTrip(x: real)
    requires NoWrap(x)
    ensures -1.0 / FullScale < Dequantize(Quantize(x)) - x < 1.0 / FullScale
  {
    var s := Quantize(x);
    assert (Dequantize(s) - x) * FullScale == s as real - x * FullScale;
  }

  /** Dequantized samples quantize back to exactly the samples they came from. */
  lemma DequantizeRoundTrip(s: Int16)
    ensures NoWrap(Dequantize(s))
    ensures Quantize(Dequantize(s)) == s
  {
  }

  // ---------------------------------------------------------------------
  // Whole buffers
  // ---------------------------------------------------------------------

  /** `(audio.flatten() * 32767).astype(np.int16)` on a mono buffer. */
  function ToPcm16(audio: seq<real>): (r: seq<Int16>)
    requires AllNoWrap(audio)
    ensures |r| == |audio|
    ensures forall i :: 0 <= i < |audio| ==> r[i] == Quantize(audio[i])
  {
    seq(|audio|, i requires 0 <= i < |audio| => Quantize(audio[i]))
  }

  /** `audio_data.astype(np.float32) / 32767` on a decoded payload. */
  function FromPcm16(samples: seq<Int16>): (r: seq<real>)
    ensures |r| == |samples|
    ensures forall i :: 0 <= i < |samples| ==> r[i] * FullScale == samples[i] as real
    ensures AllNoWrap(r)
  {
    seq(|samples|, i requires 0 <= i < |samples| => Dequantize(samples[i]))
  }

  /**
   * The sample bytes of the WAV that is uploaded for conversion and of the
   * WAV file that is saved: two bytes per sample.
   */
  function WavPayload(audio: seq<real>): (bs: seq<Byte>)
    requires AllNoWrap(audio)
    ensures |bs| == 2 * |audio|
    // reading the bytes back recovers the 16-bit samples that were written
    ensures FromBuffer(bs) == Some(ToPcm16(audio))
  {
    FrameRoundTrip(ToPcm16(audio));
    ToBytes(ToPcm16(audio))
  }

  /**
   * The buffer decoded from a successful conversion response: `None` when
   * the payload has an odd length, otherwise one sample per two bytes, each
   * of which can be saved again without wrap-around.
   */
  function DecodeResponse(body: seq<Byte>): (r: Option<seq<real>>)
    ensures r.Some? <==> |body| % 2 == 0
    ensures r.Some? ==> 2 * |r.value| == |body| && AllNoWrap(r.value)
    // sample i is the int16 at bytes 2i and 2i+1, divided by the full scale
    ensures r.Some? ==> forall i :: 0 <= i < |r.value| ==>
              r.value[i] * FullScale == DecodeSample(body[2 * i], body[2 * i + 1]) as real
  {
    match FromBuffer(body)
    case None => None
    case Some(samples) => Some(FromPcm16(samples))
  }

  /**
   * Decoding the payload of an encoded buffer gives back a buffer of the same
   * length whose every sample is within one quantization step of the original.
   */
  lemma UploadRoundTrip(audio: seq<real>)
    requires AllNoWrap(audio)
    ensures DecodeResponse(WavPayload(audio)).Some?
    ensures |DecodeResponse(WavPayload(audio)).value| == |audio|
    ensures forall i :: 0 <= i < |audio| ==>
              -1.0 / FullScale < DecodeResponse(WavPayload(audio)).value[i] - audio[i] < 1.0 / FullScale
  {
    var pcm := ToPcm16(audio);
    FrameRoundTrip(pcm);
    var y := DecodeResponse(WavPayload(audio)).value;
    assert y == FromPcm16(pcm);
    forall i | 0 <= i < |audio|
      ensures -1.0 / FullScale < y[i] - audio[i] < 1.0 / FullScale
    {
      QuantizeRoundTrip(audio[i]);
    }
  }

  /**
   * Saving a decoded conversion response writes exactly the sample bytes the
   * service returned.
   */
  lemma SaveReproducesResponse(body: seq<Byte>)
    requires |body| % 2 == 0
    ensures DecodeResponse(body).Some?
    ensures WavPayload(DecodeResponse(body).value) == body
  {
    var samples := DecodePairs(body);
    var y := FromPcm16(samples);
    assert DecodeResponse(body).value == y;
    var back := ToPcm16(y);
    forall i | 0 <= i < |samples|
      ensures back[i] == samples[i]
    {
      DequantizeRoundTrip(samples[i]);
    }
    assert back == samples;
    BytesRoundTrip(body);
  }
}
