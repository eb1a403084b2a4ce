/**
 * The PCM codec of the voice session (src/services/audioUtils.js): bytes to
 * and from base 64 through a binary string, 16-bit little-endian samples
 * de-interleaved into per-channel buffers, and microphone samples clamped,
 * scaled and packed into a base 64 blob.
 *
 * Samples are exact reals; the Float32 and float64 rounding of the browser
 * is not modelled.
 */
module Audio {
  import opened Wrappers
  import opened Bytes
  import Base64

  const MimeType := "audio/pcm;rate=16000"

  /** The `{ data, mimeType }` object sent as realtime input. */
  datatype Blob = Blob(data: string, mimeType: string)

  // -------------------------------------------------------- decode, encode

  /** decode(base64): atob, then charCodeAt into a Uint8Array; None where atob throws. */
  method Decode(base64: string) returns (r: Option<array<Byte>>)
    ensures r.None? <==> Base64.Atob(base64).None?
    ensures r.Some? ==> r.value[..] == CharCodes(Base64.Atob(base64).value)
  {
    var decoded := Base64.Atob(base64);
    if decoded.None? {
      return None;
    }
    var binaryString := decoded.value;
    var bytes := CharCodeArray(binaryString);
    r := Some(bytes);
  }

  /** The charCodeAt loop of decode: one byte per character of a binary string. */
  method CharCodeArray(binaryString: string) returns (bytes: array<Byte>)
    requires IsBinary(binaryString)
    ensures bytes[..] == CharCodes(binaryString)
  {
    var len := |binaryString|;
    bytes := new Byte[len];
    for i := 0 to len
      invariant forall k :: 0 <= k < i ==> bytes[k] == binaryString[k] as int
    {
      bytes[i] := binaryString[i] as int;
    }
  }

  /** encode(bytes): String.fromCharCode of each byte, then btoa. */
  method Encode(bytes: array<Byte>) returns (r: string)
    ensures Base64.Btoa(BinaryString(bytes[..])) == Some(r)
    ensures Base64.Atob(r) == Some(BinaryString(bytes[..]))
  {
    var binary := "";
    for i := 0 to bytes.Length
      invariant binary == BinaryString(bytes[..i])
    {
      assert bytes[..i + 1] == bytes[..i] + [bytes[i]];
      binary := binary + [bytes[i] as char];
    }
    assert bytes[..bytes.Length] == bytes[..];
    CharCodesOfBinaryString(bytes[..]);
    r := Base64.Encode(CharCodes(binary));
    Base64.AtobOfEncode(bytes[..]);
  }

  /** decode(encode(bytes)) gives the bytes back. */
  method EncodeThenDecode(bytes: array<Byte>) returns (back: Option<array<Byte>>)
    ensures back.Some? && back.value[..] == bytes[..]
  {
    var text := Encode(bytes);
    back := Decode(text);
    CharCodesOfBinaryString(bytes[..]);
  }

  // ------------------------------------------------------ decodeAudioData

  /** The signed 16-bit little-endian sample at index k of a byte buffer. */
  function Int16At(data: seq<Byte>, k: nat): (v: int)
    requires 2 * k + 1 < |data|
    ensures -32768 <= v <= 32767
  {
    var u := data[2 * k] as int + 256 * (data[2 * k + 1] as int);
    if u >= 32768 then u - 65536 else u
  }

  /**
   * Every frame of every channel reads a sample inside the data: with
   * frames == samples / n, index i * n + c stays below samples, so the
   * buffer holds Int16At(data, i * n + c) / 32768 there.
   */
  lemma FrameIndexInRange(i: nat, c: nat, n: nat, frames: nat, samples: nat)
    requires n >= 1 && i < frames && c < n && frames == samples / n
    ensures i * n + c < samples
  {
    assert i * n + c < (i + 1) * n;
    assert (i + 1) * n <= frames * n by {
      assert i + 1 <= frames;
    }
    assert frames * n <= samples;
  }

  /** Sample k over 32768, as a channel buffer holds it (0 past the end of the data). */
  function SampleValue(data: seq<Byte>, k: nat): (r: real)
    ensures -1.0 <= r < 1.0
    ensures 2 * k + 1 < |data| ==> r == Int16At(data, k) as real / 32768.0
  {
    if 2 * k + 1 < |data| then Int16At(data, k) as real / 32768.0 else 0.0
  }

  /**
   * decodeAudioData(data, ctx, sampleRate, numChannels): the byte buffer read
   * as 16-bit samples, frame i of channel c being interleaved sample
   * i * numChannels + c over 32768. An odd byte count makes the Int16Array
   * view throw, and so does createBuffer when there is not one whole frame
   * (a length of 0); a sample count that does not divide by the channel
   * count leaves its remainder out (createBuffer truncates the length).
   */
  method DecodeAudioData(data: array<Byte>, numChannels: nat) returns (r: Option<array2<real>>)
    requires numChannels >= 1
    ensures r.None? <==> data.Length % 2 == 1 || (data.Length / 2) / numChannels == 0
    ensures r.Some? ==>
      && r.value.Length0 == numChannels
      && r.value.Length1 == (data.Length / 2) / numChannels
      && (forall c, i :: 0 <= c < numChannels && 0 <= i < r.value.Length1 ==>
            r.value[c, i] == SampleValue(data[..], i * numChannels + c))
      && (forall c, i :: 0 <= c < numChannels && 0 <= i < r.value.Length1 ==>
            -1.0 <= r.value[c, i] < 1.0)
  {
    if data.Length % 2 == 1 || (data.Length / 2) / numChannels == 0 {
      return None;
    }
    var buffer := Deinterleave(data[..], numChannels);
    r := Some(buffer);
  }

  /** The fill loops of decodeAudioData: one row per channel, one column per whole frame. */
  method Deinterleave(d: seq<Byte>, numChannels: nat) returns (buffer: array2<real>)
    requires numChannels >= 1
    ensures fresh(buffer)
    ensures buffer.Length0 == numChannels && buffer.Length1 == (|d| / 2) / numChannels
    ensures forall c, i :: 0 <= c < numChannels && 0 <= i < buffer.Length1 ==>
      buffer[c, i] == SampleValue(d, i * numChannels + c)
  {
    var samples := |d| / 2;
    var frameCount := samples / numChannels;
    buffer := new real[numChannels, frameCount];
    for channel := 0 to numChannels
      invariant forall c, i :: 0 <= c < channel && 0 <= i < frameCount ==>
        buffer[c, i] == SampleValue(d, i * numChannels + c)
    {
      for i := 0 to frameCount
        invariant forall c, k :: 0 <= c < channel && 0 <= k < frameCount ==>
          buffer[c, k] == SampleValue(d, k * numChannels + c)
        invariant forall k :: 0 <= k < i ==> buffer[channel, k] == SampleValue(d, k * numChannels + channel)
      {
        FrameIndexInRange(i, channel, numChannels, frameCount, samples);
        buffer[channel, i] := Int16At(d, i * numChannels + channel) as real / 32768.0;
      }
    }
  }

  /** Frame i of channel c is interleaved sample i * numChannels + c, over 32768. */
  lemma FrameSample(data: seq<Byte>, numChannels: nat, c: nat, i: nat)
    requires numChannels >= 1 && c < numChannels && i < (|data| / 2) / numChannels
    ensures 2 * (i * numChannels + c) + 1 < |data|
    ensures SampleValue(data, i * numChannels + c) == Int16At(data, i * numChannels + c) as real / 32768.0
  {
    FrameIndexInRange(i, c, numChannels, (|data| / 2) / numChannels, |data| / 2);
  }

  // ------------------------------------------------------ createAudioBlob

  /** Math.max(-1, Math.min(1, x)). */
  function Clamp(x: real): (r: real)
    ensures -1.0 <= r <= 1.0
    ensures -1.0 <= x <= 1.0 ==> r == x
  {
    if x < -1.0 then -1.0 else if x > 1.0 then 1.0 else x
  }

  /** Truncation toward zero, the first step of storing a number into an Int16Array. */
  function Trunc(x: real): (r: int)
    ensures x >= 0.0 ==> r as real <= x < r as real + 1.0
    ensures x < 0.0 ==> r as real - 1.0 < x <= r as real
  {
    if x >= 0.0 then x.Floor else -((-x).Floor)
  }

  /** The wrap to 16 bits, the second step of storing into an Int16Array. */
  function ToInt16(n: int): (r: int)
    ensures -32768 <= r <= 32767
    ensures -32768 <= n <= 32767 ==> r == n
  {
    var m := n % 65536;
    if m >= 32768 then m - 65536 else m
  }

  /** One microphone sample as createAudioBlob stores it. */
  function Quantize(x: real): (v: int)
    ensures -32768 <= v <= 32767
  {
    var sample := Clamp(x);
    ToInt16(Trunc(if sample < 0.0 then sample * 32768.0 else sample * 32767.0))
  }

  function Quantized(s: seq<real>): (q: seq<int>)
    ensures |q| == |s|
    ensures forall i :: 0 <= i < |s| ==> -32768 <= q[i] <= 32767
  {
    seq(|s|, i requires 0 <= i < |s| => Quantize(s[i]))
  }

  predicate IsInt16s(q: seq<int>)
  {
    forall i :: 0 <= i < |q| ==> -32768 <= q[i] <= 32767
  }

  /** The bytes of an Int16Array, two per sample, low byte first. */
  function PcmBytes(q: seq<int>): (b: seq<Byte>)
    requires IsInt16s(q)
    ensures |b| == 2 * |q|
  {
    seq(2 * |q|, j requires 0 <= j < 2 * |q| =>
      var u := if q[j / 2] < 0 then q[j / 2] + 65536 else q[j / 2];
      if j % 2 == 0 then u % 256 else u / 256)
  }

  /** createAudioBlob(data): one 16-bit sample per input sample, base 64 encoded. */
  method CreateAudioBlob(data: array<real>) returns (blob: Blob)
    ensures blob.mimeType == MimeType
    ensures Base64.Atob(blob.data) == Some(BinaryString(PcmBytes(Quantized(data[..]))))
    ensures blob.data == Base64.Encode(PcmBytes(Quantized(data[..])))
  {
    var length := data.Length;
    var int16 := new int[length];
    for i := 0 to length
      invariant forall k :: 0 <= k < i ==> int16[k] == Quantize(data[k])
    {
      var sample := Clamp(data[i]);
      int16[i] := ToInt16(Trunc(if sample < 0.0 then sample * 32768.0 else sample * 32767.0));
    }
    ghost var q := Quantized(data[..]);
    assert int16[..] == q;
    var view := new Byte[2 * length];
    for j := 0 to 2 * length
      invariant int16[..] == q
      invariant forall k :: 0 <= k < j ==> view[k] == PcmBytes(q)[k]
    {
      assert int16[j / 2] == q[j / 2];
      var u := if int16[j / 2] < 0 then int16[j / 2] + 65536 else int16[j / 2];
      view[j] := if j % 2 == 0 then u % 256 else u / 256;
    }
    assert view[..] == PcmBytes(q);
    var encoded := Encode(view);
    CharCodesOfBinaryString(view[..]);
    blob := Blob(encoded, MimeType);
  }

  // ------------------------------------------------------------ properties

  /** -1 becomes -32768, 0 becomes 0 and 1 becomes 32767; beyond ±1 a sample encodes as ±1. */
  lemma QuantizeEnds(x: real)
    ensures Quantize(-1.0) == -32768 && Quantize(0.0) == 0 && Quantize(1.0) == 32767
    ensures x >= 1.0 ==> Quantize(x) == 32767
    ensures x <= -1.0 ==> Quantize(x) == -32768
  {
  }

  /** Negative samples scale by 0x8000 and the others by 0x7fff, truncated toward zero. */
  lemma QuantizeScales(x: real)
    requires -1.0 <= x <= 1.0
    ensures x < 0.0 ==> Quantize(x) == Trunc(x * 32768.0)
    ensures x >= 0.0 ==> Quantize(x) == Trunc(x * 32767.0)
  {
  }

  /** Reading the blob's bytes back as 16-bit samples gives the stored values. */
  lemma Int16AtPcmBytes(q: seq<int>, k: nat)
    requires IsInt16s(q) && k < |q|
    ensures 2 * k + 1 < |PcmBytes(q)| && Int16At(PcmBytes(q), k) == q[k]
  {
    var b := PcmBytes(q);
    var u := if q[k] < 0 then q[k] + 65536 else q[k];
    assert b[2 * k] == u % 256 && b[2 * k + 1] == u / 256;
  }

  /**
   * A played sample v, decoded to v / 32768 and captured again, comes back
   * as v when v <= 0 and as v - 1 when v > 0: the two directions scale by
   * different factors, so the codec is not an exact round trip.
   */
  lemma RequantizePlayedSample(v: int)
    requires -32768 <= v <= 32767
    ensures Quantize(v as real / 32768.0) == if v > 0 then v - 1 else v
  {
    var x := v as real / 32768.0;
    assert -1.0 <= x < 1.0;
    if v > 0 {
      var y := x * 32767.0;
      assert y == v as real - x;
      assert (v - 1) as real < y < v as real;
    } else {
      assert x * 32768.0 == v as real;
    }
  }
}
