/**
  The audio preparation of the whisper.cpp speech-to-text backend: padding
  16-bit PCM to the shortest clip the model accepts, turning the bytes into
  samples, and the model language derived from the configured locale.
*/
module Whisper {
  import opened GoStrings

  type Byte = b: int | 0 <= b < 0x100

  const SampleRate: nat := 16000
  const MinDurationMs: nat := 1020
  const MinDurationSamples: nat := SampleRate * MinDurationMs / 1000
  const BytesPerSample: nat := 2

  /** The shortest accepted clip is 16320 samples, 32640 bytes. */
  lemma MinDurationValue()
    ensures MinDurationSamples == 16320
    ensures MinDurationSamples * BytesPerSample == 32640
  {
  }

  function Zeros(n: nat): (r: seq<Byte>)
    ensures |r| == n && forall k :: 0 <= k < n ==> r[k] == 0
  {
    seq(n, _ => 0)
  }

  /** `padPCM`: a clip shorter than the minimum gets zero samples appended up to it. */
  function PadPCM(data: seq<Byte>): seq<Byte>
  {
    var currentSamples := |data| / BytesPerSample;
    if currentSamples >= MinDurationSamples then data
    else
      var paddingSamples := MinDurationSamples - currentSamples;
      data + Zeros(paddingSamples * BytesPerSample)
  }

  /** Padding keeps the clip as a prefix, adds only zero bytes, and leaves at least the minimum
      number of whole samples; a long enough clip is returned unchanged, and a short clip of
      whole samples comes out exactly at the minimum. */
  lemma PadPCMSpec(data: seq<Byte>)
    ensures var r := PadPCM(data);
      && |r| >= |data| && r[..|data|] == data
      && (forall k :: |data| <= k < |r| ==> r[k] == 0)
      && |r| / BytesPerSample >= 16320
      && (|data| / BytesPerSample >= 16320 ==> r == data)
      && (|data| / BytesPerSample < 16320 && |data| % 2 == 0 ==> |r| == 32640)
      && (|data| / BytesPerSample < 16320 && |data| % 2 == 1 ==> |r| == 32641)
  {
    MinDurationValue();
    var r := PadPCM(data);
    if |data| / BytesPerSample < MinDurationSamples {
      assert r == data + Zeros((MinDurationSamples - |data| / 2) * 2);
      assert r[..|data|] == data;
    }
  }

  /** The little-endian `int16` in two bytes. */
  function Sample(lo: Byte, hi: Byte): (s: int)
    ensures -0x8000 <= s < 0x8000
  {
    var u := lo + 0x100 * hi;
    if u >= 0x8000 then u - 0x1_0000 else u
  }

  /** The two little-endian bytes of an `int16`. */
  function SampleBytes(s: int): (r: (Byte, Byte))
    requires -0x8000 <= s < 0x8000
  {
    var u := if s < 0 then s + 0x1_0000 else s;
    (u % 0x100, u / 0x100)
  }

  /** Reading back the bytes of a sample gives the sample, and the bytes of a sample read from two
      bytes are those bytes. */
  lemma SampleRoundTrip(s: int, lo: Byte, hi: Byte)
    requires -0x8000 <= s < 0x8000
    ensures Sample(SampleBytes(s).0, SampleBytes(s).1) == s
    ensures SampleBytes(Sample(lo, hi)) == (lo, hi)
  {
  }

  /** `factor`: 2 to the 15th. */
  const Factor: real := 32768.0

  /** `BytesToFloat32Buffer`: one value per whole sample, the sample scaled into [-1, 1).  The
      scaled value is exact in `float32`, so it is stated as a real. */
  method BytesToFloat32Buffer(buf: seq<Byte>) returns (newB: seq<real>)
    ensures |newB| == |buf| / 2
    ensures forall i :: 0 <= i < |newB| ==> newB[i] * Factor == Sample(buf[2 * i], buf[2 * i + 1]) as real
    ensures forall i :: 0 <= i < |newB| ==> -1.0 <= newB[i] < 1.0
  {
    newB := seq(|buf| / 2, _ => 0.0);
    var i := 0;
    while i < |buf| / 2
      invariant 0 <= i <= |buf| / 2 && |newB| == |buf| / 2
      invariant forall k :: 0 <= k < i ==> newB[k] * Factor == Sample(buf[2 * k], buf[2 * k + 1]) as real
      invariant forall k :: 0 <= k < i ==> -1.0 <= newB[k] < 1.0
    {
      var s := Sample(buf[i * 2], buf[i * 2 + 1]);
      newB := newB[i := s as real / Factor];
      i := i + 1;
    }
  }

  /** The whisper language code of a configured locale: `en` when none is set, else the part
      before the first `-`. */
  function SttLanguage(language: string): (r: string)
    ensures |language| == 0 ==> r == "en"
    ensures |language| > 0 ==> r == Before(language, "-")
  {
    if |language| == 0 then "en"
    else
      var parts := Split(language, "-");
      SplitHead(language, "-");
      parts[0]
  }

  /** A locale `aa-BB` gives `aa`. */
  lemma SttLanguageOfLocale(lang: string, region: string)
    requires |lang| > 0 && '-' !in lang
    ensures SttLanguage(lang + "-" + region) == lang
  {
    var s := lang + "-" + region;
    assert s[|lang|..|lang| + 1] == "-";
    FirstOccurrence(s, "-", |lang|);
  }
}
