/**
 * QAudioFormat as far as this backend uses it: the PCM format record and the
 * conversion between a duration in microseconds and a byte count.  Qt's own
 * implementation is not part of this model; its arithmetic is assumed to be
 * frames = us * rate / 1000000 and us = 1000000 * frames / rate, each
 * truncated toward zero, with a byte count rounded down to whole frames.
 */
module AudioFormat {
  import Defaults

  datatype SampleFormat = Unknown | UInt8 | Int16 | Int32 | Float

  datatype Format = Format(sampleRate: int, channelCount: int, sampleFormat: SampleFormat)

  /** Division of C++ and Qt, truncating toward zero (Dafny's own `/` is Euclidean). */
  function TruncDiv(a: int, b: int): (q: int)
    requires b > 0
    ensures a >= 0 ==> q == a / b
    ensures a < 0 ==> q == -((-a) / b)
  {
    if a >= 0 then a / b else -((-a) / b)
  }

  function BytesPerSample(sf: SampleFormat): (n: int)
    ensures sf == Float ==> n == Defaults.FloatBytes
    ensures n == 0 <==> sf == Unknown
  {
    match sf
    case Unknown => 0
    case UInt8 => 1
    case Int16 => 2
    case Int32 => 4
    case Float => 4
  }

  function BytesPerFrame(f: Format): int {
    f.channelCount * BytesPerSample(f.sampleFormat)
  }

  predicate IsValid(f: Format) {
    f.sampleRate > 0 && f.channelCount > 0 && f.sampleFormat != Unknown
  }

  /** The format the renderer publishes: its sample rate, stereo, 32-bit float. */
  function RendererFormat(sampleRate: int): (f: Format)
    ensures f.sampleRate == sampleRate
    ensures f.channelCount == Defaults.DefaultFrameChannels && f.sampleFormat == Float
    ensures sampleRate > 0 ==> IsValid(f) && BytesPerFrame(f) == 8
  {
    Format(sampleRate, Defaults.DefaultFrameChannels, Float)
  }

  function FramesForDuration(f: Format, us: int): int {
    if IsValid(f) then TruncDiv(us * f.sampleRate, 1000000) else 0
  }

  /** QAudioFormat::bytesForDuration. */
  function BytesForDuration(f: Format, us: int): int {
    BytesPerFrame(f) * FramesForDuration(f, us)
  }

  /** QAudioFormat::durationForBytes: whole frames only, 0 for an invalid format or no bytes. */
  function DurationForBytes(f: Format, bytes: int): (us: int)
    ensures us >= 0
  {
    if !IsValid(f) || bytes <= 0 then 0
    else 1000000 * (bytes / BytesPerFrame(f)) / f.sampleRate
  }

  /**
   * The buffer time, in milliseconds, that the controller derives from the
   * size the sink actually applied (fluidcontroller.cpp, `initialize`).
   */
  function AppliedLatencyMs(f: Format, sinkBufferBytes: int): (ms: int)
    ensures ms >= 0
    ensures ms * 1000 <= DurationForBytes(f, sinkBufferBytes) < ms * 1000 + 1000
  {
    TruncDiv(DurationForBytes(f, sinkBufferBytes), 1000)
  }

  /** Delay before the stall detector is armed: twice the applied buffer time. */
  function ArmingDelayMs(bufferTimeMs: int): (d: int)
    ensures d == 2 * bufferTimeMs
    ensures bufferTimeMs >= 0 ==> d >= bufferTimeMs
  {
    2 * bufferTimeMs
  }

  /** Period of the stall detector: four times the applied buffer time. */
  function StallIntervalMs(bufferTimeMs: int): (d: int)
    ensures d == 2 * ArmingDelayMs(bufferTimeMs)
  {
    4 * bufferTimeMs
  }

  lemma DivMulBound(a: int, b: int)
    requires a >= 0 && b > 0
    ensures (a / b) * b <= a < (a / b) * b + b
  {
  }

  lemma MulMono(a: int, b: int, c: int)
    requires a <= b && c >= 0
    ensures a * c <= b * c
  {
  }

  lemma MulDivCancel(n: int, b: int)
    requires b > 0
    ensures (n * b) / b == n
  {
    var q, r := (n * b) / b, (n * b) % b;
    assert (n - q) * b == r by {
      assert n * b == q * b + r;
      assert (n - q) * b == n * b - q * b;
    }
    if n - q >= 1 {
      MulMono(1, n - q, b);
    } else if n - q <= -1 {
      MulMono(n - q, -1, b);
    }
  }

  /** The frame count of a whole number of frames is recovered exactly. */
  lemma {:induction false} FramesOfBytesForDuration(f: Format, us: int)
    requires IsValid(f)
    ensures BytesForDuration(f, us) / BytesPerFrame(f) == FramesForDuration(f, us)
  {
    var n := FramesForDuration(f, us);
    var b := BytesPerFrame(f);
    assert b > 0 by {
      assert BytesPerSample(f.sampleFormat) >= 1;
      MulMono(1, f.channelCount, BytesPerSample(f.sampleFormat));
    }
    assert BytesForDuration(f, us) == n * b;
    MulDivCancel(n, b);
  }

  /**
   * Asking for `ms` milliseconds and getting exactly the requested size back
   * from the sink never yields a longer applied latency than requested.
   */
  lemma {:induction false} AppliedLatencyNeverExceedsRequest(f: Format, ms: int)
    requires IsValid(f) && ms >= 0
    ensures 0 <= AppliedLatencyMs(f, BytesForDuration(f, ms * 1000)) <= ms
  {
    var bytes := BytesForDuration(f, ms * 1000);
    var r := f.sampleRate;
    var frames := FramesForDuration(f, ms * 1000);
    // frames * 1000000 <= ms * 1000 * r
    DivMulBound(ms * 1000 * r, 1000000);
    assert frames * 1000000 <= ms * 1000 * r;
    if bytes > 0 {
      FramesOfBytesForDuration(f, ms * 1000);
      var us := DurationForBytes(f, bytes);
      assert us == 1000000 * frames / r;
      DivMulBound(1000000 * frames, r);
      assert us * r <= 1000000 * frames;
      assert us * r <= ms * 1000 * r;
      if us > ms * 1000 {
        MulMono(ms * 1000 + 1, us, r);
        assert false;
      }
      assert us / 1000 <= ms;
    }
  }

  /** 100 ms of stereo float32 at 44100 Hz is 4410 frames, i.e. 35280 bytes, and reads back as 100 ms. */
  lemma DefaultBufferArithmetic()
    ensures BytesForDuration(RendererFormat(Defaults.DefaultSampleRate), Defaults.DefaultBufferTime * 1000) == 35280
    ensures AppliedLatencyMs(RendererFormat(Defaults.DefaultSampleRate), 35280) == 100
    ensures ArmingDelayMs(100) == 200 && StallIntervalMs(100) == 400
  {
  }
}
