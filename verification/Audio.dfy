/** The vocabulary every stage shares: sample formats, frames, and the raw bytes of a payload. */
module Audio {

  datatype Option<+T> = None | Some(value: T)

  type Byte = b: int | 0 <= b < 256

  /** A sample rate in hertz. A rate of zero would make every conversion divide by zero. */
  type Rate = r: int | 0 < r < 0x1_0000_0000 witness 48_000

  const NANOS_PER_SECOND := 1_000_000_000
  const NANOS_PER_MILLISECOND := 1_000_000

  datatype SampleFormat = PcmS16Le | Float32Le

  datatype TrackKind = Microphone | SystemOutput | EchoCancelledMicrophone | Mix | SttStream

  function BytesPerSample(format: SampleFormat): nat {
    match format
    case PcmS16Le => 2
    case Float32Le => 4
  }

  /** How many samples a channel has in so many milliseconds, rounded down. */
  function SamplesPerChannel(rate: nat, frameMs: nat): nat {
    rate * frameMs / 1000
  }

  /** Whole sample frames in a payload; trailing bytes that do not fill one are not counted. */
  function WholeStrides(bytes: nat, stride: nat): nat {
    if stride == 0 then 0 else bytes / stride
  }

  /** One captured frame. Timestamps are nanoseconds on the monotonic clock. */
  datatype AudioFrame = AudioFrame(
    track: TrackKind,
    sequence: nat,
    timestamp: int,
    sampleRate: nat,
    channels: nat,
    format: SampleFormat,
    discontinuity: bool,
    payload: seq<Byte>)
  {
    function Stride(): nat { BytesPerSample(format) * channels }

    function SampleCount(): nat { WholeStrides(|payload|, Stride()) }
  }

  /** How many whole samples, one for every channel, a payload has room for: a sample is two bytes
      wide as an integer and four as a floating-point number. */
  lemma PayloadHoldsSamples(f: AudioFrame)
    ensures var width := f.channels * (if f.format == PcmS16Le then 2 else 4);
      if f.channels == 0 then f.SampleCount() == 0
      else f.SampleCount() * width <= |f.payload| < f.SampleCount() * width + width
  {
    if f.channels > 0 {
      StrideFits(|f.payload|, f.Stride());
    }
  }

  lemma StrideFits(bytes: nat, stride: nat)
    requires stride > 0
    ensures WholeStrides(bytes, stride) * stride <= bytes < WholeStrides(bytes, stride) * stride + stride
  {
    assert bytes == bytes / stride * stride + bytes % stride;
  }

  /** What a track's frames are made of. */
  datatype TrackFormat = TrackFormat(sampleRate: nat, channels: nat, format: SampleFormat)
  {
    predicate Fits(f: AudioFrame) {
      f.format == format && f.sampleRate == sampleRate && f.channels == channels
    }
  }

  function Earlier(frames: seq<AudioFrame>): seq<AudioFrame>
    requires frames != []
  {
    frames[..|frames| - 1]
  }

  function Final(frames: seq<AudioFrame>): AudioFrame
    requires frames != []
  {
    frames[|frames| - 1]
  }

  /** Per-channel samples carried by a run of frames. */
  function TotalSamples(frames: seq<AudioFrame>): nat {
    if frames == [] then 0
    else TotalSamples(frames[..|frames| - 1]) + frames[|frames| - 1].SampleCount()
  }

  lemma {:induction false} TotalSamplesConcat(a: seq<AudioFrame>, b: seq<AudioFrame>)
    ensures TotalSamples(a + b) == TotalSamples(a) + TotalSamples(b)
  {
    if b == [] {
      assert a + b == a;
    } else {
      var init := b[..|b| - 1];
      assert (a + b)[..|a + b| - 1] == a + init;
      TotalSamplesConcat(a, init);
    }
  }

  /** Adding one more frame at the end. */
  lemma TotalSamplesAppend(a: seq<AudioFrame>, f: AudioFrame)
    ensures TotalSamples(a + [f]) == TotalSamples(a) + f.SampleCount()
  {
    assert (a + [f])[..|a|] == a;
  }
}
