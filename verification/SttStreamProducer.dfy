/** Derives the transcription stream from one aligned track: downmix, decimate, reframe. */
module SttProducer {
  import opened Arithmetic
  import opened Audio
  import opened FirDecimation
  import Sequences

  datatype Config = Config(input: TrackFormat, output: TrackFormat, frameMs: nat)
  {
    function FrameSamples(): nat { SamplesPerChannel(output.sampleRate, frameMs) }

    /** The configurations create accepts. */
    predicate Supported() {
      && input.format == PcmS16Le && output.format == PcmS16Le
      && (input.channels == 1 || input.channels == 2) && output.channels == 1
      && input.sampleRate > 0 && output.sampleRate > 0
      && input.sampleRate % output.sampleRate == 0
      && FrameSamples() > 0
    }
  }

  // ----- Samples in bytes ---------------------------------------------------------------

  function SampleAt(lo: Byte, hi: Byte): Sample {
    var u := lo + 256 * hi;
    if u < 32768 then u else u - 65536
  }

  function SampleBytes(s: Sample): seq<Byte> {
    var u: int := if s < 0 then s + 65536 else s;
    [u % 256, u / 256]
  }

  /** Two bytes a sample, low byte first. */
  function Encode(samples: seq<Sample>): (bytes: seq<Byte>)
    ensures |bytes| == 2 * |samples|
  {
    if samples == [] then [] else Encode(samples[..|samples| - 1]) + SampleBytes(samples[|samples| - 1])
  }

  function Interleaved(payload: seq<Byte>, i: nat): Sample
    requires 2 * i + 1 < |payload|
  {
    SampleAt(payload[2 * i], payload[2 * i + 1])
  }

  /** The samples a payload holds; a trailing odd byte is not a sample. */
  function Decode(payload: seq<Byte>): (samples: seq<Sample>)
    ensures |samples| == |payload| / 2
  {
    seq(|payload| / 2, i requires 0 <= i < |payload| / 2 => Interleaved(payload, i))
  }

  lemma SampleRoundTrip(s: Sample)
    ensures SampleAt(SampleBytes(s)[0], SampleBytes(s)[1]) == s
  {
  }

  /** The two bytes, low one first, of a sample in two's complement. */
  predicate AreBytesOf(s: Sample, lo: Byte, hi: Byte) {
    lo + 256 * hi == if s < 0 then s as int + 65536 else s as int
  }

  lemma SampleIsLittleEndian(s: Sample, lo: Byte, hi: Byte)
    ensures AreBytesOf(s, SampleBytes(s)[0], SampleBytes(s)[1])
    ensures SampleAt(lo, hi) == s <==> AreBytesOf(s, lo, hi)
  {
  }

  /** The samples read from a payload are those its bytes are, low byte first; a trailing odd byte
      is left over. */
  lemma DecodeIsLittleEndian(payload: seq<Byte>, i: nat)
    requires i < |payload| / 2
    ensures |Decode(payload)| == |payload| / 2
    ensures AreBytesOf(Decode(payload)[i], payload[2 * i], payload[2 * i + 1])
  {
    SampleIsLittleEndian(Decode(payload)[i], payload[2 * i], payload[2 * i + 1]);
  }

  /** Sixteen-bit samples survive the bytes, which are little-endian. */
  lemma {:induction false} EncodeRoundTrip(samples: seq<Sample>)
    ensures Decode(Encode(samples)) == samples
    ensures forall i :: 0 <= i < |samples| ==>
              AreBytesOf(samples[i], Encode(samples)[2 * i], Encode(samples)[2 * i + 1])
  {
    if samples == [] {
    } else {
      var init, last := samples[..|samples| - 1], samples[|samples| - 1];
      EncodeRoundTrip(init);
      SampleRoundTrip(last);
      SampleIsLittleEndian(last, 0, 0);
      forall i | 0 <= i < |samples|
        ensures Interleaved(Encode(samples), i) == samples[i]
      {
        if i < |init| { assert Interleaved(Encode(samples), i) == Decode(Encode(init))[i]; }
      }
    }
  }

  /** The mean of both channels, truncated toward zero. */
  function Downmix(left: Sample, right: Sample): Sample {
    var sum: int := left + right;
    if sum >= 0 then sum / 2 else -((-sum) / 2)
  }

  /** The mean lies between the channels and is within half a step of the exact one. */
  lemma DownmixIsMean(left: Sample, right: Sample)
    ensures -1 <= 2 * Downmix(left, right) - (left + right) <= 1
    ensures left <= right ==> left <= Downmix(left, right) <= right
    ensures Downmix(left, right) == Downmix(right, left)
    ensures left + right < 0 ==> 2 * Downmix(left, right) >= left + right
  {
  }

  /** What the filter is fed for one frame of the configured format. */
  function Mono(channels: nat, payload: seq<Byte>): seq<Sample> {
    if channels == 2 then Pairs(Decode(payload)) else Decode(payload)
  }

  /** One sample per interleaved pair. */
  function Pairs(samples: seq<Sample>): (mono: seq<Sample>)
    ensures |mono| == |samples| / 2
    ensures forall i :: 0 <= i < |mono| ==> mono[i] == Downmix(samples[2 * i], samples[2 * i + 1])
  {
    seq(|samples| / 2, i requires 0 <= i < |samples| / 2 => Downmix(samples[2 * i], samples[2 * i + 1]))
  }

  /** One channel is heard as it is. Of two, each pair is heard as its mean, truncated toward zero,
      and half a pair at the end is not. */
  lemma MonoIsHeard(channels: nat, payload: seq<Byte>)
    ensures channels != 2 ==> Mono(channels, payload) == Decode(payload)
    ensures channels == 2 ==>
      && |Mono(channels, payload)| == |payload| / 4
      && forall i :: 0 <= i < |payload| / 4 ==>
           var sum := Decode(payload)[2 * i] as int + Decode(payload)[2 * i + 1] as int;
           var heard := Mono(channels, payload)[i] as int;
           if sum >= 0 then 2 * heard <= sum <= 2 * heard + 1 else 2 * heard - 1 <= sum <= 2 * heard
  {
  }

  // ----- One call as a function ---------------------------------------------------------

  type Positive = x: int | 0 < x witness 1

  /** A supported configuration, worked out: what the object keeps besides its state. */
  datatype Plan = Plan(
    input: TrackFormat,
    rate: Positive,
    factor: Positive,
    frameSamples: Positive,
    coefficients: seq<real>)

  lemma RatioIsWhole(cfg: Config)
    requires cfg.Supported()
    ensures var factor := cfg.input.sampleRate / cfg.output.sampleRate;
      factor > 0 && factor * cfg.output.sampleRate == cfg.input.sampleRate
  {
    assert cfg.input.sampleRate == cfg.input.sampleRate / cfg.output.sampleRate * cfg.output.sampleRate + 0;
  }

  function PlanOf(cfg: Config, design: seq<real>): Plan
    requires cfg.Supported()
  {
    RatioIsWhole(cfg);
    var factor := cfg.input.sampleRate / cfg.output.sampleRate;
    Plan(cfg.input, cfg.output.sampleRate, factor, cfg.FrameSamples(), if factor == 1 then [1.0] else design)
  }

  /** What a plan keeps of its configuration: a whole number of input samples for each output
      sample, and as many whole samples a frame as its length holds. */
  predicate IsPlanFor(cfg: Config, design: seq<real>, p: Plan) {
    && p.input == cfg.input && p.rate == cfg.output.sampleRate
    && p.factor * p.rate == cfg.input.sampleRate
    && p.frameSamples * 1000 <= p.rate * cfg.frameMs < p.frameSamples * 1000 + 1000
    && p.coefficients == if p.factor == 1 then [1.0] else design
  }

  lemma PlanIsFor(cfg: Config, design: seq<real>)
    requires cfg.Supported()
    ensures IsPlanFor(cfg, design, PlanOf(cfg, design))
  {
    RatioIsWhole(cfg);
    QuotientBounds(cfg.output.sampleRate * cfg.frameMs, 1000);
  }

  /** `stretch` is what the filter has heard since it was last reset. */
  datatype State = State(
    stretch: seq<Sample>,
    pending: seq<Sample>,
    nextSequence: nat,
    anchor: Option<int>,
    samplesEmitted: nat,
    pendingDiscontinuity: bool,
    framesIn: nat,
    framesOut: nat,
    rejectedFrames: nat)

  const INIT := State([], [], 0, None, 0, false, 0, 0, 0)

  predicate Accepts(p: Plan, f: AudioFrame) {
    p.input.Fits(f)
  }

  /** The outputs the filter adds when it hears more. */
  function Added(p: Plan, heard: seq<Sample>, more: seq<Sample>): seq<Sample> {
    DecimatedGrows(p.coefficients, p.factor, heard, more);
    Decimated(p.coefficients, p.factor, heard + more)[|Decimated(p.coefficients, p.factor, heard)|..]
  }

  function Timestamp(p: Plan, anchor: int, samples: nat): int {
    anchor + samples * NANOS_PER_SECOND / p.rate
  }

  /** The next output frame, from the front of the pending samples. */
  function NextOutput(p: Plan, s: State): AudioFrame
    requires s.anchor.Some? && |s.pending| >= p.frameSamples
  {
    AudioFrame(SttStream, s.nextSequence, Timestamp(p, s.anchor.value, s.samplesEmitted),
               p.rate, 1, PcmS16Le, s.pendingDiscontinuity, Encode(s.pending[..p.frameSamples]))
  }

  function AfterOutput(p: Plan, s: State): State
    requires |s.pending| >= p.frameSamples
  {
    s.(pending := s.pending[p.frameSamples..], nextSequence := s.nextSequence + 1,
       samplesEmitted := s.samplesEmitted + p.frameSamples, pendingDiscontinuity := false,
       framesOut := s.framesOut + 1)
  }

  function Drained(p: Plan, s: State): (State, seq<AudioFrame>)
    requires s.anchor.Some?
    decreases |s.pending|
  {
    if |s.pending| < p.frameSamples then (s, [])
    else
      var (s', rest) := Drained(p, AfterOutput(p, s));
      (s', [NextOutput(p, s)] + rest)
  }

  /** One turn of the draining, on the outputs so far. */
  lemma DrainsOneMore(p: Plan, s: State, outputs: seq<AudioFrame>, output: AudioFrame)
    requires s.anchor.Some? && |s.pending| >= p.frameSamples && output == NextOutput(p, s)
    ensures var (final, rest) := Drained(p, AfterOutput(p, s));
      Drained(p, s).0 == final && outputs + Drained(p, s).1 == outputs + [output] + rest
  {
    Sequences.Associate(outputs, [output], Drained(p, AfterOutput(p, s)).1);
  }

  /** The state once an accepted frame's samples have been through the filter. */
  function Absorbed(p: Plan, s: State, f: AudioFrame): State {
    var heard := if f.discontinuity then [] else s.stretch;
    var mono := Mono(p.input.channels, f.payload);
    s.(stretch := heard + mono,
       pending := s.pending + Added(p, heard, mono),
       anchor := if s.anchor.Some? then s.anchor else Some(f.timestamp),
       pendingDiscontinuity := s.pendingDiscontinuity || f.discontinuity,
       framesIn := s.framesIn + 1)
  }

  function Step(p: Plan, s: State, f: AudioFrame): (State, seq<AudioFrame>) {
    if !Accepts(p, f) then (s.(rejectedFrames := s.rejectedFrames + 1), [])
    else Drained(p, Absorbed(p, s, f))
  }

  // ----- The producer object ------------------------------------------------------------

  /** Creation is refused exactly for the unsupported configurations. */
  method Create(config: Config, design: seq<real>) returns (producer: SttStreamProducer?)
    requires design != []
    ensures producer != null <==>
      && config.input.format == config.output.format == PcmS16Le
      && (config.input.channels == 1 || config.input.channels == 2) && config.output.channels == 1
      && config.input.sampleRate > 0 && config.output.sampleRate > 0
      && config.input.sampleRate % config.output.sampleRate == 0
      && config.output.sampleRate * config.frameMs >= 1000
    ensures producer != null ==> IsPlanFor(config, design, producer.plan)
    ensures config.Supported() <==> producer != null
    ensures producer != null ==>
      producer.Valid() && producer.plan == PlanOf(config, design) && producer.View() == INIT
  {
    QuotientBounds(config.output.sampleRate * config.frameMs, 1000);
    if config.Supported() {
      PlanIsFor(config, design);
    }
    var integerPcm := config.input.format == PcmS16Le && config.output.format == PcmS16Le;
    var channelsSupported := (config.input.channels == 1 || config.input.channels == 2) && config.output.channels == 1;
    var ratesSupported := config.input.sampleRate > 0 && config.output.sampleRate > 0
      && config.input.sampleRate % config.output.sampleRate == 0;
    var frameSamples := SamplesPerChannel(config.output.sampleRate, config.frameMs);
    if !integerPcm || !channelsSupported || !ratesSupported || frameSamples == 0 {
      return null;
    }
    producer := new SttStreamProducer(config, design);
  }

  class SttStreamProducer {
    const config: Config
    const decimator: FirDecimator
    const samplesPerOutputFrame: nat
    ghost const plan: Plan
    var pending: seq<Sample>
    var nextSequence: nat
    var anchor: Option<int>
    var samplesEmitted: nat
    var pendingDiscontinuity: bool
    var framesIn: nat
    var framesOut: nat
    var rejectedFrames: nat

    ghost predicate Valid()
      reads this, decimator, decimator.history
    {
      && decimator.Valid()
      && samplesPerOutputFrame > 0 && config.output.sampleRate > 0
      && config.output.channels == 1 && config.input.channels in {1, 2}
      && plan == Plan(config.input, config.output.sampleRate, decimator.factor, samplesPerOutputFrame,
                      decimator.coefficients)
    }

    ghost function View(): State
      reads this, decimator
    {
      State(decimator.signal, pending, nextSequence, anchor, samplesEmitted, pendingDiscontinuity,
            framesIn, framesOut, rejectedFrames)
    }

    constructor (config: Config, design: seq<real>)
      requires config.Supported() && design != []
      ensures Valid() && plan == PlanOf(config, design) && View() == INIT
      ensures fresh(decimator) && fresh(decimator.history)
    {
      RatioIsWhole(config);
      this.config := config;
      decimator := new FirDecimator(config.input.sampleRate / config.output.sampleRate, design);
      samplesPerOutputFrame := SamplesPerChannel(config.output.sampleRate, config.frameMs);
      plan := PlanOf(config, design);
      pending, nextSequence, anchor, samplesEmitted := [], 0, None, 0;
      pendingDiscontinuity, framesIn, framesOut, rejectedFrames := false, 0, 0, 0;
    }

    /** Averages each interleaved pair into the scratch buffer. */
    static method DownmixStereo(payload: seq<Byte>) returns (mono: seq<Sample>)
      ensures mono == Mono(2, payload)
    {
      mono := [];
      for i := 0 to |payload| / 4
        invariant |mono| == i
        invariant forall k :: 0 <= k < i ==> mono[k] == Mono(2, payload)[k]
      {
        mono := mono + [Downmix(Interleaved(payload, 2 * i), Interleaved(payload, 2 * i + 1))];
      }
    }

    /** One turn of the reframing loop. */
    method EmitOne() returns (output: AudioFrame)
      requires Valid() && anchor.Some? && |pending| >= samplesPerOutputFrame
      modifies this
      ensures Valid() && View() == AfterOutput(plan, old(View()))
      ensures output == NextOutput(plan, old(View()))
    {
      var elapsed := samplesEmitted * NANOS_PER_SECOND / config.output.sampleRate;
      output := AudioFrame(SttStream, nextSequence, anchor.value + elapsed, config.output.sampleRate,
                           config.output.channels, PcmS16Le, pendingDiscontinuity,
                           Encode(pending[..samplesPerOutputFrame]));
      nextSequence := nextSequence + 1;
      pendingDiscontinuity := false;
      pending := pending[samplesPerOutputFrame..];
      samplesEmitted := samplesEmitted + samplesPerOutputFrame;
      framesOut := framesOut + 1;
    }

    /** Cuts whole output frames off the front of the pending samples. */
    method EmitPending() returns (outputs: seq<AudioFrame>)
      requires Valid() && anchor.Some?
      modifies this
      ensures Valid() && (View(), outputs) == Drained(plan, old(View()))
    {
      outputs := [];
      ghost var (final, all) := Drained(plan, View());
      while |pending| >= samplesPerOutputFrame
        invariant Valid() && anchor.Some?
        invariant Drained(plan, View()).0 == final
        invariant all == outputs + Drained(plan, View()).1
        decreases |pending|
      {
        ghost var before := View();
        var output := EmitOne();
        DrainsOneMore(plan, before, outputs, output);
        outputs := outputs + [output];
      }
      Sequences.ConcatEmpty(outputs);
    }

    method Process(frame: AudioFrame) returns (outputs: seq<AudioFrame>)
      requires Valid()
      modifies this, decimator, decimator.history
      ensures Valid() && (View(), outputs) == Step(plan, old(View()), frame)
    {
      if frame.format != config.input.format || frame.sampleRate != config.input.sampleRate
         || frame.channels != config.input.channels {
        rejectedFrames := rejectedFrames + 1;
        return [];
      }
      framesIn := framesIn + 1;
      if anchor.None? {
        anchor := Some(frame.timestamp);
      }
      if frame.discontinuity {
        decimator.Reset();
        pendingDiscontinuity := true;
      }
      ghost var heard := decimator.signal;
      var mono: seq<Sample>;
      if config.input.channels == 2 {
        mono := DownmixStereo(frame.payload);
      } else {
        mono := Decode(frame.payload);
      }
      var extended := decimator.Process(mono, pending);
      pending := extended;
      assert View() == Absorbed(plan, old(View()), frame);
      outputs := EmitPending();
    }
  }
}
