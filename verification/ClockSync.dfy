/** The per-track clock synchronizer: one step of it as a function of its state, and the
    class that performs that step in place. */
module ClockSync {
  import opened Audio
  import opened Arithmetic

  datatype Config = Config(
    sampleRate: Rate,
    channels: nat,
    format: SampleFormat,
    jitterToleranceMs: int,
    maxSilencePerGapMs: int,
    driftWindowSamples: nat)
  {
    function Tolerance(): int { jitterToleranceMs * NANOS_PER_MILLISECOND }
    function Cap(): int { maxSilencePerGapMs * NANOS_PER_MILLISECOND }
  }

  /** ppm is a real number here: what rounding to a double does to it is not modelled. */
  datatype DriftEstimate = DriftEstimate(ppm: real, valid: bool)

  datatype Stats = Stats(
    framesProcessed: nat,
    framesSynthesized: nat,
    silenceSamplesInserted: nat,
    gapsHealed: nat,
    gapsTruncated: nat,
    overlapsDetected: nat)

  datatype State = State(
    stats: Stats,
    drift: DriftEstimate,
    anchored: bool,
    anchorTimestamp: int,
    samplesSinceAnchor: nat,
    nextOutputSequence: nat,
    driftAnchorTimestamp: int,
    driftAnchorSamples: nat)

  const INIT := State(Stats(0, 0, 0, 0, 0, 0), DriftEstimate(0.0, false), false, 0, 0, 0, 0, 0)

  function SamplesToDuration(rate: Rate, samples: int): int {
    samples * NANOS_PER_SECOND / rate
  }

  function DurationToSamples(rate: Rate, duration: int): nat {
    if duration <= 0 then 0 else
      assert 0 <= duration * rate;
      duration * rate / NANOS_PER_SECOND
  }

  function Zeros(n: nat): seq<Byte> { seq(n, _ => 0) }

  function SilenceFrame(cfg: Config, samples: nat, sequence: nat, timestamp: int, like: AudioFrame): AudioFrame {
    AudioFrame(like.track, sequence, timestamp, cfg.sampleRate, cfg.channels, cfg.format, true,
               Zeros(samples * cfg.channels * BytesPerSample(cfg.format)))
  }

  function AnchoredAt(s: State, timestamp: int): State {
    s.(anchored := true, anchorTimestamp := timestamp, samplesSinceAnchor := 0,
       driftAnchorTimestamp := timestamp, driftAnchorSamples := 0)
  }

  /** Where the sample clock places the next sample. */
  function Expected(cfg: Config, s: State): int {
    s.anchorTimestamp + SamplesToDuration(cfg.sampleRate, s.samplesSinceAnchor)
  }

  /** The frame's distance ahead of the sample clock. */
  function Delta(cfg: Config, s: State, f: AudioFrame): int {
    f.timestamp - Expected(cfg, s)
  }

  predicate IsGap(cfg: Config, s: State, f: AudioFrame) {
    s.anchored && (Delta(cfg, s, f) > cfg.Tolerance() || (f.discontinuity && Delta(cfg, s, f) > 0))
  }

  predicate IsTruncated(cfg: Config, s: State, f: AudioFrame) {
    IsGap(cfg, s, f) && Delta(cfg, s, f) > cfg.Cap()
  }

  predicate IsOverlap(cfg: Config, s: State, f: AudioFrame) {
    s.anchored && !IsGap(cfg, s, f) && Delta(cfg, s, f) < -cfg.Tolerance()
  }

  /** Parts per million by which a deviation stretches an elapsed time. */
  function Ppm(deviation: int, elapsed: int): real
    requires elapsed > 0
  {
    deviation as real / elapsed as real * 1_000_000.0
  }

  function DriftUpdated(cfg: Config, s: State, timestamp: int): State {
    var samples := s.samplesSinceAnchor - s.driftAnchorSamples;
    if samples < cfg.driftWindowSamples then s else
      var sampleElapsed := SamplesToDuration(cfg.sampleRate, samples);
      var monotonicElapsed := timestamp - s.driftAnchorTimestamp;
      var drift := if sampleElapsed > 0
        then DriftEstimate(Ppm(monotonicElapsed - sampleElapsed, sampleElapsed), true)
        else s.drift;
      s.(drift := drift, driftAnchorTimestamp := timestamp, driftAnchorSamples := s.samplesSinceAnchor)
  }

  datatype Aligned = Aligned(state: State, output: seq<AudioFrame>, discontinuity: bool)

  /** Heals a gap up to the cap; a longer one re-anchors at the frame. */
  function Healed(cfg: Config, s: State, f: AudioFrame): Aligned {
    var delta := Delta(cfg, s, f);
    var silence := DurationToSamples(cfg.sampleRate, Min(delta, cfg.Cap()));
    var filled := if silence == 0 then s else
      s.(stats := s.stats.(framesSynthesized := s.stats.framesSynthesized + 1,
                           silenceSamplesInserted := s.stats.silenceSamplesInserted + silence),
         samplesSinceAnchor := s.samplesSinceAnchor + silence,
         nextOutputSequence := s.nextOutputSequence + 1);
    var output := if silence == 0 then [] else
      [SilenceFrame(cfg, silence, s.nextOutputSequence, Expected(cfg, s), f)];
    if delta > cfg.Cap() then
      Aligned(AnchoredAt(filled.(stats := filled.stats.(gapsTruncated := filled.stats.gapsTruncated + 1)), f.timestamp),
              output, true)
    else
      Aligned(filled.(stats := filled.stats.(gapsHealed := filled.stats.gapsHealed + 1)), output, false)
  }

  /** Everything that happens before the frame's own samples are accounted. */
  function Align(cfg: Config, s: State, f: AudioFrame): Aligned {
    if !s.anchored then Aligned(AnchoredAt(s, f.timestamp), [], f.discontinuity)
    else if IsGap(cfg, s, f) then Healed(cfg, s, f)
    else if IsOverlap(cfg, s, f) then
      Aligned(AnchoredAt(s.(stats := s.stats.(overlapsDetected := s.stats.overlapsDetected + 1)), f.timestamp),
              [], true)
    else Aligned(s, [], f.discontinuity)
  }

  /** One call of process: the state it leaves and the frames it returns. */
  function Step(cfg: Config, s: State, f: AudioFrame): (State, seq<AudioFrame>) {
    var counted := s.(stats := s.stats.(framesProcessed := s.stats.framesProcessed + 1));
    var a := Align(cfg, counted, f);
    var real_ := f.(sequence := a.state.nextOutputSequence, discontinuity := a.discontinuity);
    var drifted := DriftUpdated(cfg, a.state.(nextOutputSequence := a.state.nextOutputSequence + 1), f.timestamp);
    (drifted.(samplesSinceAnchor := drifted.samplesSinceAnchor + f.SampleCount()), a.output + [real_])
  }

  /** The synchronizer of one track, as the drain side calls it. */
  class TrackSynchronizer {
    const config: Config
    var stats: Stats
    var drift: DriftEstimate
    var anchored: bool
    var anchorTimestamp: int
    var samplesSinceAnchor: nat
    var nextOutputSequence: nat
    var driftAnchorTimestamp: int
    var driftAnchorSamples: nat

    ghost function View(): State
      reads this
    {
      State(stats, drift, anchored, anchorTimestamp, samplesSinceAnchor, nextOutputSequence,
            driftAnchorTimestamp, driftAnchorSamples)
    }

    constructor (config: Config)
      ensures this.config == config && View() == INIT
    {
      this.config := config;
      stats := Stats(0, 0, 0, 0, 0, 0);
      drift := DriftEstimate(0.0, false);
      anchored := false;
      anchorTimestamp, samplesSinceAnchor, nextOutputSequence := 0, 0, 0;
      driftAnchorTimestamp, driftAnchorSamples := 0, 0;
    }

    method MakeSilenceFrame(samples: nat, timestamp: int, like: AudioFrame) returns (silence: AudioFrame)
      modifies this`nextOutputSequence
      ensures silence == SilenceFrame(config, samples, old(nextOutputSequence), timestamp, like)
      ensures nextOutputSequence == old(nextOutputSequence) + 1
    {
      var bytes := samples * config.channels * BytesPerSample(config.format);
      silence := AudioFrame(like.track, nextOutputSequence, timestamp, config.sampleRate, config.channels,
                            config.format, true, Zeros(bytes));
      nextOutputSequence := nextOutputSequence + 1;
    }

    method AnchorAt(timestamp: int)
      modifies this
      ensures View() == AnchoredAt(old(View()), timestamp)
    {
      anchored := true;
      anchorTimestamp := timestamp;
      samplesSinceAnchor := 0;
      driftAnchorTimestamp := timestamp;
      driftAnchorSamples := 0;
    }

    method UpdateDrift(frame: AudioFrame)
      modifies this
      ensures View() == DriftUpdated(config, old(View()), frame.timestamp)
    {
      var samplesSinceDriftAnchor := samplesSinceAnchor - driftAnchorSamples;
      if samplesSinceDriftAnchor < config.driftWindowSamples {
        return;
      }
      var sampleElapsed := SamplesToDuration(config.sampleRate, samplesSinceDriftAnchor);
      var monotonicElapsed := frame.timestamp - driftAnchorTimestamp;
      if sampleElapsed > 0 {
        drift := DriftEstimate(Ppm(monotonicElapsed - sampleElapsed, sampleElapsed), true);
      }
      driftAnchorTimestamp := frame.timestamp;
      driftAnchorSamples := samplesSinceAnchor;
    }

    /** The gap branch of Process: silence up to the cap, then the verdict on the frame. */
    method HealGap(frame: AudioFrame, expected: int, delta: int)
      returns (output: seq<AudioFrame>, discontinuity: bool)
      requires expected == Expected(config, View()) && delta == Delta(config, View(), frame)
      modifies this
      ensures Aligned(View(), output, discontinuity) == Healed(config, old(View()), frame)
    {
      output := [];
      var cap := config.Cap();
      var truncated := delta > cap;
      var silenceSamples := DurationToSamples(config.sampleRate, Min(delta, cap));
      if silenceSamples > 0 {
        var silence := MakeSilenceFrame(silenceSamples, expected, frame);
        output := output + [silence];
        stats := stats.(framesSynthesized := stats.framesSynthesized + 1,
                        silenceSamplesInserted := stats.silenceSamplesInserted + silenceSamples);
        samplesSinceAnchor := samplesSinceAnchor + silenceSamples;
      }
      if truncated {
        stats := stats.(gapsTruncated := stats.gapsTruncated + 1);
        AnchorAt(frame.timestamp);
        discontinuity := true;
      } else {
        stats := stats.(gapsHealed := stats.gapsHealed + 1);
        discontinuity := false;
      }
    }

    method Process(input: AudioFrame) returns (output: seq<AudioFrame>)
      modifies this
      ensures (View(), output) == Step(config, old(View()), input)
    {
      var frame := input;
      output := [];
      stats := stats.(framesProcessed := stats.framesProcessed + 1);
      ghost var counted := View();
      var frameSamples := frame.SampleCount();

      if !anchored {
        AnchorAt(frame.timestamp);
      } else {
        var expected := anchorTimestamp + SamplesToDuration(config.sampleRate, samplesSinceAnchor);
        var delta := frame.timestamp - expected;
        var tolerance := config.Tolerance();
        if delta > tolerance || (frame.discontinuity && delta > 0) {
          var flag: bool;
          output, flag := HealGap(frame, expected, delta);
          frame := frame.(discontinuity := flag);
        } else if delta < -tolerance {
          stats := stats.(overlapsDetected := stats.overlapsDetected + 1);
          AnchorAt(frame.timestamp);
          frame := frame.(discontinuity := true);
        }
      }
      assert Aligned(View(), output, frame.discontinuity) == Align(config, counted, input);

      frame := frame.(sequence := nextOutputSequence);
      nextOutputSequence := nextOutputSequence + 1;
      UpdateDrift(frame);
      samplesSinceAnchor := samplesSinceAnchor + frameSamples;
      output := output + [frame];
    }
  }
}
