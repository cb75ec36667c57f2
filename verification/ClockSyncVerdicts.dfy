/** What the synchronizer makes of one frame, told from timestamps and counts in nanoseconds and
    samples: in band, late, early or later than can be made good. Over whole runs, exactly the
    frames within the tolerance pass untouched. */
module ClockSyncVerdicts {
  import opened Audio
  import opened Arithmetic
  import opened ClockSync
  import opened ClockSyncProofs

  // ----- The reference ------------------------------------------------------------------

  /** Nanoseconds from where the samples since the anchor end to where the frame starts. */
  function Lateness(cfg: Config, s: State, f: AudioFrame): int {
    f.timestamp - (s.anchorTimestamp + s.samplesSinceAnchor * 1_000_000_000 / cfg.sampleRate)
  }

  /** Later than the tolerance, or flagged by the source and late at all. */
  predicate IsLate(cfg: Config, s: State, f: AudioFrame) {
    || Lateness(cfg, s, f) > cfg.jitterToleranceMs * 1_000_000
    || (f.discontinuity && Lateness(cfg, s, f) > 0)
  }

  predicate IsEarly(cfg: Config, s: State, f: AudioFrame) {
    !IsLate(cfg, s, f) && -Lateness(cfg, s, f) > cfg.jitterToleranceMs * 1_000_000
  }

  /** More than the silence cap late. */
  predicate IsBeyondCap(cfg: Config, s: State, f: AudioFrame) {
    Lateness(cfg, s, f) > cfg.maxSilencePerGapMs * 1_000_000
  }

  /** As many whole samples as fit into a time, and none into less than no time. */
  predicate FillsTime(cfg: Config, samples: nat, time: int) {
    if time <= 0 then samples == 0
    else samples * 1_000_000_000 <= time * cfg.sampleRate < samples * 1_000_000_000 + 1_000_000_000
  }

  /** Zeros for so many samples, in the configured format, flagged, on the frame's track. */
  predicate IsSilence(cfg: Config, out: AudioFrame, samples: nat, f: AudioFrame) {
    && out.track == f.track && out.sampleRate == cfg.sampleRate && out.channels == cfg.channels
    && out.format == cfg.format && out.discontinuity
    && |out.payload| == samples * cfg.channels * (if cfg.format == PcmS16Le then 2 else 4)
    && forall i :: 0 <= i < |out.payload| ==> out.payload[i] == 0
  }

  /** The frame comes out with the next number and a flag, behind this much silence, which starts
      where the samples so far end. */
  predicate Delivers(cfg: Config, s: State, f: AudioFrame, out: seq<AudioFrame>, silence: nat, flagged: bool) {
    if silence == 0 then out == [f.(sequence := s.nextOutputSequence, discontinuity := flagged)]
    else
      && |out| == 2
      && IsSilence(cfg, out[0], silence, f) && out[0].sequence == s.nextOutputSequence
      && out[0].timestamp == f.timestamp - Lateness(cfg, s, f)
      && out[1] == f.(sequence := s.nextOutputSequence + 1, discontinuity := flagged)
  }

  /** The counters move by these amounts. */
  predicate Counts(s: State, s': State, silence: nat, healed: nat, truncated: nat, overlaps: nat) {
    s'.stats == Stats(s.stats.framesProcessed + 1, s.stats.framesSynthesized + (if silence > 0 then 1 else 0),
                      s.stats.silenceSamplesInserted + silence, s.stats.gapsHealed + healed,
                      s.stats.gapsTruncated + truncated, s.stats.overlapsDetected + overlaps)
  }

  /** The samples are counted on from the same anchor. */
  predicate GoesOn(s: State, s': State, samples: nat) {
    && s'.anchored && s'.anchorTimestamp == s.anchorTimestamp
    && s'.samplesSinceAnchor == s.samplesSinceAnchor + samples
  }

  /** The frame is the new anchor, and a drift window opens with it. */
  predicate StartsOver(s': State, f: AudioFrame) {
    && s'.anchored && s'.anchorTimestamp == f.timestamp == s'.driftAnchorTimestamp
    && s'.samplesSinceAnchor == f.SampleCount() && s'.driftAnchorSamples == 0
  }

  // ----- One frame ----------------------------------------------------------------------

  lemma DeltaIsLateness(cfg: Config, s: State, f: AudioFrame)
    ensures Delta(cfg, s, f) == Lateness(cfg, s, f)
    ensures s.anchored ==> (IsGap(cfg, s, f) <==> IsLate(cfg, s, f))
    ensures s.anchored ==> (IsOverlap(cfg, s, f) <==> IsEarly(cfg, s, f))
    ensures cfg.Cap() == cfg.maxSilencePerGapMs * 1_000_000
  {
  }

  lemma ConversionFillsTime(cfg: Config, time: int)
    ensures FillsTime(cfg, DurationToSamples(cfg.sampleRate, time), time)
  {
    if time > 0 {
      QuotientBounds(time * cfg.sampleRate, 1_000_000_000);
    }
  }

  lemma SilenceIsSilence(cfg: Config, samples: nat, sequence: nat, timestamp: int, f: AudioFrame)
    ensures IsSilence(cfg, SilenceFrame(cfg, samples, sequence, timestamp, f), samples, f)
  {
  }

  /** The first frame is passed on as it is and anchors the timeline. */
  lemma FirstFrameAnchors(cfg: Config, s: State, f: AudioFrame)
    requires !s.anchored
    ensures var (s', out) := Step(cfg, s, f);
      && Delivers(cfg, s, f, out, 0, f.discontinuity) && Counts(s, s', 0, 0, 0, 0) && StartsOver(s', f)
  {
  }

  /** A frame within the tolerance, on either side, passes with its own flag, nothing is inserted,
      and no counter but that of frames moves. */
  lemma InBandPasses(cfg: Config, s: State, f: AudioFrame)
    requires s.anchored && !IsLate(cfg, s, f) && !IsEarly(cfg, s, f)
    ensures var (s', out) := Step(cfg, s, f);
      && Delivers(cfg, s, f, out, 0, f.discontinuity) && Counts(s, s', 0, 0, 0, 0)
      && GoesOn(s, s', f.SampleCount())
  {
    DeltaIsLateness(cfg, s, f);
  }

  /** A late frame within the cap is preceded by as many whole samples of silence as it is late,
      and its flag is taken off. */
  lemma LateIsHealed(cfg: Config, s: State, f: AudioFrame) returns (silence: nat)
    requires s.anchored && IsLate(cfg, s, f) && !IsBeyondCap(cfg, s, f)
    ensures FillsTime(cfg, silence, Lateness(cfg, s, f))
    ensures var (s', out) := Step(cfg, s, f);
      && Delivers(cfg, s, f, out, silence, false) && Counts(s, s', silence, 1, 0, 0)
      && GoesOn(s, s', silence + f.SampleCount())
  {
    silence := DurationToSamples(cfg.sampleRate, Lateness(cfg, s, f));
    DeltaIsLateness(cfg, s, f);
    ConversionFillsTime(cfg, Lateness(cfg, s, f));
    SilenceIsSilence(cfg, silence, s.nextOutputSequence, Expected(cfg, s), f);
  }

  /** A late frame beyond the cap is preceded by the cap's silence, flagged, and a new anchor. */
  lemma BeyondCapIsTruncated(cfg: Config, s: State, f: AudioFrame) returns (silence: nat)
    requires s.anchored && IsLate(cfg, s, f) && IsBeyondCap(cfg, s, f)
    ensures FillsTime(cfg, silence, cfg.maxSilencePerGapMs * 1_000_000)
    ensures var (s', out) := Step(cfg, s, f);
      && Delivers(cfg, s, f, out, silence, true) && Counts(s, s', silence, 0, 1, 0) && StartsOver(s', f)
  {
    silence := DurationToSamples(cfg.sampleRate, cfg.maxSilencePerGapMs * 1_000_000);
    DeltaIsLateness(cfg, s, f);
    ConversionFillsTime(cfg, cfg.maxSilencePerGapMs * 1_000_000);
    SilenceIsSilence(cfg, silence, s.nextOutputSequence, Expected(cfg, s), f);
  }

  /** A frame earlier than the tolerance keeps all its samples, is flagged, and a new anchor. */
  lemma EarlyIsOverlap(cfg: Config, s: State, f: AudioFrame)
    requires s.anchored && IsEarly(cfg, s, f)
    ensures var (s', out) := Step(cfg, s, f);
      && Delivers(cfg, s, f, out, 0, true) && Counts(s, s', 0, 0, 0, 1) && StartsOver(s', f)
  {
    DeltaIsLateness(cfg, s, f);
  }

  /** Two counts that fill the same time are the same. */
  lemma FillIsUnique(cfg: Config, m: nat, n: nat, time: int)
    requires FillsTime(cfg, m, time) && FillsTime(cfg, n, time)
    ensures m == n
  {
  }

  /** How many verdicts other than "in band" have been given. */
  function Verdicts(stats: Stats): nat { stats.gapsHealed + stats.gapsTruncated + stats.overlapsDetected }

  /** Each counter moves exactly for its verdict, and by one. */
  lemma VerdictsAreExact(cfg: Config, s: State, f: AudioFrame)
    requires s.anchored
    ensures var was, now := s.stats, Step(cfg, s, f).0.stats;
      && now.gapsHealed == was.gapsHealed + Count(IsLate(cfg, s, f) && !IsBeyondCap(cfg, s, f))
      && now.gapsTruncated == was.gapsTruncated + Count(IsLate(cfg, s, f) && IsBeyondCap(cfg, s, f))
      && now.overlapsDetected == was.overlapsDetected + Count(IsEarly(cfg, s, f))
      && Verdicts(now) == Verdicts(was) + Count(IsLate(cfg, s, f) || IsEarly(cfg, s, f))
  {
    if IsEarly(cfg, s, f) {
      EarlyIsOverlap(cfg, s, f);
    } else if !IsLate(cfg, s, f) {
      InBandPasses(cfg, s, f);
    } else if IsBeyondCap(cfg, s, f) {
      var _ := BeyondCapIsTruncated(cfg, s, f);
    } else {
      var _ := LateIsHealed(cfg, s, f);
    }
  }

  // ----- Drift --------------------------------------------------------------------------

  /** A window is closed by the first frame with a window's worth of samples since it opened, and
      then what is published is how much longer the timestamps took than the samples, in parts of
      a million of the samples' time; a window too short to last a nanosecond publishes nothing. */
  lemma WindowIsMeasured(cfg: Config, s: State, timestamp: int)
    requires s.driftAnchorSamples <= s.samplesSinceAnchor
    ensures var samples := s.samplesSinceAnchor - s.driftAnchorSamples;
      var elapsed := samples * 1_000_000_000 / cfg.sampleRate;
      var u := DriftUpdated(cfg, s, timestamp);
      if samples < cfg.driftWindowSamples then u == s
      else
        && u == s.(drift := u.drift, driftAnchorTimestamp := timestamp, driftAnchorSamples := s.samplesSinceAnchor)
        && (elapsed > 0 ==>
              && u.drift.valid
              && u.drift.ppm * elapsed as real
                 == (timestamp - s.driftAnchorTimestamp - elapsed) as real * 1_000_000.0)
        && (elapsed <= 0 ==> u.drift == s.drift)
  {
    var samples := s.samplesSinceAnchor - s.driftAnchorSamples;
    var elapsed := SamplesToDuration(cfg.sampleRate, samples);
    if samples >= cfg.driftWindowSamples && elapsed > 0 {
      var deviation := timestamp - s.driftAnchorTimestamp - elapsed;
      PpmBound(deviation, elapsed, Abs(deviation));
    }
  }

  // ----- Whole runs ---------------------------------------------------------------------

  /** Nanoseconds from where the last frame would start, had all before it been captured without
      a break since the first, to where it does start. */
  function LastLateness(cfg: Config, frames: seq<AudioFrame>): int
    requires frames != []
  {
    Final(frames).timestamp
    - (frames[0].timestamp + TotalSamples(Earlier(frames)) * 1_000_000_000 / cfg.sampleRate)
  }

  /** After the first, every frame is within the tolerance of that, and none that is flagged is
      late. */
  predicate Steady(cfg: Config, frames: seq<AudioFrame>) {
    |frames| > 1 ==>
      && Steady(cfg, Earlier(frames))
      && -cfg.jitterToleranceMs * 1_000_000 <= LastLateness(cfg, frames) <= cfg.jitterToleranceMs * 1_000_000
      && (Final(frames).discontinuity ==> LastLateness(cfg, frames) <= 0)
  }

  /** The same frames, numbered from zero. */
  predicate Renumbered(frames: seq<AudioFrame>, output: seq<AudioFrame>) {
    |output| == |frames| && forall i :: 0 <= i < |frames| ==> output[i] == frames[i].(sequence := i)
  }

  /** Where a run over steady frames leaves the synchronizer. */
  predicate OnSchedule(frames: seq<AudioFrame>, s: State)
    requires frames != []
  {
    && s.anchored && s.anchorTimestamp == frames[0].timestamp && s.samplesSinceAnchor == TotalSamples(frames)
    && s.nextOutputSequence == |frames|
    && s.stats == Stats(|frames|, 0, 0, 0, 0, 0)
  }

  lemma CallDelivers(cfg: Config, s: State, f: AudioFrame, t: Trace)
    requires Delivers(cfg, s, f, Step(cfg, s, f).1, 0, f.discontinuity)
    ensures AppendCall(t, CallOn(cfg, s, f)).output == t.output + [f.(sequence := s.nextOutputSequence)]
  {
    assert t.output + [] == t.output;
  }

  lemma NumberOneMore(frames: seq<AudioFrame>, output: seq<AudioFrame>)
    requires frames != [] && Renumbered(Earlier(frames), output)
    ensures Renumbered(frames, output + [Final(frames).(sequence := |frames| - 1)])
  {
  }

  lemma FirstOnSchedule(cfg: Config, frames: seq<AudioFrame>)
    requires |frames| == 1
    ensures Renumbered(frames, Run(cfg, frames).output) && OnSchedule(frames, Reached(Calls(cfg, frames)))
  {
    CallsUnfold(cfg, frames);
    FirstFrameAnchors(cfg, INIT, frames[0]);
    CallDelivers(cfg, INIT, frames[0], TraceOf([]));
    assert Earlier(frames) == [] && Final(frames) == frames[0];
    NumberOneMore(frames, []);
    FirstStateIsFresh(cfg, frames[0]);
  }

  lemma FirstStateIsFresh(cfg: Config, f: AudioFrame)
    ensures Step(cfg, INIT, f).0.nextOutputSequence == 1
  {
  }

  lemma NumbersGoOn(cfg: Config, s: State, f: AudioFrame)
    requires Delivers(cfg, s, f, Step(cfg, s, f).1, 0, f.discontinuity)
    ensures Step(cfg, s, f).0.nextOutputSequence == s.nextOutputSequence + 1
  {
    CallIsShaped(cfg, s, f);
  }

  /** One more frame on schedule. */
  lemma NextOnSchedule(cfg: Config, frames: seq<AudioFrame>, s: State, t: Trace)
    requires |frames| > 1 && OnSchedule(Earlier(frames), s) && Renumbered(Earlier(frames), t.output)
    requires Steady(cfg, frames)
    ensures var c := CallOn(cfg, s, Final(frames));
      OnSchedule(frames, c.after) && Renumbered(frames, AppendCall(t, c).output)
  {
    var f := Final(frames);
    assert Lateness(cfg, s, f) == LastLateness(cfg, frames);
    InBandPasses(cfg, s, f);
    CallDelivers(cfg, s, f, t);
    NumbersGoOn(cfg, s, f);
    NumberOneMore(frames, t.output);
  }

  /** What holds after every run. */
  predicate PassesExactly(cfg: Config, frames: seq<AudioFrame>, s: State, output: seq<AudioFrame>)
    requires frames != []
  {
    && s.anchored
    && (Verdicts(s.stats) == 0 <==> Steady(cfg, frames))
    && (Steady(cfg, frames) ==> OnSchedule(frames, s) && Renumbered(frames, output))
  }

  lemma NextPasses(cfg: Config, frames: seq<AudioFrame>, s: State, t: Trace)
    requires |frames| > 1 && PassesExactly(cfg, Earlier(frames), s, t.output)
    ensures var c := CallOn(cfg, s, Final(frames));
      PassesExactly(cfg, frames, c.after, AppendCall(t, c).output)
  {
    var f := Final(frames);
    StepEffects(cfg, s, f);
    VerdictsAreExact(cfg, s, f);
    if Steady(cfg, Earlier(frames)) {
      assert Lateness(cfg, s, f) == LastLateness(cfg, frames);
      if Steady(cfg, frames) {
        NextOnSchedule(cfg, frames, s, t);
      }
    }
  }

  /** Jitter is absorbed and nothing else is: over every run and every configuration, no gap and
      no overlap is found if and only if every frame is within the tolerance of where the samples
      before it end, and then the frames come out as they went in, numbered from zero, with nothing
      in between. */
  lemma {:induction false} SteadyFramesPass(cfg: Config, frames: seq<AudioFrame>)
    requires frames != []
    ensures PassesExactly(cfg, frames, Reached(Calls(cfg, frames)), Run(cfg, frames).output)
  {
    CallsUnfold(cfg, frames);
    if |frames| == 1 {
      FirstOnSchedule(cfg, frames);
    } else {
      SteadyFramesPass(cfg, Earlier(frames));
      NextPasses(cfg, frames, Reached(Calls(cfg, Earlier(frames))), Run(cfg, Earlier(frames)));
    }
  }
}
