/** What the synchronizer guarantees over whole runs, stated on the frames it outputs. */
module ClockSyncProofs {
  import opened Audio
  import opened Arithmetic
  import opened ClockSync
  import Sequences

  // ----- Runs ---------------------------------------------------------------------------

  /** One call of process, as an observer would log it: the silence synthesized, if any,
      and the captured frame as it came out. */
  datatype Call = Call(
    before: State,
    frame: AudioFrame,
    after: State,
    silence: seq<AudioFrame>,
    aligned: AudioFrame,
    reanchors: bool)

  /** The frame itself becomes the new anchor. */
  predicate Reanchors(cfg: Config, s: State, f: AudioFrame) {
    !s.anchored || IsTruncated(cfg, s, f) || IsOverlap(cfg, s, f)
  }

  function CallOn(cfg: Config, s: State, f: AudioFrame): Call {
    var (s', out) := Step(cfg, s, f);
    Call(s, f, s', out[..|out| - 1], out[|out| - 1], Reanchors(cfg, s, f))
  }

  function Reached(calls: seq<Call>): State {
    if calls == [] then INIT else Last(calls).after
  }

  /** The calls of a fresh synchronizer fed these frames. */
  function Calls(cfg: Config, frames: seq<AudioFrame>): (calls: seq<Call>)
    ensures |calls| == |frames|
    decreases |frames|, 1
  {
    if frames == [] then [] else Calls(cfg, frames[..|frames| - 1]) + [LastCall(cfg, frames)]
  }

  function LastCall(cfg: Config, frames: seq<AudioFrame>): Call
    requires frames != []
    decreases |frames|, 0
  {
    CallOn(cfg, Reached(Calls(cfg, frames[..|frames| - 1])), frames[|frames| - 1])
  }

  /** What a sequence of calls amounts to: everything output, where the i-th captured frame
      is among it (realAt[i]), the index of the captured frame that anchors the epoch of each
      output, and the anchor of the epoch still open. */
  datatype Trace = Trace(output: seq<AudioFrame>, realAt: seq<nat>, epochs: seq<nat>, epoch: nat)

  function Repeat(x: nat, n: nat): (r: seq<nat>)
    ensures |r| == n
    ensures forall k :: 0 <= k < n ==> r[k] == x
  {
    seq(n, _ => x)
  }

  function Append(t: Trace, silence: seq<AudioFrame>, aligned: AudioFrame, reanchors: bool): Trace {
    var at := |t.output| + |silence|;
    var epoch := if reanchors then at else t.epoch;
    Trace(t.output + silence + [aligned], t.realAt + [at], t.epochs + Repeat(t.epoch, |silence|) + [epoch], epoch)
  }

  function AppendCall(t: Trace, c: Call): Trace {
    Append(t, c.silence, c.aligned, c.reanchors)
  }

  function TraceOf(calls: seq<Call>): (t: Trace)
    ensures |t.epochs| == |t.output| && |t.realAt| == |calls|
  {
    if calls == [] then Trace([], [], [], 0)
    else AppendCall(TraceOf(Init(calls)), Last(calls))
  }

  function Init(calls: seq<Call>): seq<Call>
    requires calls != []
  {
    calls[..|calls| - 1]
  }

  function Last(calls: seq<Call>): Call
    requires calls != []
  {
    calls[|calls| - 1]
  }

  predicate Chained(calls: seq<Call>) {
    calls != [] ==> Chained(Init(calls)) && Last(calls).before == Reached(Init(calls))
  }

  /** A run of a fresh synchronizer over these frames. */
  function Run(cfg: Config, frames: seq<AudioFrame>): Trace {
    TraceOf(Calls(cfg, frames))
  }

  // ----- Numeric bounds -----------------------------------------------------------------

  /** The largest distance, in nanoseconds, allowed between a captured frame and the sample clock. */
  function AlignmentBound(cfg: Config): nat {
    Max(Abs(cfg.Tolerance()), CeilDiv(NANOS_PER_SECOND, cfg.sampleRate))
  }

  lemma DurationSplit(rate: Rate, a: int, b: int)
    ensures SamplesToDuration(rate, a) + SamplesToDuration(rate, b)
         <= SamplesToDuration(rate, a + b)
         <= SamplesToDuration(rate, a) + SamplesToDuration(rate, b) + 1
  {
    QuotientSplit(a * NANOS_PER_SECOND, b * NANOS_PER_SECOND, rate);
    assert (a + b) * NANOS_PER_SECOND == a * NANOS_PER_SECOND + b * NANOS_PER_SECOND;
  }

  lemma DurationMonotone(rate: Rate, a: int, b: int)
    requires a <= b
    ensures SamplesToDuration(rate, a) <= SamplesToDuration(rate, b)
  {
    QuotientMonotone(a * NANOS_PER_SECOND, b * NANOS_PER_SECOND, rate);
  }

  /** The arithmetic of one fill, on the brackets of the three quotients involved. */
  lemma ResidualBrackets(rate: int, start: int, gap: int, fill: int, whole: int, total: int, c: int)
    requires rate > 0
    requires fill <= gap * rate < fill + NANOS_PER_SECOND
    requires whole * rate <= start < whole * rate + rate
    requires total * rate <= start + fill < total * rate + rate
    requires NANOS_PER_SECOND <= c * rate
    ensures 0 <= gap - (total - whole) <= c
  {
    var residual := gap - (total - whole);
    assert residual * rate == gap * rate - total * rate + whole * rate;
    assert 0 * rate == 0;
    CancelFactor(0, residual, rate);
    CancelFactor(residual, c, rate);
  }

  /** The two floor divisions run in opposite directions; together they never overshoot the
      gap and leave at most one sample's length, rounded up, of it open. */
  lemma FillResidual(rate: Rate, before: nat, gap: nat)
    ensures var filled := DurationToSamples(rate, gap);
      0 <= gap - (SamplesToDuration(rate, before + filled) - SamplesToDuration(rate, before))
        <= CeilDiv(NANOS_PER_SECOND, rate)
  {
    var filled := DurationToSamples(rate, gap);
    var whole := SamplesToDuration(rate, before);
    var total := SamplesToDuration(rate, before + filled);
    QuotientBounds(gap * rate, NANOS_PER_SECOND);
    QuotientBounds(before * NANOS_PER_SECOND, rate);
    QuotientBounds((before + filled) * NANOS_PER_SECOND, rate);
    CeilDivBounds(NANOS_PER_SECOND, rate);
    ResidualBrackets(rate, before * NANOS_PER_SECOND, gap, filled * NANOS_PER_SECOND, whole, total,
                     CeilDiv(NANOS_PER_SECOND, rate));
  }

  // ----- The state invariant ------------------------------------------------------------

  predicate PpmWithin(ppm: real, elapsed: int, deviation: nat) {
    -(deviation as real * 1_000_000.0) <= ppm * elapsed as real <= deviation as real * 1_000_000.0
  }

  /** An estimate that comes from this deviation over this elapsed time: as many parts of a
      million as the deviation is of the time, positive when the timestamps run ahead of the
      samples; the time is at least a full window, and the deviation no more than two alignments
      and a rounding allow. */
  predicate IsEstimate(cfg: Config, bound: nat, ppm: real, deviation: int, elapsed: int) {
    && elapsed > 0
    && elapsed >= SamplesToDuration(cfg.sampleRate, cfg.driftWindowSamples)
    && Abs(deviation) <= 2 * bound + 1
    && ppm * elapsed as real == deviation as real * 1_000_000.0
    && PpmWithin(ppm, elapsed, 2 * bound + 1)
  }

  /** A published estimate is a ratio whose numerator is bounded whatever its denominator. */
  ghost predicate DriftBounded(cfg: Config, bound: nat, drift: DriftEstimate) {
    drift.valid ==> exists deviation, elapsed :: IsEstimate(cfg, bound, drift.ppm, deviation, elapsed)
  }

  /** The sample clock, read after the given number of samples of the current epoch, is
      within the bound of the timestamp. */
  predicate Near(cfg: Config, bound: nat, s: State, samples: nat, timestamp: int) {
    Abs(timestamp - s.anchorTimestamp - SamplesToDuration(cfg.sampleRate, samples)) <= bound
  }

  predicate Inv(cfg: Config, bound: nat, s: State) {
    && s.driftAnchorSamples <= s.samplesSinceAnchor
    && Near(cfg, bound, s, s.driftAnchorSamples, s.driftAnchorTimestamp)
  }

  /** The invariant of every reachable state. */
  ghost predicate Bounded(cfg: Config, s: State) {
    Inv(cfg, AlignmentBound(cfg), s) && DriftBounded(cfg, AlignmentBound(cfg), s.drift)
  }

  lemma AnchorKeeps(cfg: Config, bound: nat, s: State, timestamp: int)
    ensures var a := AnchoredAt(s, timestamp);
      Inv(cfg, bound, a) && Near(cfg, bound, a, a.samplesSinceAnchor, timestamp)
  {
    assert SamplesToDuration(cfg.sampleRate, 0) == 0;
  }

  lemma HealKeeps(cfg: Config, bound: nat, s: State, f: AudioFrame)
    requires bound >= Abs(cfg.Tolerance()) && bound >= CeilDiv(NANOS_PER_SECOND, cfg.sampleRate)
    requires Inv(cfg, bound, s) && IsGap(cfg, s, f)
    ensures var a := Healed(cfg, s, f).state;
      && Inv(cfg, bound, a) && a.anchored && a.drift == s.drift
      && Near(cfg, bound, a, a.samplesSinceAnchor, f.timestamp)
  {
    var delta := Delta(cfg, s, f);
    var a := Healed(cfg, s, f).state;
    if delta > cfg.Cap() {
      assert a == AnchoredAt(a, f.timestamp);
      AnchorKeeps(cfg, bound, a, f.timestamp);
    } else {
      assert a.anchorTimestamp == s.anchorTimestamp && a.driftAnchorSamples == s.driftAnchorSamples;
      var filled := DurationToSamples(cfg.sampleRate, delta);
      assert a.samplesSinceAnchor == s.samplesSinceAnchor + filled;
      if delta > 0 {
        FillResidual(cfg.sampleRate, s.samplesSinceAnchor, delta);
      }
    }
  }

  /** Whatever branch is taken, the frame then lies within the bound of the sample clock. */
  lemma AlignKeeps(cfg: Config, bound: nat, s: State, f: AudioFrame)
    requires bound >= Abs(cfg.Tolerance()) && bound >= CeilDiv(NANOS_PER_SECOND, cfg.sampleRate)
    requires Inv(cfg, bound, s)
    ensures var a := Align(cfg, s, f).state;
      && Inv(cfg, bound, a) && a.anchored && a.drift == s.drift
      && Near(cfg, bound, a, a.samplesSinceAnchor, f.timestamp)
  {
    var a := Align(cfg, s, f).state;
    if IsGap(cfg, s, f) {
      HealKeeps(cfg, bound, s, f);
    } else if !s.anchored || IsOverlap(cfg, s, f) {
      assert a == AnchoredAt(a, f.timestamp);
      AnchorKeeps(cfg, bound, a, f.timestamp);
    }
  }

  lemma PpmBound(deviation: int, elapsed: int, limit: nat)
    requires 0 < elapsed && Abs(deviation) <= limit
    ensures Ppm(deviation, elapsed) * elapsed as real == deviation as real * 1_000_000.0
    ensures PpmWithin(Ppm(deviation, elapsed), elapsed, limit)
  {
    var d, e := deviation as real, elapsed as real;
    assert d / e * 1_000_000.0 * e == d / e * e * 1_000_000.0 == d * 1_000_000.0;
  }

  lemma EstimateHolds(cfg: Config, bound: nat, deviation: int, elapsed: int)
    requires elapsed > 0 && elapsed >= SamplesToDuration(cfg.sampleRate, cfg.driftWindowSamples)
    requires Abs(deviation) <= 2 * bound + 1
    ensures IsEstimate(cfg, bound, Ppm(deviation, elapsed), deviation, elapsed)
  {
    PpmBound(deviation, elapsed, 2 * bound + 1);
  }

  /** The anchors are the same; flooring a sum of durations costs at most one nanosecond. */
  lemma DeviationBound(cfg: Config, bound: nat, s: State, timestamp: int)
    requires Inv(cfg, bound, s) && Near(cfg, bound, s, s.samplesSinceAnchor, timestamp)
    ensures var sampleElapsed := SamplesToDuration(cfg.sampleRate, s.samplesSinceAnchor - s.driftAnchorSamples);
      Abs(timestamp - s.driftAnchorTimestamp - sampleElapsed) <= 2 * bound + 1
  {
    DurationSplit(cfg.sampleRate, s.driftAnchorSamples, s.samplesSinceAnchor - s.driftAnchorSamples);
  }

  /** A window's deviation: both ends are near the sample clock, and flooring costs at most one. */
  lemma DriftUpdateKeeps(cfg: Config, bound: nat, s: State, timestamp: int)
    requires Inv(cfg, bound, s) && DriftBounded(cfg, bound, s.drift)
    requires Near(cfg, bound, s, s.samplesSinceAnchor, timestamp)
    ensures var u := DriftUpdated(cfg, s, timestamp);
      Inv(cfg, bound, u) && DriftBounded(cfg, bound, u.drift)
  {
    var samples := s.samplesSinceAnchor - s.driftAnchorSamples;
    var sampleElapsed := SamplesToDuration(cfg.sampleRate, samples);
    if samples >= cfg.driftWindowSamples && sampleElapsed > 0 {
      DeviationBound(cfg, bound, s, timestamp);
      DurationMonotone(cfg.sampleRate, cfg.driftWindowSamples, samples);
      var deviation := timestamp - s.driftAnchorTimestamp - sampleElapsed;
      EstimateHolds(cfg, bound, deviation, sampleElapsed);
    }
  }

  /** The step is to align, number the frame, update the drift and count its samples. */
  lemma StepUnfolds(cfg: Config, s: State, f: AudioFrame)
    ensures var counted := s.(stats := s.stats.(framesProcessed := s.stats.framesProcessed + 1));
      var a := Align(cfg, counted, f).state;
      var u := DriftUpdated(cfg, a.(nextOutputSequence := a.nextOutputSequence + 1), f.timestamp);
      Step(cfg, s, f).0 == u.(samplesSinceAnchor := u.samplesSinceAnchor + f.SampleCount())
  {
  }

  lemma StepKeeps(cfg: Config, bound: nat, s: State, f: AudioFrame)
    requires bound >= Abs(cfg.Tolerance()) && bound >= CeilDiv(NANOS_PER_SECOND, cfg.sampleRate)
    requires Inv(cfg, bound, s) && DriftBounded(cfg, bound, s.drift)
    ensures Kept(cfg, bound, Step(cfg, s, f).0, f)
  {
    var counted := s.(stats := s.stats.(framesProcessed := s.stats.framesProcessed + 1));
    AlignKeeps(cfg, bound, counted, f);
    StepUnfolds(cfg, s, f);
    CountingKeeps(cfg, bound, Align(cfg, counted, f).state, f, Step(cfg, s, f).0);
  }

  /** What a call leaves: the invariant, and the frame near where the samples before it end. */
  ghost predicate Kept(cfg: Config, bound: nat, s: State, f: AudioFrame) {
    && Inv(cfg, bound, s) && DriftBounded(cfg, bound, s.drift)
    && s.samplesSinceAnchor >= f.SampleCount()
    && Near(cfg, bound, s, s.samplesSinceAnchor - f.SampleCount(), f.timestamp)
  }

  lemma CountingKeeps(cfg: Config, bound: nat, a: State, f: AudioFrame, s': State)
    requires Inv(cfg, bound, a) && DriftBounded(cfg, bound, a.drift)
    requires Near(cfg, bound, a, a.samplesSinceAnchor, f.timestamp)
    requires var u := DriftUpdated(cfg, a.(nextOutputSequence := a.nextOutputSequence + 1), f.timestamp);
      s' == u.(samplesSinceAnchor := u.samplesSinceAnchor + f.SampleCount())
    ensures Kept(cfg, bound, s', f)
  {
    DriftUpdateKeeps(cfg, bound, a.(nextOutputSequence := a.nextOutputSequence + 1), f.timestamp);
  }

  // ----- What one call does -------------------------------------------------------------

  /** The frame as captured, except for its place in the aligned stream and its flag. */
  predicate PassedThrough(captured: AudioFrame, output: AudioFrame) {
    output == captured.(sequence := output.sequence, discontinuity := output.discontinuity)
  }

  /** At most one frame is synthesized before the captured one, and both are numbered on. */
  predicate Shaped(c: Call) {
    && |c.silence| <= 1
    && PassedThrough(c.frame, c.aligned)
    && (c.silence != [] ==> c.silence[0].sequence == c.before.nextOutputSequence)
    && c.aligned.sequence == c.before.nextOutputSequence + |c.silence|
    && c.after.nextOutputSequence == c.before.nextOutputSequence + |c.silence| + 1
    && c.after.stats.framesProcessed == c.before.stats.framesProcessed + 1
    && c.after.stats.framesSynthesized == c.before.stats.framesSynthesized + |c.silence|
  }

  lemma CallIsShaped(cfg: Config, s: State, f: AudioFrame)
    ensures Shaped(CallOn(cfg, s, f))
  {
  }

  /** The anchor moves exactly when the frame re-anchors; otherwise the state counts exactly
      the samples output. */
  predicate Accounted(c: Call) {
    && c.after.anchored
    && (!c.before.anchored ==> c.reanchors)
    && c.after.anchorTimestamp == (if c.reanchors then c.aligned.timestamp else c.before.anchorTimestamp)
    && c.after.samplesSinceAnchor == c.aligned.SampleCount()
       + (if c.reanchors then 0 else c.before.samplesSinceAnchor + TotalSamples(c.silence))
    && c.after.stats.silenceSamplesInserted == c.before.stats.silenceSamplesInserted + TotalSamples(c.silence)
  }

  function Fill(cfg: Config, s: State, f: AudioFrame): nat {
    DurationToSamples(cfg.sampleRate, Min(Delta(cfg, s, f), cfg.Cap()))
  }

  function Synthesized(cfg: Config, s: State, f: AudioFrame): AudioFrame {
    SilenceFrame(cfg, Fill(cfg, s, f), s.nextOutputSequence, Expected(cfg, s), f)
  }

  /** How much silence a call inserts, and that nothing else changes the sample count. */
  lemma StepEffects(cfg: Config, s: State, f: AudioFrame)
    ensures var c := CallOn(cfg, s, f);
      var silence := if IsGap(cfg, s, f) then Fill(cfg, s, f) else 0;
      && c.silence == (if silence == 0 then [] else [Synthesized(cfg, s, f)])
      && (c.silence != [] ==> c.aligned.discontinuity == c.reanchors)
      && c.after.anchored
      && c.after.anchorTimestamp == (if c.reanchors then f.timestamp else s.anchorTimestamp)
      && c.after.samplesSinceAnchor == f.SampleCount() + (if c.reanchors then 0 else s.samplesSinceAnchor + silence)
      && c.after.stats.silenceSamplesInserted == s.stats.silenceSamplesInserted + silence
      && PassedThrough(f, c.aligned)
  {
  }

  lemma SilenceHasItsSamples(cfg: Config, samples: nat, sequence: nat, timestamp: int, like: AudioFrame)
    requires cfg.channels > 0
    ensures SilenceFrame(cfg, samples, sequence, timestamp, like).SampleCount() == samples
  {
    var stride := BytesPerSample(cfg.format) * cfg.channels;
    var bytes := samples * cfg.channels * BytesPerSample(cfg.format);
    assert bytes == samples * stride;
    QuotientUnique(bytes, stride, samples);
  }

  lemma SynthesizedHoldsFill(cfg: Config, s: State, f: AudioFrame)
    requires cfg.channels > 0
    ensures TotalSamples([Synthesized(cfg, s, f)]) == Fill(cfg, s, f)
  {
    SilenceHasItsSamples(cfg, Fill(cfg, s, f), s.nextOutputSequence, Expected(cfg, s), f);
    TotalSamplesAppend([], Synthesized(cfg, s, f));
    assert [] + [Synthesized(cfg, s, f)] == [Synthesized(cfg, s, f)];
  }

  lemma CallIsAccounted(cfg: Config, s: State, f: AudioFrame)
    requires cfg.channels > 0
    ensures Accounted(CallOn(cfg, s, f))
  {
    StepEffects(cfg, s, f);
    SynthesizedHoldsFill(cfg, s, f);
  }

  /** The synthesized frame is zeros and starts where the sample clock stands. Either it
      leaves the captured frame ahead of it by at most a sample's length, or the whole cap
      was spent and the captured frame is a flagged anchor. */
  predicate SilenceFits(cfg: Config, c: Call)
    requires c.silence != []
  {
    var silence := c.silence[0];
    var end := c.before.anchorTimestamp
      + SamplesToDuration(cfg.sampleRate, c.before.samplesSinceAnchor + silence.SampleCount());
    && c.before.anchored
    && silence.discontinuity && silence.payload == Zeros(|silence.payload|)
    && silence.timestamp == Expected(cfg, c.before)
    && end <= c.aligned.timestamp
    && c.aligned.discontinuity == c.reanchors
    && if c.reanchors then silence.SampleCount() == DurationToSamples(cfg.sampleRate, cfg.Cap())
       else c.aligned.timestamp - end <= CeilDiv(NANOS_PER_SECOND, cfg.sampleRate)
  }

  /** Where the fill of a gap ends: within a sample's length of the frame, or at the cap. */
  lemma GapIsFilled(cfg: Config, s: State, f: AudioFrame)
    requires IsGap(cfg, s, f) && Fill(cfg, s, f) > 0
    ensures var end := s.anchorTimestamp + SamplesToDuration(cfg.sampleRate, s.samplesSinceAnchor + Fill(cfg, s, f));
      && end <= f.timestamp
      && if IsTruncated(cfg, s, f) then Fill(cfg, s, f) == DurationToSamples(cfg.sampleRate, cfg.Cap())
         else f.timestamp - end <= CeilDiv(NANOS_PER_SECOND, cfg.sampleRate)
  {
    var fill := Min(Delta(cfg, s, f), cfg.Cap());
    if fill > 0 {
      FillResidual(cfg.sampleRate, s.samplesSinceAnchor, fill);
    }
  }

  lemma CallSilenceFits(cfg: Config, s: State, f: AudioFrame)
    requires cfg.channels > 0 && CallOn(cfg, s, f).silence != []
    ensures SilenceFits(cfg, CallOn(cfg, s, f))
  {
    StepEffects(cfg, s, f);
    SilenceHasItsSamples(cfg, Fill(cfg, s, f), s.nextOutputSequence, Expected(cfg, s), f);
    GapIsFilled(cfg, s, f);
  }

  /** The captured frame starts within the bound of the sample clock. */
  predicate Punctual(cfg: Config, c: Call) {
    && c.aligned.SampleCount() <= c.after.samplesSinceAnchor
    && Near(cfg, AlignmentBound(cfg), c.after, c.after.samplesSinceAnchor - c.aligned.SampleCount(),
            c.aligned.timestamp)
  }

  lemma CallIsPunctual(cfg: Config, s: State, f: AudioFrame)
    requires Bounded(cfg, s)
    ensures Punctual(cfg, CallOn(cfg, s, f)) && Bounded(cfg, CallOn(cfg, s, f).after)
  {
    CallIsShaped(cfg, s, f);
    StepKeeps(cfg, AlignmentBound(cfg), s, f);
    assert CallOn(cfg, s, f).aligned.SampleCount() == f.SampleCount();
  }

  function FramesOf(calls: seq<Call>): seq<AudioFrame> {
    if calls == [] then [] else FramesOf(Init(calls)) + [Last(calls).frame]
  }

  /** The four properties of one call, for every call of a log. */
  predicate AllShaped(calls: seq<Call>) {
    calls != [] ==> AllShaped(Init(calls)) && Shaped(Last(calls))
  }

  predicate AllAccounted(calls: seq<Call>) {
    calls != [] ==> AllAccounted(Init(calls)) && Accounted(Last(calls))
  }

  predicate AllPunctual(cfg: Config, calls: seq<Call>) {
    calls != [] ==> AllPunctual(cfg, Init(calls)) && Punctual(cfg, Last(calls))
  }

  predicate AllSilenceFits(cfg: Config, calls: seq<Call>) {
    calls != [] ==> AllSilenceFits(cfg, Init(calls)) && (Last(calls).silence != [] ==> SilenceFits(cfg, Last(calls)))
  }

  /** The log of a run grows by the call on its last frame. */
  lemma CallsUnfold(cfg: Config, frames: seq<AudioFrame>)
    requires frames != []
    ensures var earlier, calls := Calls(cfg, frames[..|frames| - 1]), Calls(cfg, frames);
      && calls != [] && Init(calls) == earlier
      && Last(calls) == CallOn(cfg, Reached(earlier), frames[|frames| - 1])
      && Last(calls).frame == frames[|frames| - 1]
  {
    var earlier := Calls(cfg, frames[..|frames| - 1]);
    assert (earlier + [LastCall(cfg, frames)])[..|earlier|] == earlier;
  }

  /** The log of a run starts fresh and hangs together. */
  lemma {:induction false} CallsAreChained(cfg: Config, frames: seq<AudioFrame>)
    ensures Chained(Calls(cfg, frames))
  {
    if frames == [] {
    } else {
      CallsUnfold(cfg, frames);
      CallsAreChained(cfg, frames[..|frames| - 1]);
    }
  }

  lemma FramesOfOneMore(calls: seq<Call>, frames: seq<AudioFrame>)
    requires calls != [] && frames != [] && FramesOf(Init(calls)) == frames[..|frames| - 1]
    requires Last(calls).frame == frames[|frames| - 1]
    ensures FramesOf(calls) == frames
  {
    Sequences.SplitLast(frames);
  }

  lemma {:induction false} CallsAreOnFrames(cfg: Config, frames: seq<AudioFrame>)
    ensures FramesOf(Calls(cfg, frames)) == frames
  {
    if frames == [] {
    } else {
      CallsUnfold(cfg, frames);
      CallsAreOnFrames(cfg, frames[..|frames| - 1]);
      FramesOfOneMore(Calls(cfg, frames), frames);
    }
  }

  lemma {:induction false} CallsAreShaped(cfg: Config, frames: seq<AudioFrame>)
    ensures AllShaped(Calls(cfg, frames))
  {
    if frames == [] {
    } else {
      var init := frames[..|frames| - 1];
      CallsUnfold(cfg, frames);
      CallsAreShaped(cfg, init);
      CallIsShaped(cfg, Reached(Calls(cfg, init)), frames[|init|]);
    }
  }

  lemma {:induction false} CallsAreAccounted(cfg: Config, frames: seq<AudioFrame>)
    requires cfg.channels > 0
    ensures AllAccounted(Calls(cfg, frames))
  {
    if frames == [] {
    } else {
      var init := frames[..|frames| - 1];
      CallsUnfold(cfg, frames);
      CallsAreAccounted(cfg, init);
      CallIsAccounted(cfg, Reached(Calls(cfg, init)), frames[|init|]);
    }
  }

  lemma {:induction false} CallsArePunctual(cfg: Config, frames: seq<AudioFrame>)
    ensures Bounded(cfg, Reached(Calls(cfg, frames)))
    ensures AllPunctual(cfg, Calls(cfg, frames))
  {
    if frames == [] {
      AnchorKeeps(cfg, AlignmentBound(cfg), INIT, 0);
    } else {
      var init := frames[..|frames| - 1];
      CallsUnfold(cfg, frames);
      CallsArePunctual(cfg, init);
      CallIsPunctual(cfg, Reached(Calls(cfg, init)), frames[|init|]);
    }
  }

  lemma {:induction false} CallsHaveFittingSilence(cfg: Config, frames: seq<AudioFrame>)
    requires cfg.channels > 0
    ensures AllSilenceFits(cfg, Calls(cfg, frames))
  {
    if frames == [] {
    } else {
      var init := frames[..|frames| - 1];
      CallsUnfold(cfg, frames);
      CallsHaveFittingSilence(cfg, init);
      var s, f := Reached(Calls(cfg, init)), frames[|init|];
      if CallOn(cfg, s, f).silence != [] {
        CallSilenceFits(cfg, s, f);
      }
    }
  }

  // ----- The sample clock of the output ---------------------------------------------------

  /** The sample clock of an epoch: its anchor's timestamp plus the length of everything
      output from the anchor up to index j. */
  function ClockAt(cfg: Config, out: seq<AudioFrame>, e: nat, j: nat): int
    requires e <= j <= |out| && e < |out|
  {
    out[e].timestamp + SamplesToDuration(cfg.sampleRate, TotalSamples(out[e..j]))
  }

  lemma ClockAtPrefix(cfg: Config, out: seq<AudioFrame>, more: seq<AudioFrame>, e: nat, j: nat)
    requires e <= j <= |out| && e < |out|
    ensures ClockAt(cfg, out + more, e, j) == ClockAt(cfg, out, e, j)
  {
    assert (out + more)[e..j] == out[e..j];
  }

  /** The state's sample clock is the one the outputs show. */
  predicate Linked(s: State, t: Trace) {
    && (s.anchored <==> t.output != [])
    && (t.output != [] ==>
          && t.epoch < |t.output|
          && t.output[t.epoch].timestamp == s.anchorTimestamp
          && TotalSamples(t.output[t.epoch..]) == s.samplesSinceAnchor)
  }

  lemma AnchorAloneCounts(output: seq<AudioFrame>, before: seq<AudioFrame>, f: AudioFrame)
    requires output == before + [f]
    ensures TotalSamples(output[|before|..]) == f.SampleCount()
  {
    assert output[|before|..] == [] + [f];
    TotalSamplesAppend([], f);
  }

  lemma EpochGrows(output: seq<AudioFrame>, silence: seq<AudioFrame>, f: AudioFrame, epoch: nat)
    requires epoch <= |output|
    ensures TotalSamples((output + silence + [f])[epoch..])
         == TotalSamples(output[epoch..]) + TotalSamples(silence) + f.SampleCount()
  {
    assert (output + silence + [f])[epoch..] == output[epoch..] + silence + [f];
    TotalSamplesConcat(output[epoch..], silence);
    TotalSamplesAppend(output[epoch..] + silence, f);
  }

  lemma AppendKeepsLink(t: Trace, c: Call)
    requires Linked(c.before, t) && Accounted(c)
    ensures Linked(c.after, AppendCall(t, c))
  {
    if c.reanchors {
      AnchorAloneCounts(t.output + c.silence + [c.aligned], t.output + c.silence, c.aligned);
    } else {
      EpochGrows(t.output, c.silence, c.aligned, t.epoch);
    }
  }

  lemma {:induction false} LogIsLinked(calls: seq<Call>)
    requires Chained(calls) && AllAccounted(calls)
    ensures Linked(Reached(calls), TraceOf(calls))
  {
    if calls == [] {
    } else {
      LogIsLinked(Init(calls));
      AppendKeepsLink(TraceOf(Init(calls)), Last(calls));
    }
  }

  /** Output j sits within the bound of its epoch's sample clock. */
  predicate OnClock(cfg: Config, bound: nat, out: seq<AudioFrame>, e: nat, j: nat) {
    && e <= j < |out|
    && Abs(out[j].timestamp - ClockAt(cfg, out, e, j)) <= bound
  }

  predicate FrameOnClock(cfg: Config, t: Trace, i: nat) {
    && i < |t.realAt| && t.realAt[i] < |t.epochs|
    && OnClock(cfg, AlignmentBound(cfg), t.output, t.epochs[t.realAt[i]], t.realAt[i])
  }

  lemma OldFrameOnClock(cfg: Config, t: Trace, c: Call, i: nat)
    requires |t.epochs| == |t.output| && FrameOnClock(cfg, t, i)
    ensures FrameOnClock(cfg, AppendCall(t, c), i)
  {
    var j := t.realAt[i];
    var e := t.epochs[j];
    ClockAtPrefix(cfg, t.output, c.silence + [c.aligned], e, j);
    assert t.output + c.silence + [c.aligned] == t.output + (c.silence + [c.aligned]);
  }

  lemma LastOnClock(cfg: Config, bound: nat, s: State, t: Trace, samples: nat)
    requires Linked(s, t) && t.output != []
    requires samples + t.output[|t.output| - 1].SampleCount() == s.samplesSinceAnchor
    requires Near(cfg, bound, s, samples, t.output[|t.output| - 1].timestamp)
    ensures OnClock(cfg, bound, t.output, t.epoch, |t.output| - 1)
  {
    var e, j, last := t.epoch, |t.output| - 1, t.output[|t.output| - 1];
    var before := t.output[e..j];
    assert t.output[e..] == before + [last];
    TotalSamplesAppend(before, last);
    assert TotalSamples(before) == samples;
  }

  lemma NewFrameOnClock(cfg: Config, t: Trace, c: Call)
    requires |t.epochs| == |t.output| && Linked(c.after, AppendCall(t, c)) && Punctual(cfg, c)
    ensures FrameOnClock(cfg, AppendCall(t, c), |t.realAt|)
  {
    LastOnClock(cfg, AlignmentBound(cfg), c.after, AppendCall(t, c),
                c.after.samplesSinceAnchor - c.aligned.SampleCount());
  }

  lemma {:induction false} LogFollowsTheClock(cfg: Config, calls: seq<Call>, i: nat)
    requires Chained(calls) && AllAccounted(calls) && AllPunctual(cfg, calls) && i < |calls|
    ensures FrameOnClock(cfg, TraceOf(calls), i)
  {
    var init, c := Init(calls), Last(calls);
    if i == |calls| - 1 {
      LogIsLinked(calls);
      NewFrameOnClock(cfg, TraceOf(init), c);
    } else {
      LogFollowsTheClock(cfg, init, i);
      OldFrameOnClock(cfg, TraceOf(init), c, i);
    }
  }

  // ----- The main results -----------------------------------------------------------------

  /** Over every run, in band, healed, truncated or overlapping, every captured frame's
      timestamp is within the alignment bound of its sample-clock position. */
  lemma FramesFollowTheSampleClock(cfg: Config, frames: seq<AudioFrame>, i: nat)
    requires cfg.channels > 0 && i < |frames|
    ensures FrameOnClock(cfg, Run(cfg, frames), i)
  {
    CallsAreChained(cfg, frames);
    CallsAreAccounted(cfg, frames);
    CallsArePunctual(cfg, frames);
    LogFollowsTheClock(cfg, Calls(cfg, frames), i);
  }

  /** In every reachable state the drift anchor does not run ahead of the samples it
      measures, and the published estimate is a deviation of at most 2E + 1 ns over the time
      actually elapsed, healed gaps included: |ppm| is at most (2E + 1) * 10^6 over that time. */
  lemma DriftEstimateIsBounded(cfg: Config, frames: seq<AudioFrame>)
    ensures var s := Reached(Calls(cfg, frames));
      && s.driftAnchorSamples <= s.samplesSinceAnchor
      && (s.drift.valid ==>
            exists deviation, elapsed ::
              IsEstimate(cfg, AlignmentBound(cfg), s.drift.ppm, deviation, elapsed))
  {
    CallsArePunctual(cfg, frames);
  }

  /** Output j is silence that starts exactly where its epoch's sample clock stood and ends
      no later than the captured frame after it. Either continuity is restored up to one
      sample's length, or the whole cap was spent and the next frame is a flagged anchor. */
  predicate SilenceWellPlaced(cfg: Config, out: seq<AudioFrame>, e: nat, j: nat, e': nat) {
    && e < |out| && e <= j && j + 1 < |out|
    && out[j].discontinuity && out[j].payload == Zeros(|out[j].payload|)
    && out[j].timestamp == ClockAt(cfg, out, e, j)
    && ClockAt(cfg, out, e, j + 1) <= out[j + 1].timestamp
    && if e' == e
       then out[j + 1].timestamp - ClockAt(cfg, out, e, j + 1) <= CeilDiv(NANOS_PER_SECOND, cfg.sampleRate)
            && !out[j + 1].discontinuity
       else e' == j + 1 && out[j + 1].discontinuity
            && out[j].SampleCount() == DurationToSamples(cfg.sampleRate, cfg.Cap())
  }

  predicate SilenceAt(cfg: Config, t: Trace, j: nat) {
    && j + 1 < |t.epochs|
    && SilenceWellPlaced(cfg, t.output, t.epochs[j], j, t.epochs[j + 1])
  }

  lemma OldSilenceAt(cfg: Config, t: Trace, c: Call, j: nat)
    requires |t.epochs| == |t.output| && SilenceAt(cfg, t, j)
    ensures SilenceAt(cfg, AppendCall(t, c), j)
  {
    var e := t.epochs[j];
    var more := c.silence + [c.aligned];
    ClockAtPrefix(cfg, t.output, more, e, j);
    ClockAtPrefix(cfg, t.output, more, e, j + 1);
    assert t.output + c.silence + [c.aligned] == t.output + more;
  }

  lemma ClockAfter(cfg: Config, s: State, t: Trace, silence: AudioFrame, next: AudioFrame)
    requires Linked(s, t) && t.output != []
    ensures var out := t.output + [silence] + [next];
      && ClockAt(cfg, out, t.epoch, |t.output|) == Expected(cfg, s)
      && ClockAt(cfg, out, t.epoch, |t.output| + 1)
         == s.anchorTimestamp + SamplesToDuration(cfg.sampleRate, s.samplesSinceAnchor + silence.SampleCount())
  {
    var out := t.output + [silence] + [next];
    assert out[t.epoch..|t.output|] == t.output[t.epoch..];
    assert out[|t.output|] == silence;
    assert out[t.epoch..|t.output| + 1] == out[t.epoch..|t.output|] + [silence];
    TotalSamplesAppend(t.output[t.epoch..], silence);
  }

  lemma NewSilenceAt(cfg: Config, t: Trace, c: Call)
    requires |t.epochs| == |t.output| && Linked(c.before, t)
    requires |c.silence| == 1 && SilenceFits(cfg, c)
    ensures SilenceAt(cfg, AppendCall(t, c), |t.output|)
  {
    assert c.silence == [c.silence[0]];
    ClockAfter(cfg, c.before, t, c.silence[0], c.aligned);
  }

  /** An output that is no captured frame was none before, or is the silence of this call. */
  lemma SilenceIsOldOrNew(t: Trace, c: Call, t': Trace, j: nat)
    requires t' == AppendCall(t, c) && |c.silence| <= 1 && j < |t'.output| && j !in t'.realAt
    ensures j < |t.output| ==> j !in t.realAt
    ensures j >= |t.output| ==> j == |t.output| && |c.silence| == 1
  {
    assert t'.realAt[|t.realAt|] == |t'.output| - 1;
    assert t.realAt <= t'.realAt;
  }

  lemma {:induction false} LogSilenceAt(cfg: Config, calls: seq<Call>, j: nat)
    requires Chained(calls) && AllShaped(calls) && AllAccounted(calls) && AllSilenceFits(cfg, calls)
    requires j < |TraceOf(calls).output| && j !in TraceOf(calls).realAt
    ensures SilenceAt(cfg, TraceOf(calls), j)
  {
    var init, c := Init(calls), Last(calls);
    var t := TraceOf(init);
    SilenceIsOldOrNew(t, c, TraceOf(calls), j);
    if j < |t.output| {
      LogSilenceAt(cfg, init, j);
      OldSilenceAt(cfg, t, c, j);
    } else {
      LogIsLinked(init);
      NewSilenceAt(cfg, t, c);
    }
  }

  /** Every output that is not a captured frame is well-placed silence. */
  lemma SilenceIsWellPlaced(cfg: Config, frames: seq<AudioFrame>, j: nat)
    requires cfg.channels > 0
    requires j < |Run(cfg, frames).output| && j !in Run(cfg, frames).realAt
    ensures SilenceAt(cfg, Run(cfg, frames), j)
  {
    CallsAreChained(cfg, frames);
    CallsAreShaped(cfg, frames);
    CallsAreAccounted(cfg, frames);
    CallsHaveFittingSilence(cfg, frames);
    LogSilenceAt(cfg, Calls(cfg, frames), j);
  }

  // ----- Conservation ---------------------------------------------------------------------

  lemma {:induction false} LogIsNumbered(calls: seq<Call>)
    requires Chained(calls) && AllShaped(calls)
    ensures Reached(calls).stats.framesProcessed == |calls|
    ensures var t, s := TraceOf(calls), Reached(calls);
      && |t.output| == s.nextOutputSequence == |calls| + s.stats.framesSynthesized
      && forall j :: 0 <= j < |t.output| ==> t.output[j].sequence == j
  {
    if calls == [] {
    } else {
      LogIsNumbered(Init(calls));
    }
  }

  /** The i-th captured frame is at realAt[i], in order and unchanged. */
  predicate FramesKept(frames: seq<AudioFrame>, t: Trace) {
    && |t.realAt| == |frames|
    && (forall i :: 0 <= i < |frames| ==>
          t.realAt[i] < |t.output| && PassedThrough(frames[i], t.output[t.realAt[i]]))
    && (forall i, k :: 0 <= i < k < |frames| ==> t.realAt[i] < t.realAt[k])
  }

  lemma AppendKeepsFrames(frames: seq<AudioFrame>, t: Trace, c: Call)
    requires FramesKept(frames, t) && PassedThrough(c.frame, c.aligned)
    ensures FramesKept(frames + [c.frame], AppendCall(t, c))
  {
  }

  lemma {:induction false} LogKeepsFrames(calls: seq<Call>)
    requires AllShaped(calls)
    ensures FramesKept(FramesOf(calls), TraceOf(calls))
  {
    if calls == [] {
    } else {
      LogKeepsFrames(Init(calls));
      AppendKeepsFrames(FramesOf(Init(calls)), TraceOf(Init(calls)), Last(calls));
    }
  }

  /** Captured frames come out in order and unchanged, numbered together with the silence
      0, 1, 2, ..., and nothing else is output. */
  lemma RunConserves(cfg: Config, frames: seq<AudioFrame>)
    ensures var t, s := Run(cfg, frames), Reached(Calls(cfg, frames));
      && FramesKept(frames, t)
      && s.stats.framesProcessed == |frames|
      && |t.output| == s.nextOutputSequence == |frames| + s.stats.framesSynthesized
      && (forall j :: 0 <= j < |t.output| ==> t.output[j].sequence == j)
  {
    CallsAreChained(cfg, frames);
    CallsAreOnFrames(cfg, frames);
    CallsAreShaped(cfg, frames);
    LogIsNumbered(Calls(cfg, frames));
    LogKeepsFrames(Calls(cfg, frames));
  }

  lemma {:induction false} LogSamples(calls: seq<Call>)
    requires Chained(calls) && AllShaped(calls) && AllAccounted(calls)
    ensures TotalSamples(TraceOf(calls).output)
         == TotalSamples(FramesOf(calls)) + Reached(calls).stats.silenceSamplesInserted
  {
    if calls == [] {
    } else {
      var init, c := Init(calls), Last(calls);
      LogSamples(init);
      TotalSamplesConcat(TraceOf(init).output, c.silence);
      TotalSamplesAppend(TraceOf(init).output + c.silence, c.aligned);
      TotalSamplesAppend(FramesOf(init), c.frame);
      assert c.frame.SampleCount() == c.aligned.SampleCount();
    }
  }

  lemma SynthesizedHoldsNothing(cfg: Config, s: State, f: AudioFrame)
    requires cfg.channels == 0
    ensures TotalSamples([Synthesized(cfg, s, f)]) == 0
  {
    TotalSamplesAppend([], Synthesized(cfg, s, f));
    assert [] + [Synthesized(cfg, s, f)] == [Synthesized(cfg, s, f)];
    assert Synthesized(cfg, s, f).Stride() == 0;
  }

  lemma SameCount(captured: AudioFrame, output: AudioFrame)
    requires PassedThrough(captured, output)
    ensures output.SampleCount() == captured.SampleCount()
  {
  }

  /** Silence frames of a configuration without channels hold no samples. */
  lemma CallAddsOnlyItsFrame(cfg: Config, s: State, f: AudioFrame)
    requires cfg.channels == 0
    ensures var c := CallOn(cfg, s, f);
      TotalSamples(c.silence) == 0 && c.aligned.SampleCount() == f.SampleCount()
  {
    StepEffects(cfg, s, f);
    SynthesizedHoldsNothing(cfg, s, f);
    SameCount(f, CallOn(cfg, s, f).aligned);
  }

  lemma {:induction false} EmptySilenceAddsNothing(cfg: Config, frames: seq<AudioFrame>)
    requires cfg.channels == 0
    ensures TotalSamples(Run(cfg, frames).output) == TotalSamples(frames)
  {
    if frames == [] {
    } else {
      var init, f := frames[..|frames| - 1], frames[|frames| - 1];
      var t, c := Run(cfg, init), CallOn(cfg, Reached(Calls(cfg, init)), f);
      EmptySilenceAddsNothing(cfg, init);
      CallsUnfold(cfg, frames);
      CallAddsOnlyItsFrame(cfg, Reached(Calls(cfg, init)), f);
      TotalSamplesConcat(t.output, c.silence);
      TotalSamplesAppend(t.output + c.silence, c.aligned);
    }
  }

  /** Samples out are samples in plus the silence accounted for, exactly when there are
      channels to hold silence or none was needed. */
  lemma SamplesAreConserved(cfg: Config, frames: seq<AudioFrame>)
    ensures var total, silence := TotalSamples(Run(cfg, frames).output),
                                  Reached(Calls(cfg, frames)).stats.silenceSamplesInserted;
      && total == TotalSamples(frames) + (if cfg.channels > 0 then silence else 0)
      && (total == TotalSamples(frames) + silence <==> cfg.channels > 0 || silence == 0)
  {
    if cfg.channels > 0 {
      CallsAreChained(cfg, frames);
      CallsAreOnFrames(cfg, frames);
      CallsAreShaped(cfg, frames);
      CallsAreAccounted(cfg, frames);
      LogSamples(Calls(cfg, frames));
    } else {
      EmptySilenceAddsNothing(cfg, frames);
    }
  }

  function Count(b: bool): nat { if b then 1 else 0 }

  /** Each verdict on a frame is counted once and decides the flag it leaves with. */
  lemma VerdictsAreCounted(cfg: Config, s: State, f: AudioFrame)
    ensures var (s', out) := Step(cfg, s, f);
      var gap, truncated, overlap := IsGap(cfg, s, f), IsTruncated(cfg, s, f), IsOverlap(cfg, s, f);
      && out != []
      && s'.stats.gapsHealed == s.stats.gapsHealed + Count(gap && !truncated)
      && s'.stats.gapsTruncated == s.stats.gapsTruncated + Count(truncated)
      && s'.stats.overlapsDetected == s.stats.overlapsDetected + Count(overlap)
      && out[|out| - 1].discontinuity
         == (truncated || overlap || (f.discontinuity && !gap))
  {
  }

  // ----- Epochs -----------------------------------------------------------------------------

  /** How many outputs are the anchor of their own epoch. */
  function Anchors(epochs: seq<nat>): nat {
    if epochs == [] then 0
    else Anchors(epochs[..|epochs| - 1]) + Count(epochs[|epochs| - 1] == |epochs| - 1)
  }

  lemma AnchorsAppend(epochs: seq<nat>, e: nat)
    ensures Anchors(epochs + [e]) == Anchors(epochs) + Count(e == |epochs|)
  {
    assert (epochs + [e])[..|epochs|] == epochs;
  }

  /** An epoch opens only with a first frame, a truncated gap or an overlap. */
  predicate OpensEpoch(c: Call) {
    && c.after.anchored
    && |c.silence| <= 1 && (!c.before.anchored ==> c.silence == [] && c.reanchors)
    && var was, now := c.before.stats, c.after.stats;
    now.gapsTruncated + now.overlapsDetected + Count(!c.before.anchored)
      == was.gapsTruncated + was.overlapsDetected + Count(c.reanchors)
  }

  lemma CallOpensEpoch(cfg: Config, s: State, f: AudioFrame)
    ensures OpensEpoch(CallOn(cfg, s, f))
  {
    VerdictsAreCounted(cfg, s, f);
    StepEffects(cfg, s, f);
    CallIsShaped(cfg, s, f);
  }

  predicate AllOpenEpochs(calls: seq<Call>) {
    calls != [] ==> AllOpenEpochs(Init(calls)) && OpensEpoch(Last(calls))
  }

  lemma {:induction false} CallsOpenEpochs(cfg: Config, frames: seq<AudioFrame>)
    ensures AllOpenEpochs(Calls(cfg, frames))
  {
    if frames == [] {
    } else {
      var init := frames[..|frames| - 1];
      CallsUnfold(cfg, frames);
      CallsOpenEpochs(cfg, init);
      CallOpensEpoch(cfg, Reached(Calls(cfg, init)), frames[|init|]);
    }
  }

  lemma AnchorsOfCall(t: Trace, c: Call)
    requires |t.epochs| == |t.output| && |c.silence| <= 1
    requires c.silence != [] || !c.reanchors ==> t.epoch < |t.output|
    ensures Anchors(AppendCall(t, c).epochs) == Anchors(t.epochs) + Count(c.reanchors)
  {
    var padded := t.epochs + Repeat(t.epoch, |c.silence|);
    if c.silence == [] {
      assert padded == t.epochs;
    } else {
      assert padded == t.epochs + [t.epoch];
      AnchorsAppend(t.epochs, t.epoch);
    }
    AnchorsAppend(padded, AppendCall(t, c).epoch);
  }

  lemma {:induction false} LogCountsEpochs(calls: seq<Call>)
    requires Chained(calls) && AllOpenEpochs(calls)
    ensures var t, s := TraceOf(calls), Reached(calls);
      && (s.anchored <==> calls != [])
      && (calls != [] ==> t.epoch < |t.output|)
      && Anchors(t.epochs) == Count(calls != []) + s.stats.gapsTruncated + s.stats.overlapsDetected
  {
    if calls == [] {
    } else {
      LogCountsEpochs(Init(calls));
      AnchorsOfCall(TraceOf(Init(calls)), Last(calls));
    }
  }

  /** One epoch for the first frame and one for every gap truncated or overlap detected. */
  lemma EpochsAreCounted(cfg: Config, frames: seq<AudioFrame>)
    ensures var stats := Reached(Calls(cfg, frames)).stats;
      Anchors(Run(cfg, frames).epochs) == Count(frames != []) + stats.gapsTruncated + stats.overlapsDetected
  {
    CallsAreChained(cfg, frames);
    CallsOpenEpochs(cfg, frames);
    LogCountsEpochs(Calls(cfg, frames));
  }
}
