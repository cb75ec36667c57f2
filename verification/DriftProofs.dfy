/** What the published drift estimate is a measurement of, told from the outputs alone. */
module DriftProofs {
  import opened Audio
  import opened Arithmetic
  import opened ClockSync
  import opened ClockSyncProofs

  // ----- The reference: a meter reading the outputs -------------------------------------

  /** The output a window was opened at, and the last estimate. */
  datatype Meter = Meter(mark: nat, drift: DriftEstimate)

  /** The length of everything output from m up to n. */
  function Elapsed(cfg: Config, out: seq<AudioFrame>, m: nat, n: nat): int
    requires m <= n <= |out|
  {
    SamplesToDuration(cfg.sampleRate, TotalSamples(out[m..n]))
  }

  /** How far the timestamps of two outputs are from that length. */
  function Deviation(cfg: Config, out: seq<AudioFrame>, m: nat, n: nat): int
    requires m <= n < |out|
  {
    out[n].timestamp - out[m].timestamp - Elapsed(cfg, out, m, n)
  }

  /** After each captured frame: an anchor opens a window, and the first frame with a window's
      worth of samples before it closes that window with a measurement and opens the next. */
  function Read(cfg: Config, meter: Meter, t: Trace): Meter
    requires t.output != []
  {
    var at := |t.output| - 1;
    if t.epoch >= at || meter.mark > at then Meter(at, meter.drift)
    else if TotalSamples(t.output[meter.mark..at]) < cfg.driftWindowSamples then meter
    else
      var elapsed := Elapsed(cfg, t.output, meter.mark, at);
      Meter(at, if elapsed > 0 then DriftEstimate(Ppm(Deviation(cfg, t.output, meter.mark, at), elapsed), true)
                else meter.drift)
  }

  function Metered(cfg: Config, calls: seq<Call>): Meter {
    if calls == [] then Meter(0, INIT.drift) else Read(cfg, Metered(cfg, Init(calls)), TraceOf(calls))
  }

  // ----- One call -----------------------------------------------------------------------

  lemma AlignMovesDrift(cfg: Config, s: State, f: AudioFrame)
    ensures var a := Align(cfg, s, f).state;
      && a.drift == s.drift
      && (if Reanchors(cfg, s, f)
          then a.driftAnchorTimestamp == f.timestamp && a.driftAnchorSamples == 0 == a.samplesSinceAnchor
          else a.driftAnchorTimestamp == s.driftAnchorTimestamp && a.driftAnchorSamples == s.driftAnchorSamples)
  {
  }

  lemma NoSamplesNoTime(rate: Rate)
    ensures SamplesToDuration(rate, 0) == 0
  {
  }

  /** The drift fields after a frame's timestamp was compared, and before its samples count. */
  predicate Compared(cfg: Config, was: State, now: State, timestamp: int, reanchors: bool) {
    var b: int := now.samplesSinceAnchor;
    if reanchors then
      && now.drift == was.drift
      && now.driftAnchorTimestamp == timestamp && now.driftAnchorSamples == 0 == b
    else if b - was.driftAnchorSamples < cfg.driftWindowSamples then
      && now.drift == was.drift
      && now.driftAnchorTimestamp == was.driftAnchorTimestamp && now.driftAnchorSamples == was.driftAnchorSamples
    else
      var elapsed := SamplesToDuration(cfg.sampleRate, b - was.driftAnchorSamples);
      && now.driftAnchorTimestamp == timestamp && now.driftAnchorSamples == b
      && now.drift == if elapsed > 0
         then DriftEstimate(Ppm(timestamp - was.driftAnchorTimestamp - elapsed, elapsed), true)
         else was.drift
  }

  /** How a call moves the drift fields. */
  predicate Drifts(cfg: Config, c: Call) {
    && c.after.samplesSinceAnchor >= c.aligned.SampleCount()
    && Compared(cfg, c.before,
                c.after.(samplesSinceAnchor := c.after.samplesSinceAnchor - c.aligned.SampleCount()),
                c.aligned.timestamp, c.reanchors)
  }

  lemma UpdateCompares(cfg: Config, s: State, a: State, timestamp: int, reanchors: bool)
    requires a.drift == s.drift
    requires if reanchors
      then a.driftAnchorTimestamp == timestamp && a.driftAnchorSamples == 0 == a.samplesSinceAnchor
      else a.driftAnchorTimestamp == s.driftAnchorTimestamp && a.driftAnchorSamples == s.driftAnchorSamples
    ensures Compared(cfg, s, DriftUpdated(cfg, a, timestamp), timestamp, reanchors)
  {
    NoSamplesNoTime(cfg.sampleRate);
  }

  lemma CallDrifts(cfg: Config, s: State, f: AudioFrame)
    ensures Drifts(cfg, CallOn(cfg, s, f))
  {
    var counted := s.(stats := s.stats.(framesProcessed := s.stats.framesProcessed + 1));
    var a := Align(cfg, counted, f).state;
    AlignMovesDrift(cfg, counted, f);
    UpdateCompares(cfg, s, a.(nextOutputSequence := a.nextOutputSequence + 1), f.timestamp, Reanchors(cfg, s, f));
    CallCompares(cfg, s, f, a);
  }

  lemma CallCompares(cfg: Config, s: State, f: AudioFrame, a: State)
    requires a == Align(cfg, s.(stats := s.stats.(framesProcessed := s.stats.framesProcessed + 1)), f).state
    ensures var u := DriftUpdated(cfg, a.(nextOutputSequence := a.nextOutputSequence + 1), f.timestamp);
      var c := CallOn(cfg, s, f);
      && c.after == u.(samplesSinceAnchor := u.samplesSinceAnchor + f.SampleCount())
      && PassedThrough(f, c.aligned) && c.before == s && c.reanchors == Reanchors(cfg, s, f)
  {
    StepUnfolds(cfg, s, f);
    CallIsShaped(cfg, s, f);
  }

  // ----- The state's window is the meter's ----------------------------------------------

  predicate MeterInv(s: State, t: Trace, meter: Meter) {
    && s.drift == meter.drift
    && (t.output != [] ==>
          && t.epoch <= meter.mark < |t.output|
          && t.output[meter.mark].timestamp == s.driftAnchorTimestamp
          && TotalSamples(t.output[t.epoch..meter.mark]) == s.driftAnchorSamples)
  }

  /** Samples output before the last frame of an epoch. */
  lemma BeforeLast(s: State, t: Trace)
    requires Linked(s, t) && t.output != []
    ensures var at := |t.output| - 1;
      TotalSamples(t.output[t.epoch..at]) == s.samplesSinceAnchor - t.output[at].SampleCount()
  {
    var at := |t.output| - 1;
    TotalSamplesAppend(t.output[t.epoch..at], t.output[at]);
    assert t.output[t.epoch..] == t.output[t.epoch..at] + [t.output[at]];
  }

  lemma SplitAt(out: seq<AudioFrame>, e: nat, m: nat, n: nat)
    requires e <= m <= n <= |out|
    ensures TotalSamples(out[e..n]) == TotalSamples(out[e..m]) + TotalSamples(out[m..n])
  {
    TotalSamplesConcat(out[e..m], out[m..n]);
    assert out[e..n] == out[e..m] + out[m..n];
  }

  lemma AnchorMeters(cfg: Config, t: Trace, c: Call, meter: Meter)
    requires Drifts(cfg, c) && c.before.drift == meter.drift && c.reanchors
    ensures MeterInv(c.after, AppendCall(t, c), Read(cfg, meter, AppendCall(t, c)))
  {
    var t' := AppendCall(t, c);
    var at := |t'.output| - 1;
    assert t'.output[at..at] == [];
  }

  /** A window open across a call covers the same outputs for the state and for the meter. */
  lemma WindowIsSame(t: Trace, c: Call, meter: Meter)
    requires Linked(c.before, t) && Accounted(c) && MeterInv(c.before, t, meter) && !c.reanchors
    ensures var t' := AppendCall(t, c);
      var at := |t'.output| - 1;
      && t'.epoch == t.epoch <= meter.mark < at
      && t'.output[meter.mark].timestamp == c.before.driftAnchorTimestamp
      && t'.output[at] == c.aligned
      && TotalSamples(t'.output[t.epoch..meter.mark]) == c.before.driftAnchorSamples
      && TotalSamples(t'.output[t.epoch..at]) == c.after.samplesSinceAnchor - c.aligned.SampleCount()
      && TotalSamples(t'.output[meter.mark..at])
         == c.after.samplesSinceAnchor - c.aligned.SampleCount() - c.before.driftAnchorSamples
  {
    var t' := AppendCall(t, c);
    AppendKeepsLink(t, c);
    BeforeLast(c.after, t');
    assert t'.output[t.epoch..meter.mark] == t.output[t.epoch..meter.mark];
    SplitAt(t'.output, t.epoch, meter.mark, |t'.output| - 1);
  }

  lemma CallMeters(cfg: Config, t: Trace, c: Call, meter: Meter)
    requires Linked(c.before, t) && Accounted(c) && Drifts(cfg, c) && MeterInv(c.before, t, meter)
    ensures MeterInv(c.after, AppendCall(t, c), Read(cfg, meter, AppendCall(t, c)))
  {
    if c.reanchors {
      AnchorMeters(cfg, t, c, meter);
    } else {
      WindowIsSame(t, c, meter);
    }
  }

  // ----- Main results -------------------------------------------------------------------

  /** An estimate that two outputs of the run bear out: a full window apart in samples, and
      no further apart in timestamps than the bound allows. */
  predicate BearsOut(cfg: Config, out: seq<AudioFrame>, m: nat, n: nat, ppm: real) {
    && m < n < |out|
    && TotalSamples(out[m..n]) >= cfg.driftWindowSamples
    && IsEstimate(cfg, AlignmentBound(cfg), ppm, Deviation(cfg, out, m, n), Elapsed(cfg, out, m, n))
  }

  ghost predicate BorneOut(cfg: Config, out: seq<AudioFrame>, drift: DriftEstimate) {
    drift.valid ==> exists m, n :: BearsOut(cfg, out, m, n, drift.ppm)
  }

  lemma OldMeasurementStands(cfg: Config, out: seq<AudioFrame>, more: seq<AudioFrame>, m: nat, n: nat, ppm: real)
    requires BearsOut(cfg, out, m, n, ppm)
    ensures BearsOut(cfg, out + more, m, n, ppm)
  {
    assert (out + more)[m..n] == out[m..n];
  }

  /** Both ends of a window are near the sample clock of their epoch. */
  lemma WindowIsPunctual(cfg: Config, c: Call)
    requires Punctual(cfg, c) && Inv(cfg, AlignmentBound(cfg), c.before)
    requires c.after.anchorTimestamp == c.before.anchorTimestamp
    ensures var b: int := c.after.samplesSinceAnchor - c.aligned.SampleCount();
      Abs(c.aligned.timestamp - c.before.driftAnchorTimestamp
          - SamplesToDuration(cfg.sampleRate, b - c.before.driftAnchorSamples)) <= 2 * AlignmentBound(cfg) + 1
  {
    TwoEnds(cfg.sampleRate, c.before.anchorTimestamp, c.before.driftAnchorSamples,
            c.after.samplesSinceAnchor - c.aligned.SampleCount(), c.before.driftAnchorTimestamp, c.aligned.timestamp,
            AlignmentBound(cfg));
  }

  /** Two timestamps near the same clock are apart by what it counts between them, within twice
      the bound and a rounding. */
  lemma TwoEnds(rate: Rate, anchor: int, a: int, b: int, from: int, to: int, bound: nat)
    requires Abs(from - anchor - SamplesToDuration(rate, a)) <= bound
    requires Abs(to - anchor - SamplesToDuration(rate, b)) <= bound
    ensures Abs(to - from - SamplesToDuration(rate, b - a)) <= 2 * bound + 1
  {
    DurationSplit(rate, a, b - a);
  }

  /** A new reading is of a full window, over a time that did elapse. */
  lemma ReadMeasures(cfg: Config, meter: Meter, t: Trace)
    requires t.output != [] && Read(cfg, meter, t).drift != meter.drift
    ensures var at := |t.output| - 1;
      && meter.mark <= at
      && TotalSamples(t.output[meter.mark..at]) >= cfg.driftWindowSamples
      && Elapsed(cfg, t.output, meter.mark, at) > 0
      && Read(cfg, meter, t).drift.ppm
         == Ppm(Deviation(cfg, t.output, meter.mark, at), Elapsed(cfg, t.output, meter.mark, at))
  {
  }

  lemma NewMeasurementStands(cfg: Config, t: Trace, c: Call, meter: Meter)
    requires Linked(c.before, t) && Accounted(c) && MeterInv(c.before, t, meter) && !c.reanchors
    requires Punctual(cfg, c) && Inv(cfg, AlignmentBound(cfg), c.before)
    requires var t' := AppendCall(t, c); Read(cfg, meter, t').drift != meter.drift
    ensures var t' := AppendCall(t, c);
      BearsOut(cfg, t'.output, meter.mark, |t'.output| - 1, Read(cfg, meter, t').drift.ppm)
  {
    var t' := AppendCall(t, c);
    WindowIsSame(t, c, meter);
    WindowIsPunctual(cfg, c);
    ReadBearsOut(cfg, meter, t', |t'.output| - 1);
  }

  lemma ReadBearsOut(cfg: Config, meter: Meter, t: Trace, at: nat)
    requires at == |t.output| - 1 && meter.mark < at && Read(cfg, meter, t).drift != meter.drift
    requires Abs(Deviation(cfg, t.output, meter.mark, at)) <= 2 * AlignmentBound(cfg) + 1
    ensures BearsOut(cfg, t.output, meter.mark, at, Read(cfg, meter, t).drift.ppm)
  {
    ReadMeasures(cfg, meter, t);
    FullWindowBearsOut(cfg, t.output, meter.mark, at);
  }

  lemma FullWindowBearsOut(cfg: Config, out: seq<AudioFrame>, m: nat, n: nat)
    requires m < n < |out| && TotalSamples(out[m..n]) >= cfg.driftWindowSamples && Elapsed(cfg, out, m, n) > 0
    requires Abs(Deviation(cfg, out, m, n)) <= 2 * AlignmentBound(cfg) + 1
    ensures BearsOut(cfg, out, m, n, Ppm(Deviation(cfg, out, m, n), Elapsed(cfg, out, m, n)))
  {
    DurationMonotone(cfg.sampleRate, cfg.driftWindowSamples, TotalSamples(out[m..n]));
    EstimateHolds(cfg, AlignmentBound(cfg), Deviation(cfg, out, m, n), Elapsed(cfg, out, m, n));
  }

  lemma ReadIsBorneOut(cfg: Config, t: Trace, c: Call, meter: Meter)
    requires Linked(c.before, t) && Accounted(c) && MeterInv(c.before, t, meter)
    requires Punctual(cfg, c) && Inv(cfg, AlignmentBound(cfg), c.before)
    requires BorneOut(cfg, t.output, meter.drift)
    ensures BorneOut(cfg, AppendCall(t, c).output, Read(cfg, meter, AppendCall(t, c)).drift)
  {
    var t' := AppendCall(t, c);
    if meter.drift.valid {
      var m, n :| BearsOut(cfg, t.output, m, n, meter.drift.ppm);
      OldMeasurementStands(cfg, t.output, c.silence + [c.aligned], m, n, meter.drift.ppm);
      assert t'.output == t.output + (c.silence + [c.aligned]);
    }
    if Read(cfg, meter, t').drift != meter.drift {
      NewMeasurementStands(cfg, t, c, meter);
    }
  }

  /** The meter follows the state, and what it reads is borne out. */
  lemma {:induction false} RunMeters(cfg: Config, frames: seq<AudioFrame>)
    requires cfg.channels > 0
    ensures var calls := Calls(cfg, frames);
      && MeterInv(Reached(calls), TraceOf(calls), Metered(cfg, calls))
      && BorneOut(cfg, TraceOf(calls).output, Metered(cfg, calls).drift)
  {
    if frames == [] {
    } else {
      var init, f := frames[..|frames| - 1], frames[|frames| - 1];
      var earlier := Calls(cfg, init);
      var t, s, meter := TraceOf(earlier), Reached(earlier), Metered(cfg, earlier);
      var c := CallOn(cfg, s, f);
      RunMeters(cfg, init);
      CallsUnfold(cfg, frames);
      RunIsLinked(cfg, init);
      CallsArePunctual(cfg, init);
      CallIsAccounted(cfg, s, f);
      CallIsPunctual(cfg, s, f);
      CallDrifts(cfg, s, f);
      CallMeters(cfg, t, c, meter);
      ReadIsBorneOut(cfg, t, c, meter);
    }
  }

  lemma RunIsLinked(cfg: Config, frames: seq<AudioFrame>)
    requires cfg.channels > 0
    ensures Linked(Reached(Calls(cfg, frames)), TraceOf(Calls(cfg, frames)))
  {
    CallsAreChained(cfg, frames);
    CallsAreAccounted(cfg, frames);
    LogIsLinked(Calls(cfg, frames));
  }

  /** Over every run the published estimate is the meter's: no window is missed or measured
      twice. A valid one is the deviation, of at most 2E + 1 ns, between the timestamps of two
      outputs and the samples output in between, at least a window's worth. */
  lemma DriftIsMeasured(cfg: Config, frames: seq<AudioFrame>)
    requires cfg.channels > 0
    ensures var s, meter := Reached(Calls(cfg, frames)), Metered(cfg, Calls(cfg, frames));
      && s.drift == meter.drift
      && BorneOut(cfg, Run(cfg, frames).output, s.drift)
  {
    RunMeters(cfg, frames);
  }
}
