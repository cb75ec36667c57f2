/** The end-to-end timeline: source, ring and synchronizer together account for every frame
    slot of wall time exactly when no run of losses outlasts the silence cap. */
module Timeline {
  import opened Audio
  import opened Arithmetic
  import opened ClockSync
  import opened ClockSyncProofs
  import opened FakeBackend
  import Pipeline

  /** The synchronizer is set up for this source, whose frames are whole numbers of samples. */
  predicate Matched(sync: Config, src: CaptureConfig) {
    && sync.sampleRate == src.sampleRate
    && sync.channels == src.channels > 0
    && src.sampleRate * src.frameMs % 1000 == 0
  }

  /** n frames are as long in samples as in nanoseconds, both ways and without rounding. */
  lemma FramesAreExact(src: CaptureConfig, n: nat)
    requires src.sampleRate * src.frameMs % 1000 == 0
    ensures SamplesToDuration(src.sampleRate, n * src.FrameSamples()) == n * src.Interval()
    ensures DurationToSamples(src.sampleRate, n * src.Interval()) == n * src.FrameSamples()
    ensures n * src.Interval() * src.sampleRate == n * src.FrameSamples() * NANOS_PER_SECOND
  {
    var rate, ms, samples, interval := src.sampleRate, src.frameMs, src.FrameSamples(), src.Interval();
    assert samples * 1000 == rate * ms;
    assert interval * rate == samples * NANOS_PER_SECOND;
    assert n * interval * rate == n * (interval * rate) == n * (samples * NANOS_PER_SECOND);
    assert n * samples * NANOS_PER_SECOND == n * (samples * NANOS_PER_SECOND);
    QuotientUnique(n * samples * NANOS_PER_SECOND, rate, n * interval);
    QuotientUnique(n * interval * rate, NANOS_PER_SECOND, n * samples);
  }

  /** A cap shorter than the loss buys strictly less silence. */
  lemma CapFallsShort(src: CaptureConfig, n: nat, cap: int)
    requires src.sampleRate * src.frameMs % 1000 == 0
    requires cap < n * src.Interval() && n * src.Interval() > 0
    ensures DurationToSamples(src.sampleRate, cap) < n * src.FrameSamples()
  {
    FramesAreExact(src, n);
    var rate, whole := src.sampleRate, n * src.FrameSamples();
    assert n * src.Interval() * rate > 0;
    if cap > 0 {
      assert cap * rate < n * src.Interval() * rate;
      QuotientBounds(cap * rate, NANOS_PER_SECOND);
    }
  }

  /** A run of losses the silence cap can make good. */
  predicate WithinCap(sync: Config, src: CaptureConfig, lost: nat) {
    lost * src.Interval() <= Max(sync.Cap(), 0)
  }

  predicate AtGrid(src: CaptureConfig, s: State, a: nat, n: nat) {
    s.anchored && s.anchorTimestamp == a * src.Interval() && s.samplesSinceAnchor == n * src.FrameSamples()
  }

  lemma DeltaOnGrid(sync: Config, src: CaptureConfig, s: State, a: nat, n: nat, f: AudioFrame)
    requires Matched(sync, src) && AtGrid(src, s, a, n)
    requires f.timestamp == f.sequence * src.Interval() && f.sequence >= a + n
    ensures Delta(sync, s, f) == (f.sequence - a - n) * src.Interval()
  {
    FramesAreExact(src, n);
    var lost, i := f.sequence - a - n, src.Interval();
    assert (lost + a + n) * i == lost * i + a * i + n * i;
  }

  /** Silence for a run of losses: all of it within the cap, strictly less beyond. */
  lemma FillOnGrid(sync: Config, src: CaptureConfig, s: State, f: AudioFrame, lost: nat)
    requires Matched(sync, src) && s.anchored && Delta(sync, s, f) == lost * src.Interval()
    requires lost > 0 ==> f.discontinuity
    ensures var silence := if IsGap(sync, s, f) then Fill(sync, s, f) else 0;
      && silence <= lost * src.FrameSamples()
      && (silence == lost * src.FrameSamples() <==> WithinCap(sync, src, lost))
  {
    var gap := lost * src.Interval();
    FramesAreExact(src, lost);
    if gap > 0 {
      assert lost > 0;
      if gap > sync.Cap() {
        CapFallsShort(src, lost, sync.Cap());
      }
    } else {
      assert lost * src.FrameSamples() * NANOS_PER_SECOND == gap * src.sampleRate == 0;
    }
  }

  /** One frame on the grid leaves the synchronizer on the grid, at the frame's end. */
  lemma StepOnGrid(sync: Config, src: CaptureConfig, s: State, a: nat, n: nat, f: AudioFrame)
    returns (a': nat, n': nat)
    requires Matched(sync, src) && AtGrid(src, s, a, n)
    requires Pipeline.OnGrid(src, f) && f.sequence >= a + n && (f.sequence > a + n ==> f.discontinuity)
    ensures AtGrid(src, CallOn(sync, s, f).after, a', n') && a' + n' == f.sequence + 1
    ensures var lost := f.sequence - a - n;
      var silence := CallOn(sync, s, f).after.stats.silenceSamplesInserted - s.stats.silenceSamplesInserted;
      && silence <= lost * src.FrameSamples()
      && (silence == lost * src.FrameSamples() <==> WithinCap(sync, src, lost))
  {
    var lost := f.sequence - a - n;
    DeltaOnGrid(sync, src, s, a, n, f);
    FillOnGrid(sync, src, s, f, lost);
    StepEffects(sync, s, f);
    if Reanchors(sync, s, f) {
      a', n' := f.sequence, 1;
    } else {
      a', n' := a, n + lost + 1;
      StaysOnGrid(sync, src, s, n, f, lost);
    }
  }

  lemma StaysOnGrid(sync: Config, src: CaptureConfig, s: State, n: nat, f: AudioFrame, lost: nat)
    requires Matched(sync, src) && s.anchored && s.samplesSinceAnchor == n * src.FrameSamples()
    requires Delta(sync, s, f) == lost * src.Interval() && (lost > 0 ==> f.discontinuity)
    requires !Reanchors(sync, s, f) && f.SampleCount() == src.FrameSamples()
    ensures var silence := if IsGap(sync, s, f) then Fill(sync, s, f) else 0;
      f.SampleCount() + s.samplesSinceAnchor + silence == (n + lost + 1) * src.FrameSamples()
  {
    var samples := src.FrameSamples();
    FillOnGrid(sync, src, s, f, lost);
    assert WithinCap(sync, src, lost);
    assert (n + lost + 1) * samples == n * samples + lost * samples + samples;
  }

  /** A frame without delay is no gap longer than the cap. Only a tolerance and a cap that are
      both negative make it one. */
  predicate Tolerant(sync: Config) { 0 <= sync.Cap() || 0 <= sync.Tolerance() }

  /** A frame that is not early never overlaps, and is truncated exactly when it is later than
      the cap allows. */
  lemma VerdictOnDelay(sync: Config, s: State, f: AudioFrame)
    requires s.anchored && Delta(sync, s, f) >= 0 && (Delta(sync, s, f) > 0 ==> f.discontinuity)
    ensures var was, now := s.stats, CallOn(sync, s, f).after.stats;
      && now.overlapsDetected == was.overlapsDetected
      && now.gapsTruncated
         == was.gapsTruncated + Count(!(Delta(sync, s, f) <= Max(sync.Cap(), 0) && Tolerant(sync)))
  {
    VerdictsAreCounted(sync, s, f);
  }

  // ----- Whole runs -----------------------------------------------------------------------

  /** Frames as a source without restarts delivers them: on the grid, jumps flagged. */
  predicate Scheduled(src: CaptureConfig, frames: seq<AudioFrame>) {
    frames != [] ==>
      && Scheduled(src, Earlier(frames))
      && Pipeline.OnGrid(src, Final(frames))
      && (Earlier(frames) != [] ==> Pipeline.Follows(Final(Earlier(frames)), Final(frames)))
  }

  /** Frames lost just before the last delivered one. */
  function LostLast(frames: seq<AudioFrame>): int
    requires frames != []
  {
    if Earlier(frames) == [] then 0 else Final(frames).sequence - Final(Earlier(frames)).sequence - 1
  }

  /** Frames lost between the first delivered frame and the last. */
  function Lost(frames: seq<AudioFrame>): int {
    if frames == [] then 0 else Lost(Earlier(frames)) + LostLast(frames)
  }

  /** Every run of losses between two delivered frames is short enough to be made good. */
  predicate AllWithinCap(sync: Config, src: CaptureConfig, frames: seq<AudioFrame>) {
    frames != [] ==>
      && AllWithinCap(sync, src, Earlier(frames))
      && (LostLast(frames) >= 0 ==> WithinCap(sync, src, LostLast(frames)))
  }

  /** Frame slots of wall time from the first delivered frame to the last. */
  function Slots(frames: seq<AudioFrame>): int
    requires frames != []
  {
    Final(frames).sequence - frames[0].sequence + 1
  }

  lemma {:induction false} SlotsAreFramesAndLosses(frames: seq<AudioFrame>)
    requires frames != []
    ensures Slots(frames) == |frames| + Lost(frames)
  {
    if Earlier(frames) == [] {
    } else {
      SlotsAreFramesAndLosses(Earlier(frames));
    }
  }

  lemma FirstOnGrid(sync: Config, src: CaptureConfig, f: AudioFrame)
    requires Matched(sync, src) && Pipeline.OnGrid(src, f)
    ensures var after := CallOn(sync, INIT, f).after;
      && AtGrid(src, after, f.sequence, 1)
      && after.stats.silenceSamplesInserted == 0
      && after.stats.gapsTruncated == 0 && after.stats.overlapsDetected == 0
  {
    StepEffects(sync, INIT, f);
    VerdictsAreCounted(sync, INIT, f);
  }

  /** The silence inserted so far against the samples lost so far. */
  predicate Balanced(src: CaptureConfig, s: State, lost: int, made: bool) {
    && s.stats.silenceSamplesInserted <= lost * src.FrameSamples()
    && (s.stats.silenceSamplesInserted == lost * src.FrameSamples() <==> made)
  }

  lemma StepKeepsBalance(
      sync: Config, src: CaptureConfig, s: State, a: nat, n: nat, f: AudioFrame, lost: int, made: bool)
    returns (a': nat, n': nat)
    requires Matched(sync, src) && AtGrid(src, s, a, n) && Balanced(src, s, lost, made)
    requires Pipeline.OnGrid(src, f) && f.sequence >= a + n && (f.sequence > a + n ==> f.discontinuity)
    ensures var after, more := CallOn(sync, s, f).after, f.sequence - a - n;
      && AtGrid(src, after, a', n') && a' + n' == f.sequence + 1
      && Balanced(src, after, lost + more, made && WithinCap(sync, src, more))
  {
    a', n' := StepOnGrid(sync, src, s, a, n, f);
    var more, samples := f.sequence - a - n, src.FrameSamples();
    assert (lost + more) * samples == lost * samples + more * samples;
  }

  lemma {:induction false} RunOnGrid(sync: Config, src: CaptureConfig, frames: seq<AudioFrame>)
    returns (a: nat, n: nat)
    requires Matched(sync, src) && Scheduled(src, frames) && frames != []
    ensures var s := Reached(Calls(sync, frames));
      && AtGrid(src, s, a, n) && a + n == Final(frames).sequence + 1
      && Balanced(src, s, Lost(frames), AllWithinCap(sync, src, frames))
  {
    CallsUnfold(sync, frames);
    if Earlier(frames) == [] {
      FirstOnGrid(sync, src, Final(frames));
      assert 0 * src.FrameSamples() == 0;
      a, n := Final(frames).sequence, 1;
    } else {
      a, n := RunOnGrid(sync, src, Earlier(frames));
      a, n := StepKeepsBalance(sync, src, Reached(Calls(sync, Earlier(frames))), a, n, Final(frames),
                               Lost(Earlier(frames)), AllWithinCap(sync, src, Earlier(frames)));
    }
  }

  lemma StepIsClean(sync: Config, src: CaptureConfig, s: State, a: nat, n: nat, f: AudioFrame)
    requires Matched(sync, src) && AtGrid(src, s, a, n)
    requires Pipeline.OnGrid(src, f) && f.sequence >= a + n && (f.sequence > a + n ==> f.discontinuity)
    ensures var was, now := s.stats, CallOn(sync, s, f).after.stats;
      && now.overlapsDetected == was.overlapsDetected
      && now.gapsTruncated
         == was.gapsTruncated + Count(!(WithinCap(sync, src, f.sequence - a - n) && Tolerant(sync)))
  {
    var lost := f.sequence - a - n;
    DeltaOnGrid(sync, src, s, a, n, f);
    assert lost * src.Interval() >= 0;
    if lost == 0 {
      assert 0 * src.Interval() == 0;
    }
    VerdictOnDelay(sync, s, f);
  }

  /** Nothing overlapped, and nothing was truncated exactly when every run of losses is within
      the cap and a frame without delay is within it too. */
  predicate Clean(sync: Config, src: CaptureConfig, frames: seq<AudioFrame>, stats: Stats) {
    && stats.overlapsDetected == 0
    && (stats.gapsTruncated == 0 <==> AllWithinCap(sync, src, frames) && (|frames| <= 1 || Tolerant(sync)))
  }

  lemma {:induction false} RunIsClean(sync: Config, src: CaptureConfig, frames: seq<AudioFrame>)
    requires Matched(sync, src) && Scheduled(src, frames) && frames != []
    ensures Clean(sync, src, frames, Reached(Calls(sync, frames)).stats)
  {
    CallsUnfold(sync, frames);
    if Earlier(frames) == [] {
      FirstOnGrid(sync, src, Final(frames));
      assert 0 * src.Interval() == 0;
    } else {
      RunIsClean(sync, src, Earlier(frames));
      var a, n := RunOnGrid(sync, src, Earlier(frames));
      StepIsClean(sync, src, Reached(Calls(sync, Earlier(frames))), a, n, Final(frames));
    }
  }

  lemma {:induction false} TotalOnGrid(src: CaptureConfig, frames: seq<AudioFrame>)
    requires Scheduled(src, frames)
    ensures TotalSamples(frames) == |frames| * src.FrameSamples()
  {
    if frames == [] {
    } else {
      TotalOnGrid(src, Earlier(frames));
      assert (|frames| - 1) * src.FrameSamples() + src.FrameSamples() == |frames| * src.FrameSamples();
    }
  }

  /** The aligned output never exceeds the wall time from first to last frame, and fills it
      exactly if and only if every run of losses is within the cap. */
  lemma TimelineIsGapless(sync: Config, src: CaptureConfig, frames: seq<AudioFrame>)
    requires Matched(sync, src) && Scheduled(src, frames) && frames != []
    ensures var total, wall := TotalSamples(Run(sync, frames).output), Slots(frames) * src.FrameSamples();
      && total <= wall
      && (total == wall <==> AllWithinCap(sync, src, frames))
  {
    var _, _ := RunOnGrid(sync, src, frames);
    SamplesAreConserved(sync, frames);
    TotalOnGrid(src, frames);
    SlotsAreFramesAndLosses(frames);
    BalanceIsLength(src, Reached(Calls(sync, frames)), |frames|, Lost(frames), AllWithinCap(sync, src, frames),
                    TotalSamples(Run(sync, frames).output), Slots(frames));
  }

  lemma BalanceIsLength(
      src: CaptureConfig, s: State, frames: nat, lost: int, made: bool, total: nat, slots: int)
    requires Balanced(src, s, lost, made) && slots == frames + lost
    requires total == frames * src.FrameSamples() + s.stats.silenceSamplesInserted
    ensures total <= slots * src.FrameSamples()
    ensures total == slots * src.FrameSamples() <==> made
  {
    Distribute(frames, lost, src.FrameSamples());
  }

  lemma Distribute(a: int, b: int, c: int)
    ensures (a + b) * c == a * c + b * c
  {
  }

  /** Captured frame i starts after exactly the samples its sequence number calls for. */
  predicate SitsAt(src: CaptureConfig, t: Trace, i: nat, slot: int) {
    && i < |t.realAt| && t.realAt[i] < |t.output|
    && TotalSamples(t.output[..t.realAt[i]]) == slot * src.FrameSamples()
  }

  lemma EarlierSits(src: CaptureConfig, t: Trace, c: Call, t': Trace, i: nat, slot: int)
    requires SitsAt(src, t, i, slot) && t' == AppendCall(t, c)
    ensures SitsAt(src, t', i, slot)
  {
    assert t'.output[..t.realAt[i]] == t.output[..t.realAt[i]];
  }

  lemma LastSits(src: CaptureConfig, t: Trace, c: Call, t': Trace, slots: int)
    requires t' == AppendCall(t, c) && c.aligned.SampleCount() == src.FrameSamples()
    requires TotalSamples(t'.output) == slots * src.FrameSamples()
    ensures SitsAt(src, t', |t.realAt|, slots - 1)
  {
    var before := t.output + c.silence;
    TotalSamplesAppend(before, c.aligned);
    assert t'.output[..|before|] == before;
    assert slots * src.FrameSamples() == (slots - 1) * src.FrameSamples() + src.FrameSamples();
  }

  /** A run grows by one call per frame. */
  lemma RunUnfold(sync: Config, frames: seq<AudioFrame>) returns (t: Trace, c: Call, t': Trace)
    requires frames != []
    ensures t == Run(sync, Earlier(frames)) && t' == Run(sync, frames)
    ensures t' == AppendCall(t, c) && |t.realAt| == |frames| - 1
    ensures c.aligned.SampleCount() == Final(frames).SampleCount()
  {
    CallsUnfold(sync, frames);
    t, c, t' := Run(sync, Earlier(frames)), Last(Calls(sync, frames)), Run(sync, frames);
    StepEffects(sync, c.before, Final(frames));
  }

  lemma LastOfRunSits(sync: Config, src: CaptureConfig, frames: seq<AudioFrame>, slot: int)
    requires frames != [] && Final(frames).SampleCount() == src.FrameSamples()
    requires TotalSamples(Run(sync, frames).output) == (slot + 1) * src.FrameSamples()
    ensures SitsAt(src, Run(sync, frames), |frames| - 1, slot)
  {
    var t, c, t' := RunUnfold(sync, frames);
    LastSits(src, t, c, t', slot + 1);
  }

  lemma FinalSits(sync: Config, src: CaptureConfig, frames: seq<AudioFrame>, slot: int)
    requires Matched(sync, src) && Scheduled(src, frames) && frames != []
    requires AllWithinCap(sync, src, frames) && slot == Final(frames).sequence - frames[0].sequence
    ensures SitsAt(src, Run(sync, frames), |frames| - 1, slot)
  {
    TimelineIsGapless(sync, src, frames);
    LastOfRunSits(sync, src, frames, slot);
  }

  lemma EarlierStillSits(sync: Config, src: CaptureConfig, frames: seq<AudioFrame>, i: nat, slot: int)
    requires frames != [] && SitsAt(src, Run(sync, Earlier(frames)), i, slot)
    ensures SitsAt(src, Run(sync, frames), i, slot)
  {
    var t, c, t' := RunUnfold(sync, frames);
    EarlierSits(src, t, c, t', i, slot);
  }

  lemma {:induction false} FrameSitsInItsSlot(sync: Config, src: CaptureConfig, frames: seq<AudioFrame>, i: nat,
                                              slot: int)
    requires Matched(sync, src) && Scheduled(src, frames) && i < |frames|
    requires AllWithinCap(sync, src, frames) && slot == frames[i].sequence - frames[0].sequence
    ensures SitsAt(src, Run(sync, frames), i, slot)
  {
    if i == |frames| - 1 {
      FinalSits(sync, src, frames, slot);
    } else {
      FrameSitsInItsSlot(sync, src, Earlier(frames), i, slot);
      EarlierStillSits(sync, src, frames, i, slot);
    }
  }

  /** When every run of losses is within the cap, each captured frame starts after exactly the
      samples its sequence number calls for. */
  lemma FramesSitOnTheTimeline(sync: Config, src: CaptureConfig, frames: seq<AudioFrame>, i: nat)
    requires Matched(sync, src) && Scheduled(src, frames) && i < |frames|
    requires AllWithinCap(sync, src, frames)
    ensures SitsAt(src, Run(sync, frames), i, frames[i].sequence - frames[0].sequence)
  {
    FrameSitsInItsSlot(sync, src, frames, i, frames[i].sequence - frames[0].sequence);
  }

  /** Every captured frame is where its sequence number says. */
  predicate AllSit(src: CaptureConfig, t: Trace, frames: seq<AudioFrame>) {
    forall i :: 0 <= i < |frames| ==> SitsAt(src, t, i, frames[i].sequence - frames[0].sequence)
  }

  lemma FramesAllSit(sync: Config, src: CaptureConfig, frames: seq<AudioFrame>)
    requires Matched(sync, src) && Scheduled(src, frames) && AllWithinCap(sync, src, frames)
    ensures AllSit(src, Run(sync, frames), frames)
  {
    forall i | 0 <= i < |frames|
      ensures SitsAt(src, Run(sync, frames), i, frames[i].sequence - frames[0].sequence)
    {
      FramesSitOnTheTimeline(sync, src, frames, i);
    }
  }

  // ----- End to end -----------------------------------------------------------------------

  lemma {:induction false} ScheduledByIndex(src: CaptureConfig, frames: seq<AudioFrame>)
    requires Pipeline.Linked(frames) && forall i :: 0 <= i < |frames| ==> Pipeline.OnGrid(src, frames[i])
    ensures Scheduled(src, frames)
  {
    if frames == [] {
    } else {
      ScheduledByIndex(src, Earlier(frames));
    }
  }

  /** Whatever is popped, after any schedule without restarts, is fit for the results above. */
  lemma PoppedIsScheduled(src: CaptureConfig, signal: nat -> seq<Byte>, capacity: nat, events: seq<Pipeline.Event>)
    requires Pipeline.Feasible(src, signal, capacity, events) && Pipeline.NoRestart(events)
    requires Pipeline.WellSampled(src, signal) && src.channels > 0
    ensures Scheduled(src, Pipeline.After(src, signal, events).popped)
  {
    Pipeline.LossIsNeverSilent(src, signal, capacity, events);
    Pipeline.FramesAreOnGrid(src, signal, events);
    var l := Pipeline.After(src, signal, events);
    assert forall i :: 0 <= i < |l.popped| ==> l.Delivered()[i] == l.popped[i];
    ScheduledByIndex(src, l.popped);
  }

  /** For every schedule of emission, device loss, refusal and consumption, the aligned audio
      of everything popped fills the wall time between its ends exactly when no run of losses
      outlasts the cap, and then the frame numbered q starts after (q - first) frames of
      samples. Nothing ever overlaps, and nothing is truncated exactly when moreover a frame
      without delay is no truncated gap. */
  lemma EndToEndTimeline(
      sync: Config, src: CaptureConfig, signal: nat -> seq<Byte>, capacity: nat, events: seq<Pipeline.Event>)
    requires Pipeline.Feasible(src, signal, capacity, events) && Pipeline.NoRestart(events)
    requires Pipeline.WellSampled(src, signal) && Matched(sync, src)
    requires Pipeline.After(src, signal, events).popped != []
    ensures var frames := Pipeline.After(src, signal, events).popped;
      var total, wall := TotalSamples(Run(sync, frames).output), Slots(frames) * src.FrameSamples();
      var stats := Reached(Calls(sync, frames)).stats;
      && Scheduled(src, frames)
      && total <= wall
      && (total == wall <==> AllWithinCap(sync, src, frames))
      && stats.overlapsDetected == 0
      && (stats.gapsTruncated == 0 <==> total == wall && (|frames| <= 1 || Tolerant(sync)))
      && (total == wall ==> AllSit(src, Run(sync, frames), frames))
  {
    var frames := Pipeline.After(src, signal, events).popped;
    PoppedIsScheduled(src, signal, capacity, events);
    TimelineIsGapless(sync, src, frames);
    RunIsClean(sync, src, frames);
    if AllWithinCap(sync, src, frames) {
      FramesAllSit(sync, src, frames);
    }
  }
}
