/** Sources that restart: a device's clock jumps ahead and the stream goes on. The aligned audio
    then follows the time elapsed, and not the frame numbers, to within one sample's length. */
module Restarts {
  import opened Audio
  import opened Arithmetic
  import opened ClockSync
  import opened ClockSyncProofs
  import opened FakeBackend
  import Pipeline
  import Timeline

  // ----- Frames that may be late --------------------------------------------------------

  /** How long after the end of the frame before it the last frame starts: losses and restarts
      alike. */
  function DelayLast(src: CaptureConfig, frames: seq<AudioFrame>): int
    requires frames != []
  {
    if Earlier(frames) == [] then 0
    else Final(frames).timestamp - (Final(Earlier(frames)).timestamp + src.Interval())
  }

  /** Whole frames, none early, and each late one flagged. */
  predicate Paced(src: CaptureConfig, frames: seq<AudioFrame>) {
    frames != [] ==>
      && Paced(src, Earlier(frames))
      && Final(frames).SampleCount() == src.FrameSamples()
      && DelayLast(src, frames) >= 0
      && (DelayLast(src, frames) > 0 ==> Final(frames).discontinuity)
  }

  /** No frame is later than this. */
  predicate DelaysWithin(src: CaptureConfig, frames: seq<AudioFrame>, limit: int) {
    frames != [] ==> DelaysWithin(src, Earlier(frames), limit) && DelayLast(src, frames) <= limit
  }

  /** Wall time from the start of the first frame to the end of the last. */
  function Elapsed(src: CaptureConfig, frames: seq<AudioFrame>): int
    requires frames != []
  {
    Final(frames).timestamp + src.Interval() - frames[0].timestamp
  }

  /** A sample's length, rounded up to a nanosecond. */
  function OneSample(rate: Rate): nat { CeilDiv(NANOS_PER_SECOND, rate) }

  // ----- One frame ----------------------------------------------------------------------

  /** The sample clock trails a moment by a sample's length at most. */
  predicate Trails(sync: Config, s: State, moment: int) {
    s.anchored && 0 <= moment - Expected(sync, s) <= OneSample(sync.sampleRate)
  }

  /** A whole frame moves the sample clock by exactly its interval, wherever it stands. */
  lemma WholeFrameAdds(src: CaptureConfig, samples: int)
    requires src.sampleRate * src.frameMs % 1000 == 0
    ensures SamplesToDuration(src.sampleRate, samples + src.FrameSamples())
         == SamplesToDuration(src.sampleRate, samples) + src.Interval()
  {
    Timeline.FramesAreExact(src, 1);
    QuotientShift(samples * NANOS_PER_SECOND, src.Interval(), src.sampleRate);
  }

  /** Where the clock stands before the frame's own samples, if it fills the gap. */
  lemma HealedTrails(sync: Config, s: State, f: AudioFrame, before: nat)
    requires IsGap(sync, s, f) && !IsTruncated(sync, s, f) && Delta(sync, s, f) >= 0
    requires before == s.samplesSinceAnchor + Fill(sync, s, f)
    ensures 0 <= f.timestamp - s.anchorTimestamp - SamplesToDuration(sync.sampleRate, before)
              <= OneSample(sync.sampleRate)
  {
    FillResidual(sync.sampleRate, s.samplesSinceAnchor, Delta(sync, s, f));
  }

  /** The clock trails a frame's end as it trailed its start. */
  lemma FrameEnds(sync: Config, src: CaptureConfig, s: State, before: nat, start: int)
    requires Timeline.Matched(sync, src) && s.anchored && s.samplesSinceAnchor == before + src.FrameSamples()
    requires 0 <= start - s.anchorTimestamp - SamplesToDuration(sync.sampleRate, before)
               <= OneSample(sync.sampleRate)
    ensures Trails(sync, s, start + src.Interval())
  {
    WholeFrameAdds(src, before);
  }

  lemma AnchoredFrameEnds(sync: Config, src: CaptureConfig, s: State, start: int)
    requires Timeline.Matched(sync, src) && s.anchored && s.samplesSinceAnchor == src.FrameSamples()
    requires s.anchorTimestamp == start
    ensures Trails(sync, s, start + src.Interval())
  {
    DurationOfNothing(sync.sampleRate);
    FrameEnds(sync, src, s, 0, start);
  }

  lemma DurationOfNothing(rate: Rate)
    ensures SamplesToDuration(rate, 0) == 0
  {
  }

  /** A frame that is not early, and flagged if it is late, is no overlap and leaves the clock
      trailing its end. */
  lemma StepTrails(sync: Config, src: CaptureConfig, s: State, moment: int, f: AudioFrame)
    requires Timeline.Matched(sync, src) && Trails(sync, s, moment) && f.SampleCount() == src.FrameSamples()
    requires f.timestamp >= moment && (f.timestamp > moment ==> f.discontinuity)
    ensures !IsOverlap(sync, s, f)
    ensures Trails(sync, CallOn(sync, s, f).after, f.timestamp + src.Interval())
  {
    StepEffects(sync, s, f);
    var after := CallOn(sync, s, f).after;
    if Reanchors(sync, s, f) {
      AnchoredFrameEnds(sync, src, after, f.timestamp);
    } else if IsGap(sync, s, f) {
      HealedTrails(sync, s, f, s.samplesSinceAnchor + Fill(sync, s, f));
      FrameEnds(sync, src, after, s.samplesSinceAnchor + Fill(sync, s, f), f.timestamp);
    } else {
      FrameEnds(sync, src, after, s.samplesSinceAnchor, f.timestamp);
    }
  }

  /** What the verdict on such a frame depends on. */
  lemma VerdictOnLate(sync: Config, s: State, moment: int, f: AudioFrame)
    requires Trails(sync, s, moment) && !IsOverlap(sync, s, f)
    requires f.timestamp >= moment && (f.timestamp > moment ==> f.discontinuity)
    ensures var was, now := s.stats, CallOn(sync, s, f).after.stats;
      && now.overlapsDetected == was.overlapsDetected && now.gapsTruncated >= was.gapsTruncated
      && (now.gapsTruncated == was.gapsTruncated <==> !IsTruncated(sync, s, f))
      && (f.timestamp - moment + OneSample(sync.sampleRate) <= sync.Cap() ==> !IsTruncated(sync, s, f))
      && (f.timestamp - moment > Max(sync.Cap(), 0) ==> IsTruncated(sync, s, f))
  {
    VerdictsAreCounted(sync, s, f);
  }

  // ----- Whole runs ---------------------------------------------------------------------

  /** While nothing was truncated or overlapped the one anchor is the first frame's, and the state
      counts all samples. */
  predicate OneEpoch(s: State, first: int, samples: nat) {
    s.stats.gapsTruncated == 0 && s.stats.overlapsDetected == 0 ==>
      s.anchorTimestamp == first && s.samplesSinceAnchor == samples + s.stats.silenceSamplesInserted
  }

  lemma StepKeepsEpoch(sync: Config, s: State, f: AudioFrame, first: int, samples: nat)
    requires s.anchored && OneEpoch(s, first, samples)
    ensures OneEpoch(CallOn(sync, s, f).after, first, samples + f.SampleCount())
  {
    VerdictsAreCounted(sync, s, f);
    StepEffects(sync, s, f);
  }

  lemma FirstIsOneEpoch(sync: Config, f: AudioFrame)
    ensures OneEpoch(CallOn(sync, INIT, f).after, f.timestamp, f.SampleCount())
  {
    StepEffects(sync, INIT, f);
  }

  lemma {:induction false} RunIsOneEpoch(sync: Config, frames: seq<AudioFrame>)
    requires frames != []
    ensures Reached(Calls(sync, frames)).anchored
    ensures OneEpoch(Reached(Calls(sync, frames)), frames[0].timestamp, TotalSamples(frames))
  {
    CallsUnfold(sync, frames);
    var s := Reached(Calls(sync, Earlier(frames)));
    StepEffects(sync, s, Final(frames));
    if Earlier(frames) == [] {
      FirstIsOneEpoch(sync, Final(frames));
    } else {
      RunIsOneEpoch(sync, Earlier(frames));
      StepKeepsEpoch(sync, s, Final(frames), frames[0].timestamp, TotalSamples(Earlier(frames)));
    }
  }

  lemma PunctualAsCaptured(sync: Config, c: Call)
    requires Punctual(sync, c) && PassedThrough(c.frame, c.aligned)
    ensures c.frame.SampleCount() <= c.after.samplesSinceAnchor
    ensures Near(sync, AlignmentBound(sync), c.after, c.after.samplesSinceAnchor - c.frame.SampleCount(),
                 c.frame.timestamp)
  {
    SameCount(c.frame, c.aligned);
  }

  lemma LastCallOfRun(sync: Config, frames: seq<AudioFrame>)
    requires frames != []
    ensures var calls := Calls(sync, frames);
      && calls != [] && Last(calls).frame == Final(frames) && Last(calls).after == Reached(calls)
      && PassedThrough(Final(frames), Last(calls).aligned)
  {
    CallsUnfold(sync, frames);
    CallIsShaped(sync, Reached(Calls(sync, Earlier(frames))), Final(frames));
  }

  lemma LastIsPunctual(sync: Config, frames: seq<AudioFrame>)
    requires frames != []
    ensures var s, f := Reached(Calls(sync, frames)), Final(frames);
      && f.SampleCount() <= s.samplesSinceAnchor
      && Near(sync, AlignmentBound(sync), s, s.samplesSinceAnchor - f.SampleCount(), f.timestamp)
  {
    LastCallOfRun(sync, frames);
    CallsArePunctual(sync, frames);
    PunctualAsCaptured(sync, Last(Calls(sync, frames)));
  }

  /** Of so many samples, those before the last frame's own are as long as the time from the first
      frame's start to the last one's, to within the alignment bound. */
  predicate OnTime(sync: Config, total: int, first: AudioFrame, last: AudioFrame) {
    Abs(last.timestamp - first.timestamp - SamplesToDuration(sync.sampleRate, total - last.SampleCount()))
      <= AlignmentBound(sync)
  }

  lemma LastFollowsTime(sync: Config, frames: seq<AudioFrame>, total: int)
    requires frames != []
    requires var s := Reached(Calls(sync, frames));
      s.anchorTimestamp == frames[0].timestamp && total == s.samplesSinceAnchor
    ensures OnTime(sync, total, frames[0], Final(frames))
  {
    LastIsPunctual(sync, frames);
  }

  /** Then the state's count is of everything output. */
  lemma OutputIsCounted(sync: Config, frames: seq<AudioFrame>)
    requires frames != [] && sync.channels > 0
    ensures var s := Reached(Calls(sync, frames));
      s.stats.gapsTruncated == 0 && s.stats.overlapsDetected == 0 ==>
        s.anchorTimestamp == frames[0].timestamp && s.samplesSinceAnchor == TotalSamples(Run(sync, frames).output)
  {
    RunIsOneEpoch(sync, frames);
    SamplesAreConserved(sync, frames);
  }

  /** Whatever the frames and their timestamps: if no gap was truncated and nothing overlapped,
      what was output before the last captured frame is as long as the time since the first one
      started, to within the alignment bound. */
  lemma UnbrokenRunFollowsTime(sync: Config, frames: seq<AudioFrame>)
    requires frames != [] && sync.channels > 0
    ensures var stats := Reached(Calls(sync, frames)).stats;
      stats.gapsTruncated == 0 && stats.overlapsDetected == 0 ==>
        OnTime(sync, TotalSamples(Run(sync, frames).output), frames[0], Final(frames))
  {
    OutputIsCounted(sync, frames);
    var stats := Reached(Calls(sync, frames)).stats;
    if stats.gapsTruncated == 0 && stats.overlapsDetected == 0 {
      LastFollowsTime(sync, frames, TotalSamples(Run(sync, frames).output));
    }
  }

  /** What holds after a run over paced frames. */
  predicate Kept(sync: Config, src: CaptureConfig, frames: seq<AudioFrame>, s: State)
    requires frames != []
  {
    && Trails(sync, s, Final(frames).timestamp + src.Interval())
    && s.stats.overlapsDetected == 0
    && (DelaysWithin(src, frames, sync.Cap() - OneSample(sync.sampleRate)) ==> s.stats.gapsTruncated == 0)
    && (s.stats.gapsTruncated == 0 ==> DelaysWithin(src, frames, Max(sync.Cap(), 0)))
  }

  lemma FirstKept(sync: Config, src: CaptureConfig, frames: seq<AudioFrame>)
    requires Timeline.Matched(sync, src) && Paced(src, frames) && |frames| == 1
    ensures Kept(sync, src, frames, CallOn(sync, INIT, frames[0]).after)
  {
    StepEffects(sync, INIT, frames[0]);
    VerdictsAreCounted(sync, INIT, frames[0]);
    AnchoredFrameEnds(sync, src, CallOn(sync, INIT, frames[0]).after, frames[0].timestamp);
    assert Earlier(frames) == [] && Final(frames) == frames[0];
  }

  lemma StepKept(sync: Config, src: CaptureConfig, frames: seq<AudioFrame>, s: State)
    requires Timeline.Matched(sync, src) && Paced(src, frames) && |frames| > 1
    requires Kept(sync, src, Earlier(frames), s)
    ensures Kept(sync, src, frames, CallOn(sync, s, Final(frames)).after)
  {
    var moment, f := Final(Earlier(frames)).timestamp + src.Interval(), Final(frames);
    StepTrails(sync, src, s, moment, f);
    VerdictOnLate(sync, s, moment, f);
  }

  lemma {:induction false} RunKept(sync: Config, src: CaptureConfig, frames: seq<AudioFrame>)
    requires Timeline.Matched(sync, src) && Paced(src, frames) && frames != []
    ensures Kept(sync, src, frames, Reached(Calls(sync, frames)))
  {
    CallsUnfold(sync, frames);
    if Earlier(frames) == [] {
      FirstKept(sync, src, frames);
    } else {
      RunKept(sync, src, Earlier(frames));
      StepKept(sync, src, frames, Reached(Calls(sync, Earlier(frames))));
    }
  }

  /** The aligned output is as long as the time elapsed, never longer and short by at most one
      sample's length however many losses and restarts were healed, unless a gap was truncated.
      None is if every delay stays a sample's length below the cap, and one is if some delay
      exceeds the cap. Nothing overlaps. */
  lemma OutputFollowsElapsedTime(sync: Config, src: CaptureConfig, frames: seq<AudioFrame>)
    requires Timeline.Matched(sync, src) && Paced(src, frames) && frames != []
    ensures var stats := Reached(Calls(sync, frames)).stats;
      var length := SamplesToDuration(sync.sampleRate, TotalSamples(Run(sync, frames).output));
      && stats.overlapsDetected == 0
      && (stats.gapsTruncated == 0 ==> 0 <= Elapsed(src, frames) - length <= OneSample(sync.sampleRate))
      && (DelaysWithin(src, frames, sync.Cap() - OneSample(sync.sampleRate)) ==> stats.gapsTruncated == 0)
      && (stats.gapsTruncated == 0 ==> DelaysWithin(src, frames, Max(sync.Cap(), 0)))
  {
    RunKept(sync, src, frames);
    OutputIsCounted(sync, frames);
    LengthTrails(sync, Reached(Calls(sync, frames)), frames[0].timestamp,
                 TotalSamples(Run(sync, frames).output), Final(frames).timestamp + src.Interval());
  }

  lemma LengthTrails(sync: Config, s: State, first: int, total: nat, end: int)
    requires Trails(sync, s, end)
    ensures s.anchorTimestamp == first && s.samplesSinceAnchor == total ==>
      0 <= end - first - SamplesToDuration(sync.sampleRate, total) <= OneSample(sync.sampleRate)
  {
  }

  // ----- From the source ----------------------------------------------------------------

  /** Every restart moves the clock forward, or not at all. */
  predicate Forward(events: seq<Pipeline.Event>) {
    forall i :: 0 <= i < |events| && events[i].Restart? ==> events[i].gap >= 0
  }

  /** The frames so far are paced, and so will the next one be. */
  predicate NextPaced(src: CaptureConfig, d: seq<AudioFrame>, nextTimestamp: int, pending: bool) {
    && Paced(src, d)
    && (d != [] ==>
          && nextTimestamp >= Final(d).timestamp + src.Interval()
          && (nextTimestamp > Final(d).timestamp + src.Interval() ==> pending))
  }

  predicate LinePaced(src: CaptureConfig, l: Pipeline.Line) {
    NextPaced(src, l.Delivered(), l.source.nextTimestamp, l.source.pendingDiscontinuity)
  }

  lemma DeliveryIsPaced(src: CaptureConfig, d: seq<AudioFrame>, f: AudioFrame, pending: bool)
    requires NextPaced(src, d, f.timestamp, pending) && f.discontinuity == pending
    requires f.SampleCount() == src.FrameSamples()
    ensures NextPaced(src, d + [f], f.timestamp + src.Interval(), false)
  {
    assert Earlier(d + [f]) == d && Final(d + [f]) == f;
  }

  lemma DeliveryKeepsPace(src: CaptureConfig, signal: nat -> seq<Byte>, l: Pipeline.Line)
    requires Pipeline.WellSampled(src, signal) && src.channels > 0 && LinePaced(src, l) && !l.source.stopped
    ensures LinePaced(src, Pipeline.Next(src, signal, l, Pipeline.Emit(true)))
  {
    var f := NextFrame(src, signal, l.source);
    assert Pipeline.Next(src, signal, l, Pipeline.Emit(true)).Delivered() == l.Delivered() + [f];
    Pipeline.FrameIsWhole(src, signal, l.source);
    DeliveryIsPaced(src, l.Delivered(), f, l.source.pendingDiscontinuity);
  }

  /** Time passes with nothing delivered, and then the mark is set. */
  lemma TimePasses(src: CaptureConfig, d: seq<AudioFrame>, timestamp: int, later: int, pending: bool, marked: bool)
    requires NextPaced(src, d, timestamp, pending) && later >= timestamp
    requires marked || (marked == pending && later == timestamp)
    ensures NextPaced(src, d, later, marked)
  {
  }

  lemma SkipTakesTime(src: CaptureConfig, count: nat)
    ensures count * src.Interval() >= 0
  {
  }

  lemma OthersKeepPace(src: CaptureConfig, signal: nat -> seq<Byte>, l: Pipeline.Line, event: Pipeline.Event)
    requires LinePaced(src, l) && (event.Restart? ==> event.gap >= 0)
    requires event == Pipeline.Emit(true) ==> l.source.stopped
    ensures LinePaced(src, Pipeline.Next(src, signal, l, event))
  {
    var l' := Pipeline.Next(src, signal, l, event);
    if event.Skip? {
      SkipTakesTime(src, event.count);
    }
    assert l'.Delivered() == l.Delivered();
    TimePasses(src, l.Delivered(), l.source.nextTimestamp, l'.source.nextTimestamp,
               l.source.pendingDiscontinuity, l'.source.pendingDiscontinuity);
  }

  lemma NextKeepsPace(src: CaptureConfig, signal: nat -> seq<Byte>, l: Pipeline.Line, event: Pipeline.Event)
    requires Pipeline.WellSampled(src, signal) && src.channels > 0 && LinePaced(src, l)
    requires event.Restart? ==> event.gap >= 0
    ensures LinePaced(src, Pipeline.Next(src, signal, l, event))
  {
    if event == Pipeline.Emit(true) && !l.source.stopped {
      DeliveryKeepsPace(src, signal, l);
    } else {
      OthersKeepPace(src, signal, l, event);
    }
  }

  lemma {:induction false} SourceIsPaced(src: CaptureConfig, signal: nat -> seq<Byte>, events: seq<Pipeline.Event>)
    requires Pipeline.WellSampled(src, signal) && src.channels > 0 && Forward(events)
    ensures LinePaced(src, Pipeline.After(src, signal, events))
  {
    if events == [] {
    } else {
      var init := events[..|events| - 1];
      SourceIsPaced(src, signal, init);
      NextKeepsPace(src, signal, Pipeline.After(src, signal, init), events[|events| - 1]);
    }
  }

  lemma {:induction false} PacedPrefix(src: CaptureConfig, a: seq<AudioFrame>, b: seq<AudioFrame>)
    requires Paced(src, a + b)
    ensures Paced(src, a)
  {
    if b == [] {
      assert a + b == a;
    } else {
      assert Earlier(a + b) == a + Earlier(b);
      PacedPrefix(src, a, Earlier(b));
    }
  }

  /** For every schedule of emission, loss, refusal, consumption and restarts that move the clock
      forward: what was popped comes out as long as the time it took, to within one sample's
      length, unless a gap was truncated. None is if every delay stays a sample's length below the
      cap, and one is if some delay exceeds the cap. */
  lemma RestartedTimeline(
      sync: Config, src: CaptureConfig, signal: nat -> seq<Byte>, events: seq<Pipeline.Event>)
    requires Pipeline.WellSampled(src, signal) && Timeline.Matched(sync, src) && Forward(events)
    requires Pipeline.After(src, signal, events).popped != []
    ensures var frames := Pipeline.After(src, signal, events).popped;
      var stats := Reached(Calls(sync, frames)).stats;
      var length := SamplesToDuration(sync.sampleRate, TotalSamples(Run(sync, frames).output));
      && stats.overlapsDetected == 0
      && (stats.gapsTruncated == 0 ==> 0 <= Elapsed(src, frames) - length <= OneSample(sync.sampleRate))
      && (DelaysWithin(src, frames, sync.Cap() - OneSample(sync.sampleRate)) ==> stats.gapsTruncated == 0)
      && (stats.gapsTruncated == 0 ==> DelaysWithin(src, frames, Max(sync.Cap(), 0)))
  {
    var l := Pipeline.After(src, signal, events);
    SourceIsPaced(src, signal, events);
    PacedPrefix(src, l.popped, l.queue);
    OutputFollowsElapsedTime(sync, src, l.popped);
  }
}
