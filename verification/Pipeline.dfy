/** Source, ring and synchronizer composed: what a schedule of emission, loss, refusal,
    restart and consumption does to the audio. The ring is the bounded queue that the
    protocol refines; a refusal may happen at any time, because the producer's view of the
    ring may be old. */
module Pipeline {
  import opened Audio
  import opened Arithmetic
  import opened FakeBackend
  import Sequences

  datatype Event =
    | Emit(taken: bool)
    | Skip(count: nat)
    | Restart(gap: int)
    | Stop
    | Pop

  datatype Line = Line(source: Source, queue: seq<AudioFrame>, popped: seq<AudioFrame>)
  {
    /** Every frame the ring ever accepted, oldest first. */
    function Delivered(): seq<AudioFrame> { popped + queue }
  }

  predicate Possible(capacity: nat, l: Line, event: Event) {
    event.Emit? && event.taken && !l.source.stopped ==> |l.queue| < capacity
  }

  function Next(cfg: CaptureConfig, signal: nat -> seq<Byte>, l: Line, event: Event): Line {
    match event
    case Emit(taken) =>
      if l.source.stopped then l else
        l.(source := Offered(cfg, l.source, taken),
           queue := l.queue + if taken then [NextFrame(cfg, signal, l.source)] else [])
    case Skip(count) => l.(source := Skipped(cfg, l.source, count))
    case Restart(gap) => l.(source := Restarted(l.source, gap))
    case Stop => l.(source := l.source.(stopped := true))
    case Pop => if l.queue == [] then l else l.(queue := l.queue[1..], popped := l.popped + [l.queue[0]])
  }

  const EMPTY := Line(FRESH, [], [])

  function After(cfg: CaptureConfig, signal: nat -> seq<Byte>, events: seq<Event>): Line {
    if events == [] then EMPTY
    else Next(cfg, signal, After(cfg, signal, events[..|events| - 1]), events[|events| - 1])
  }

  predicate Feasible(cfg: CaptureConfig, signal: nat -> seq<Byte>, capacity: nat, events: seq<Event>) {
    events != [] ==>
      && Feasible(cfg, signal, capacity, events[..|events| - 1])
      && Possible(capacity, After(cfg, signal, events[..|events| - 1]), events[|events| - 1])
  }

  /** emitFrames(count) as events: each offer is taken when the ring has room. */
  function EmitAll(cfg: CaptureConfig, signal: nat -> seq<Byte>, capacity: nat, events: seq<Event>, count: nat):
    seq<Event>
  {
    if count == 0 then events else
      var earlier := EmitAll(cfg, signal, capacity, events, count - 1);
      earlier + [Emit(|After(cfg, signal, earlier).queue| < capacity)]
  }

  lemma AfterOneMore(cfg: CaptureConfig, signal: nat -> seq<Byte>, capacity: nat, events: seq<Event>, event: Event)
    requires Feasible(cfg, signal, capacity, events) && Possible(capacity, After(cfg, signal, events), event)
    ensures Feasible(cfg, signal, capacity, events + [event])
    ensures After(cfg, signal, events + [event]) == Next(cfg, signal, After(cfg, signal, events), event)
  {
    assert (events + [event])[..|events|] == events;
  }

  /** One line after another, `count` frames having been offered in between. */
  predicate Emitted(cfg: CaptureConfig, signal: nat -> seq<Byte>, capacity: nat, l: Line, count: nat, l': Line) {
    && (l'.source, l'.queue) == EmittedInto(cfg, signal, l.source, l.queue, capacity, count)
    && l'.popped == l.popped && l'.source.stopped == l.source.stopped
  }

  lemma EmissionStep(cfg: CaptureConfig, signal: nat -> seq<Byte>, capacity: nat, l: Line, count: nat, l': Line)
    requires count > 0 && Emitted(cfg, signal, capacity, l, count - 1, l')
    ensures Emitted(cfg, signal, capacity, l, count, Next(cfg, signal, l', Emit(|l'.queue| < capacity)))
  {
  }

  /** What the stream object does in one call is one of the schedules considered here. */
  lemma {:induction false} EmitFramesIsASchedule(
      cfg: CaptureConfig, signal: nat -> seq<Byte>, capacity: nat, events: seq<Event>, count: nat)
    requires Feasible(cfg, signal, capacity, events)
    ensures var longer := EmitAll(cfg, signal, capacity, events, count);
      && Feasible(cfg, signal, capacity, longer)
      && Emitted(cfg, signal, capacity, After(cfg, signal, events), count, After(cfg, signal, longer))
  {
    if count == 0 {
    } else {
      var earlier := EmitAll(cfg, signal, capacity, events, count - 1);
      var before := After(cfg, signal, earlier);
      EmitFramesIsASchedule(cfg, signal, capacity, events, count - 1);
      AfterOneMore(cfg, signal, capacity, earlier, Emit(|before.queue| < capacity));
      EmissionStep(cfg, signal, capacity, After(cfg, signal, events), count, before);
    }
  }

  // ----- Loss is never silent -----------------------------------------------------------

  /** Sequence numbers grow, and a jump is marked on the frame after it. */
  predicate Follows(a: AudioFrame, b: AudioFrame) {
    a.sequence < b.sequence && (b.sequence != a.sequence + 1 ==> b.discontinuity)
  }

  predicate Linked(frames: seq<AudioFrame>) {
    forall i :: 1 <= i < |frames| ==> Follows(frames[i - 1], frames[i])
  }

  predicate FirstMarked(frames: seq<AudioFrame>) {
    frames != [] && frames[0].sequence != 0 ==> frames[0].discontinuity
  }

  /** Jumps among these frames are marked, and one after them will be. */
  predicate Marked(d: seq<AudioFrame>, nextSequence: nat, pending: bool) {
    && Linked(d)
    && FirstMarked(d)
    && (d == [] ==> (nextSequence != 0 ==> pending))
    && (d != [] ==> Final(d).sequence < nextSequence && (nextSequence != Final(d).sequence + 1 ==> pending))
  }

  predicate LossMarked(l: Line) {
    Marked(l.Delivered(), l.source.nextSequence, l.source.pendingDiscontinuity)
  }

  lemma DeliveryIsMarked(d: seq<AudioFrame>, f: AudioFrame, pending: bool)
    requires Marked(d, f.sequence, pending) && f.discontinuity == pending
    ensures Marked(d + [f], f.sequence + 1, false)
  {
  }

  predicate Counted(capacity: nat, l: Line) {
    && |l.queue| <= capacity
    && l.source.framesEmitted == |l.popped| + |l.queue|
    && l.source.framesEmitted + l.source.framesDropped == l.source.nextSequence
  }

  lemma DeliveryKeepsMarks(cfg: CaptureConfig, signal: nat -> seq<Byte>, capacity: nat, l: Line)
    requires LossMarked(l) && Counted(capacity, l) && |l.queue| < capacity && !l.source.stopped
    ensures var l' := Next(cfg, signal, l, Emit(true));
      LossMarked(l') && Counted(capacity, l')
  {
    var f := NextFrame(cfg, signal, l.source);
    assert Next(cfg, signal, l, Emit(true)).Delivered() == l.Delivered() + [f];
    DeliveryIsMarked(l.Delivered(), f, l.source.pendingDiscontinuity);
  }

  lemma PopKeepsMarks(cfg: CaptureConfig, signal: nat -> seq<Byte>, capacity: nat, l: Line)
    requires LossMarked(l) && Counted(capacity, l)
    ensures var l' := Next(cfg, signal, l, Pop);
      LossMarked(l') && Counted(capacity, l')
  {
    assert Next(cfg, signal, l, Pop).Delivered() == l.Delivered();
  }

  /** Nothing delivered: the numbers may move on, and then the mark is set. */
  lemma NothingDelivered(d: seq<AudioFrame>, nextSequence: nat, later: nat, pending: bool, marked: bool)
    requires Marked(d, nextSequence, pending) && later >= nextSequence
    requires marked || (pending == marked && later == nextSequence)
    ensures Marked(d, later, marked)
  {
  }

  lemma OthersKeepMarks(cfg: CaptureConfig, signal: nat -> seq<Byte>, capacity: nat, l: Line, event: Event)
    requires LossMarked(l) && Counted(capacity, l)
    requires event != Pop && (event == Emit(true) ==> l.source.stopped)
    ensures LossMarked(Next(cfg, signal, l, event)) && Counted(capacity, Next(cfg, signal, l, event))
  {
    var s, s' := l.source, Next(cfg, signal, l, event).source;
    Sequences.ConcatEmpty(l.queue);
    NothingDelivered(l.Delivered(), s.nextSequence, s'.nextSequence, s.pendingDiscontinuity, s'.pendingDiscontinuity);
  }

  lemma NextKeepsMarks(cfg: CaptureConfig, signal: nat -> seq<Byte>, capacity: nat, l: Line, event: Event)
    requires LossMarked(l) && Counted(capacity, l) && Possible(capacity, l, event)
    ensures LossMarked(Next(cfg, signal, l, event)) && Counted(capacity, Next(cfg, signal, l, event))
  {
    if event == Emit(true) && !l.source.stopped {
      DeliveryKeepsMarks(cfg, signal, capacity, l);
    } else if event == Pop {
      PopKeepsMarks(cfg, signal, capacity, l);
    } else {
      OthersKeepMarks(cfg, signal, capacity, l, event);
    }
  }

  /** For every schedule, restarts included: a jump in the popped sequence numbers is flagged,
      a first frame that is not the first emitted is flagged, and no frame is unaccounted. */
  lemma {:induction false} LossIsNeverSilent(
      cfg: CaptureConfig, signal: nat -> seq<Byte>, capacity: nat, events: seq<Event>)
    requires Feasible(cfg, signal, capacity, events)
    ensures var l := After(cfg, signal, events);
      LossMarked(l) && Counted(capacity, l)
  {
    if events == [] {
    } else {
      var init := events[..|events| - 1];
      LossIsNeverSilent(cfg, signal, capacity, init);
      NextKeepsMarks(cfg, signal, capacity, After(cfg, signal, init), events[|events| - 1]);
    }
  }

  // ----- What the flag on a frame means -------------------------------------------------

  predicate Delivers(l: Line, event: Event) { !l.source.stopped && event == Emit(true) }

  /** A refusal, a device loss or a restart of a running stream. */
  predicate Disturbs(l: Line, event: Event) {
    && !l.source.stopped
    && (event == Emit(false) || (event.Skip? && event.count > 0) || event.Restart?)
  }

  /** Event k disturbed the stream and nothing has been delivered since. */
  predicate DisturbedAt(cfg: CaptureConfig, signal: nat -> seq<Byte>, events: seq<Event>, k: nat)
    requires k < |events|
  {
    && Disturbs(After(cfg, signal, events[..k]), events[k])
    && forall j :: k < j < |events| ==> !Delivers(After(cfg, signal, events[..j]), events[j])
  }

  ghost predicate Disturbed(cfg: CaptureConfig, signal: nat -> seq<Byte>, events: seq<Event>) {
    exists k :: 0 <= k < |events| && DisturbedAt(cfg, signal, events, k)
  }

  lemma EarlierDisturbance(cfg: CaptureConfig, signal: nat -> seq<Byte>, events: seq<Event>, k: nat)
    requires k + 1 < |events|
    ensures var init := events[..|events| - 1];
      DisturbedAt(cfg, signal, events, k)
      <==> DisturbedAt(cfg, signal, init, k) && !Delivers(After(cfg, signal, init), events[|events| - 1])
  {
    var init := events[..|events| - 1];
    assert forall j :: 0 <= j <= |init| ==> init[..j] == events[..j];
  }

  lemma LastDisturbance(cfg: CaptureConfig, signal: nat -> seq<Byte>, events: seq<Event>)
    requires events != []
    ensures DisturbedAt(cfg, signal, events, |events| - 1)
       <==> Disturbs(After(cfg, signal, events[..|events| - 1]), events[|events| - 1])
  {
  }

  lemma DisturbanceLasts(cfg: CaptureConfig, signal: nat -> seq<Byte>, events: seq<Event>)
    requires events != []
    ensures var init, event := events[..|events| - 1], events[|events| - 1];
      var l := After(cfg, signal, init);
      Disturbed(cfg, signal, events) <==> Disturbs(l, event) || (Disturbed(cfg, signal, init) && !Delivers(l, event))
  {
    var init := events[..|events| - 1];
    LastDisturbance(cfg, signal, events);
    if k :| 0 <= k < |init| && DisturbedAt(cfg, signal, init, k) {
      EarlierDisturbance(cfg, signal, events, k);
    }
    if k :| 0 <= k < |events| && DisturbedAt(cfg, signal, events, k) {
      if k < |init| {
        EarlierDisturbance(cfg, signal, events, k);
      }
    }
  }

  /** The next frame delivered is flagged exactly when something disturbed the stream since the
      last one, restarts included. */
  lemma {:induction false} FlagsAreExact(cfg: CaptureConfig, signal: nat -> seq<Byte>, events: seq<Event>)
    ensures NextFrame(cfg, signal, After(cfg, signal, events).source).discontinuity <==> Disturbed(cfg, signal, events)
  {
    if events == [] {
    } else {
      FlagsAreExact(cfg, signal, events[..|events| - 1]);
      DisturbanceLasts(cfg, signal, events);
    }
  }

  // ----- The nominal grid ---------------------------------------------------------------

  ghost predicate WellSampled(cfg: CaptureConfig, signal: nat -> seq<Byte>) {
    forall n: nat :: |signal(n)| == cfg.FrameSamples() * cfg.channels * BytesPerSample(PcmS16Le)
  }

  /** Frame q starts at q frame intervals and is as long as the configuration says. */
  predicate OnGrid(cfg: CaptureConfig, f: AudioFrame) {
    && f.timestamp == f.sequence * cfg.Interval()
    && f.SampleCount() == cfg.FrameSamples()
  }

  predicate NoRestart(events: seq<Event>) {
    forall i :: 0 <= i < |events| ==> !events[i].Restart?
  }

  lemma FrameIsWhole(cfg: CaptureConfig, signal: nat -> seq<Byte>, s: Source)
    requires WellSampled(cfg, signal) && cfg.channels > 0
    ensures NextFrame(cfg, signal, s).SampleCount() == cfg.FrameSamples()
  {
    var f := NextFrame(cfg, signal, s);
    var bytes := |signal(s.generated)|;
    assert f.payload == signal(s.generated);
    WholeStridesExact(cfg.FrameSamples(), cfg.channels);
  }

  lemma WholeStridesExact(samples: nat, channels: nat)
    requires channels > 0
    ensures WholeStrides(samples * channels * 2, 2 * channels) == samples
  {
    assert samples * channels * 2 == samples * (2 * channels);
    Exact(samples, 2 * channels);
  }

  lemma Exact(k: nat, b: int)
    requires b > 0
    ensures k * b / b == k
  {
    QuotientUnique(k * b, b, k);
  }

  predicate AllOnGrid(cfg: CaptureConfig, l: Line) {
    && l.source.nextTimestamp == l.source.nextSequence * cfg.Interval()
    && forall i :: 0 <= i < |l.Delivered()| ==> OnGrid(cfg, l.Delivered()[i])
  }

  lemma {:induction false} FramesAreOnGrid(cfg: CaptureConfig, signal: nat -> seq<Byte>, events: seq<Event>)
    requires WellSampled(cfg, signal) && cfg.channels > 0 && NoRestart(events)
    ensures AllOnGrid(cfg, After(cfg, signal, events))
  {
    if events == [] {
    } else {
      var init, event := events[..|events| - 1], events[|events| - 1];
      FramesAreOnGrid(cfg, signal, init);
      NextKeepsGrid(cfg, signal, After(cfg, signal, init), event);
    }
  }

  lemma NextKeepsGrid(cfg: CaptureConfig, signal: nat -> seq<Byte>, l: Line, event: Event)
    requires WellSampled(cfg, signal) && cfg.channels > 0 && !event.Restart? && AllOnGrid(cfg, l)
    ensures AllOnGrid(cfg, Next(cfg, signal, l, event))
  {
    var l' := Next(cfg, signal, l, event);
    if event.Emit? && event.taken && !l.source.stopped {
      var f := NextFrame(cfg, signal, l.source);
      assert l'.Delivered() == l.Delivered() + [f];
      FrameIsWhole(cfg, signal, l.source);
    } else {
      assert l'.Delivered() == l.Delivered();
    }
    var n, d, i := l.source.nextSequence, l'.source.nextSequence - l.source.nextSequence, cfg.Interval();
    assert (n + d) * i == n * i + d * i;
  }

  // ----- What a frame carries -----------------------------------------------------------

  /** The stream has not been stopped. */
  predicate IsRunning(events: seq<Event>) { Stop !in events }

  /** Frames generated: one for each emission while running, whether the ring took it or not. */
  function Generated(events: seq<Event>): nat {
    if events == [] then 0
    else
      var init, event := events[..|events| - 1], events[|events| - 1];
      Generated(init) + if event.Emit? && IsRunning(init) then 1 else 0
  }

  /** Frames the device lost while running. */
  function LostByDevice(events: seq<Event>): nat {
    if events == [] then 0
    else
      var init, event := events[..|events| - 1], events[|events| - 1];
      LostByDevice(init) + if event.Skip? && IsRunning(init) then event.count else 0
  }

  /** By how much restarts have moved the clock. */
  function ClockMoved(events: seq<Event>): int {
    if events == [] then 0
    else
      var init, event := events[..|events| - 1], events[|events| - 1];
      ClockMoved(init) + if event.Restart? && IsRunning(init) then event.gap else 0
  }

  /** The emissions the ring took. */
  function TakenAt(events: seq<Event>): (at: seq<nat>)
    ensures forall i :: 0 <= i < |at| ==> at[i] < |events|
  {
    if events == [] then []
    else
      var init, event := events[..|events| - 1], events[|events| - 1];
      TakenAt(init) + if event == Emit(true) && IsRunning(init) then [|init|] else []
  }

  /** The frame of an emission after these events: what was generated next, numbered by all frames
      generated or lost before, and timed by their number and by what restarts moved the clock. */
  predicate IsCaptured(cfg: CaptureConfig, signal: nat -> seq<Byte>, before: seq<Event>, f: AudioFrame) {
    && f.track == cfg.track && f.sampleRate == cfg.sampleRate && f.channels == cfg.channels && f.format == PcmS16Le
    && f.payload == signal(Generated(before))
    && f.sequence == Generated(before) + LostByDevice(before)
    && f.timestamp == f.sequence * (cfg.frameMs * 1_000_000) + ClockMoved(before)
  }

  predicate SourceCounts(cfg: CaptureConfig, events: seq<Event>, s: Source) {
    && s.generated == Generated(events) && s.nextSequence == Generated(events) + LostByDevice(events)
    && s.nextTimestamp == s.nextSequence * (cfg.frameMs * 1_000_000) + ClockMoved(events)
    && (s.stopped <==> !IsRunning(events))
  }

  lemma TimeAdds(n: nat, d: nat, interval: nat)
    ensures (n + d) * interval == n * interval + d * interval
  {
  }

  lemma RunningOneMore(events: seq<Event>)
    requires events != []
    ensures IsRunning(events) <==> IsRunning(events[..|events| - 1]) && events[|events| - 1] != Stop
  {
    Sequences.SplitLast(events);
  }

  lemma {:induction false} SourceIsCounted(cfg: CaptureConfig, signal: nat -> seq<Byte>, events: seq<Event>)
    ensures SourceCounts(cfg, events, After(cfg, signal, events).source)
  {
    if events == [] {
    } else {
      var init, event := events[..|events| - 1], events[|events| - 1];
      SourceIsCounted(cfg, signal, init);
      RunningOneMore(events);
      NextIsCounted(cfg, signal, events, After(cfg, signal, init), event);
    }
  }

  lemma NextIsCounted(cfg: CaptureConfig, signal: nat -> seq<Byte>, events: seq<Event>, l: Line, event: Event)
    requires events != [] && event == events[|events| - 1]
    requires SourceCounts(cfg, events[..|events| - 1], l.source)
    requires IsRunning(events) <==> IsRunning(events[..|events| - 1]) && event != Stop
    ensures SourceCounts(cfg, events, Next(cfg, signal, l, event).source)
  {
    TimeAdds(l.source.nextSequence, 1, cfg.frameMs * 1_000_000);
    if event.Skip? {
      TimeAdds(l.source.nextSequence, event.count, cfg.frameMs * 1_000_000);
    }
  }

  predicate AllCaptured(cfg: CaptureConfig, signal: nat -> seq<Byte>, events: seq<Event>, at: seq<nat>,
                        frames: seq<AudioFrame>)
    requires forall i :: 0 <= i < |at| ==> at[i] < |events|
  {
    |frames| == |at| && forall i :: 0 <= i < |at| ==> IsCaptured(cfg, signal, events[..at[i]], frames[i])
  }

  lemma EarlierCaptured(cfg: CaptureConfig, signal: nat -> seq<Byte>, events: seq<Event>, at: seq<nat>,
                        frames: seq<AudioFrame>)
    requires events != [] && forall i :: 0 <= i < |at| ==> at[i] < |events| - 1
    requires AllCaptured(cfg, signal, events[..|events| - 1], at, frames)
    ensures AllCaptured(cfg, signal, events, at, frames)
  {
    forall i | 0 <= i < |at| ensures IsCaptured(cfg, signal, events[..at[i]], frames[i]) {
      assert events[..|events| - 1][..at[i]] == events[..at[i]];
    }
  }

  lemma OneMoreCaptured(cfg: CaptureConfig, signal: nat -> seq<Byte>, events: seq<Event>, at: seq<nat>,
                        frames: seq<AudioFrame>, f: AudioFrame)
    requires events != [] && forall i :: 0 <= i < |at| ==> at[i] < |events|
    requires AllCaptured(cfg, signal, events, at, frames) && IsCaptured(cfg, signal, events[..|events| - 1], f)
    ensures AllCaptured(cfg, signal, events, at + [|events| - 1], frames + [f])
  {
  }

  lemma DeliversOrNot(cfg: CaptureConfig, signal: nat -> seq<Byte>, l: Line, event: Event)
    ensures Next(cfg, signal, l, event).Delivered()
         == l.Delivered() + if event == Emit(true) && !l.source.stopped then [NextFrame(cfg, signal, l.source)] else []
  {
  }

  /** Every frame the ring took, in order, is the one its emission calls for: the payload is the
      next that was generated, refused frames having used up theirs, and number and time run on
      over refusals, losses and restarts. */
  lemma {:induction false} DeliveredFramesAreCaptured(
      cfg: CaptureConfig, signal: nat -> seq<Byte>, events: seq<Event>)
    ensures AllCaptured(cfg, signal, events, TakenAt(events), After(cfg, signal, events).Delivered())
  {
    if events == [] {
    } else {
      var init, event := events[..|events| - 1], events[|events| - 1];
      var l := After(cfg, signal, init);
      DeliveredFramesAreCaptured(cfg, signal, init);
      SourceIsCounted(cfg, signal, init);
      EarlierCaptured(cfg, signal, events, TakenAt(init), l.Delivered());
      DeliversOrNot(cfg, signal, l, event);
      if event == Emit(true) && IsRunning(init) {
        OneMoreCaptured(cfg, signal, events, TakenAt(init), l.Delivered(), NextFrame(cfg, signal, l.source));
      } else {
        Sequences.ConcatEmpty(l.Delivered());
        Sequences.ConcatEmpty(TakenAt(init));
      }
    }
  }
}
