/** The deterministic capture stream: frames appear only when asked for, and loss, refusal
    and restart can be injected. The waveform is an arbitrary function of the call count. */
module FakeBackend {
  import opened Arithmetic
  import opened Audio
  import opened RingProtocol
  import opened RingBuffer

  datatype CaptureConfig = CaptureConfig(track: TrackKind, sampleRate: Rate, channels: nat, frameMs: nat)
  {
    function Interval(): nat { frameMs * NANOS_PER_MILLISECOND }
    function FrameSamples(): nat { SamplesPerChannel(sampleRate, frameMs) }
  }

  /** A frame is as long as configured, in nanoseconds and in whole samples of a channel. */
  lemma FrameIsAsLong(cfg: CaptureConfig)
    ensures cfg.Interval() == cfg.frameMs * 1_000_000
    ensures cfg.FrameSamples() * 1000 <= cfg.sampleRate * cfg.frameMs < cfg.FrameSamples() * 1000 + 1000
  {
    QuotientBounds(cfg.sampleRate * cfg.frameMs, 1000);
  }

  datatype Source = Source(
    nextSequence: nat,
    nextTimestamp: int,
    pendingDiscontinuity: bool,
    stopped: bool,
    framesEmitted: nat,
    framesDropped: nat,
    generated: nat)

  const FRESH := Source(0, 0, false, false, 0, 0, 0)

  function NextFrame(cfg: CaptureConfig, signal: nat -> seq<Byte>, s: Source): AudioFrame {
    AudioFrame(cfg.track, s.nextSequence, s.nextTimestamp, cfg.sampleRate, cfg.channels, PcmS16Le,
               s.pendingDiscontinuity, signal(s.generated))
  }

  /** One frame offered to the sink, which took it or refused it. */
  function Offered(cfg: CaptureConfig, s: Source, taken: bool): Source {
    s.(nextSequence := s.nextSequence + 1,
       nextTimestamp := s.nextTimestamp + cfg.Interval(),
       pendingDiscontinuity := !taken,
       framesEmitted := s.framesEmitted + (if taken then 1 else 0),
       framesDropped := s.framesDropped + (if taken then 0 else 1),
       generated := s.generated + 1)
  }

  function Skipped(cfg: CaptureConfig, s: Source, count: nat): Source {
    if s.stopped || count == 0 then s else
      s.(nextSequence := s.nextSequence + count,
         nextTimestamp := s.nextTimestamp + count * cfg.Interval(),
         framesDropped := s.framesDropped + count,
         pendingDiscontinuity := true)
  }

  function Restarted(s: Source, gap: int): Source {
    if s.stopped then s else s.(nextTimestamp := s.nextTimestamp + gap, pendingDiscontinuity := true)
  }

  /** `count` frames offered in a row to a queue with room for `capacity`. */
  function EmittedInto(cfg: CaptureConfig, signal: nat -> seq<Byte>, s: Source, queue: seq<AudioFrame>,
                       capacity: nat, count: nat): (Source, seq<AudioFrame>)
  {
    if s.stopped || count == 0 then (s, queue) else
      var (s', q') := EmittedInto(cfg, signal, s, queue, capacity, count - 1);
      (Offered(cfg, s', |q'| < capacity), q' + if |q'| < capacity then [NextFrame(cfg, signal, s')] else [])
  }

  class FakeCaptureStream {
    const config: CaptureConfig
    const signal: nat -> seq<Byte>
    const sink: SpscRingBuffer<AudioFrame>
    var nextSequence: nat
    var nextTimestamp: int
    var pendingDiscontinuity: bool
    var stopped: bool
    var framesEmitted: nat
    var framesDropped: nat
    var reportedSequence: nat
    var generated: nat

    ghost function View(): Source
      reads this
    {
      Source(nextSequence, nextTimestamp, pendingDiscontinuity, stopped, framesEmitted, framesDropped, generated)
    }

    constructor (config: CaptureConfig, signal: nat -> seq<Byte>, sink: SpscRingBuffer<AudioFrame>)
      ensures this.config == config && this.signal == signal && this.sink == sink
      ensures View() == FRESH && reportedSequence == nextSequence
    {
      this.config, this.signal, this.sink := config, signal, sink;
      nextSequence, nextTimestamp, framesEmitted, framesDropped, reportedSequence, generated := 0, 0, 0, 0, 0, 0;
      pendingDiscontinuity, stopped := false, false;
    }

    /** One turn of the emission loop: generate, offer, account. */
    method EmitOne()
      requires sink.Valid()
      modifies this, sink, sink.slots
      ensures sink.Valid() && reportedSequence == old(reportedSequence)
      ensures var taken := |old(sink.Contents())| < sink.Capacity();
        && View() == Offered(config, old(View()), taken)
        && sink.Contents() == old(sink.Contents())
           + if taken then [NextFrame(config, signal, old(View()))] else []
    {
      var frame := AudioFrame(config.track, nextSequence, nextTimestamp, config.sampleRate, config.channels,
                              PcmS16Le, pendingDiscontinuity, signal(generated));
      generated := generated + 1;
      var ok := sink.TryPush(frame);
      if ok {
        framesEmitted := framesEmitted + 1;
        pendingDiscontinuity := false;
      } else {
        framesDropped := framesDropped + 1;
        pendingDiscontinuity := true;
      }
      nextSequence := nextSequence + 1;
      nextTimestamp := nextTimestamp + config.Interval();
    }

    /** So many turns of that loop, unless the stream has stopped. */
    method EmitFrames(count: nat)
      requires sink.Valid() && reportedSequence == nextSequence
      modifies this, sink, sink.slots
      ensures sink.Valid() && reportedSequence == nextSequence
      ensures (View(), sink.Contents())
           == EmittedInto(config, signal, old(View()), old(sink.Contents()), sink.Capacity(), count)
    {
      if stopped {
        return;
      }
      for i := 0 to count
        invariant sink.Valid() && !stopped
        invariant (View(), sink.Contents())
               == EmittedInto(config, signal, old(View()), old(sink.Contents()), sink.Capacity(), i)
      {
        EmitOne();
      }
      reportedSequence := nextSequence;
    }

    method SkipFrames(count: nat)
      requires reportedSequence == nextSequence
      modifies this
      ensures View() == Skipped(config, old(View()), count) && reportedSequence == nextSequence
    {
      if stopped || count == 0 {
        return;
      }
      for i := 0 to count
        invariant View() == old(View()).(nextSequence := old(nextSequence) + i,
                                         nextTimestamp := old(nextTimestamp) + i * config.Interval())
      {
        nextSequence := nextSequence + 1;
        nextTimestamp := nextTimestamp + config.Interval();
      }
      framesDropped := framesDropped + count;
      reportedSequence := nextSequence;
      pendingDiscontinuity := true;
    }

    method Restart(gap: int)
      modifies this
      ensures View() == Restarted(old(View()), gap) && reportedSequence == old(reportedSequence)
    {
      if stopped {
        return;
      }
      nextTimestamp := nextTimestamp + gap;
      pendingDiscontinuity := true;
    }

    method Stop()
      modifies this
      ensures View() == old(View()).(stopped := true) && reportedSequence == old(reportedSequence)
    {
      stopped := true;
    }
  }
}
