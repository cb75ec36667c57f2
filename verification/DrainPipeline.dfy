/** One drain of a track's pipeline by the thread that holds the mutex, with the ring, the
    synchronizer, the uploader and the writer it works on. */
module DrainPipeline {
  import opened Audio
  import opened RingBuffer
  import opened Sequences
  import Sync = ClockSync
  import Stt = SttProducer
  import Client = SttClient
  import Rec = RecordingWriter

  // ----- The drain as a function of the frames in the ring ------------------------------

  datatype Passed = Passed(sync: Sync.State, output: seq<AudioFrame>)

  /** Frames through the synchronizer, one after the other. */
  function Pass(cfg: Sync.Config, s: Sync.State, frames: seq<AudioFrame>): Passed {
    if frames == [] then Passed(s, []) else OneMore(cfg, Pass(cfg, s, frames[..|frames| - 1]), frames[|frames| - 1])
  }

  function OneMore(cfg: Sync.Config, p: Passed, f: AudioFrame): Passed {
    var (s, output) := Sync.Step(cfg, p.sync, f);
    Passed(s, p.output + output)
  }

  /** The producer and the client behind it. */
  datatype Feed = Feed(producer: Stt.State, client: Client.Client<AudioFrame>)

  function Sent(c: Client.Client<AudioFrame>, frames: seq<AudioFrame>): Client.Client<AudioFrame> {
    if frames == [] then c else Client.Apply(Sent(c, frames[..|frames| - 1]), Client.Send(frames[|frames| - 1]))
  }

  function FedOne(plan: Stt.Plan, feed: Feed, output: AudioFrame): Feed {
    var (s, frames) := Stt.Step(plan, feed.producer, output);
    Feed(s, Sent(feed.client, frames))
  }

  function Fed(plan: Stt.Plan, feed: Feed, outputs: seq<AudioFrame>): Feed {
    if outputs == [] then feed else FedOne(plan, Fed(plan, feed, outputs[..|outputs| - 1]), outputs[|outputs| - 1])
  }

  /** The writer, whether a write has failed, and how many writes were made: the n-th meets
      the n-th trouble. */
  datatype Tape = Tape(writer: Rec.State, failed: bool, writes: nat)

  predicate Usable(formats: seq<TrackFormat>, tape: Tape) {
    |tape.writer.samplesWritten| == |formats| && |tape.writer.tracks| <= |formats|
  }

  function TapedOne(formats: seq<TrackFormat>, tape: Tape, track: nat, output: AudioFrame,
                    troubles: nat -> Rec.Trouble): (r: Tape)
    requires Usable(formats, tape)
    ensures Usable(formats, r)
  {
    if tape.failed then tape
    else
      var (w, ok) := Rec.Written(formats, tape.writer, track, output, troubles(tape.writes));
      Tape(w, !ok, tape.writes + 1)
  }

  /** Outputs to the writer up to the first failure. */
  function Taped(formats: seq<TrackFormat>, tape: Tape, track: nat, outputs: seq<AudioFrame>,
                 troubles: nat -> Rec.Trouble): (r: Tape)
    requires Usable(formats, tape)
    ensures Usable(formats, r)
  {
    if outputs == [] then tape
    else TapedOne(formats, Taped(formats, tape, track, outputs[..|outputs| - 1], troubles), track,
                  outputs[|outputs| - 1], troubles)
  }

  // ----- Draining in pieces is draining at once -----------------------------------------

  lemma PassOneMore(cfg: Sync.Config, s: Sync.State, frames: seq<AudioFrame>, f: AudioFrame)
    ensures Pass(cfg, s, frames + [f]) == OneMore(cfg, Pass(cfg, s, frames), f)
  {
    assert (frames + [f])[..|frames|] == frames;
  }

  lemma {:induction false} PassAppend(cfg: Sync.Config, s: Sync.State, a: seq<AudioFrame>, b: seq<AudioFrame>)
    ensures var p := Pass(cfg, s, a);
      var q := Pass(cfg, p.sync, b);
      Pass(cfg, s, a + b) == Passed(q.sync, p.output + q.output)
  {
    var p := Pass(cfg, s, a);
    if b == [] {
      assert a + b == a;
      assert p.output + [] == p.output;
    } else {
      var init, last := b[..|b| - 1], b[|b| - 1];
      PassAppend(cfg, s, a, init);
      OutputsGrow(cfg, p.output, Pass(cfg, p.sync, init), last);
      assert (a + b)[..|a + b| - 1] == a + init;
    }
  }

  lemma OutputsGrow(cfg: Sync.Config, before: seq<AudioFrame>, p: Passed, f: AudioFrame)
    ensures OneMore(cfg, Passed(p.sync, before + p.output), f)
         == Passed(OneMore(cfg, p, f).sync, before + OneMore(cfg, p, f).output)
  {
  }

  lemma {:induction false} FedAppend(plan: Stt.Plan, feed: Feed, a: seq<AudioFrame>, b: seq<AudioFrame>)
    ensures Fed(plan, feed, a + b) == Fed(plan, Fed(plan, feed, a), b)
  {
    if b == [] {
      assert a + b == a;
    } else {
      FedAppend(plan, feed, a, b[..|b| - 1]);
      assert (a + b)[..|a + b| - 1] == a + b[..|b| - 1];
    }
  }

  /** Tapes that agree still do after the same output. */
  lemma TapedAgree(formats: seq<TrackFormat>, tape: Tape, a: seq<AudioFrame>, tape': Tape, b: seq<AudioFrame>,
                   track: nat, f: AudioFrame, troubles: nat -> Rec.Trouble)
    requires Usable(formats, tape) && Usable(formats, tape')
    requires Taped(formats, tape, track, a, troubles) == Taped(formats, tape', track, b, troubles)
    ensures Taped(formats, tape, track, a + [f], troubles) == Taped(formats, tape', track, b + [f], troubles)
  {
    assert (a + [f])[..|a|] == a && (b + [f])[..|b|] == b;
  }

  lemma {:induction false} TapedAppend(formats: seq<TrackFormat>, tape: Tape, track: nat, a: seq<AudioFrame>,
                                       b: seq<AudioFrame>, troubles: nat -> Rec.Trouble)
    requires Usable(formats, tape)
    ensures Taped(formats, tape, track, a + b, troubles)
         == Taped(formats, Taped(formats, tape, track, a, troubles), track, b, troubles)
  {
    if b == [] {
      ConcatEmpty(a);
    } else {
      var init, f, between := b[..|b| - 1], b[|b| - 1], Taped(formats, tape, track, a, troubles);
      TapedAppend(formats, tape, track, a, init, troubles);
      TapedAgree(formats, tape, a + init, between, init, track, f, troubles);
      SplitLast(b);
      Associate(a, init, [f]);
    }
  }

  // ----- One drain ----------------------------------------------------------------------

  /** Everything a drain moves forward. */
  datatype Progress = Progress(sync: Sync.State, feed: Feed, tape: Tape, captured: nat)

  /** What stays: the configurations, whether the pipeline feeds the uploader and to which of
      the writer's tracks it belongs, and FFmpeg's troubles. */
  datatype Setup = Setup(cfg: Sync.Config, plan: Stt.Plan, formats: seq<TrackFormat>, feeds: bool,
                         track: Option<nat>, troubles: nat -> Rec.Trouble)

  function FeedAfter(setup: Setup, feed: Feed, outputs: seq<AudioFrame>): Feed {
    if setup.feeds then Fed(setup.plan, feed, outputs) else feed
  }

  function TapeAfter(setup: Setup, tape: Tape, outputs: seq<AudioFrame>): (r: Tape)
    requires Usable(setup.formats, tape)
    ensures Usable(setup.formats, r)
  {
    if setup.track.None? then tape else Taped(setup.formats, tape, setup.track.value, outputs, setup.troubles)
  }

  /** One frame aligned, and all that comes out counted, uploaded and, until a write fails,
      written. */
  function Turn(setup: Setup, p: Progress, f: AudioFrame): (r: Progress)
    requires Usable(setup.formats, p.tape)
    ensures Usable(setup.formats, r.tape)
  {
    var (sync, output) := Sync.Step(setup.cfg, p.sync, f);
    Progress(sync, FeedAfter(setup, p.feed, output), TapeAfter(setup, p.tape, output), p.captured + |output|)
  }

  function After(setup: Setup, p: Progress, frames: seq<AudioFrame>): (r: Progress)
    requires Usable(setup.formats, p.tape)
    ensures Usable(setup.formats, r.tape)
    decreases |frames|, 1
  {
    if frames == [] then p else LastTurn(setup, p, frames)
  }

  function LastTurn(setup: Setup, p: Progress, frames: seq<AudioFrame>): (r: Progress)
    requires Usable(setup.formats, p.tape) && frames != []
    ensures Usable(setup.formats, r.tape)
    decreases |frames|, 0
  {
    Turn(setup, After(setup, p, frames[..|frames| - 1]), frames[|frames| - 1])
  }

  lemma AfterOneMore(setup: Setup, p: Progress, frames: seq<AudioFrame>, f: AudioFrame)
    requires Usable(setup.formats, p.tape)
    ensures After(setup, p, frames + [f]) == Turn(setup, After(setup, p, frames), f)
  {
    assert (frames + [f])[..|frames|] == frames;
  }

  lemma AfterAppendOne(setup: Setup, p: Progress, frames: seq<AudioFrame>, f: AudioFrame)
    requires Usable(setup.formats, p.tape)
    ensures After(setup, p, frames + [f]) == After(setup, After(setup, p, frames), [f])
  {
    AfterOneMore(setup, p, frames, f);
    AfterOneMore(setup, After(setup, p, frames), [], f);
    assert [] + [f] == [f];
  }

  /** The whole drain: the frames through the synchronizer, and the outputs, joined, to the
      uploader if the pipeline feeds it and to the writer if the writer has a track for it. */
  lemma {:induction false} DrainIsPassAndDeliver(setup: Setup, p: Progress, frames: seq<AudioFrame>)
    requires Usable(setup.formats, p.tape)
    ensures var passed := Pass(setup.cfg, p.sync, frames);
      After(setup, p, frames)
      == Progress(passed.sync,
                  if setup.feeds then Fed(setup.plan, p.feed, passed.output) else p.feed,
                  if setup.track.None? then p.tape
                  else Taped(setup.formats, p.tape, setup.track.value, passed.output, setup.troubles),
                  p.captured + |passed.output|)
  {
    if frames == [] {
    } else {
      var init, f := frames[..|frames| - 1], frames[|frames| - 1];
      DrainIsPassAndDeliver(setup, p, init);
      assert frames == init + [f];
      AfterOneMore(setup, p, init, f);
      var passed := Pass(setup.cfg, p.sync, init);
      DeliverAppend(setup, p, passed.output, Sync.Step(setup.cfg, passed.sync, f).1);
    }
  }

  lemma DeliverAppend(setup: Setup, p: Progress, a: seq<AudioFrame>, b: seq<AudioFrame>)
    requires Usable(setup.formats, p.tape)
    ensures FeedAfter(setup, p.feed, a + b) == FeedAfter(setup, FeedAfter(setup, p.feed, a), b)
    ensures TapeAfter(setup, p.tape, a + b) == TapeAfter(setup, TapeAfter(setup, p.tape, a), b)
  {
    FedAppend(setup.plan, p.feed, a, b);
    if setup.track.Some? {
      TapedAppend(setup.formats, p.tape, setup.track.value, a, b, setup.troubles);
    }
  }

  // ----- The objects --------------------------------------------------------------------

  /** What one pipeline hands its audio to. The producer and the client are there or not
      together; writerTrack is none when the writer has no track for the pipeline. */
  class Drain {
    const buffer: SpscRingBuffer<AudioFrame>
    const synchronizer: Sync.TrackSynchronizer
    const producer: Stt.SttStreamProducer
    const client: Client.SttStreamClient<AudioFrame>
    const writer: Rec.Writer
    const feedsSttStream: bool
    const writerTrack: Option<nat>
    var framesCaptured: nat
    var writerFailed: bool
    var writes: nat

    ghost predicate Valid()
      reads this, buffer, buffer.slots, producer, producer.decimator, producer.decimator.history, writer
    {
      buffer.Valid() && producer.Valid() && writer.Valid()
    }

    ghost function FeedView(): Feed
      reads producer, producer.decimator, client
    {
      Feed(producer.View(), client.View())
    }

    ghost function TapeView(): Tape
      reads this, writer
    {
      Tape(writer.View(), writerFailed, writes)
    }

    constructor (buffer: SpscRingBuffer<AudioFrame>, synchronizer: Sync.TrackSynchronizer,
                 producer: Stt.SttStreamProducer, client: Client.SttStreamClient<AudioFrame>, writer: Rec.Writer,
                 feedsSttStream: bool, writerTrack: Option<nat>)
      requires buffer.Valid() && producer.Valid() && writer.Valid()
      ensures Valid() && framesCaptured == 0 && !writerFailed
      ensures this.buffer == buffer && this.synchronizer == synchronizer && this.producer == producer
      ensures this.client == client && this.writer == writer
      ensures this.feedsSttStream == feedsSttStream && this.writerTrack == writerTrack
    {
      this.buffer, this.synchronizer, this.producer, this.client := buffer, synchronizer, producer, client;
      this.writer, this.feedsSttStream, this.writerTrack := writer, feedsSttStream, writerTrack;
      framesCaptured, writerFailed, writes := 0, false, 0;
    }

    /** A refused frame is not tried again; the client has counted it. */
    method SendAll(frames: seq<AudioFrame>)
      modifies client
      ensures client.View() == Sent(old(client.View()), frames)
    {
      for i := 0 to |frames|
        invariant client.View() == Sent(old(client.View()), frames[..i])
      {
        var ok := client.SendFrame(frames[i]);
        assert frames[..i + 1][..i] == frames[..i];
      }
      assert frames[..|frames|] == frames;
    }

    method FeedAll(outputs: seq<AudioFrame>)
      requires producer.Valid()
      modifies producer, producer.decimator, producer.decimator.history, client
      ensures producer.Valid() && FeedView() == Fed(producer.plan, old(FeedView()), outputs)
    {
      for i := 0 to |outputs|
        invariant producer.Valid() && FeedView() == Fed(producer.plan, old(FeedView()), outputs[..i])
      {
        var frames := producer.Process(outputs[i]);
        SendAll(frames);
        assert outputs[..i + 1][..i] == outputs[..i];
      }
      assert outputs[..|outputs|] == outputs;
    }

    method WriteOne(track: nat, output: AudioFrame, troubles: nat -> Rec.Trouble)
      requires writer.Valid() && !writerFailed
      modifies this`writerFailed, this`writes, writer
      ensures writer.Valid() && TapeView() == TapedOne(writer.formats, old(TapeView()), track, output, troubles)
    {
      var ok := writer.Write(track, output, troubles(writes));
      writes := writes + 1;
      if !ok {
        writerFailed := true;
      }
    }

    /** A failure ends the writing; capturing goes on. */
    method WriteAll(track: nat, outputs: seq<AudioFrame>, troubles: nat -> Rec.Trouble)
      requires writer.Valid() && !writerFailed
      modifies this`writerFailed, this`writes, writer
      ensures writer.Valid() && TapeView() == Taped(writer.formats, old(TapeView()), track, outputs, troubles)
    {
      ghost var start := TapeView();
      for i := 0 to |outputs|
        invariant writer.Valid() && !writerFailed
        invariant TapeView() == Taped(writer.formats, start, track, outputs[..i], troubles)
      {
        TapedOneMore(writer.formats, start, track, outputs, i, troubles);
        WriteOne(track, outputs[i], troubles);
        if writerFailed {
          StaysFailed(writer.formats, start, track, outputs, i + 1, |outputs|, troubles);
          break;
        }
      }
      assert outputs[..|outputs|] == outputs;
    }

    ghost function SetupView(troubles: nat -> Rec.Trouble): Setup {
      Setup(synchronizer.config, producer.plan, writer.formats, feedsSttStream, writerTrack, troubles)
    }

    ghost function View(): Progress
      reads this, synchronizer, producer, producer.decimator, client, writer
    {
      Progress(synchronizer.View(), FeedView(), TapeView(), framesCaptured)
    }

    /** The outputs of one frame to the uploader, then to the writer. */
    method HandOn(outputs: seq<AudioFrame>, troubles: nat -> Rec.Trouble)
      requires producer.Valid() && writer.Valid()
      modifies this`writerFailed, this`writes, producer, producer.decimator, producer.decimator.history, client, writer
      ensures producer.Valid() && writer.Valid()
      ensures FeedView() == FeedAfter(SetupView(troubles), old(FeedView()), outputs)
      ensures TapeView() == TapeAfter(SetupView(troubles), old(TapeView()), outputs)
    {
      if feedsSttStream {
        FeedAll(outputs);
      }
      if writerTrack.None? {
        return;
      }
      if writerFailed {
        StaysFailed(writer.formats, TapeView(), writerTrack.value, outputs, 0, |outputs|, troubles);
        assert outputs[..|outputs|] == outputs;
        return;
      }
      WriteAll(writerTrack.value, outputs, troubles);
    }

    /** One turn of the drain loop, for a frame just popped. */
    method HandleFrame(frame: AudioFrame, troubles: nat -> Rec.Trouble)
      requires Valid()
      modifies this, synchronizer, producer, producer.decimator, producer.decimator.history, client, writer
      ensures Valid() && View() == After(SetupView(troubles), old(View()), [frame])
    {
      ghost var start := View();
      var aligned := synchronizer.Process(frame);
      framesCaptured := framesCaptured + |aligned|;
      HandOn(aligned, troubles);
      AfterOneMore(SetupView(troubles), start, [], frame);
      assert [] + [frame] == [frame];
    }

    /** The next frame, if the ring holds one. */
    method PopAndHandle(troubles: nat -> Rec.Trouble) returns (popped: bool)
      requires Valid()
      modifies this, buffer, buffer.slots, synchronizer, producer, producer.decimator, producer.decimator.history,
               client, writer
      ensures Valid()
      ensures popped <==> old(buffer.Contents()) != []
      ensures buffer.Contents() == if popped then old(buffer.Contents())[1..] else []
      ensures View() == if popped then After(SetupView(troubles), old(View()), [old(buffer.Contents())[0]])
                        else old(View())
    {
      var frame := buffer.TryPop();
      if frame.None? {
        return false;
      }
      HandleFrame(frame.value, troubles);
      popped := true;
    }

    /** Empties the ring, handling everything in it in order. */
    method DrainPipelineLocked(troubles: nat -> Rec.Trouble) returns (sawFrames: bool)
      requires Valid()
      modifies this, buffer, buffer.slots, synchronizer, producer, producer.decimator, producer.decimator.history,
               client, writer
      ensures Valid() && buffer.Contents() == []
      ensures sawFrames <==> old(buffer.Contents()) != []
      ensures View() == After(SetupView(troubles), old(View()), old(buffer.Contents()))
    {
      ghost var start, setup, frames := View(), SetupView(troubles), buffer.Contents();
      ghost var n := 0;
      var popped := true;
      sawFrames := false;
      while popped
        invariant Valid() && n <= |frames|
        invariant buffer.Contents() == frames[n..]
        invariant sawFrames <==> n > 0
        invariant View() == After(setup, start, frames[..n])
        invariant !popped ==> n == |frames|
        decreases |frames| - n, popped
      {
        popped := PopAndHandle(troubles);
        if popped {
          sawFrames := true;
          CutOneLater(frames, n);
          AfterAppendOne(setup, start, frames[..n], frames[n]);
          n := n + 1;
        }
      }
      assert frames[..|frames|] == frames;
    }
  }

  lemma TapedOneMore(formats: seq<TrackFormat>, tape: Tape, track: nat, outputs: seq<AudioFrame>, n: nat,
                     troubles: nat -> Rec.Trouble)
    requires n < |outputs| && Usable(formats, tape)
    ensures Taped(formats, tape, track, outputs[..n + 1], troubles)
         == TapedOne(formats, Taped(formats, tape, track, outputs[..n], troubles), track, outputs[n], troubles)
  {
    assert outputs[..n + 1][..n] == outputs[..n];
  }

  lemma {:induction false} StaysFailed(formats: seq<TrackFormat>, tape: Tape, track: nat, outputs: seq<AudioFrame>,
                                       m: nat, n: nat, troubles: nat -> Rec.Trouble)
    requires m <= n <= |outputs| && Usable(formats, tape)
    requires Taped(formats, tape, track, outputs[..m], troubles).failed
    ensures Taped(formats, tape, track, outputs[..n], troubles) == Taped(formats, tape, track, outputs[..m], troubles)
  {
    if m == n {
    } else {
      StaysFailed(formats, tape, track, outputs, m, n - 1, troubles);
      assert outputs[..n][..n - 1] == outputs[..n - 1];
    }
  }
}
