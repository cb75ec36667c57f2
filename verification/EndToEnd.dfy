/** The stages joined: what the source emitted, as it ends up in the file. */
module EndToEnd {
  import opened Audio
  import opened DrainPipeline
  import opened FakeBackend
  import Pipeline
  import Sequences
  import Timeline
  import Controller
  import Threads = ControllerProofs
  import Sync = ClockSync
  import Runs = ClockSyncProofs
  import Rec = RecordingWriter
  import Files = RecordingWriterProofs
  import Stt = SttProducer
  import Streams = SttProducerProofs
  import Client = SttClient

  // ----- Drains are runs of the synchronizer --------------------------------------------

  /** However the drains were cut, a fresh synchronizer's outputs are those of one run. */
  lemma {:induction false} PassIsRun(cfg: Sync.Config, frames: seq<AudioFrame>)
    ensures var p := Pass(cfg, Sync.INIT, frames);
      p.output == Runs.Run(cfg, frames).output && p.sync == Runs.Reached(Runs.Calls(cfg, frames))
  {
    if frames == [] {
    } else {
      var init, f := frames[..|frames| - 1], frames[|frames| - 1];
      PassIsRun(cfg, init);
      Runs.CallsUnfold(cfg, frames);
      var p := Pass(cfg, Sync.INIT, init);
      CallIsStep(cfg, p.sync, f, Runs.TraceOf(Runs.Calls(cfg, init)));
    }
  }

  lemma CallIsStep(cfg: Sync.Config, s: Sync.State, f: AudioFrame, t: Runs.Trace)
    ensures var c := Runs.CallOn(cfg, s, f);
      && Runs.AppendCall(t, c).output == t.output + Sync.Step(cfg, s, f).1
      && c.after == Sync.Step(cfg, s, f).0
  {
    var output := Sync.Step(cfg, s, f).1;
    assert t.output + output[..|output| - 1] + [output[|output| - 1]] == t.output + output;
  }

  /** The recorder's threads with a synchronizer in place for each track, configured for it:
      one channel for the microphone, two for system output. */
  function SyncEnv(cfgs: nat -> Sync.Config, capacity: nat): Controller.Env<AudioFrame, AudioFrame> {
    Controller.Env(capacity,
                   (k: nat, earlier: seq<AudioFrame>, f: AudioFrame) =>
                     Sync.Step(cfgs(k), Pass(cfgs(k), Sync.INIT, earlier).sync, f).1)
  }

  lemma AlignedIsRun(cfgs: nat -> Sync.Config, capacity: nat, k: nat, frames: seq<AudioFrame>)
    ensures Threads.AllAligned(SyncEnv(cfgs, capacity), k, frames) == Runs.Run(cfgs(k), frames).output
  {
    AlignedIsPass(cfgs, capacity, k, frames);
    PassIsRun(cfgs(k), frames);
  }

  lemma {:induction false} AlignedIsPass(cfgs: nat -> Sync.Config, capacity: nat, k: nat, frames: seq<AudioFrame>)
    ensures Threads.AllAligned(SyncEnv(cfgs, capacity), k, frames) == Pass(cfgs(k), Sync.INIT, frames).output
  {
    if frames == [] {
    } else {
      AlignedIsPass(cfgs, capacity, k, frames[..|frames| - 1]);
    }
  }

  /** A fresh synchronizer for each stream, the outputs one after the other. */
  function RunsJoined(cfg: Sync.Config, streams: seq<seq<AudioFrame>>): seq<AudioFrame> {
    if streams == [] then []
    else RunsJoined(cfg, streams[..|streams| - 1]) + Runs.Run(cfg, streams[|streams| - 1]).output
  }

  lemma {:induction false} SplicedIsRuns(
      cfgs: nat -> Sync.Config, capacity: nat, k: nat, streams: seq<seq<AudioFrame>>)
    ensures Threads.Spliced(SyncEnv(cfgs, capacity), k, streams) == RunsJoined(cfgs(k), streams)
  {
    if streams == [] {
    } else {
      SplicedIsRuns(cfgs, capacity, k, streams[..|streams| - 1]);
      AlignedIsRun(cfgs, capacity, k, streams[|streams| - 1]);
    }
  }

  /** Whatever the threads did and however often it was paused, each track of a saved recording
      is the output of that track's synchronizer for each of its streams, one after the other. */
  lemma SavedRecordingIsItsRuns(
      cfgs: nat -> Sync.Config, capacity: nat, r: Controller.Recorder<AudioFrame, AudioFrame>, ok: bool, t: nat)
    requires var env := SyncEnv(cfgs, capacity);
      && Controller.Reachable(env, r) && Controller.Enabled(env, r, Controller.Close(ok))
      && Controller.Apply(env, r, Controller.Close(ok)).outcome == Controller.Saved
    requires t < Controller.TRACKS
    ensures |r.tracks| == Controller.TRACKS
    ensures r.tracks[t].recorded ==> r.tracks[t].delivered == RunsJoined(cfgs(t), r.tracks[t].past)
  {
    Threads.SavedRecordingIsComplete(SyncEnv(cfgs, capacity), r, ok, t);
    SplicedIsRuns(cfgs, capacity, t, r.tracks[t].past);
  }

  // ----- Drains are runs of the writer --------------------------------------------------

  /** The writes of a drain, as the writer's operations. */
  function WriteOps(track: nat, outputs: seq<AudioFrame>, troubles: nat -> Rec.Trouble, n: nat): (ops: seq<Files.Op>)
    ensures |ops| == |outputs|
  {
    seq(|outputs|, i requires 0 <= i < |outputs| => Files.Write(track, outputs[i], troubles(n + i)))
  }

  function SamplesOf(outputs: seq<AudioFrame>): (samples: seq<Rec.SampleFrame>)
    ensures |samples| == TotalSamples(outputs)
  {
    if outputs == [] then [] else SamplesOf(outputs[..|outputs| - 1]) + Rec.Samples(outputs[|outputs| - 1])
  }

  /** The tape so far is the writer's run so far. */
  predicate OnTape(formats: seq<TrackFormat>, sizes: seq<int>, ops: seq<Files.Op>, track: nat,
                   outputs: seq<AudioFrame>, troubles: nat -> Rec.Trouble, n: nat, tape: Tape)
    requires |sizes| == |formats|
  {
    && n <= tape.writes <= n + |outputs|
    && tape.writer == Files.Run(formats, sizes, ops + WriteOps(track, outputs[..tape.writes - n], troubles, n))
    && (!tape.failed ==>
          && tape.writes == n + |outputs|
          && Files.AcceptedOn(formats, sizes, ops + WriteOps(track, outputs, troubles, n), track)
             == Files.AcceptedOn(formats, sizes, ops, track) + SamplesOf(outputs))
  }

  lemma OneMoreWrite(track: nat, outputs: seq<AudioFrame>, troubles: nat -> Rec.Trouble, n: nat, ops: seq<Files.Op>)
    requires outputs != []
    ensures var init, last := outputs[..|outputs| - 1], outputs[|outputs| - 1];
      ops + WriteOps(track, outputs, troubles, n)
      == ops + WriteOps(track, init, troubles, n) + [Files.Write(track, last, troubles(n + |init|))]
  {
  }

  /** One more write: the run's next state, and what it accepted. */
  lemma WriteOnRun(formats: seq<TrackFormat>, sizes: seq<int>, ops: seq<Files.Op>, track: nat, f: AudioFrame,
                   trouble: Rec.Trouble)
    requires |sizes| == |formats|
    ensures var (w, ok) := Rec.Written(formats, Files.Run(formats, sizes, ops), track, f, trouble);
      var longer := ops + [Files.Write(track, f, trouble)];
      && Files.Run(formats, sizes, longer) == w
      && Files.AcceptedOn(formats, sizes, longer, track)
         == Files.AcceptedOn(formats, sizes, ops, track) + (if ok then Rec.Samples(f) else [])
  {
    assert (ops + [Files.Write(track, f, trouble)])[..|ops|] == ops;
  }

  /** After a failure nothing more is written. */
  lemma NoMoreOnTape(formats: seq<TrackFormat>, sizes: seq<int>, ops: seq<Files.Op>, track: nat,
                     outputs: seq<AudioFrame>, troubles: nat -> Rec.Trouble, n: nat, tape: Tape)
    requires |sizes| == |formats| && outputs != [] && Usable(formats, tape) && tape.failed
    requires OnTape(formats, sizes, ops, track, outputs[..|outputs| - 1], troubles, n, tape)
    ensures OnTape(formats, sizes, ops, track, outputs, troubles, n, tape)
  {
    assert outputs[..|outputs| - 1][..tape.writes - n] == outputs[..tape.writes - n];
  }

  /** The run so far and one more write, on the sequences as they are. */
  lemma WriteOnTape(formats: seq<TrackFormat>, sizes: seq<int>, ops: seq<Files.Op>, track: nat,
                    before: seq<Files.Op>, after: seq<Files.Op>, f: AudioFrame, trouble: Rec.Trouble,
                    samples: seq<Rec.SampleFrame>)
    requires |sizes| == |formats| && after == before + [Files.Write(track, f, trouble)]
    requires Files.AcceptedOn(formats, sizes, before, track)
          == Files.AcceptedOn(formats, sizes, ops, track) + samples
    ensures var (w, ok) := Rec.Written(formats, Files.Run(formats, sizes, before), track, f, trouble);
      && Files.Run(formats, sizes, after) == w
      && (ok ==> Files.AcceptedOn(formats, sizes, after, track)
                 == Files.AcceptedOn(formats, sizes, ops, track) + (samples + Rec.Samples(f)))
  {
    WriteOnRun(formats, sizes, before, track, f, trouble);
    Sequences.Associate(Files.AcceptedOn(formats, sizes, ops, track), samples, Rec.Samples(f));
  }

  lemma OneMoreOnTape(formats: seq<TrackFormat>, sizes: seq<int>, ops: seq<Files.Op>, track: nat,
                      outputs: seq<AudioFrame>, troubles: nat -> Rec.Trouble, n: nat, tape: Tape)
    requires |sizes| == |formats| && outputs != [] && Usable(formats, tape) && !tape.failed
    requires OnTape(formats, sizes, ops, track, outputs[..|outputs| - 1], troubles, n, tape)
    ensures OnTape(formats, sizes, ops, track, outputs, troubles, n,
                   TapedOne(formats, tape, track, outputs[|outputs| - 1], troubles))
  {
    var init, last := outputs[..|outputs| - 1], outputs[|outputs| - 1];
    assert init[..tape.writes - n] == init && outputs[..tape.writes + 1 - n] == outputs;
    OneMoreWrite(track, outputs, troubles, n, ops);
    WriteOnTape(formats, sizes, ops, track, ops + WriteOps(track, init, troubles, n),
                ops + WriteOps(track, outputs, troubles, n), last, troubles(tape.writes), SamplesOf(init));
  }

  /** A drain into a writer is more operations of that writer, and while nothing fails every
      sample of every output is accepted. */
  lemma {:induction false} TapeIsRun(formats: seq<TrackFormat>, sizes: seq<int>, ops: seq<Files.Op>, track: nat,
                                     outputs: seq<AudioFrame>, troubles: nat -> Rec.Trouble, n: nat)
    requires |sizes| == |formats|
    ensures OnTape(formats, sizes, ops, track, outputs, troubles, n,
                   Taped(formats, Tape(Files.Run(formats, sizes, ops), false, n), track, outputs, troubles))
  {
    if outputs == [] {
      assert ops + WriteOps(track, [], troubles, n) == ops;
      assert Files.AcceptedOn(formats, sizes, ops, track) + [] == Files.AcceptedOn(formats, sizes, ops, track);
    } else {
      var init := outputs[..|outputs| - 1];
      TapeIsRun(formats, sizes, ops, track, init, troubles, n);
      var tape := Taped(formats, Tape(Files.Run(formats, sizes, ops), false, n), track, init, troubles);
      if tape.failed {
        NoMoreOnTape(formats, sizes, ops, track, outputs, troubles, n, tape);
      } else {
        OneMoreOnTape(formats, sizes, ops, track, outputs, troubles, n, tape);
      }
    }
  }

  // ----- Drains are runs of the transcription stream ------------------------------------

  lemma {:induction false} SentAppend(c: Client.Client<AudioFrame>, a: seq<AudioFrame>, b: seq<AudioFrame>)
    ensures Sent(c, a + b) == Sent(Sent(c, a), b)
  {
    if b == [] {
      assert a + b == a;
    } else {
      SentAppend(c, a, b[..|b| - 1]);
      assert (a + b)[..|a + b| - 1] == a + b[..|b| - 1];
    }
  }

  /** A fresh producer makes of the drained outputs what it makes of them in one run, and each
      frame it makes is one call of sendFrame, in order. */
  lemma {:induction false} FeedIsRun(plan: Stt.Plan, c: Client.Client<AudioFrame>, outputs: seq<AudioFrame>)
    ensures Fed(plan, Feed(Stt.INIT, c), outputs)
         == Feed(Streams.Run(plan, outputs).state, Sent(c, Streams.Run(plan, outputs).outputs))
  {
    if outputs == [] {
    } else {
      FeedIsRun(plan, c, outputs[..|outputs| - 1]);
      SentAppend(c, Streams.Run(plan, outputs[..|outputs| - 1]).outputs, Streams.LastStep(plan, outputs).1);
    }
  }

  /** n calls of sendFrame and nothing else between these states. */
  predicate OnlySent(c: Client.Client<AudioFrame>, c': Client.Client<AudioFrame>, n: nat) {
    && c'.calls == c.calls + n
    && c'.sent == c.sent && c'.writer == c.writer && c'.cleared == c.cleared
    && |c'.queue| + c'.dropped == |c.queue| + c.dropped + n
    && c.queue <= c'.queue
  }

  lemma SendIsCounted(c: Client.Client<AudioFrame>, c': Client.Client<AudioFrame>, n: nat, f: AudioFrame)
    requires OnlySent(c, c', n)
    ensures OnlySent(c, Client.Apply(c', Client.Send(f)), n + 1)
  {
  }

  /** However full the queue and whatever became of the stream, each is counted. */
  lemma {:induction false} SendsAreCounted(c: Client.Client<AudioFrame>, frames: seq<AudioFrame>)
    requires Client.Inv(c)
    ensures Client.Inv(Sent(c, frames)) && OnlySent(c, Sent(c, frames), |frames|)
  {
    if frames == [] {
    } else {
      var init := frames[..|frames| - 1];
      SendsAreCounted(c, init);
      Client.StepKeeps(Sent(c, init), Client.Send(frames[|frames| - 1]));
      SendIsCounted(c, Sent(c, init), |init|, frames[|frames| - 1]);
    }
  }

  // ----- From source to file ------------------------------------------------------------

  /** What the drain of a fresh pipeline puts on a track of a fresh writer, finalized. */
  lemma SavedTrackHoldsTheRun(sync: Sync.Config, formats: seq<TrackFormat>, sizes: seq<int>, track: nat,
                              frames: seq<AudioFrame>, troubles: nat -> Rec.Trouble, ending: Rec.FinalTrouble)
    requires track < |sizes| == |formats|
    requires var tape := Taped(formats, Tape(Rec.Opened(sizes), false, 0), track,
                               Pass(sync, Sync.INIT, frames).output, troubles);
      !tape.failed && Rec.Closed(tape.writer, ending).1
    ensures var outputs := Pass(sync, Sync.INIT, frames).output;
      var file := Rec.Closed(Taped(formats, Tape(Rec.Opened(sizes), false, 0), track, outputs, troubles).writer,
                             ending).0.disk.final;
      && outputs == Runs.Run(sync, frames).output
      && file.Some? && |file.value| == |formats|
      && Files.Joined(file.value[track]) == SamplesOf(outputs)
  {
    var outputs := Pass(sync, Sync.INIT, frames).output;
    var ops := WriteOps(track, outputs, troubles, 0);
    PassIsRun(sync, frames);
    assert Files.Run(formats, sizes, []) == Rec.Opened(sizes);
    TapeIsRun(formats, sizes, [], track, outputs, troubles, 0);
    assert outputs[..|outputs|] == outputs && [] + ops == ops;
    FinalizedRun(formats, sizes, ops, ending, track);
    assert Files.AcceptedOn(formats, sizes, [], track) == [];
    assert [] + SamplesOf(outputs) == SamplesOf(outputs);
  }

  lemma FinalizedRun(formats: seq<TrackFormat>, sizes: seq<int>, ops: seq<Files.Op>, ending: Rec.FinalTrouble,
                     track: nat)
    requires track < |sizes| == |formats| && Rec.Closed(Files.Run(formats, sizes, ops), ending).1
    ensures var s := Rec.Closed(Files.Run(formats, sizes, ops), ending).0;
      && s.disk.final.Some? && |s.disk.final.value| == |formats|
      && Files.Joined(s.disk.final.value[track]) == Files.AcceptedOn(formats, sizes, ops, track)
  {
    var all := ops + [Files.Finalize(ending)];
    assert all[..|all| - 1] == ops;
    Files.FinalizedFileIsComplete(formats, sizes, all, track);
    var accepted := Files.AcceptedOn(formats, sizes, ops, track);
    assert Files.AcceptedOn(formats, sizes, all, track) == accepted + [] == accepted;
  }

  /** From emission to file: for every schedule of emission, loss, refusal and consumption, a
      saved track is as long as the wall time between the first and the last delivered frame,
      to the sample, exactly when no run of losses outlasts the cap; otherwise it is shorter. */
  lemma SavedTrackIsGapless(
      sync: Sync.Config, src: CaptureConfig, signal: nat -> seq<Byte>, capacity: nat, events: seq<Pipeline.Event>,
      formats: seq<TrackFormat>, sizes: seq<int>, track: nat, troubles: nat -> Rec.Trouble,
      ending: Rec.FinalTrouble)
    requires Pipeline.Feasible(src, signal, capacity, events) && Pipeline.NoRestart(events)
    requires Pipeline.WellSampled(src, signal) && Timeline.Matched(sync, src)
    requires Pipeline.After(src, signal, events).popped != []
    requires track < |sizes| == |formats|
    requires var frames := Pipeline.After(src, signal, events).popped;
      var tape := Taped(formats, Tape(Rec.Opened(sizes), false, 0), track,
                        Pass(sync, Sync.INIT, frames).output, troubles);
      !tape.failed && Rec.Closed(tape.writer, ending).1
    ensures var frames := Pipeline.After(src, signal, events).popped;
      var outputs := Pass(sync, Sync.INIT, frames).output;
      var file := Rec.Closed(Taped(formats, Tape(Rec.Opened(sizes), false, 0), track, outputs, troubles).writer,
                             ending).0.disk.final;
      var wall := Timeline.Slots(frames) * src.FrameSamples();
      && file.Some? && track < |file.value|
      && |Files.Joined(file.value[track])| <= wall
      && (|Files.Joined(file.value[track])| == wall <==> Timeline.AllWithinCap(sync, src, frames))
  {
    var frames := Pipeline.After(src, signal, events).popped;
    SavedTrackHoldsTheRun(sync, formats, sizes, track, frames, troubles, ending);
    Timeline.EndToEndTimeline(sync, src, signal, capacity, events);
  }

  // ----- Recordings that were paused ----------------------------------------------------

  /** Every stream is one a source without restarts could have delivered. */
  predicate AllScheduled(src: CaptureConfig, streams: seq<seq<AudioFrame>>) {
    streams != [] ==> AllScheduled(src, streams[..|streams| - 1]) && Timeline.Scheduled(src, streams[|streams| - 1])
  }

  /** No stream has a run of losses longer than the cap. */
  predicate AllFilled(sync: Sync.Config, src: CaptureConfig, streams: seq<seq<AudioFrame>>) {
    streams != [] ==>
      AllFilled(sync, src, streams[..|streams| - 1]) && Timeline.AllWithinCap(sync, src, streams[|streams| - 1])
  }

  function SlotsOf(frames: seq<AudioFrame>): int {
    if frames == [] then 0 else Timeline.Slots(frames)
  }

  /** Frame slots of wall time while capturing: from first to last frame of each stream. */
  function CapturedSlots(streams: seq<seq<AudioFrame>>): int {
    if streams == [] then 0 else CapturedSlots(streams[..|streams| - 1]) + SlotsOf(streams[|streams| - 1])
  }

  /** What is as long as this many slots, or shorter. */
  predicate FillsSlots(src: CaptureConfig, total: nat, slots: int, filled: bool) {
    && total <= slots * src.FrameSamples()
    && (total == slots * src.FrameSamples() <==> filled)
  }

  lemma StreamFillsSlots(sync: Sync.Config, src: CaptureConfig, frames: seq<AudioFrame>)
    requires Timeline.Matched(sync, src) && Timeline.Scheduled(src, frames)
    ensures FillsSlots(src, TotalSamples(Runs.Run(sync, frames).output), SlotsOf(frames),
                       Timeline.AllWithinCap(sync, src, frames))
  {
    if frames == [] {
      assert 0 * src.FrameSamples() == 0;
    } else {
      Timeline.TimelineIsGapless(sync, src, frames);
    }
  }

  lemma SlotsAdd(src: CaptureConfig, a: nat, b: nat, m: int, n: int, filled: bool, also: bool)
    requires FillsSlots(src, a, m, filled) && FillsSlots(src, b, n, also)
    ensures FillsSlots(src, a + b, m + n, filled && also)
  {
    Timeline.Distribute(m, n, src.FrameSamples());
  }

  /** A paused recording is never longer than the time it was capturing, and exactly as long,
      to the sample, when and only when no run of losses in any stream outlasts the cap. */
  lemma {:induction false} JoinedRunsFillSlots(sync: Sync.Config, src: CaptureConfig, streams: seq<seq<AudioFrame>>)
    requires Timeline.Matched(sync, src) && AllScheduled(src, streams)
    ensures FillsSlots(src, TotalSamples(RunsJoined(sync, streams)), CapturedSlots(streams),
                       AllFilled(sync, src, streams))
  {
    if streams == [] {
      assert 0 * src.FrameSamples() == 0;
    } else {
      var init, last := streams[..|streams| - 1], streams[|streams| - 1];
      JoinedRunsFillSlots(sync, src, init);
      StreamFillsSlots(sync, src, last);
      TotalSamplesConcat(RunsJoined(sync, init), Runs.Run(sync, last).output);
      SlotsAdd(src, TotalSamples(RunsJoined(sync, init)), TotalSamples(Runs.Run(sync, last).output),
               CapturedSlots(init), SlotsOf(last), AllFilled(sync, src, init), Timeline.AllWithinCap(sync, src, last));
    }
  }
}
