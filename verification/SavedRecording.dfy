/** The recorder's threads and the writer they feed: what the files hold once a recording that
    may have been paused, on one track or on both, is saved. */
module SavedRecording {
  import opened Audio
  import opened Controller
  import opened EndToEnd
  import opened FakeBackend
  import Threads = ControllerProofs
  import Rec = RecordingWriter
  import Files = RecordingWriterProofs
  import Sequences
  import Sync = ClockSync
  import Timeline

  type Frames = Recorder<AudioFrame, AudioFrame>

  /** What createWriter is given for each track, and what FFmpeg makes of it. */
  datatype Setup = Setup(formats: nat -> TrackFormat, frameSizes: nat -> int)

  /** The recorder, and the operations made on the writer of the current recording. */
  datatype Joint = Joint(recorder: Frames, ops: seq<Files.Op>)

  /** A step of the recorder that leaves the writer alone, a write by the drain of a thread, or
      the end of the recording; the troubles are FFmpeg's. */
  datatype Move =
    | Drive(step: Step<AudioFrame>)
    | WriteOne(who: Thread, trouble: Rec.Trouble)
    | End(final: Rec.FinalTrouble)

  // ----- The writer's tracks ------------------------------------------------------------

  /** The recorder's track numbers in the order of the writer's tracks. */
  function Order(tracks: seq<Track<AudioFrame, AudioFrame>>): (order: seq<nat>)
    requires |tracks| == TRACKS
    ensures forall i :: 0 <= i < |order| ==> order[i] < TRACKS && tracks[order[i]].recorded
  {
    (if tracks[0].recorded then [0] else []) + (if tracks[1].recorded then [1] else [])
  }

  /** Where a track is among the writer's. */
  function Index(tracks: seq<Track<AudioFrame, AudioFrame>>, t: nat): (i: nat)
    requires |tracks| == TRACKS && t < TRACKS
    ensures tracks[t].recorded ==> i < |Order(tracks)| && Order(tracks)[i] == t
  {
    if t == 1 && tracks[0].recorded then 1 else 0
  }

  function Formats(setup: Setup, order: seq<nat>): (formats: seq<TrackFormat>)
    ensures |formats| == |order|
  {
    seq(|order|, i requires 0 <= i < |order| => setup.formats(order[i]))
  }

  function Sizes(setup: Setup, order: seq<nat>): (sizes: seq<int>)
    ensures |sizes| == |order|
  {
    seq(|order|, i requires 0 <= i < |order| => setup.frameSizes(order[i]))
  }

  function WriterOf(setup: Setup, order: seq<nat>, ops: seq<Files.Op>): (s: Rec.State)
    ensures |s.samplesWritten| == |order| && |s.tracks| <= |order|
  {
    Files.Run(Formats(setup, order), Sizes(setup, order), ops)
  }

  function AcceptedOn(setup: Setup, order: seq<nat>, ops: seq<Files.Op>, i: nat): seq<Rec.SampleFrame> {
    Files.AcceptedOn(Formats(setup, order), Sizes(setup, order), ops, i)
  }

  // ----- Moves --------------------------------------------------------------------------

  /** The write a drain is about to make, as an operation of the writer. */
  function NextWrite(r: Frames, who: Thread, trouble: Rec.Trouble): (op: Files.Op)
    requires WorkEnabled(r, Write(who, true))
    ensures op.Write?
  {
    var work := WorkOf(r, who).value;
    Files.Write(Index(r.tracks, work.track), work.rest[0], trouble)
  }

  /** What the writer returns for one more operation. */
  function Answer(setup: Setup, order: seq<nat>, ops: seq<Files.Op>, op: Files.Op): bool {
    Files.Applied(Formats(setup, order), WriterOf(setup, order, ops), op).1
  }

  /** What stop and a failed start do with the writer. */
  function EndOp(setup: Setup, j: Joint, final: Rec.FinalTrouble): Option<Files.Op>
    requires |j.recorder.tracks| == TRACKS && j.recorder.ui.Closing?
  {
    if j.recorder.ui.reason == ForFailedStart then Some(Files.Abort)
    else if j.recorder.writerFailed then None
    else if WriterOf(setup, Order(j.recorder.tracks), j.ops).framesWritten == 0 then Some(Files.Abort)
    else Some(Files.Finalize(final))
  }

  function EndOps(setup: Setup, j: Joint, final: Rec.FinalTrouble): seq<Files.Op>
    requires |j.recorder.tracks| == TRACKS && j.recorder.ui.Closing?
  {
    match EndOp(setup, j, final)
    case Some(op) => j.ops + [op]
    case None => j.ops
  }

  /** Whether finalize was called and returned true. */
  function EndAnswer(setup: Setup, j: Joint, final: Rec.FinalTrouble): bool
    requires |j.recorder.tracks| == TRACKS && j.recorder.ui.Closing?
  {
    var op := EndOp(setup, j, final);
    op == Some(Files.Finalize(final)) && Answer(setup, Order(j.recorder.tracks), j.ops, op.value)
  }

  predicate Possible(env: Env<AudioFrame, AudioFrame>, j: Joint, move: Move) {
    && |j.recorder.tracks| == TRACKS
    && match move
       case Drive(step) => !step.Write? && !step.Close? && Enabled(env, j.recorder, step)
       case WriteOne(who, _) => WorkEnabled(j.recorder, Write(who, true))
       case End(_) => Enabled(env, j.recorder, Close(true))
  }

  /** start went past its checks and made a writer. */
  predicate Begins(env: Env<AudioFrame, AudioFrame>, r: Frames, step: Step<AudioFrame>)
    requires Enabled(env, r, step)
  {
    step.CallStart? && Apply(env, r, step).session != r.session
  }

  function Next(env: Env<AudioFrame, AudioFrame>, setup: Setup, j: Joint, move: Move): Joint
    requires Possible(env, j, move)
  {
    var r := j.recorder;
    match move
    case Drive(step) => Joint(Apply(env, r, step), if Begins(env, r, step) then [] else j.ops)
    case WriteOne(who, trouble) =>
      var op := NextWrite(r, who, trouble);
      Joint(Apply(env, r, Write(who, Answer(setup, Order(r.tracks), j.ops, op))), j.ops + [op])
    case End(final) => Joint(Apply(env, r, Close(EndAnswer(setup, j, final))), EndOps(setup, j, final))
  }

  // ----- The invariant ------------------------------------------------------------------

  /** The writer has accepted, on each of its tracks, the samples of what was delivered. */
  ghost predicate TracksAgree(setup: Setup, tracks: seq<Track<AudioFrame, AudioFrame>>, ops: seq<Files.Op>)
    requires |tracks| == TRACKS
  {
    forall t :: 0 <= t < TRACKS && tracks[t].recorded ==>
      AcceptedOn(setup, Order(tracks), ops, Index(tracks, t)) == SamplesOf(tracks[t].delivered)
  }

  /** What was delivered on a track is of the format the writer was given for it. */
  predicate DeliveredFit(setup: Setup, tracks: seq<Track<AudioFrame, AudioFrame>>)
    requires |tracks| == TRACKS
  {
    forall t :: 0 <= t < TRACKS && tracks[t].recorded ==> AllFit(setup.formats(t), tracks[t].delivered)
  }

  predicate AllFit(format: TrackFormat, outputs: seq<AudioFrame>) {
    forall k :: 0 <= k < |outputs| ==>
      outputs[k].format == format.format && outputs[k].sampleRate == format.sampleRate
      && outputs[k].channels == format.channels
  }

  ghost predicate WriterAgrees(setup: Setup, r: Frames, ops: seq<Files.Op>)
    requires |r.tracks| == TRACKS
  {
    var w := WriterOf(setup, Order(r.tracks), ops);
    && Order(r.tracks) != []
    && (w.lifecycle == Rec.Open || (r.writerFailed && w.lifecycle == Rec.Failed))
    && w.framesWritten == |r.tracks[0].delivered| + |r.tracks[1].delivered|
    && TracksAgree(setup, r.tracks, ops)
    && DeliveredFit(setup, r.tracks)
  }

  ghost predicate JointInv(env: Env<AudioFrame, AudioFrame>, setup: Setup, j: Joint) {
    && Reachable(env, j.recorder)
    && |j.recorder.tracks| == TRACKS
    && (j.recorder.writerOpen ==> WriterAgrees(setup, j.recorder, j.ops))
  }

  /** What the writer's agreement depends on. */
  predicate SameForWriter(r: Frames, r': Frames) {
    && |r.tracks| == |r'.tracks| == TRACKS
    && r'.writerOpen == r.writerOpen && r'.writerFailed == r.writerFailed
    && forall t :: 0 <= t < TRACKS ==>
         r'.tracks[t].recorded == r.tracks[t].recorded && r'.tracks[t].delivered == r.tracks[t].delivered
  }

  predicate IsWork(step: Step<AudioFrame>) {
    step.TakeFrame? || step.NextTrack? || step.Upload? || step.Uploaded?
  }

  lemma WorkLeavesWriter(env: Env<AudioFrame, AudioFrame>, r: Frames, step: Step<AudioFrame>)
    requires Threads.Inv(env, r) && Enabled(env, r, step)
    requires IsWork(step)
    ensures SameForWriter(r, Apply(env, r, step))
  {
    if !step.Upload? {
      Threads.WorkerIsUnique(r, step.who);
    }
  }

  predicate ReplacesTracks(step: Step<AudioFrame>) { step.CallStart? || step.CallResume? || step.Clear? }

  lemma CallsLeaveWriter(env: Env<AudioFrame, AudioFrame>, r: Frames, step: Step<AudioFrame>)
    requires Threads.Inv(env, r) && Enabled(env, r, step) && ReplacesTracks(step) && !Begins(env, r, step)
    ensures SameForWriter(r, Apply(env, r, step))
  {
  }

  lemma OthersLeaveWriter(env: Env<AudioFrame, AudioFrame>, r: Frames, step: Step<AudioFrame>)
    requires Threads.Inv(env, r) && Enabled(env, r, step) && !step.Write? && !step.Close?
    requires !IsWork(step) && !ReplacesTracks(step)
    ensures SameForWriter(r, Apply(env, r, step))
  {
    match step
    case Open(ok) => OpenLeavesWriter(r, r.ui.track, r.ui.resuming, ok);
    case Capture(t, frame, taken) => CaptureLeavesWriter(env, r, t, frame, taken);
    case _ =>
  }

  lemma CaptureLeavesWriter(env: Env<AudioFrame, AudioFrame>, r: Frames, t: nat, frame: AudioFrame, taken: bool)
    requires Enabled(env, r, Capture(t, frame, taken))
    ensures SameForWriter(r, Apply(env, r, Capture(t, frame, taken)))
  {
  }

  lemma OpenLeavesWriter(r: Frames, t: nat, resuming: bool, ok: bool)
    requires |r.tracks| == TRACKS
    ensures SameForWriter(r, Opened(r, t, resuming, ok))
  {
  }

  lemma SameKeeps(setup: Setup, r: Frames, r': Frames, ops: seq<Files.Op>)
    requires SameForWriter(r, r') && WriterAgrees(setup, r, ops)
    ensures WriterAgrees(setup, r', ops)
  {
    assert Order(r'.tracks) == Order(r.tracks);
    forall t | 0 <= t < TRACKS && r'.tracks[t].recorded
      ensures AcceptedOn(setup, Order(r'.tracks), ops, Index(r'.tracks, t)) == SamplesOf(r'.tracks[t].delivered)
    {
      assert Index(r'.tracks, t) == Index(r.tracks, t);
    }
  }

  lemma BeginAgrees(env: Env<AudioFrame, AudioFrame>, setup: Setup, r: Frames, step: Step<AudioFrame>)
    requires Threads.Inv(env, r) && Enabled(env, r, step) && Begins(env, r, step)
    ensures WriterAgrees(setup, Apply(env, r, step), [])
  {
    var r' := Apply(env, r, step);
    assert r'.tracks == Begun(r.tracks, step.selected);
    assert WriterOf(setup, Order(r'.tracks), []) == Rec.Opened(Sizes(setup, Order(r'.tracks)));
    assert SamplesOf([]) == [];
  }

  // ----- One write ----------------------------------------------------------------------

  lemma SamplesOfOneMore(outputs: seq<AudioFrame>, f: AudioFrame)
    ensures SamplesOf(outputs + [f]) == SamplesOf(outputs) + Rec.Samples(f)
  {
    assert (outputs + [f])[..|outputs|] == outputs;
  }

  /** One more write on the writer: its state, and what it has accepted on every track. */
  lemma WriteCounts(setup: Setup, order: seq<nat>, ops: seq<Files.Op>, op: Files.Op, i: nat)
    requires op.Write?
    ensures var ok := Answer(setup, order, ops, op);
      var w, w' := WriterOf(setup, order, ops), WriterOf(setup, order, ops + [op]);
      && w'.framesWritten == w.framesWritten + (if ok then 1 else 0)
      && (ok ==> w'.lifecycle == Rec.Open)
      && (w.lifecycle == Rec.Open ==> w'.lifecycle == Rec.Open || (!ok && w'.lifecycle == Rec.Failed))
      && AcceptedOn(setup, order, ops + [op], i)
         == AcceptedOn(setup, order, ops, i) + if ok && op.index == i then Rec.Samples(op.frame) else []
  {
    var formats, sizes := Formats(setup, order), Sizes(setup, order);
    Files.RunOneMore(formats, sizes, ops, op);
    Files.RefusalsAreHarmless(formats, WriterOf(setup, order, ops), op.index, op.frame, op.trouble);
    assert (ops + [op])[..|ops|] == ops;
  }

  /** The recorder after a write: one more output delivered on the track, or a failure. */
  lemma WriteMoves(env: Env<AudioFrame, AudioFrame>, r: Frames, who: Thread, ok: bool)
    requires Threads.Inv(env, r) && Enabled(env, r, Write(who, ok))
    ensures var r', work := Apply(env, r, Write(who, ok)), WorkOf(r, who).value;
      var t := work.track;
      && Writable(r, t) && t < TRACKS && |r'.tracks| == TRACKS
      && r'.writerOpen && r'.writerFailed == !ok
      && r'.tracks == if ok then r.tracks[t := r.tracks[t].(delivered := r.tracks[t].delivered + [work.rest[0]])]
                      else r.tracks
  {
    Threads.WorkerIsUnique(r, who);
  }

  /** A write the writer takes is of the track's format. */
  lemma WriteFits(setup: Setup, tracks: seq<Track<AudioFrame, AudioFrame>>, ops: seq<Files.Op>, op: Files.Op, t: nat)
    requires |tracks| == TRACKS && t < TRACKS && tracks[t].recorded && op.Write? && op.index == Index(tracks, t)
    ensures Answer(setup, Order(tracks), ops, op) ==> AllFit(setup.formats(t), [op.frame])
  {
    var order := Order(tracks);
    Files.RefusalsAreHarmless(Formats(setup, order), WriterOf(setup, order, ops), op.index, op.frame, op.trouble);
  }

  /** The tracks after a write: one more output delivered on one of them, or none. */
  function Delivering(tracks: seq<Track<AudioFrame, AudioFrame>>, t: nat, output: AudioFrame, ok: bool):
    (r: seq<Track<AudioFrame, AudioFrame>>)
    requires |tracks| == TRACKS && t < TRACKS
    ensures |r| == TRACKS && Order(r) == Order(tracks)
  {
    if ok then tracks[t := tracks[t].(delivered := tracks[t].delivered + [output])] else tracks
  }

  lemma WrittenTracksAgree(setup: Setup, tracks: seq<Track<AudioFrame, AudioFrame>>, ops: seq<Files.Op>, op: Files.Op,
                           t: nat)
    requires |tracks| == TRACKS && t < TRACKS && tracks[t].recorded && op.Write? && op.index == Index(tracks, t)
    requires TracksAgree(setup, tracks, ops)
    ensures TracksAgree(setup, Delivering(tracks, t, op.frame, Answer(setup, Order(tracks), ops, op)), ops + [op])
  {
    var order := Order(tracks);
    var after := Delivering(tracks, t, op.frame, Answer(setup, order, ops, op));
    SamplesOfOneMore(tracks[t].delivered, op.frame);
    forall u | 0 <= u < TRACKS && after[u].recorded
      ensures AcceptedOn(setup, Order(after), ops + [op], Index(after, u)) == SamplesOf(after[u].delivered)
    {
      WriteCounts(setup, order, ops, op, Index(tracks, u));
      Sequences.ConcatEmpty(AcceptedOn(setup, order, ops, Index(tracks, u)));
    }
  }

  lemma WrittenTracksFit(setup: Setup, tracks: seq<Track<AudioFrame, AudioFrame>>, ops: seq<Files.Op>, op: Files.Op,
                         t: nat)
    requires |tracks| == TRACKS && t < TRACKS && tracks[t].recorded && op.Write? && op.index == Index(tracks, t)
    requires DeliveredFit(setup, tracks)
    ensures DeliveredFit(setup, Delivering(tracks, t, op.frame, Answer(setup, Order(tracks), ops, op)))
  {
    WriteFits(setup, tracks, ops, op, t);
    FitsOneMore(setup.formats(t), tracks[t].delivered, op.frame);
  }

  lemma FitsOneMore(format: TrackFormat, outputs: seq<AudioFrame>, output: AudioFrame)
    requires AllFit(format, outputs)
    ensures AllFit(format, [output]) ==> AllFit(format, outputs + [output])
  {
    assert [output][0] == output;
  }

  lemma WriteAgrees(env: Env<AudioFrame, AudioFrame>, setup: Setup, r: Frames, ops: seq<Files.Op>, who: Thread,
                    trouble: Rec.Trouble)
    requires Threads.Inv(env, r) && WorkEnabled(r, Write(who, true)) && WriterAgrees(setup, r, ops)
    ensures var op := NextWrite(r, who, trouble);
      WriterAgrees(setup, Apply(env, r, Write(who, Answer(setup, Order(r.tracks), ops, op))), ops + [op])
  {
    var order, op := Order(r.tracks), NextWrite(r, who, trouble);
    var ok := Answer(setup, order, ops, op);
    var r', t := Apply(env, r, Write(who, ok)), WorkOf(r, who).value.track;
    WriteMoves(env, r, who, ok);
    WriteCounts(setup, order, ops, op, 0);
    WrittenTracksAgree(setup, r.tracks, ops, op, t);
    WrittenTracksFit(setup, r.tracks, ops, op, t);
    assert r'.tracks == Delivering(r.tracks, t, op.frame, ok);
  }

  lemma NextKeeps(env: Env<AudioFrame, AudioFrame>, setup: Setup, j: Joint, move: Move)
    requires JointInv(env, setup, j) && Possible(env, j, move)
    ensures JointInv(env, setup, Next(env, setup, j, move))
  {
    var r := j.recorder;
    Threads.ReachableInv(env, r);
    match move
    case Drive(step) => DriveKeeps(env, setup, j, step);
    case WriteOne(who, trouble) =>
      var op := NextWrite(r, who, trouble);
      var ok := Answer(setup, Order(r.tracks), j.ops, op);
      Threads.ReachableStep(env, r, Write(who, ok));
      WriteMoves(env, r, who, ok);
      WriteAgrees(env, setup, r, j.ops, who, trouble);
    case End(final) =>
      Threads.ReachableStep(env, r, Close(EndAnswer(setup, j, final)));
  }

  lemma DriveKeeps(env: Env<AudioFrame, AudioFrame>, setup: Setup, j: Joint, step: Step<AudioFrame>)
    requires JointInv(env, setup, j) && Possible(env, j, Drive(step)) && Threads.Inv(env, j.recorder)
    ensures JointInv(env, setup, Next(env, setup, j, Drive(step)))
  {
    var r := j.recorder;
    Threads.ReachableStep(env, r, step);
    Threads.ReachableInv(env, Apply(env, r, step));
    if Begins(env, r, step) {
      BeginAgrees(env, setup, r, step);
    } else {
      if IsWork(step) {
        WorkLeavesWriter(env, r, step);
      } else if ReplacesTracks(step) {
        CallsLeaveWriter(env, r, step);
      } else {
        OthersLeaveWriter(env, r, step);
      }
      if r.writerOpen {
        SameKeeps(setup, r, Apply(env, r, step), j.ops);
      }
    }
  }

  // ----- Runs ---------------------------------------------------------------------------

  ghost predicate Legal(env: Env<AudioFrame, AudioFrame>, setup: Setup, moves: seq<Move>)
    decreases |moves|, 0
  {
    moves != [] ==>
      && Legal(env, setup, moves[..|moves| - 1])
      && Possible(env, Exec(env, setup, moves[..|moves| - 1]), moves[|moves| - 1])
  }

  /** Recorder and writer after an interleaving of all threads. */
  ghost function Exec(env: Env<AudioFrame, AudioFrame>, setup: Setup, moves: seq<Move>): Joint
    requires Legal(env, setup, moves)
    decreases |moves|, 1
  {
    if moves == [] then Joint(Launched(), [])
    else Next(env, setup, Exec(env, setup, moves[..|moves| - 1]), moves[|moves| - 1])
  }

  lemma {:induction false} ExecKeeps(env: Env<AudioFrame, AudioFrame>, setup: Setup, moves: seq<Move>)
    requires Legal(env, setup, moves)
    ensures JointInv(env, setup, Exec(env, setup, moves))
  {
    if moves == [] {
      Threads.LaunchedIsReachable<AudioFrame, AudioFrame>(env);
    } else {
      var init := moves[..|moves| - 1];
      ExecKeeps(env, setup, init);
      NextKeeps(env, setup, Exec(env, setup, init), moves[|moves| - 1]);
    }
  }

  // ----- Main results -------------------------------------------------------------------

  /** The file a recording ends with. */
  function FileOf(setup: Setup, j: Joint, final: Rec.FinalTrouble): Rec.Disk
    requires |j.recorder.tracks| == TRACKS && j.recorder.ui.Closing?
  {
    WriterOf(setup, Order(j.recorder.tracks), EndOps(setup, j, final)).disk
  }

  /** The writer has counted no frame exactly when none was delivered. */
  lemma NothingIsNothing(setup: Setup, r: Frames, ops: seq<Files.Op>)
    requires |r.tracks| == TRACKS && WriterAgrees(setup, r, ops)
    ensures WriterOf(setup, Order(r.tracks), ops).framesWritten == 0 <==> NothingWritten(r.tracks)
  {
  }

  /** However the threads were interleaved, however often the recording was paused, on one track
      or on both: every track of a saved file holds the samples of that track's synchronizer's
      output for each of its streams, one after the other, and nothing else. */
  lemma SavedFileHoldsTheRuns(
      cfgs: nat -> Sync.Config, capacity: nat, setup: Setup, moves: seq<Move>, final: Rec.FinalTrouble, t: nat)
    requires Legal(SyncEnv(cfgs, capacity), setup, moves) && t < TRACKS
    requires var env := SyncEnv(cfgs, capacity);
      var j := Exec(env, setup, moves);
      Possible(env, j, End(final)) && Next(env, setup, j, End(final)).recorder.outcome == Saved
    ensures var j := Exec(SyncEnv(cfgs, capacity), setup, moves);
      var tracks, file := j.recorder.tracks, FileOf(setup, j, final).final;
      && file.Some? && |file.value| == |Order(tracks)|
      && (tracks[t].recorded ==>
            Files.Joined(file.value[Index(tracks, t)]) == SamplesOf(RunsJoined(cfgs(t), tracks[t].past)))
  {
    var env := SyncEnv(cfgs, capacity);
    var j := Exec(env, setup, moves);
    var r, order := j.recorder, Order(j.recorder.tracks);
    var ok := EndAnswer(setup, j, final);
    ExecKeeps(env, setup, moves);
    Threads.SavedRecordingIsComplete(env, r, ok, t);
    SavedRecordingIsItsRuns(cfgs, capacity, r, ok, t);
    FinalizedOn(setup, order, j.ops, final, if r.tracks[t].recorded then Index(r.tracks, t) else 0);
  }

  /** A saved file has one track for each the recording started with, the microphone's first. */
  lemma SavedTracksAreInOrder(
      cfgs: nat -> Sync.Config, capacity: nat, setup: Setup, moves: seq<Move>, final: Rec.FinalTrouble)
    requires Legal(SyncEnv(cfgs, capacity), setup, moves)
    requires var env := SyncEnv(cfgs, capacity);
      var j := Exec(env, setup, moves);
      Possible(env, j, End(final)) && Next(env, setup, j, End(final)).recorder.outcome == Saved
    ensures var j := Exec(SyncEnv(cfgs, capacity), setup, moves);
      var tracks, file := j.recorder.tracks, FileOf(setup, j, final).final;
      && |tracks| == TRACKS && file.Some?
      && |file.value| == (if tracks[0].recorded then 1 else 0) + (if tracks[1].recorded then 1 else 0)
      && (tracks[0].recorded ==> HoldsTrack(setup, file.value[0], 0, RunsJoined(cfgs(0), tracks[0].past)))
      && (tracks[1].recorded ==>
            HoldsTrack(setup, file.value[|file.value| - 1], 1, RunsJoined(cfgs(1), tracks[1].past)))
  {
    SavedTrackHolds(cfgs, capacity, setup, moves, final, 0);
    SavedTrackHolds(cfgs, capacity, setup, moves, final, 1);
  }

  /** The chunks hold the samples of the outputs, which are of the format given for the track, and
      all chunks but the last are as long as the track's encoder asked for, or 4096 samples when it
      did not ask. */
  predicate HoldsTrack(setup: Setup, chunks: seq<Rec.Chunk>, t: nat, outputs: seq<AudioFrame>) {
    && Files.Joined(chunks) == SamplesOf(outputs)
    && AllFit(setup.formats(t), outputs)
    && Files.FullButLast(chunks, if setup.frameSizes(t) > 0 then setup.frameSizes(t) else 4096)
  }

  lemma SavedTrackHolds(
      cfgs: nat -> Sync.Config, capacity: nat, setup: Setup, moves: seq<Move>, final: Rec.FinalTrouble, t: nat)
    requires Legal(SyncEnv(cfgs, capacity), setup, moves) && t < TRACKS
    requires var env := SyncEnv(cfgs, capacity);
      var j := Exec(env, setup, moves);
      Possible(env, j, End(final)) && Next(env, setup, j, End(final)).recorder.outcome == Saved
    ensures var j := Exec(SyncEnv(cfgs, capacity), setup, moves);
      var tracks, file := j.recorder.tracks, FileOf(setup, j, final).final;
      && file.Some? && |file.value| == |Order(tracks)|
      && (tracks[t].recorded ==>
            HoldsTrack(setup, file.value[Index(tracks, t)], t, RunsJoined(cfgs(t), tracks[t].past)))
  {
    var env := SyncEnv(cfgs, capacity);
    var j := Exec(env, setup, moves);
    var r, ok := j.recorder, EndAnswer(setup, j, final);
    ExecKeeps(env, setup, moves);
    SavedFileHoldsTheRuns(cfgs, capacity, setup, moves, final, t);
    SavedRecordingIsItsRuns(cfgs, capacity, r, ok, t);
    Threads.SavedRecordingIsComplete(env, r, ok, t);
    if r.tracks[t].recorded {
      ChunksAreFull(setup, Order(r.tracks), j.ops, final, Index(r.tracks, t));
    }
  }

  lemma ChunksAreFull(setup: Setup, order: seq<nat>, ops: seq<Files.Op>, final: Rec.FinalTrouble, i: nat)
    requires i < |order| && Answer(setup, order, ops, Files.Finalize(final))
    ensures var file := WriterOf(setup, order, ops + [Files.Finalize(final)]).disk.final;
      && file.Some? && |file.value| == |order|
      && Files.FullButLast(file.value[i],
                           if setup.frameSizes(order[i]) > 0 then setup.frameSizes(order[i]) else 4096)
  {
    var formats, sizes := Formats(setup, order), Sizes(setup, order);
    var all := ops + [Files.Finalize(final)];
    Files.RunOneMore(formats, sizes, ops, Files.Finalize(final));
    Files.FinalizedFileIsComplete(formats, sizes, all, i);
  }

  /** However the threads were interleaved and however often the recording was paused: a track of
      a saved file is never longer than the time its streams were capturing, and as long, to the
      sample, exactly when no run of losses in any of them outlasts the silence cap. */
  lemma SavedFileIsGapless(
      cfgs: nat -> Sync.Config, capacity: nat, setup: Setup, moves: seq<Move>, final: Rec.FinalTrouble, t: nat,
      src: CaptureConfig)
    requires Legal(SyncEnv(cfgs, capacity), setup, moves) && t < TRACKS
    requires var env := SyncEnv(cfgs, capacity);
      var j := Exec(env, setup, moves);
      && Possible(env, j, End(final)) && Next(env, setup, j, End(final)).recorder.outcome == Saved
      && j.recorder.tracks[t].recorded && AllScheduled(src, j.recorder.tracks[t].past)
    requires Timeline.Matched(cfgs(t), src)
    ensures var j := Exec(SyncEnv(cfgs, capacity), setup, moves);
      var tracks, file := j.recorder.tracks, FileOf(setup, j, final).final;
      && file.Some? && Index(tracks, t) < |file.value|
      && FillsSlots(src, |Files.Joined(file.value[Index(tracks, t)])|, CapturedSlots(tracks[t].past),
                    AllFilled(cfgs(t), src, tracks[t].past))
  {
    SavedFileHoldsTheRuns(cfgs, capacity, setup, moves, final, t);
    var tracks := Exec(SyncEnv(cfgs, capacity), setup, moves).recorder.tracks;
    JoinedRunsFillSlots(cfgs(t), src, tracks[t].past);
  }

  lemma FinalizedOn(setup: Setup, order: seq<nat>, ops: seq<Files.Op>, final: Rec.FinalTrouble, i: nat)
    requires i < |order| && Answer(setup, order, ops, Files.Finalize(final))
    ensures var file := WriterOf(setup, order, ops + [Files.Finalize(final)]).disk.final;
      && file.Some? && |file.value| == |order|
      && Files.Joined(file.value[i]) == AcceptedOn(setup, order, ops, i)
  {
    var formats, sizes := Formats(setup, order), Sizes(setup, order);
    Files.RunOneMore(formats, sizes, ops, Files.Finalize(final));
    FinalizedRun(formats, sizes, ops, final, i);
  }

  /** The same for one operation on a writer whose partial file is still there. */
  lemma OperationOnDisk(formats: seq<TrackFormat>, s: Rec.State, op: Files.Op)
    requires Files.Shaped(formats, s) && s.lifecycle in {Rec.Open, Rec.Failed}
    requires s.disk == Rec.Disk(true, None)
    requires op.Abort? || (op.Finalize? && s.lifecycle == Rec.Open)
    ensures var (s', ok) := Files.Applied(formats, s, op);
      if op.Abort? then !s'.disk.partial && s'.disk.final.None?
      else if ok then !s'.disk.partial && s'.disk.final.Some?
      else s'.disk.partial && s'.disk.final.None?
  {
  }

  lemma PartialIsThere(setup: Setup, order: seq<nat>, ops: seq<Files.Op>)
    requires order != [] && WriterOf(setup, order, ops).lifecycle in {Rec.Open, Rec.Failed}
    ensures WriterOf(setup, order, ops).disk == Rec.Disk(true, None)
  {
    Files.RunKeeps(Formats(setup, order), Sizes(setup, order), ops, 0);
  }

  /** What ending does to the files of a writer that was not closed before. */
  lemma EndOnDisk(setup: Setup, order: seq<nat>, ops: seq<Files.Op>, op: Option<Files.Op>)
    requires order != [] && WriterOf(setup, order, ops).lifecycle in {Rec.Open, Rec.Failed}
    requires op.None? || op.value.Abort? || (op.value.Finalize? && WriterOf(setup, order, ops).lifecycle == Rec.Open)
    ensures var disk := WriterOf(setup, order, if op.None? then ops else ops + [op.value]).disk;
      if op.None? then disk.partial && disk.final.None?
      else if op.value.Abort? then !disk.partial && disk.final.None?
      else if Answer(setup, order, ops, op.value) then !disk.partial && disk.final.Some?
      else disk.partial && disk.final.None?
  {
    PartialIsThere(setup, order, ops);
    if op.Some? {
      Files.RunOneMore(Formats(setup, order), Sizes(setup, order), ops, op.value);
      OperationOnDisk(Formats(setup, order), WriterOf(setup, order, ops), op.value);
    }
  }

  /** What closing reports, on what the recorder itself has counted. */
  function Reported(r: Frames, ok: bool): Outcome
    requires r.ui.Closing?
  {
    if r.ui.reason == ForFailedStart then Discarded
    else if r.writerFailed then Kept
    else if NothingWritten(r.tracks) then Discarded
    else if ok then Saved else Kept
  }

  lemma CloseReports(env: Env<AudioFrame, AudioFrame>, setup: Setup, j: Joint, final: Rec.FinalTrouble)
    requires Possible(env, j, End(final)) && j.recorder.writerOpen
    ensures Next(env, setup, j, End(final)).recorder.outcome == Reported(j.recorder, EndAnswer(setup, j, final))
  {
  }

  /** The same from what was done with the writer. */
  lemma ReportFollowsEnd(setup: Setup, j: Joint, final: Rec.FinalTrouble)
    requires |j.recorder.tracks| == TRACKS && j.recorder.ui.Closing? && WriterAgrees(setup, j.recorder, j.ops)
    ensures var op := EndOp(setup, j, final);
      Reported(j.recorder, EndAnswer(setup, j, final))
      == if op.None? then Kept
         else if op.value.Abort? then Discarded
         else if Answer(setup, Order(j.recorder.tracks), j.ops, op.value) then Saved
         else Kept
  {
    NothingIsNothing(setup, j.recorder, j.ops);
  }

  /** The recorder's account of the end is what is on disk: saved means the final file and no
      partial one, kept means the partial file alone, discarded means neither. */
  lemma OutcomeIsOnDisk(env: Env<AudioFrame, AudioFrame>, setup: Setup, moves: seq<Move>, final: Rec.FinalTrouble)
    requires Legal(env, setup, moves) && Possible(env, Exec(env, setup, moves), End(final))
    ensures var j := Exec(env, setup, moves);
      OnDisk(FileOf(setup, j, final), Next(env, setup, j, End(final)).recorder.outcome)
  {
    var j := Exec(env, setup, moves);
    ExecKeeps(env, setup, moves);
    EndIsOnDisk(env, setup, j, final);
  }

  predicate OnDisk(disk: Rec.Disk, outcome: Outcome) {
    && (outcome == Saved <==> disk.final.Some?)
    && (outcome == Kept <==> disk.partial)
    && (outcome == Discarded <==> disk.final.None? && !disk.partial)
  }

  lemma EndIsOnDisk(env: Env<AudioFrame, AudioFrame>, setup: Setup, j: Joint, final: Rec.FinalTrouble)
    requires JointInv(env, setup, j) && Possible(env, j, End(final))
    ensures OnDisk(FileOf(setup, j, final), Next(env, setup, j, End(final)).recorder.outcome)
  {
    var r := j.recorder;
    Threads.ReachableInv(env, r);
    CloseReports(env, setup, j, final);
    ReportFollowsEnd(setup, j, final);
    EndOnDisk(setup, Order(r.tracks), j.ops, EndOp(setup, j, final));
  }
}
