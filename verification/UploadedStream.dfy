/** What is uploaded: the recorder's threads, the producer of the transcription stream and the
    client together. However the threads interleave and however often the recording is paused,
    the client is handed one producer's frames for the feeding tracks' streams, in order. */
module UploadedStream {
  import opened Audio
  import opened Controller
  import Threads = ControllerProofs
  import Sequences
  import Up = Uploading
  import Client = SttClient
  import Stt = SttProducer
  import Streams = SttProducerProofs
  import Sync = ClockSync
  import Runs = ClockSyncProofs
  import EndToEnd

  type Frames = Recorder<AudioFrame, AudioFrame>
  type Tracks = seq<Track<AudioFrame, AudioFrame>>

  /** The producer; the history of what it was given; what the drain still has to give it of the
      frame in hand; what it made of the last and the drain still has to send; and, for each
      earlier stream of the recording, the track that fed it. */
  datatype Stream = Stream(
    producer: Stt.State,
    fed: seq<AudioFrame>,
    waiting: seq<AudioFrame>,
    outbox: seq<AudioFrame>,
    feeders: seq<nat>)

  datatype Whole = Whole(base: Up.Joint<AudioFrame, AudioFrame, AudioFrame>, stream: Stream)

  /** A step of the recorder or the client, the drain giving the producer one output, or the
      drain sending one of the frames made of it. */
  datatype Move =
    | Base(move: Up.Move<AudioFrame, AudioFrame>)
    | FeedOne(who: Thread)
    | SendNext(who: Thread)

  // ----- Moves --------------------------------------------------------------------------

  /** The transcription stream derives from the microphone when it is selected. */
  function Feeder(tracks: Tracks): nat
    requires |tracks| == TRACKS
  {
    if tracks[0].selected then 0 else 1
  }

  /** This drain is uploading outputs of the feeding track. */
  predicate Feeds(tracks: Tracks, work: Option<Work<AudioFrame>>)
    requires |tracks| == TRACKS
  {
    work.Some? && work.value.Uploading? && work.value.upload && work.value.track == Feeder(tracks)
  }

  predicate Busy(s: Stream) { s.waiting != [] || s.outbox != [] }

  predicate Possible(env: Env<AudioFrame, AudioFrame>, w: Whole, move: Move) {
    var r := w.base.recorder;
    && |r.tracks| == TRACKS
    && match move
       case Base(m) =>
         && !m.SendOne? && Up.Possible(env, w.base, m)
         && (m.Drive? && m.step.Uploaded? && Feeds(r.tracks, WorkOf(r, m.step.who)) ==> !Busy(w.stream))
       case FeedOne(who) => Feeds(r.tracks, WorkOf(r, who)) && w.stream.outbox == [] && w.stream.waiting != []
       case SendNext(who) => Feeds(r.tracks, WorkOf(r, who)) && w.stream.outbox != []
  }

  /** What a step of the recorder means for the stream. */
  function Followed(env: Env<AudioFrame, AudioFrame>, r: Frames, s: Stream, step: Step<AudioFrame>): Stream
    requires |r.tracks| == TRACKS && Enabled(env, r, step)
  {
    match step
    case CallStart(_, _) => if Apply(env, r, step).session != r.session then s.(feeders := []) else s
    case Connect(up) => if up then s.(producer := Stt.INIT, fed := [], waiting := [], outbox := []) else s
    case TakeFrame(who) =>
      var t := WorkOf(r, who).value.track;
      if r.client == Connected && t == Feeder(r.tracks) then s.(waiting := NextOutput(env, t, r.tracks[t])) else s
    case Clear => s.(feeders := s.feeders + [Feeder(r.tracks)])
    case _ => s
  }

  /** The stream after the producer was given the next output. */
  function FedNext(plan: Stt.Plan, s: Stream): Stream
    requires s.waiting != []
  {
    var (producer, made) := Stt.Step(plan, s.producer, s.waiting[0]);
    s.(producer := producer, fed := s.fed + [s.waiting[0]], waiting := s.waiting[1..], outbox := made)
  }

  function Next(env: Env<AudioFrame, AudioFrame>, capacity: nat, plan: Stt.Plan, w: Whole, move: Move): Whole
    requires Possible(env, w, move)
  {
    var s := w.stream;
    match move
    case Base(m) =>
      Whole(Up.Next(env, capacity, w.base, m),
            if m.Drive? then Followed(env, w.base.recorder, s, m.step) else s)
    case FeedOne(_) => w.(stream := FedNext(plan, s))
    case SendNext(who) =>
      Whole(Up.Next(env, capacity, w.base, Up.SendOne(who, s.outbox[0])), s.(outbox := s.outbox[1..]))
  }

  // ----- The reference ------------------------------------------------------------------

  /** The frames a client was handed, in order. */
  function Requests(history: seq<Client.Step<AudioFrame>>): seq<AudioFrame> {
    if history == [] then []
    else
      var last := history[|history| - 1];
      Requests(history[..|history| - 1]) + if last.Send? then [last.request] else []
  }

  /** Each earlier stream of the track that fed it, aligned, one after the other. */
  ghost function FedStreams(env: Env<AudioFrame, AudioFrame>, feeders: seq<nat>, one: seq<seq<AudioFrame>>,
                            two: seq<seq<AudioFrame>>): seq<AudioFrame>
    requires |feeders| == |one| == |two|
  {
    if feeders == [] then []
    else
      var n := |feeders| - 1;
      FedStreams(env, feeders[..n], one[..n], two[..n])
      + Threads.AllAligned(env, feeders[n], if feeders[n] == 0 then one[n] else two[n])
  }

  /** All that the feeding tracks gave since the recording started. */
  ghost function GivenSoFar(env: Env<AudioFrame, AudioFrame>, feeders: seq<nat>, tracks: Tracks): seq<AudioFrame>
    requires |tracks| == TRACKS && |feeders| == |tracks[0].past| == |tracks[1].past|
  {
    FedStreams(env, feeders, tracks[0].past, tracks[1].past) + tracks[Feeder(tracks)].aligned
  }

  // ----- The invariant ------------------------------------------------------------------

  predicate Paired(r: Frames, feeders: seq<nat>) {
    && |r.tracks| == TRACKS && |feeders| == |r.tracks[0].past| == |r.tracks[1].past|
    && (r.ui.Connecting? ==> feeders == [])
  }

  /** The producer and the requests are where its run over what it was given leads. */
  predicate Produced(plan: Stt.Plan, s: Stream, history: seq<Client.Step<AudioFrame>>) {
    && s.producer == Streams.Run(plan, s.fed).state
    && Requests(history) + s.outbox == Streams.Run(plan, s.fed).outputs
  }

  ghost predicate Given(env: Env<AudioFrame, AudioFrame>, r: Frames, s: Stream)
    requires Paired(r, s.feeders)
  {
    s.fed + s.waiting == GivenSoFar(env, s.feeders, r.tracks)
  }

  ghost predicate StreamInv(env: Env<AudioFrame, AudioFrame>, plan: Stt.Plan, r: Frames, s: Stream,
                            history: seq<Client.Step<AudioFrame>>) {
    && Paired(r, s.feeders)
    && (Busy(s) ==> Feeds(r.tracks, Threads.Working(r)))
    && (r.client != NoClient ==> Produced(plan, s, history) && Given(env, r, s))
  }

  ghost predicate WholeInv(env: Env<AudioFrame, AudioFrame>, capacity: nat, plan: Stt.Plan, w: Whole) {
    && Up.JointInv(env, capacity, w.base)
    && StreamInv(env, plan, w.base.recorder, w.stream, w.base.history)
  }

  // ----- The drain's own moves ----------------------------------------------------------

  lemma RequestsOneMore(history: seq<Client.Step<AudioFrame>>, step: Client.Step<AudioFrame>)
    ensures Requests(history + [step]) == Requests(history) + if step.Send? then [step.request] else []
  {
    assert (history + [step])[..|history|] == history;
  }

  lemma RunOneMore(plan: Stt.Plan, fed: seq<AudioFrame>, f: AudioFrame)
    ensures var r, r' := Streams.Run(plan, fed), Streams.Run(plan, fed + [f]);
      var (s, made) := Stt.Step(plan, r.state, f);
      r'.state == s && r'.outputs == r.outputs + made
  {
    assert Earlier(fed + [f]) == fed && Final(fed + [f]) == f;
  }

  lemma FeedProduces(plan: Stt.Plan, s: Stream, history: seq<Client.Step<AudioFrame>>)
    requires Produced(plan, s, history) && s.outbox == [] && s.waiting != []
    ensures Produced(plan, FedNext(plan, s), history)
  {
    RunOneMore(plan, s.fed, s.waiting[0]);
    Sequences.ConcatEmpty(Requests(history));
  }

  lemma FedNextMovesOne(plan: Stt.Plan, s: Stream)
    requires s.waiting != []
    ensures var s' := FedNext(plan, s);
      s'.feeders == s.feeders && s'.fed + s'.waiting == s.fed + s.waiting
  {
    assert s.fed + s.waiting == s.fed + [s.waiting[0]] + s.waiting[1..];
  }

  /** An output moved from what waits to what was given changes nothing else. */
  lemma MovedKeeps(env: Env<AudioFrame, AudioFrame>, plan: Stt.Plan, r: Frames, s: Stream, s': Stream,
                   history: seq<Client.Step<AudioFrame>>)
    requires StreamInv(env, plan, r, s, history) && Feeds(r.tracks, Threads.Working(r))
    requires s'.feeders == s.feeders && s'.fed + s'.waiting == s.fed + s.waiting
    requires Produced(plan, s, history) ==> Produced(plan, s', history)
    ensures StreamInv(env, plan, r, s', history)
  {
  }

  lemma FeedKeeps(env: Env<AudioFrame, AudioFrame>, plan: Stt.Plan, r: Frames, s: Stream,
                  history: seq<Client.Step<AudioFrame>>)
    requires StreamInv(env, plan, r, s, history) && Feeds(r.tracks, Threads.Working(r))
    requires s.outbox == [] && s.waiting != []
    ensures StreamInv(env, plan, r, FedNext(plan, s), history)
  {
    if Produced(plan, s, history) {
      FeedProduces(plan, s, history);
    }
    FedNextMovesOne(plan, s);
    MovedKeeps(env, plan, r, s, FedNext(plan, s), history);
  }

  lemma SendKeeps(env: Env<AudioFrame, AudioFrame>, plan: Stt.Plan, r: Frames, s: Stream,
                  history: seq<Client.Step<AudioFrame>>)
    requires StreamInv(env, plan, r, s, history) && Feeds(r.tracks, Threads.Working(r)) && s.outbox != []
    ensures StreamInv(env, plan, r, s.(outbox := s.outbox[1..]), history + [Client.Send(s.outbox[0])])
  {
    RequestsOneMore(history, Client.Send(s.outbox[0]));
    assert Requests(history) + s.outbox == Requests(history) + [s.outbox[0]] + s.outbox[1..];
  }

  // ----- The recorder's moves -----------------------------------------------------------

  /** What the stream's invariant depends on. */
  predicate SameForStream(r: Frames, r': Frames) {
    && |r.tracks| == |r'.tracks| == TRACKS
    && (forall t :: 0 <= t < TRACKS ==>
          && r'.tracks[t].past == r.tracks[t].past && r'.tracks[t].aligned == r.tracks[t].aligned
          && r'.tracks[t].selected == r.tracks[t].selected)
    && (r'.client != NoClient ==> r.client != NoClient)
    && (r'.ui.Connecting? ==> r.ui.Connecting?)
  }

  lemma SameKeeps(env: Env<AudioFrame, AudioFrame>, plan: Stt.Plan, r: Frames, r': Frames, s: Stream,
                  history: seq<Client.Step<AudioFrame>>, history': seq<Client.Step<AudioFrame>>)
    requires StreamInv(env, plan, r, s, history) && SameForStream(r, r')
    requires Requests(history') == Requests(history)
    requires Busy(s) ==> Feeds(r'.tracks, Threads.Working(r'))
    ensures StreamInv(env, plan, r', s, history')
  {
  }

  /** Only while a drain is uploading can the stream be busy. */
  lemma WorkLeavesStream(env: Env<AudioFrame, AudioFrame>, w: Whole, step: Step<AudioFrame>)
    requires Threads.Inv(env, w.base.recorder) && Possible(env, w, Base(Up.Drive(step)))
    requires step.NextTrack? || step.Uploaded? || step.Write?
    requires Busy(w.stream) ==> Feeds(w.base.recorder.tracks, Threads.Working(w.base.recorder))
    ensures SameForStream(w.base.recorder, Apply(env, w.base.recorder, step)) && !Busy(w.stream)
  {
    Threads.WorkerIsUnique(w.base.recorder, step.who);
  }

  lemma OpenLeavesStream(r: Frames, t: nat, resuming: bool, ok: bool)
    requires |r.tracks| == TRACKS
    ensures SameForStream(r, Opened(r, t, resuming, ok))
    ensures Threads.Working(Opened(r, t, resuming, ok)) == (if r.ui.Draining? then r.drain else Threads.Working(r))
  {
  }

  lemma TracksLeaveStream(env: Env<AudioFrame, AudioFrame>, r: Frames, step: Step<AudioFrame>)
    requires |r.tracks| == TRACKS && Enabled(env, r, step) && (step.Capture? || step.Install? || step.Silence?)
    ensures SameForStream(r, Apply(env, r, step))
    ensures Threads.Working(Apply(env, r, step)) == Threads.Working(r)
  {
  }

  predicate IsPlain(step: Step<AudioFrame>) {
    || step.CallPause? || step.CallStop? || step.LockPipelines? || step.Close? || step.Dismiss? || step.Leave?
    || step.DrainLock? || step.DrainUnlock?
  }

  lemma PlainLeavesStream(env: Env<AudioFrame, AudioFrame>, r: Frames, step: Step<AudioFrame>)
    requires Threads.Exclusive(r) && |r.tracks| == TRACKS && Enabled(env, r, step) && IsPlain(step)
    ensures SameForStream(r, Apply(env, r, step))
    ensures Feeds(r.tracks, Threads.Working(r)) ==> Threads.Working(Apply(env, r, step)) == Threads.Working(r)
  {
  }

  /** What a frame's outputs add to all that was given. */
  lemma MoreIsGiven(env: Env<AudioFrame, AudioFrame>, feeders: seq<nat>, tracks: Tracks, t: nat,
                    taken: Track<AudioFrame, AudioFrame>, more: seq<AudioFrame>)
    requires |tracks| == TRACKS && t < TRACKS && |feeders| == |tracks[0].past| == |tracks[1].past|
    requires taken.past == tracks[t].past && taken.selected == tracks[t].selected
    requires taken.aligned == tracks[t].aligned + more
    ensures GivenSoFar(env, feeders, tracks[t := taken])
         == GivenSoFar(env, feeders, tracks) + if t == Feeder(tracks) then more else []
  {
    Sequences.Associate(FedStreams(env, feeders, tracks[0].past, tracks[1].past), tracks[t].aligned, more);
    Sequences.ConcatEmpty(GivenSoFar(env, feeders, tracks));
  }

  /** A frame of the feeding track taken while there is a client waits for the producer. */
  lemma TakeKeeps(env: Env<AudioFrame, AudioFrame>, plan: Stt.Plan, r: Frames, s: Stream,
                  history: seq<Client.Step<AudioFrame>>, who: Thread)
    requires Threads.Inv(env, r) && StreamInv(env, plan, r, s, history) && Enabled(env, r, TakeFrame(who))
    ensures StreamInv(env, plan, Apply(env, r, TakeFrame(who)), Followed(env, r, s, TakeFrame(who)), history)
  {
    Threads.WorkerIsUnique(r, who);
    var t := WorkOf(r, who).value.track;
    assert Threads.UiTrackInv(r, t) && !Busy(s);
    MoreIsGiven(env, s.feeders, r.tracks, t, Taken(env, t, r.tracks[t]), NextOutput(env, t, r.tracks[t]));
    Sequences.ConcatEmpty(s.fed);
    Sequences.ConcatEmpty(GivenSoFar(env, s.feeders, r.tracks));
  }

  lemma FedOneMore(env: Env<AudioFrame, AudioFrame>, feeders: seq<nat>, one: seq<seq<AudioFrame>>,
                   two: seq<seq<AudioFrame>>, k: nat, a: seq<AudioFrame>, b: seq<AudioFrame>)
    requires |feeders| == |one| == |two|
    ensures FedStreams(env, feeders + [k], one + [a], two + [b])
         == FedStreams(env, feeders, one, two) + Threads.AllAligned(env, k, if k == 0 then a else b)
  {
    var n := |feeders|;
    assert (feeders + [k])[..n] == feeders && (one + [a])[..n] == one && (two + [b])[..n] == two;
  }

  lemma NothingMoreIsGiven(env: Env<AudioFrame, AudioFrame>, r: Frames, feeders: seq<nat>)
    requires Threads.Inv(env, r) && Enabled(env, r, Clear) && Paired(r, feeders)
    ensures Paired(Apply(env, r, Clear), feeders + [Feeder(r.tracks)])
    ensures GivenSoFar(env, feeders + [Feeder(r.tracks)], Cleared(r.tracks)) == GivenSoFar(env, feeders, r.tracks)
  {
    var k, tracks := Feeder(r.tracks), r.tracks;
    assert Threads.TrackInv(env, r, k) && Threads.UiTrackInv(r, k);
    Sequences.ConcatEmpty(tracks[k].processed);
    FedOneMore(env, feeders, tracks[0].past, tracks[1].past, k, tracks[0].accepted, tracks[1].accepted);
    Sequences.ConcatEmpty(GivenSoFar(env, feeders, tracks));
  }

  /** When the pipelines go, the feeding track's stream joins those before it. */
  lemma ClearKeeps(env: Env<AudioFrame, AudioFrame>, plan: Stt.Plan, r: Frames, s: Stream,
                   history: seq<Client.Step<AudioFrame>>)
    requires Threads.Inv(env, r) && StreamInv(env, plan, r, s, history) && Enabled(env, r, Clear)
    ensures StreamInv(env, plan, Apply(env, r, Clear), Followed(env, r, s, Clear), history)
  {
    NothingMoreIsGiven(env, r, s.feeders);
  }

  /** start and resume choose tracks, and thereby the feeder, while every pipeline is empty. */
  lemma ChooseKeeps(env: Env<AudioFrame, AudioFrame>, plan: Stt.Plan, r: Frames, s: Stream,
                    history: seq<Client.Step<AudioFrame>>, step: Step<AudioFrame>)
    requires Threads.Inv(env, r) && StreamInv(env, plan, r, s, history) && Enabled(env, r, step)
    requires step.CallStart? || step.CallResume?
    ensures StreamInv(env, plan, Apply(env, r, step), Followed(env, r, s, step), history)
  {
    assert Threads.UiTrackInv(r, 0) && Threads.UiTrackInv(r, 1);
  }

  /** A connection makes a new client and a new producer. */
  lemma ConnectKeeps(env: Env<AudioFrame, AudioFrame>, plan: Stt.Plan, r: Frames, s: Stream, up: bool,
                     history: seq<Client.Step<AudioFrame>>)
    requires Threads.Inv(env, r) && StreamInv(env, plan, r, s, history) && Enabled(env, r, Connect(up))
    ensures StreamInv(env, plan, Apply(env, r, Connect(up)), Followed(env, r, s, Connect(up)),
                      [Client.Start(up)])
  {
    assert Threads.UiTrackInv(r, 0) && Threads.UiTrackInv(r, 1);
    var started: seq<Client.Step<AudioFrame>> := [Client.Start(up)];
    assert Requests(started) == [] && started == [Client.Start(up)];
  }

  // ----- Every move keeps it --------------------------------------------------------------

  lemma AskedForNoFrame(capacity: nat, j: Up.Joint<AudioFrame, AudioFrame, AudioFrame>, step: Step<AudioFrame>)
    ensures step.Connect? ==> Up.Asking(capacity, j, step).history == [Client.Start(step.up)]
    ensures !step.Connect? ==> Requests(Up.Asking(capacity, j, step).history) == Requests(j.history)
    ensures !step.Connect? && !step.Dismiss? && !step.Leave? ==> Up.Asking(capacity, j, step).history == j.history
  {
    RequestsOneMore(j.history, Client.StopBegin);
    RequestsOneMore(j.history, Client.StopEnd);
    Sequences.ConcatEmpty(Requests(j.history));
  }

  predicate MovesStream(step: Step<AudioFrame>) {
    step.TakeFrame? || step.Clear? || step.CallStart? || step.CallResume?
  }

  lemma MoverKeeps(env: Env<AudioFrame, AudioFrame>, plan: Stt.Plan, r: Frames, s: Stream, step: Step<AudioFrame>,
                   history: seq<Client.Step<AudioFrame>>)
    requires Threads.Inv(env, r) && StreamInv(env, plan, r, s, history) && Enabled(env, r, step) && MovesStream(step)
    ensures StreamInv(env, plan, Apply(env, r, step), Followed(env, r, s, step), history)
  {
    if step.TakeFrame? {
      TakeKeeps(env, plan, r, s, history, step.who);
    } else if step.Clear? {
      ClearKeeps(env, plan, r, s, history);
    } else {
      ChooseKeeps(env, plan, r, s, history, step);
    }
  }

  lemma OtherKeeps(env: Env<AudioFrame, AudioFrame>, plan: Stt.Plan, w: Whole, step: Step<AudioFrame>,
                   history': seq<Client.Step<AudioFrame>>)
    requires var r := w.base.recorder;
      Threads.Inv(env, r) && StreamInv(env, plan, r, w.stream, w.base.history)
    requires Possible(env, w, Base(Up.Drive(step))) && !MovesStream(step) && !step.Connect?
    requires Requests(history') == Requests(w.base.history)
    ensures StreamInv(env, plan, Apply(env, w.base.recorder, step), w.stream, history')
  {
    var r := w.base.recorder;
    if step.NextTrack? || step.Uploaded? || step.Write? {
      WorkLeavesStream(env, w, step);
    } else if step.Open? {
      OpenLeavesStream(r, r.ui.track, r.ui.resuming, step.ok);
    } else if step.Capture? || step.Install? || step.Silence? {
      TracksLeaveStream(env, r, step);
    } else {
      PlainLeavesStream(env, r, step);
    }
    SameKeeps(env, plan, r, Apply(env, r, step), w.stream, w.base.history, history');
  }

  lemma DriveKeeps(env: Env<AudioFrame, AudioFrame>, capacity: nat, plan: Stt.Plan, w: Whole, step: Step<AudioFrame>)
    requires WholeInv(env, capacity, plan, w) && Possible(env, w, Base(Up.Drive(step)))
    ensures WholeInv(env, capacity, plan, Next(env, capacity, plan, w, Base(Up.Drive(step))))
  {
    Up.NextKeeps(env, capacity, w.base, Up.Drive(step));
    AskedForNoFrame(capacity, w.base, step);
    if step.Connect? {
      ConnectKeeps(env, plan, w.base.recorder, w.stream, step.up, w.base.history);
    } else if MovesStream(step) {
      MoverKeeps(env, plan, w.base.recorder, w.stream, step, w.base.history);
    } else {
      OtherKeeps(env, plan, w, step, Up.Asking(capacity, w.base, step).history);
    }
  }

  lemma NextKeeps(env: Env<AudioFrame, AudioFrame>, capacity: nat, plan: Stt.Plan, w: Whole, move: Move)
    requires WholeInv(env, capacity, plan, w) && Possible(env, w, move)
    ensures WholeInv(env, capacity, plan, Next(env, capacity, plan, w, move))
  {
    var r, s := w.base.recorder, w.stream;
    match move
    case FeedOne(who) =>
      Threads.WorkerIsUnique(r, who);
      FeedKeeps(env, plan, r, s, w.base.history);
    case SendNext(who) =>
      Threads.WorkerIsUnique(r, who);
      Up.NextKeeps(env, capacity, w.base, Up.SendOne(who, s.outbox[0]));
      SendKeeps(env, plan, r, s, w.base.history);
    case Base(m) =>
      if m.Drive? {
        DriveKeeps(env, capacity, plan, w, m.step);
      } else {
        Up.NextKeeps(env, capacity, w.base, m);
        RequestsOneMore(w.base.history, m.own);
        Sequences.ConcatEmpty(Requests(w.base.history));
      }
  }

  // ----- Runs ---------------------------------------------------------------------------

  ghost predicate Legal(env: Env<AudioFrame, AudioFrame>, capacity: nat, plan: Stt.Plan, moves: seq<Move>)
    decreases |moves|, 0
  {
    moves != [] ==>
      && Legal(env, capacity, plan, moves[..|moves| - 1])
      && Possible(env, Exec(env, capacity, plan, moves[..|moves| - 1]), moves[|moves| - 1])
  }

  /** Recorder, client and producer after an interleaving of all threads. */
  ghost function Exec(env: Env<AudioFrame, AudioFrame>, capacity: nat, plan: Stt.Plan, moves: seq<Move>): Whole
    requires Legal(env, capacity, plan, moves)
    decreases |moves|, 1
  {
    if moves == [] then Whole(Up.Opening(capacity), Stream(Stt.INIT, [], [], [], []))
    else Next(env, capacity, plan, Exec(env, capacity, plan, moves[..|moves| - 1]), moves[|moves| - 1])
  }

  lemma {:induction false} ExecKeeps(env: Env<AudioFrame, AudioFrame>, capacity: nat, plan: Stt.Plan, moves: seq<Move>)
    requires Legal(env, capacity, plan, moves)
    ensures WholeInv(env, capacity, plan, Exec(env, capacity, plan, moves))
  {
    if moves == [] {
      Threads.LaunchedInv<AudioFrame, AudioFrame>(env);
      Up.FreshIsTracked<AudioFrame>(capacity);
    } else {
      var init := moves[..|moves| - 1];
      ExecKeeps(env, capacity, plan, init);
      NextKeeps(env, capacity, plan, Exec(env, capacity, plan, init), moves[|moves| - 1]);
    }
  }

  // ----- Which track is uploaded ----------------------------------------------------------

  /** Whatever the threads do, what is given to the producer or sent is from the microphone while
      it is selected and from system output otherwise, and that track is selected and captured. */
  lemma MicrophoneIsUploaded(env: Env<AudioFrame, AudioFrame>, capacity: nat, plan: Stt.Plan, moves: seq<Move>,
                             move: Move)
    requires Legal(env, capacity, plan, moves) && (move.FeedOne? || move.SendNext?)
    requires Possible(env, Exec(env, capacity, plan, moves), move)
    ensures var r := Exec(env, capacity, plan, moves).base.recorder;
      && |r.tracks| == TRACKS
      && WorkOf(r, move.who).Some? && WorkOf(r, move.who).value.Uploading?
      && var track := WorkOf(r, move.who).value.track;
         && track < TRACKS
         && (track == 0 <==> r.tracks[0].selected)
         && r.tracks[track].selected && r.tracks[track].installed
  {
    var r := Exec(env, capacity, plan, moves).base.recorder;
    ExecKeeps(env, capacity, plan, moves);
    Threads.WorkerIsUnique(r, move.who);
    assert Threads.TrackInv(env, r, WorkOf(r, move.who).value.track);
  }

  /** Of each earlier stream of the recording, whether the microphone was selected for it. */
  ghost function MicrophoneWas(env: Env<AudioFrame, AudioFrame>, capacity: nat, plan: Stt.Plan, moves: seq<Move>):
    seq<bool>
    requires Legal(env, capacity, plan, moves)
  {
    if moves == [] then []
    else
      var init, move := moves[..|moves| - 1], moves[|moves| - 1];
      var r := Exec(env, capacity, plan, init).base.recorder;
      var earlier := MicrophoneWas(env, capacity, plan, init);
      if !move.Base? || !move.move.Drive? then earlier
      else if move.move.step.Clear? then earlier + [r.tracks[0].selected]
      else if move.move.step.CallStart? && r.session == Idle
              && Exec(env, capacity, plan, moves).base.recorder.session == Recording then []
      else earlier
  }

  /** Each earlier stream was uploaded from the microphone if and only if the microphone was
      selected for it. */
  predicate FollowMicrophone(feeders: seq<nat>, was: seq<bool>) {
    && |feeders| == |was|
    && forall i :: 0 <= i < |was| ==> feeders[i] == if was[i] then 0 else 1
  }

  lemma StartForgets(env: Env<AudioFrame, AudioFrame>, r: Frames, s: Stream, step: Step<AudioFrame>)
    requires |r.tracks| == TRACKS && Enabled(env, r, step) && step.CallStart?
    ensures Apply(env, r, step).session != r.session
       <==> r.session == Idle && Apply(env, r, step).session == Recording
  {
  }

  lemma {:induction false} FeedersFollowMicrophone(
      env: Env<AudioFrame, AudioFrame>, capacity: nat, plan: Stt.Plan, moves: seq<Move>)
    requires Legal(env, capacity, plan, moves)
    ensures FollowMicrophone(Exec(env, capacity, plan, moves).stream.feeders,
                             MicrophoneWas(env, capacity, plan, moves))
  {
    if moves == [] {
    } else {
      var init, move := moves[..|moves| - 1], moves[|moves| - 1];
      FeedersFollowMicrophone(env, capacity, plan, init);
      var w := Exec(env, capacity, plan, init);
      if move.Base? && move.move.Drive? && move.move.step.CallStart? {
        StartForgets(env, w.base.recorder, w.stream, move.move.step);
      }
    }
  }

  // ----- Main results -------------------------------------------------------------------

  lemma {:induction false} RunGrows(plan: Stt.Plan, fed: seq<AudioFrame>, more: seq<AudioFrame>)
    ensures Streams.Run(plan, fed).outputs <= Streams.Run(plan, fed + more).outputs
  {
    if more == [] {
      assert fed + more == fed;
    } else {
      var init, last := more[..|more| - 1], more[|more| - 1];
      RunGrows(plan, fed, init);
      RunOneMore(plan, fed + init, last);
      Sequences.SplitLast(more);
      Sequences.Associate(fed, init, [last]);
    }
  }

  lemma OnlySendsAreCalls(c: Client.Client<AudioFrame>, step: Client.Step<AudioFrame>)
    requires Client.Enabled(c, step)
    ensures Client.Apply(c, step).calls == c.calls + if step.Send? then 1 else 0
  {
  }

  lemma {:induction false} CallsAreRequests(c: Client.Client<AudioFrame>, history: seq<Client.Step<AudioFrame>>)
    requires Client.Legal(c, history)
    ensures Client.Exec(c, history).calls == c.calls + |Requests(history)|
  {
    if history == [] {
    } else {
      var init := history[..|history| - 1];
      CallsAreRequests(c, init);
      OnlySendsAreCalls(Client.Exec(c, init), history[|history| - 1]);
    }
  }

  /** While the owner takes the client away, nothing is left to feed or to send. */
  lemma HangingUpIsQuiet(env: Env<AudioFrame, AudioFrame>, plan: Stt.Plan, r: Frames, s: Stream,
                         history: seq<Client.Step<AudioFrame>>)
    requires Threads.Inv(env, r) && StreamInv(env, plan, r, s, history) && r.client == HangingUp
    ensures !Busy(s) && s.fed == FedStreams(env, s.feeders, r.tracks[0].past, r.tracks[1].past)
    ensures Requests(history) == Streams.Run(plan, s.fed).outputs
  {
    assert Threads.UiTrackInv(r, 0) && Threads.UiTrackInv(r, 1);
    Sequences.ConcatEmpty(s.fed);
    Sequences.ConcatEmpty(Requests(history));
    Sequences.ConcatEmpty(FedStreams(env, s.feeders, r.tracks[0].past, r.tracks[1].past));
  }

  lemma RequestsArePrefix(env: Env<AudioFrame, AudioFrame>, plan: Stt.Plan, r: Frames, s: Stream,
                          history: seq<Client.Step<AudioFrame>>)
    requires StreamInv(env, plan, r, s, history) && r.client != NoClient
    ensures Requests(history) <= Streams.Run(plan, GivenSoFar(env, s.feeders, r.tracks)).outputs
  {
    RunGrows(plan, s.fed, s.waiting);
    Sequences.PrefixOfPrefix(Requests(history), Streams.Run(plan, s.fed).outputs,
                             Streams.Run(plan, s.fed + s.waiting).outputs);
  }

  /** In every interleaving, as long as there is a client, the frames it was handed are a first
      part of one producer's output over all the feeding tracks gave, each one call of sendFrame
      and none handed twice. Once stop takes the client away they are all of it: one run of the
      producer over each stream of the recording, taken from the microphone where it was selected
      and from system output otherwise. */
  lemma UploadIsOneRun(env: Env<AudioFrame, AudioFrame>, capacity: nat, plan: Stt.Plan, moves: seq<Move>)
    requires Legal(env, capacity, plan, moves) && Exec(env, capacity, plan, moves).base.recorder.client != NoClient
    ensures var w := Exec(env, capacity, plan, moves);
      var tracks, feeders, requests := w.base.recorder.tracks, w.stream.feeders, Requests(w.base.history);
      && |tracks| == TRACKS && |feeders| == |tracks[0].past| == |tracks[1].past|
      && w.base.client.calls == |requests|
      && FollowMicrophone(feeders, MicrophoneWas(env, capacity, plan, moves))
      && requests <= Streams.Run(plan, GivenSoFar(env, feeders, tracks)).outputs
      && (w.base.recorder.client == HangingUp ==>
            requests == Streams.Run(plan, FedStreams(env, feeders, tracks[0].past, tracks[1].past)).outputs)
  {
    ExecKeeps(env, capacity, plan, moves);
    FeedersFollowMicrophone(env, capacity, plan, moves);
    var w := Exec(env, capacity, plan, moves);
    CallsAreRequests(Client.Fresh(capacity), w.base.history);
    RequestsArePrefix(env, plan, w.base.recorder, w.stream, w.base.history);
    if w.base.recorder.client == HangingUp {
      HangingUpIsQuiet(env, plan, w.base.recorder, w.stream, w.base.history);
    }
  }

  // ----- With the synchronizers in place --------------------------------------------------

  /** Each stream through a fresh synchronizer of the track that fed it, one after the other. */
  function FedRuns(cfgs: nat -> Sync.Config, feeders: seq<nat>, one: seq<seq<AudioFrame>>,
                   two: seq<seq<AudioFrame>>): seq<AudioFrame>
    requires |feeders| == |one| == |two|
  {
    if feeders == [] then []
    else
      var n := |feeders| - 1;
      FedRuns(cfgs, feeders[..n], one[..n], two[..n])
      + Runs.Run(cfgs(feeders[n]), if feeders[n] == 0 then one[n] else two[n]).output
  }

  lemma {:induction false} FedStreamsAreRuns(cfgs: nat -> Sync.Config, capacity: nat, feeders: seq<nat>,
                                             one: seq<seq<AudioFrame>>, two: seq<seq<AudioFrame>>)
    requires |feeders| == |one| == |two|
    ensures FedStreams(EndToEnd.SyncEnv(cfgs, capacity), feeders, one, two) == FedRuns(cfgs, feeders, one, two)
  {
    if feeders == [] {
    } else {
      var n := |feeders| - 1;
      FedStreamsAreRuns(cfgs, capacity, feeders[..n], one[..n], two[..n]);
      EndToEnd.AlignedIsRun(cfgs, capacity, feeders[n], if feeders[n] == 0 then one[n] else two[n]);
    }
  }

  /** What a stopped session was handed, from the captured frames on. */
  lemma UploadIsItsRuns(cfgs: nat -> Sync.Config, ring: nat, capacity: nat, plan: Stt.Plan, moves: seq<Move>)
    requires Legal(EndToEnd.SyncEnv(cfgs, ring), capacity, plan, moves)
    requires Exec(EndToEnd.SyncEnv(cfgs, ring), capacity, plan, moves).base.recorder.client == HangingUp
    ensures var w := Exec(EndToEnd.SyncEnv(cfgs, ring), capacity, plan, moves);
      var tracks, feeders := w.base.recorder.tracks, w.stream.feeders;
      && |tracks| == TRACKS && |feeders| == |tracks[0].past| == |tracks[1].past|
      && FollowMicrophone(feeders, MicrophoneWas(EndToEnd.SyncEnv(cfgs, ring), capacity, plan, moves))
      && Requests(w.base.history)
         == Streams.Run(plan, FedRuns(cfgs, feeders, tracks[0].past, tracks[1].past)).outputs
  {
    UploadIsOneRun(EndToEnd.SyncEnv(cfgs, ring), capacity, plan, moves);
    var w := Exec(EndToEnd.SyncEnv(cfgs, ring), capacity, plan, moves);
    FedStreamsAreRuns(cfgs, ring, w.stream.feeders, w.base.recorder.tracks[0].past, w.base.recorder.tracks[1].past);
  }

  // ----- The stream after a pause ---------------------------------------------------------

  lemma FirstCall(cfg: Sync.Config, f: AudioFrame)
    ensures Runs.CallOn(cfg, Sync.INIT, f).silence == []
    ensures Runs.CallOn(cfg, Sync.INIT, f).aligned == f.(sequence := 0)
  {
  }

  /** A fresh synchronizer's first output is the first frame, flagged as it was captured. */
  lemma {:induction false} FirstOutputIsAsCaptured(cfg: Sync.Config, frames: seq<AudioFrame>)
    requires frames != []
    ensures var output := Runs.Run(cfg, frames).output;
      output != [] && output[0] == frames[0].(sequence := 0)
  {
    Runs.CallsUnfold(cfg, frames);
    if Earlier(frames) == [] {
      FirstCall(cfg, frames[0]);
      assert Runs.Run(cfg, Earlier(frames)).output == [] && Final(frames) == frames[0];
    } else {
      FirstOutputIsAsCaptured(cfg, Earlier(frames));
    }
  }

  /** The producer is kept across a pause while the synchronizer is not. Where its frames resume,
      the filter runs on from the audio before the pause, unless the first frame captured after
      it is flagged or the producer had been given nothing yet. */
  lemma PauseIsHeardExactlyIfFlagged(cfg: Sync.Config, plan: Stt.Plan, before: seq<AudioFrame>, frames: seq<AudioFrame>)
    requires frames != [] && Stt.Accepts(plan, frames[0])
    ensures var after := Runs.Run(cfg, frames).output;
      Streams.Stretches(plan, before + after) == Streams.Stretches(plan, before) + Streams.Stretches(plan, after)
      <==> frames[0].discontinuity || Streams.Stretches(plan, before) == []
  {
    var after := Runs.Run(cfg, frames).output;
    FirstOutputIsAsCaptured(cfg, frames);
    Streams.FirstFlagIsOnFirst(plan, after);
    Streams.FirstFlagIsFirst(plan, after);
    Streams.SpliceIsHeardExactlyUnflagged(plan, before, after);
  }

  function FormatOf(cfg: Sync.Config): TrackFormat { TrackFormat(cfg.sampleRate, cfg.channels, cfg.format) }

  predicate AllFit(format: TrackFormat, frames: seq<AudioFrame>) {
    forall i :: 0 <= i < |frames| ==> format.Fits(frames[i])
  }

  lemma CallFits(cfg: Sync.Config, s: Sync.State, f: AudioFrame)
    requires FormatOf(cfg).Fits(f)
    ensures var c := Runs.CallOn(cfg, s, f);
      AllFit(FormatOf(cfg), c.silence) && FormatOf(cfg).Fits(c.aligned)
  {
    Runs.StepEffects(cfg, s, f);
  }

  lemma MoreFit(format: TrackFormat, outputs: seq<AudioFrame>, silence: seq<AudioFrame>, f: AudioFrame)
    requires AllFit(format, outputs) && AllFit(format, silence) && format.Fits(f)
    ensures AllFit(format, outputs + silence + [f])
  {
  }

  lemma {:induction false} OutputsFit(cfg: Sync.Config, frames: seq<AudioFrame>)
    requires AllFit(FormatOf(cfg), frames)
    ensures AllFit(FormatOf(cfg), Runs.Run(cfg, frames).output)
  {
    if frames == [] {
    } else {
      Runs.CallsUnfold(cfg, frames);
      OutputsFit(cfg, Earlier(frames));
      var s := Runs.Reached(Runs.Calls(cfg, Earlier(frames)));
      var c := Runs.CallOn(cfg, s, Final(frames));
      CallFits(cfg, s, Final(frames));
      MoreFit(FormatOf(cfg), Runs.Run(cfg, Earlier(frames)).output, c.silence, c.aligned);
    }
  }

  /** A stream of one format meets a producer made for another: every output of it is rejected and
      counted, and nothing more is uploaded, exactly when the formats differ or the stream is
      empty. So it is when a recording begun with the microphone goes on with system output. */
  lemma OtherFeederIsRejected(cfg: Sync.Config, plan: Stt.Plan, before: seq<AudioFrame>, frames: seq<AudioFrame>)
    requires AllFit(FormatOf(cfg), frames)
    ensures var after := Runs.Run(cfg, frames).output;
      var r, r' := Streams.Run(plan, before), Streams.Run(plan, before + after);
      && (r'.state.rejectedFrames == r.state.rejectedFrames + |after|
          <==> FormatOf(cfg) != plan.input || frames == [])
      && (FormatOf(cfg) != plan.input ==> r'.outputs == r.outputs)
  {
    var after := Runs.Run(cfg, frames).output;
    OutputsFit(cfg, frames);
    Streams.OtherFormatIsRejected(plan, before, after);
    if frames != [] {
      FirstOutputIsAsCaptured(cfg, frames);
    }
  }

  // ----- Both tracks at once ----------------------------------------------------------------

  ghost predicate IsReachable(env: Env<AudioFrame, AudioFrame>, capacity: nat, plan: Stt.Plan, w: Whole) {
    exists moves :: Legal(env, capacity, plan, moves) && Exec(env, capacity, plan, moves) == w
  }

  lemma MoveReaches(env: Env<AudioFrame, AudioFrame>, capacity: nat, plan: Stt.Plan, w: Whole, move: Move, w': Whole)
    requires IsReachable(env, capacity, plan, w) && Possible(env, w, move)
    requires w' == Next(env, capacity, plan, w, move)
    ensures IsReachable(env, capacity, plan, w')
  {
    var moves :| Legal(env, capacity, plan, moves) && Exec(env, capacity, plan, moves) == w;
    var more := moves + [move];
    assert more[..|more| - 1] == moves;
    assert Legal(env, capacity, plan, more) && Exec(env, capacity, plan, more) == w';
  }

  function Selected(): Track<AudioFrame, AudioFrame> {
    Track(true, true, false, false, [], [], [], [], [], [])
  }

  function Captured(): Track<AudioFrame, AudioFrame> { Selected().(capturing := true, installed := true) }

  /** A recording of both tracks with a client connected, the call of start and the drain having
      come as far as `ui` and `drain` say. */
  function BothOn(ui: Ui<AudioFrame>, drain: Option<Work<AudioFrame>>, one: Track<AudioFrame, AudioFrame>,
                  two: Track<AudioFrame, AudioFrame>): Frames
  {
    Recorder(Recording, if drain.Some? then DrainThread else Nobody, drain, ui, [one, two], true, false, Connected,
             Pending)
  }

  function Started(capacity: nat): Client.Client<AudioFrame> {
    Client.Apply(Client.Fresh(capacity), Client.Start(true))
  }

  function WholeOf(capacity: nat, r: Frames, s: Stream): Whole {
    Whole(Up.Joint(r, Started(capacity), [Client.Start(true)]), s)
  }

  const UNFED := Stream(Stt.INIT, [], [], [], [])

  /** The recorder gets here with a session just started and nothing given to the producer yet. */
  ghost predicate Reaches(env: Env<AudioFrame, AudioFrame>, capacity: nat, plan: Stt.Plan, r: Frames) {
    IsReachable(env, capacity, plan, WholeOf(capacity, r, UNFED))
  }

  lemma BothConnectedIsReachable(env: Env<AudioFrame, AudioFrame>, capacity: nat, plan: Stt.Plan)
    ensures Reaches(env, capacity, plan, BothOn(Opening(0, false), None, Selected(), Selected()))
  {
    var w := Whole(Up.Opening(capacity), UNFED);
    assert Legal(env, capacity, plan, []) && Exec(env, capacity, plan, []) == w;
    var begun := BothOn(Connecting, None, Selected(), Selected()).(client := NoClient);
    var w1 := Whole(Up.Joint(begun, Client.Fresh(capacity), []), UNFED);
    assert Begun(w.base.recorder.tracks, [true, true]) == begun.tracks;
    MoveReaches(env, capacity, plan, w, Base(Up.Drive(CallStart([true, true], true))), w1);
    ConnectReaches(env, capacity, plan, w1);
  }

  lemma ConnectReaches(env: Env<AudioFrame, AudioFrame>, capacity: nat, plan: Stt.Plan, w: Whole)
    requires w == Whole(Up.Joint(BothOn(Connecting, None, Selected(), Selected()).(client := NoClient),
                                 Client.Fresh(capacity), []), UNFED)
    requires IsReachable(env, capacity, plan, w)
    ensures Reaches(env, capacity, plan, BothOn(Opening(0, false), None, Selected(), Selected()))
  {
    MoveReaches(env, capacity, plan, w, Base(Up.Drive(Connect(true))),
                WholeOf(capacity, BothOn(Opening(0, false), None, Selected(), Selected()), UNFED));
  }

  /** A step of the recorder alone, from one explicit state to the next. */
  lemma DriveReaches(env: Env<AudioFrame, AudioFrame>, capacity: nat, plan: Stt.Plan, r: Frames, r': Frames,
                     step: Step<AudioFrame>)
    requires Reaches(env, capacity, plan, r)
    requires |r.tracks| == TRACKS && Enabled(env, r, step) && r' == Apply(env, r, step)
    requires step.Open? || step.Install? || step.Capture? || step.DrainLock?
    ensures Reaches(env, capacity, plan, r')
  {
    MoveReaches(env, capacity, plan, WholeOf(capacity, r, UNFED), Base(Up.Drive(step)), WholeOf(capacity, r', UNFED));
  }

  lemma MicrophoneOnIsReachable(env: Env<AudioFrame, AudioFrame>, capacity: nat, plan: Stt.Plan)
    ensures Reaches(env, capacity, plan, BothOn(Opening(1, false), None, Captured(), Selected()))
  {
    BothConnectedIsReachable(env, capacity, plan);
    var opening := BothOn(Opening(0, false), None, Selected(), Selected());
    var staged := BothOn(Staged(0, false), None, Captured().(installed := false), Selected());
    var on := BothOn(Opening(1, false), None, Captured(), Selected());
    assert opening.tracks[0 := staged.tracks[0]] == staged.tracks && staged.tracks[0 := on.tracks[0]] == on.tracks;
    DriveReaches(env, capacity, plan, opening, staged, Open(true));
    DriveReaches(env, capacity, plan, staged, on, Install);
  }

  lemma BothOnIsReachable(env: Env<AudioFrame, AudioFrame>, capacity: nat, plan: Stt.Plan)
    ensures Reaches(env, capacity, plan, BothOn(Opening(2, false), None, Captured(), Captured()))
  {
    MicrophoneOnIsReachable(env, capacity, plan);
    var opening := BothOn(Opening(1, false), None, Captured(), Selected());
    var staged := BothOn(Staged(1, false), None, Captured(), Captured().(installed := false));
    var on := BothOn(Opening(2, false), None, Captured(), Captured());
    assert opening.tracks[1 := staged.tracks[1]] == staged.tracks && staged.tracks[1 := on.tracks[1]] == on.tracks;
    DriveReaches(env, capacity, plan, opening, staged, Open(true));
    DriveReaches(env, capacity, plan, staged, on, Install);
  }

  function Heard(f: AudioFrame): Track<AudioFrame, AudioFrame> { Captured().(queue := [f], accepted := [f]) }

  lemma BothHeardIsReachable(env: Env<AudioFrame, AudioFrame>, capacity: nat, plan: Stt.Plan, f: AudioFrame)
    requires env.capacity > 0
    ensures IsReachable(env, capacity, plan, WholeOf(capacity, BothOn(Ready, Some(At(0)), Heard(f), Captured()), UNFED))
  {
    BothOnIsReachable(env, capacity, plan);
    var opening := BothOn(Opening(2, false), None, Captured(), Captured());
    var ready := BothOn(Ready, None, Captured(), Captured());
    var heard := BothOn(Ready, None, Heard(f), Captured());
    assert opening.tracks[0].selected;
    DriveReaches(env, capacity, plan, opening, ready, Open(true));
    assert [] + [f] == [f] && ready.tracks[0 := heard.tracks[0]] == heard.tracks;
    DriveReaches(env, capacity, plan, ready, heard, Capture(0, f, true));
    DriveReaches(env, capacity, plan, heard, heard.(holder := DrainThread, drain := Some(At(0))), DrainLock);
  }

  /** The microphone's frame has been aligned to one output. */
  function Aligned(f: AudioFrame, output: AudioFrame): Frames {
    BothOn(Ready, Some(Uploading(0, true, [output])),
           Captured().(accepted := [f], processed := [f], aligned := [output]), Captured())
  }

  lemma TakenIsReachable(env: Env<AudioFrame, AudioFrame>, capacity: nat, plan: Stt.Plan, f: AudioFrame,
                         output: AudioFrame)
    requires env.capacity > 0 && env.align(0, [], f) == [output]
    ensures IsReachable(env, capacity, plan, WholeOf(capacity, Aligned(f, output), UNFED.(waiting := [output])))
  {
    BothHeardIsReachable(env, capacity, plan, f);
    var r := BothOn(Ready, Some(At(0)), Heard(f), Captured());
    TakeGives(env, r, f, output);
    MoveReaches(env, capacity, plan, WholeOf(capacity, r, UNFED), Base(Up.Drive(TakeFrame(DrainThread))),
                WholeOf(capacity, Aligned(f, output), UNFED.(waiting := [output])));
  }

  lemma TakeGives(env: Env<AudioFrame, AudioFrame>, r: Frames, f: AudioFrame, output: AudioFrame)
    requires r == BothOn(Ready, Some(At(0)), Heard(f), Captured()) && env.align(0, [], f) == [output]
    ensures Enabled(env, r, TakeFrame(DrainThread)) && Apply(env, r, TakeFrame(DrainThread)) == Aligned(f, output)
    ensures Followed(env, r, UNFED, TakeFrame(DrainThread)) == UNFED.(waiting := [output])
  {
    assert [f][1..] == [] && [] + [f] == [f] && [] + [output] == [output];
    assert r.tracks[0 := Aligned(f, output).tracks[0]] == Aligned(f, output).tracks;
  }

  /** With both tracks selected it is the microphone's audio that is sent: when its first frame is
      aligned to an output of which the producer makes a frame, that frame is the first request. */
  lemma MicrophoneIsSent(env: Env<AudioFrame, AudioFrame>, capacity: nat, plan: Stt.Plan, f: AudioFrame,
                         output: AudioFrame, made: AudioFrame)
    requires env.capacity > 0 && env.align(0, [], f) == [output] && Stt.Step(plan, Stt.INIT, output).1 == [made]
    ensures exists moves ::
      && Legal(env, capacity, plan, moves)
      && var w := Exec(env, capacity, plan, moves);
         && |w.base.recorder.tracks| == TRACKS
         && w.base.recorder.tracks[0].selected && w.base.recorder.tracks[1].selected
         && Requests(w.base.history) == [made]
  {
    TakenIsReachable(env, capacity, plan, f, output);
    var r, s := Aligned(f, output), UNFED.(waiting := [output]);
    var s' := Stream(Stt.Step(plan, Stt.INIT, output).0, [output], [], [made], []);
    assert [output][1..] == [] && [] + [output] == [output];
    MoveReaches(env, capacity, plan, WholeOf(capacity, r, s), FeedOne(DrainThread), WholeOf(capacity, r, s'));
    SendReaches(env, capacity, plan, r, s', made);
  }

  lemma SendReaches(env: Env<AudioFrame, AudioFrame>, capacity: nat, plan: Stt.Plan, r: Frames, s: Stream,
                    made: AudioFrame)
    requires |r.tracks| == TRACKS && r.tracks[0].selected && r.tracks[1].selected
    requires IsReachable(env, capacity, plan, WholeOf(capacity, r, s)) && s.outbox == [made]
    requires Possible(env, WholeOf(capacity, r, s), SendNext(DrainThread))
    ensures exists moves ::
      && Legal(env, capacity, plan, moves)
      && var w := Exec(env, capacity, plan, moves);
         && |w.base.recorder.tracks| == TRACKS
         && w.base.recorder.tracks[0].selected && w.base.recorder.tracks[1].selected
         && Requests(w.base.history) == [made]
  {
    var w' := Next(env, capacity, plan, WholeOf(capacity, r, s), SendNext(DrainThread));
    MoveReaches(env, capacity, plan, WholeOf(capacity, r, s), SendNext(DrainThread), w');
    var history: seq<Client.Step<AudioFrame>> := [Client.Start(true)];
    RequestsOneMore([], Client.Start(true));
    assert [] + history == history;
    RequestsOneMore(history, Client.Send(made));
    assert Requests(w'.base.history) == [made];
    var moves :| Legal(env, capacity, plan, moves) && Exec(env, capacity, plan, moves) == w';
  }
}
