/** What the recorder's threads keep between them, in every interleaving. */
module ControllerProofs {
  import opened Audio
  import opened Controller
  import opened Sequences

  // ----- The reference: each stream aligned from its start ------------------------------

  function AllAligned<F, O>(env: Env<F, O>, k: nat, frames: seq<F>): seq<O> {
    if frames == [] then []
    else
      var init := frames[..|frames| - 1];
      AllAligned(env, k, init) + env.align(k, init, frames[|frames| - 1])
  }

  /** A track's streams one after the other: a pause is spliced out. */
  function Spliced<F, O>(env: Env<F, O>, k: nat, streams: seq<seq<F>>): seq<O> {
    if streams == [] then []
    else Spliced(env, k, streams[..|streams| - 1]) + AllAligned(env, k, streams[|streams| - 1])
  }

  lemma AlignOneMore<F, O>(env: Env<F, O>, k: nat, frames: seq<F>, f: F)
    ensures AllAligned(env, k, frames + [f]) == AllAligned(env, k, frames) + env.align(k, frames, f)
  {
    assert (frames + [f])[..|frames|] == frames;
  }

  lemma SpliceOneMore<F, O>(env: Env<F, O>, k: nat, streams: seq<seq<F>>, frames: seq<F>)
    ensures Spliced(env, k, streams + [frames]) == Spliced(env, k, streams) + AllAligned(env, k, frames)
  {
    assert (streams + [frames])[..|streams|] == streams;
  }

  // ----- The invariant ------------------------------------------------------------------

  function Working<F, O>(r: Recorder<F, O>): Option<Work<O>> {
    if r.drain.Some? then r.drain else WorkOf(r, UiThread)
  }

  /** A drain is under way only in the thread that holds the mutex. */
  predicate Exclusive<F, O>(r: Recorder<F, O>) {
    && (r.holder == DrainThread <==> r.drain.Some?)
    && (r.holder == UiThread <==> r.ui.Draining?)
  }

  /** What was checked when a frame was taken still holds while it is handed on. */
  predicate WorkInv<F, O>(r: Recorder<F, O>, work: Work<O>)
    requires |r.tracks| == TRACKS
  {
    match work
    case At(t) => t <= TRACKS
    case Uploading(t, upload, _) => t < TRACKS && r.tracks[t].installed && (upload ==> r.client == Connected)
    case Offering(t, rest) => t < TRACKS && r.tracks[t].installed && rest != [] && Writable(r, t)
  }

  /** Outputs of a track still in the hands of a drain. */
  function InHand<F, O>(r: Recorder<F, O>, t: nat): seq<O> {
    match Working(r)
    case Some(Uploading(track, _, rest)) => if track == t then rest else []
    case Some(Offering(track, rest)) => if track == t then rest else []
    case _ => []
  }

  ghost predicate FlowInv<F, O>(env: Env<F, O>, k: nat, track: Track<F, O>) {
    && (!track.installed && !track.capturing ==> track.Quiet())
    && track.accepted == track.processed + track.queue
    && track.aligned == AllAligned(env, k, track.processed)
    && (!track.recorded ==> track.delivered == [])
    && (track.capturing || track.installed ==> track.selected)
  }

  /** All that was captured and aligned for a track since the recording started. */
  ghost function SoFar<F, O>(env: Env<F, O>, k: nat, track: Track<F, O>): seq<O> {
    Spliced(env, k, track.past) + track.aligned
  }

  /** The writer has taken all of it but what is in hand; after a failure, a first part. */
  ghost predicate DeliveryInv<F, O>(env: Env<F, O>, r: Recorder<F, O>, t: nat)
    requires t < |r.tracks|
  {
    r.writerOpen && r.tracks[t].recorded ==>
      if r.writerFailed then r.tracks[t].delivered <= SoFar(env, t, r.tracks[t])
      else r.tracks[t].delivered + InHand(r, t) == SoFar(env, t, r.tracks[t])
  }

  ghost predicate TrackInv<F, O>(env: Env<F, O>, r: Recorder<F, O>, t: nat)
    requires t < |r.tracks|
  {
    FlowInv(env, t, r.tracks[t]) && DeliveryInv(env, r, t)
  }

  predicate Attached<F, O>(track: Track<F, O>) { track.capturing ==> track.installed }

  function SessionFor(reason: Reason): Session {
    match reason
    case ForPause => Paused
    case ForStop => Stopping
    case ForFailedStart => Recording
  }

  /** What the UI thread has opened or silenced so far, track by track. */
  predicate UiTrackInv<F, O>(r: Recorder<F, O>, t: nat)
    requires t < |r.tracks|
  {
    var track := r.tracks[t];
    match r.ui
    case Ready => Attached(track) && (r.session == Idle || r.session == Paused ==> track.Quiet())
    case Connecting => track.Quiet()
    case Opening(n, _) => Attached(track) && (t >= n ==> track.Quiet())
    case Staged(n, _) =>
      if t < n then Attached(track) else if t == n then track.capturing && !track.installed else track.Quiet()
    case Silencing(n, _) => Attached(track) && (t < n ==> !track.capturing)
    case Locking(_) => !track.capturing
    case Draining(_, work) => !track.capturing && (t < work.track ==> track.queue == [])
    case Closing(_) | Dismissing(_) | Leaving(_) => track.Quiet()
  }

  predicate UiSessionInv<F, O>(r: Recorder<F, O>) {
    && (match r.ui
        case Ready => r.session != Stopping && r.session != Stopped
        case Connecting => r.session == Recording
        case Opening(n, resuming) => n <= TRACKS && r.session == if resuming then Paused else Recording
        case Staged(n, resuming) => n < TRACKS && r.session == if resuming then Paused else Recording
        case Silencing(n, reason) => n < TRACKS && r.session == SessionFor(reason)
        case Locking(reason) => r.session == SessionFor(reason)
        case Draining(reason, _) => r.session == SessionFor(reason)
        case Closing(reason) => r.session == SessionFor(reason) && reason != ForPause
        case Dismissing(reason) => r.session == SessionFor(reason) && reason != ForPause
        case Leaving(reason) => r.session == SessionFor(reason) && reason != ForPause && r.client != Connected)
    && (r.client == HangingUp ==> r.ui.Leaving?)
    && (r.ui.Connecting? || (r.ui.Ready? && r.session == Idle) ==> r.client == NoClient)
    && (r.writerOpen <==> !(r.ui.Dismissing? || r.ui.Leaving? || (r.ui.Ready? && r.session == Idle)))
  }

  ghost predicate Inv<F, O>(env: Env<F, O>, r: Recorder<F, O>) {
    && |r.tracks| == TRACKS
    && Exclusive(r)
    && UiSessionInv(r)
    && (Working(r).Some? ==> WorkInv(r, Working(r).value))
    && forall t :: 0 <= t < TRACKS ==> TrackInv(env, r, t) && UiTrackInv(r, t)
  }

  // ----- Steps keep it ------------------------------------------------------------------

  /** A track whose deliveries a step does not touch keeps its invariant if its flow does. */
  lemma UntouchedKeeps<F, O>(env: Env<F, O>, r: Recorder<F, O>, r': Recorder<F, O>, t: nat)
    requires t < |r.tracks| == |r'.tracks| && TrackInv(env, r, t) && FlowInv(env, t, r'.tracks[t])
    requires r'.tracks[t].past == r.tracks[t].past && r'.tracks[t].aligned == r.tracks[t].aligned
    requires r'.tracks[t].recorded == r.tracks[t].recorded && r'.tracks[t].delivered == r.tracks[t].delivered
    requires r'.writerOpen == r.writerOpen && r'.writerFailed == r.writerFailed && InHand(r', t) == InHand(r, t)
    ensures TrackInv(env, r', t)
  {
  }

  lemma CaptureFlows<F, O>(env: Env<F, O>, k: nat, track: Track<F, O>, frame: F)
    requires FlowInv(env, k, track) && track.capturing
    ensures FlowInv(env, k, track.(queue := track.queue + [frame], accepted := track.accepted + [frame]))
  {
  }

  lemma CapturedTrackKeeps<F, O>(env: Env<F, O>, r: Recorder<F, O>, r': Recorder<F, O>, t: nat, captured: Track<F, O>,
                                 i: nat)
    requires t < |r.tracks| == TRACKS && i < TRACKS && r' == r.(tracks := r.tracks[t := captured])
    requires TrackInv(env, r, i) && UiTrackInv(r, i) && r.tracks[t].capturing
    requires FlowInv(env, t, captured)
    requires captured == r.tracks[t].(queue := captured.queue, accepted := captured.accepted)
    ensures TrackInv(env, r', i) && UiTrackInv(r', i)
  {
    assert InHand(r', i) == InHand(r, i);
    UntouchedKeeps(env, r, r', i);
  }

  lemma CaptureKeeps<F, O>(env: Env<F, O>, r: Recorder<F, O>, t: nat, frame: F, taken: bool)
    requires Inv(env, r) && Enabled(env, r, Capture(t, frame, taken))
    ensures Inv(env, Apply(env, r, Capture(t, frame, taken)))
  {
    if taken {
      var r' := Apply(env, r, Capture(t, frame, taken));
      assert TrackInv(env, r, t);
      CaptureFlows(env, t, r.tracks[t], frame);
      forall i | 0 <= i < TRACKS ensures TrackInv(env, r', i) && UiTrackInv(r', i) {
        assert TrackInv(env, r, i) && UiTrackInv(r, i);
        CapturedTrackKeeps(env, r, r', t, r'.tracks[t], i);
      }
    }
  }

  lemma DrainTurnKeeps<F, O>(env: Env<F, O>, r: Recorder<F, O>, step: Step<F>)
    requires Inv(env, r) && Enabled(env, r, step) && (step.DrainLock? || step.DrainUnlock?)
    ensures Inv(env, Apply(env, r, step))
  {
    var r' := Apply(env, r, step);
    forall i | 0 <= i < TRACKS ensures TrackInv(env, r', i) && UiTrackInv(r', i) {
      assert TrackInv(env, r, i) && UiTrackInv(r, i);
      assert InHand(r', i) == InHand(r, i);
    }
  }

  /** The worker of a thread is the one drain under way. */
  lemma WorkerIsUnique<F, O>(r: Recorder<F, O>, who: Thread)
    requires Exclusive(r) && WorkOf(r, who).Some?
    ensures WorkOf(r, who) == Working(r) && r.holder == who
  {
  }

  lemma TakenFlows<F, O>(env: Env<F, O>, k: nat, t: Track<F, O>)
    requires FlowInv(env, k, t) && t.installed && t.queue != []
    ensures FlowInv(env, k, Taken(env, k, t))
    ensures SoFar(env, k, Taken(env, k, t)) == SoFar(env, k, t) + NextOutput(env, k, t)
  {
    AlignOneMore(env, k, t.processed, t.queue[0]);
    assert t.processed + t.queue == t.processed + [t.queue[0]] + t.queue[1..];
  }

  /** The track a frame was taken from: its outputs are now in hand. */
  lemma TakenTrackKeeps<F, O>(env: Env<F, O>, r: Recorder<F, O>, r': Recorder<F, O>, t: nat, taken: Track<F, O>,
                              more: seq<O>)
    requires t < |r.tracks| == |r'.tracks| && r'.tracks[t] == taken && TrackInv(env, r, t)
    requires FlowInv(env, t, taken) && SoFar(env, t, taken) == SoFar(env, t, r.tracks[t]) + more
    requires taken.recorded == r.tracks[t].recorded && taken.delivered == r.tracks[t].delivered
    requires r'.writerOpen == r.writerOpen && r'.writerFailed == r.writerFailed && InHand(r', t) == more
    requires Writable(r, t) ==> r.tracks[t].delivered == SoFar(env, t, r.tracks[t])
    ensures TrackInv(env, r', t)
  {
  }

  /** Taking a frame puts its outputs, and nothing else, in hand. */
  lemma TakenIsInHand<F, O>(env: Env<F, O>, r: Recorder<F, O>, who: Thread, t: nat)
    requires Inv(env, r) && Enabled(env, r, TakeFrame(who)) && t == WorkOf(r, who).value.track
    ensures var r' := Apply(env, r, TakeFrame(who));
      && r'.tracks == r.tracks[t := Taken(env, t, r.tracks[t])]
      && r'.writerOpen == r.writerOpen && r'.writerFailed == r.writerFailed
      && InHand(r', t) == NextOutput(env, t, r.tracks[t])
      && forall i :: 0 <= i < TRACKS && i != t ==> InHand(r', i) == InHand(r, i)
  {
    WorkerIsUnique(r, who);
  }

  lemma TakenKeepsSession<F, O>(env: Env<F, O>, r: Recorder<F, O>, who: Thread)
    requires |r.tracks| == TRACKS && Exclusive(r) && UiSessionInv(r) && Enabled(env, r, TakeFrame(who))
    ensures Exclusive(Apply(env, r, TakeFrame(who))) && UiSessionInv(Apply(env, r, TakeFrame(who)))
  {
  }

  lemma TakenKeepsWork<F, O>(env: Env<F, O>, r: Recorder<F, O>, who: Thread)
    requires |r.tracks| == TRACKS && Exclusive(r) && Enabled(env, r, TakeFrame(who))
    ensures var r' := Apply(env, r, TakeFrame(who));
      |r'.tracks| == TRACKS && Working(r').Some? && WorkInv(r', Working(r').value)
  {
    WorkerIsUnique(r, who);
  }

  lemma TakenKeepsUi<F, O>(env: Env<F, O>, r: Recorder<F, O>, who: Thread, i: nat)
    requires |r.tracks| == TRACKS && i < TRACKS && Exclusive(r) && Enabled(env, r, TakeFrame(who))
    requires UiTrackInv(r, i) && Working(r).Some? && WorkInv(r, Working(r).value)
    ensures UiTrackInv(Apply(env, r, TakeFrame(who)), i)
  {
    WorkerIsUnique(r, who);
  }

  lemma TakenKeepsFlow<F, O>(env: Env<F, O>, r: Recorder<F, O>, who: Thread)
    requires Inv(env, r) && Enabled(env, r, TakeFrame(who))
    ensures var r' := Apply(env, r, TakeFrame(who));
      |r'.tracks| == TRACKS && forall i :: 0 <= i < TRACKS ==> TrackInv(env, r', i)
  {
    var t := WorkOf(r, who).value.track;
    WorkerIsUnique(r, who);
    assert TrackInv(env, r, t) && InHand(r, t) == [];
    ConcatEmpty(r.tracks[t].delivered);
    TakenFlows(env, t, r.tracks[t]);
    TakenIsInHand(env, r, who, t);
    TakenKeepsTracks(env, r, Apply(env, r, TakeFrame(who)), t);
  }

  lemma TakeFrameKeeps<F, O>(env: Env<F, O>, r: Recorder<F, O>, who: Thread)
    requires Inv(env, r) && Enabled(env, r, TakeFrame(who))
    ensures Inv(env, Apply(env, r, TakeFrame(who)))
  {
    WorkerIsUnique(r, who);
    TakenKeepsFlow(env, r, who);
    TakenKeepsSession(env, r, who);
    TakenKeepsWork(env, r, who);
    assert UiTrackInv(r, 0) && UiTrackInv(r, 1);
    TakenKeepsUi(env, r, who, 0);
    TakenKeepsUi(env, r, who, 1);
    PartsAreAll(env, Apply(env, r, TakeFrame(who)));
  }

  lemma PartsAreAll<F, O>(env: Env<F, O>, r: Recorder<F, O>)
    requires |r.tracks| == TRACKS && Exclusive(r) && UiSessionInv(r)
    requires Working(r).Some? ==> WorkInv(r, Working(r).value)
    requires TrackInv(env, r, 0) && TrackInv(env, r, 1) && UiTrackInv(r, 0) && UiTrackInv(r, 1)
    ensures Inv(env, r)
  {
  }

  lemma TakenKeepsTracks<F, O>(env: Env<F, O>, r: Recorder<F, O>, r': Recorder<F, O>, t: nat)
    requires t < |r.tracks| == |r'.tracks| == TRACKS && r.tracks[t].queue != []
    requires TrackInv(env, r, 0) && TrackInv(env, r, 1)
    requires var taken, more := Taken(env, t, r.tracks[t]), NextOutput(env, t, r.tracks[t]);
      && r'.tracks == r.tracks[t := taken]
      && r'.writerOpen == r.writerOpen && r'.writerFailed == r.writerFailed && InHand(r', t) == more
      && FlowInv(env, t, taken) && SoFar(env, t, taken) == SoFar(env, t, r.tracks[t]) + more
    requires Writable(r, t) ==> r.tracks[t].delivered == SoFar(env, t, r.tracks[t])
    requires forall i :: 0 <= i < TRACKS && i != t ==> InHand(r', i) == InHand(r, i)
    ensures forall i :: 0 <= i < TRACKS ==> TrackInv(env, r', i)
  {
    forall i | 0 <= i < TRACKS ensures TrackInv(env, r', i) {
      if i == t {
        TakenTrackKeeps(env, r, r', i, Taken(env, t, r.tracks[t]), NextOutput(env, t, r.tracks[t]));
      } else {
        UntouchedKeeps(env, r, r', i);
      }
    }
  }

  lemma NextTrackKeeps<F, O>(env: Env<F, O>, r: Recorder<F, O>, who: Thread)
    requires Inv(env, r) && Enabled(env, r, NextTrack(who))
    ensures Inv(env, Apply(env, r, NextTrack(who)))
  {
    var r' := Apply(env, r, NextTrack(who));
    WorkerIsUnique(r, who);
    forall i | 0 <= i < TRACKS ensures TrackInv(env, r', i) && UiTrackInv(r', i) {
      assert TrackInv(env, r, i) && UiTrackInv(r, i);
    }
  }

  lemma UploadedKeeps<F, O>(env: Env<F, O>, r: Recorder<F, O>, who: Thread)
    requires Inv(env, r) && Enabled(env, r, Uploaded(who))
    ensures Inv(env, Apply(env, r, Uploaded(who)))
  {
    var r' := Apply(env, r, Uploaded(who));
    WorkerIsUnique(r, who);
    forall i | 0 <= i < TRACKS ensures TrackInv(env, r', i) && UiTrackInv(r', i) {
      assert TrackInv(env, r, i) && UiTrackInv(r, i);
    }
  }

  /** After a failure what the writer took is a first part. */
  lemma FailedTrackKeeps<F, O>(env: Env<F, O>, r: Recorder<F, O>, r': Recorder<F, O>, t: nat)
    requires t < |r.tracks| == |r'.tracks| && TrackInv(env, r, t) && r'.tracks[t] == r.tracks[t]
    requires r'.writerOpen == r.writerOpen && r'.writerFailed
    ensures TrackInv(env, r', t)
  {
  }

  /** One more output moved from in hand to the writer. */
  lemma WrittenTrackKeeps<F, O>(env: Env<F, O>, r: Recorder<F, O>, r': Recorder<F, O>, t: nat, rest: seq<O>)
    requires t < |r.tracks| == |r'.tracks| && TrackInv(env, r, t) && rest != [] && Writable(r, t)
    requires r'.tracks[t] == r.tracks[t].(delivered := r.tracks[t].delivered + [rest[0]])
    requires r'.writerOpen && !r'.writerFailed && InHand(r, t) == rest && InHand(r', t) == rest[1..]
    ensures TrackInv(env, r', t)
  {
    assert r.tracks[t].delivered + rest == r.tracks[t].delivered + [rest[0]] + rest[1..];
  }

  lemma WriteKeeps<F, O>(env: Env<F, O>, r: Recorder<F, O>, who: Thread, ok: bool)
    requires Inv(env, r) && Enabled(env, r, Write(who, ok))
    ensures Inv(env, Apply(env, r, Write(who, ok)))
  {
    var r' := Apply(env, r, Write(who, ok));
    WorkerIsUnique(r, who);
    var work := WorkOf(r, who).value;
    forall i | 0 <= i < TRACKS ensures TrackInv(env, r', i) && UiTrackInv(r', i) {
      assert TrackInv(env, r, i) && UiTrackInv(r, i);
      if !ok {
        FailedTrackKeeps(env, r, r', i);
      } else if i == work.track {
        WrittenTrackKeeps(env, r, r', i, work.rest);
      } else {
        UntouchedKeeps(env, r, r', i);
      }
    }
  }

  lemma WorkKeeps<F, O>(env: Env<F, O>, r: Recorder<F, O>, step: Step<F>)
    requires Inv(env, r) && Enabled(env, r, step)
    requires step.TakeFrame? || step.NextTrack? || step.Upload? || step.Uploaded? || step.Write?
    ensures Inv(env, Apply(env, r, step))
  {
    match step
    case TakeFrame(who) => TakeFrameKeeps(env, r, who);
    case NextTrack(who) => NextTrackKeeps(env, r, who);
    case Upload(who) =>
    case Uploaded(who) => UploadedKeeps(env, r, who);
    case Write(who, ok) => WriteKeeps(env, r, who, ok);
  }

  // ----- Steps of the UI thread ---------------------------------------------------------

  /** pause and stop begin by silencing the streams. */
  lemma SilencingKeeps<F, O>(env: Env<F, O>, r: Recorder<F, O>, r': Recorder<F, O>, reason: Reason)
    requires Inv(env, r) && r.ui.Ready? && r.session != Idle
    requires r' == r.(session := SessionFor(reason), ui := Silencing(0, reason))
    ensures Inv(env, r')
  {
    forall i | 0 <= i < TRACKS ensures TrackInv(env, r', i) && UiTrackInv(r', i) {
      assert TrackInv(env, r, i) && UiTrackInv(r, i);
      assert InHand(r', i) == InHand(r, i);
    }
  }

  lemma StopCallKeeps<F, O>(env: Env<F, O>, r: Recorder<F, O>, step: Step<F>)
    requires Inv(env, r) && Enabled(env, r, step) && (step.CallPause? || step.CallStop?)
    ensures Inv(env, Apply(env, r, step))
  {
    var reason := if step.CallPause? then ForPause else ForStop;
    if Apply(env, r, step) != r {
      SilencingKeeps(env, r, Apply(env, r, step), reason);
    }
  }

  /** resume begins by choosing tracks, while every pipeline is empty. */
  lemma ResumeCallKeeps<F, O>(env: Env<F, O>, r: Recorder<F, O>, selected: seq<bool>)
    requires Inv(env, r) && Enabled(env, r, CallResume(selected))
    ensures Inv(env, Apply(env, r, CallResume(selected)))
  {
    var r' := Apply(env, r, CallResume(selected));
    forall i | 0 <= i < TRACKS ensures TrackInv(env, r', i) && UiTrackInv(r', i) {
      assert TrackInv(env, r, i) && UiTrackInv(r, i);
      assert InHand(r', i) == InHand(r, i);
    }
  }

  lemma ConnectKeeps<F, O>(env: Env<F, O>, r: Recorder<F, O>, up: bool)
    requires Inv(env, r) && Enabled(env, r, Connect(up))
    ensures Inv(env, Apply(env, r, Connect(up)))
  {
    var r' := Apply(env, r, Connect(up));
    forall i | 0 <= i < TRACKS ensures TrackInv(env, r', i) && UiTrackInv(r', i) {
      assert TrackInv(env, r, i) && UiTrackInv(r, i);
      assert InHand(r', i) == InHand(r, i);
    }
  }

  lemma StartKeeps<F, O>(env: Env<F, O>, r: Recorder<F, O>, selected: seq<bool>, created: bool)
    requires Inv(env, r) && Enabled(env, r, CallStart(selected, created))
    ensures Inv(env, Apply(env, r, CallStart(selected, created)))
  {
    var r' := Apply(env, r, CallStart(selected, created));
    forall i | 0 <= i < TRACKS ensures TrackInv(env, r', i) && UiTrackInv(r', i) {
      assert TrackInv(env, r, i) && UiTrackInv(r, i);
    }
  }

  /** startStreams returning touches no track. */
  lemma AnsweredKeeps<F, O>(env: Env<F, O>, r: Recorder<F, O>, resuming: bool, ok: bool)
    requires Inv(env, r) && r.ui.Opening? && resuming == r.ui.resuming
    ensures Inv(env, Answered(r, resuming, ok))
  {
    var r' := Answered(r, resuming, ok);
    forall i | 0 <= i < TRACKS ensures TrackInv(env, r', i) && UiTrackInv(r', i) {
      assert TrackInv(env, r, i) && UiTrackInv(r, i);
      assert InHand(r', i) == InHand(r, i);
    }
  }

  lemma StagedKeeps<F, O>(env: Env<F, O>, r: Recorder<F, O>)
    requires Inv(env, r) && r.ui.Opening? && r.ui.track < TRACKS && r.tracks[r.ui.track].selected
    ensures Inv(env, Opened(r, r.ui.track, r.ui.resuming, true))
  {
    var r' := Opened(r, r.ui.track, r.ui.resuming, true);
    forall i | 0 <= i < TRACKS ensures TrackInv(env, r', i) && UiTrackInv(r', i) {
      assert TrackInv(env, r, i) && UiTrackInv(r, i);
      assert InHand(r', i) == InHand(r, i);
    }
  }

  lemma PassedOverKeeps<F, O>(env: Env<F, O>, r: Recorder<F, O>)
    requires Inv(env, r) && r.ui.Opening? && r.ui.track < TRACKS
    ensures Inv(env, r.(ui := Opening(r.ui.track + 1, r.ui.resuming)))
  {
    var r' := r.(ui := Opening(r.ui.track + 1, r.ui.resuming));
    forall i | 0 <= i < TRACKS ensures TrackInv(env, r', i) && UiTrackInv(r', i) {
      assert TrackInv(env, r, i) && UiTrackInv(r, i);
      assert InHand(r', i) == InHand(r, i);
    }
  }

  lemma OpenKeeps<F, O>(env: Env<F, O>, r: Recorder<F, O>, ok: bool)
    requires Inv(env, r) && r.ui.Opening?
    ensures Inv(env, Opened(r, r.ui.track, r.ui.resuming, ok))
  {
    var t, resuming := r.ui.track, r.ui.resuming;
    if t >= TRACKS {
      AnsweredKeeps(env, r, resuming, AnySelected(r.tracks));
    } else if !r.tracks[t].selected {
      PassedOverKeeps(env, r);
    } else if ok {
      StagedKeeps(env, r);
    } else {
      AnsweredKeeps(env, r, resuming, false);
    }
  }

  lemma InstallKeeps<F, O>(env: Env<F, O>, r: Recorder<F, O>)
    requires Inv(env, r) && Enabled(env, r, Install)
    ensures Inv(env, Apply(env, r, Install))
  {
    var r' := Apply(env, r, Install);
    forall i | 0 <= i < TRACKS ensures TrackInv(env, r', i) && UiTrackInv(r', i) {
      assert TrackInv(env, r, i) && UiTrackInv(r, i);
      assert InHand(r', i) == InHand(r, i);
    }
  }

  lemma SilenceKeeps<F, O>(env: Env<F, O>, r: Recorder<F, O>)
    requires Inv(env, r) && Enabled(env, r, Silence)
    ensures Inv(env, Apply(env, r, Silence))
  {
    var r' := Apply(env, r, Silence);
    forall i | 0 <= i < TRACKS ensures TrackInv(env, r', i) && UiTrackInv(r', i) {
      assert TrackInv(env, r, i) && UiTrackInv(r, i);
      assert InHand(r', i) == InHand(r, i);
    }
  }

  lemma LockKeeps<F, O>(env: Env<F, O>, r: Recorder<F, O>)
    requires Inv(env, r) && Enabled(env, r, LockPipelines)
    ensures Inv(env, Apply(env, r, LockPipelines))
  {
    var r' := Apply(env, r, LockPipelines);
    forall i | 0 <= i < TRACKS ensures TrackInv(env, r', i) && UiTrackInv(r', i) {
      assert TrackInv(env, r, i) && UiTrackInv(r, i);
      assert InHand(r', i) == InHand(r, i);
    }
  }

  /** A drained stream is spliced onto the recording. */
  lemma ReleaseSplices<F, O>(env: Env<F, O>, k: nat, t: Track<F, O>)
    requires FlowInv(env, k, t) && t.queue == []
    ensures FlowInv(env, k, Released(t)) && Released(t).Quiet()
    ensures t.accepted == t.processed
    ensures SoFar(env, k, Released(t)) == Spliced(env, k, Released(t).past) == SoFar(env, k, t)
  {
    ConcatEmpty(t.processed);
    SpliceOneMore(env, k, t.past, t.accepted);
    ConcatEmpty(Spliced(env, k, Released(t).past));
  }

  lemma ClearedTrack<F, O>(env: Env<F, O>, r: Recorder<F, O>, r': Recorder<F, O>, t: nat)
    requires t < |r.tracks| == |r'.tracks| && TrackInv(env, r, t) && r.tracks[t].queue == []
    requires InHand(r, t) == InHand(r', t) == [] && r'.tracks[t] == Released(r.tracks[t])
    requires r'.writerOpen == r.writerOpen && r'.writerFailed == r.writerFailed
    ensures TrackInv(env, r', t) && r'.tracks[t].Quiet()
  {
    ReleaseSplices(env, t, r.tracks[t]);
  }

  lemma ClearKeeps<F, O>(env: Env<F, O>, r: Recorder<F, O>)
    requires Inv(env, r) && Enabled(env, r, Clear)
    ensures Inv(env, Apply(env, r, Clear))
  {
    var r' := Apply(env, r, Clear);
    assert r.drain.None? && InHand(r, 0) == InHand(r, 1) == InHand(r', 0) == InHand(r', 1) == [];
    forall i | 0 <= i < TRACKS ensures TrackInv(env, r', i) && UiTrackInv(r', i) {
      assert TrackInv(env, r, i) && UiTrackInv(r, i);
      ClearedTrack(env, r, r', i);
    }
  }

  lemma EndKeeps<F, O>(env: Env<F, O>, r: Recorder<F, O>, step: Step<F>)
    requires Inv(env, r) && Enabled(env, r, step) && (step.Close? || step.Dismiss? || step.Leave?)
    ensures Inv(env, Apply(env, r, step))
  {
    var r' := Apply(env, r, step);
    forall i | 0 <= i < TRACKS ensures TrackInv(env, r', i) && UiTrackInv(r', i) {
      assert TrackInv(env, r, i) && UiTrackInv(r, i);
      assert InHand(r', i) == InHand(r, i);
    }
  }

  lemma UiKeeps<F, O>(env: Env<F, O>, r: Recorder<F, O>, step: Step<F>)
    requires Inv(env, r) && Enabled(env, r, step)
    requires step.Open? || step.Install? || step.Silence? || step.LockPipelines? || step.Clear?
    ensures Inv(env, Apply(env, r, step))
  {
    match step
    case Open(ok) => OpenKeeps(env, r, ok);
    case Install => InstallKeeps(env, r);
    case Silence => SilenceKeeps(env, r);
    case LockPipelines => LockKeeps(env, r);
    case Clear => ClearKeeps(env, r);
  }

  lemma CallKeeps<F, O>(env: Env<F, O>, r: Recorder<F, O>, step: Step<F>)
    requires Inv(env, r) && Enabled(env, r, step)
    requires step.CallStart? || step.CallPause? || step.CallResume? || step.CallStop? || step.Connect?
    ensures Inv(env, Apply(env, r, step))
  {
    match step
    case CallStart(selected, created) => StartKeeps(env, r, selected, created);
    case CallPause | CallStop => StopCallKeeps(env, r, step);
    case CallResume(selected) => ResumeCallKeeps(env, r, selected);
    case Connect(up) => ConnectKeeps(env, r, up);
  }

  lemma StepKeeps<F, O>(env: Env<F, O>, r: Recorder<F, O>, step: Step<F>)
    requires Inv(env, r) && Enabled(env, r, step)
    ensures Inv(env, Apply(env, r, step))
  {
    if step.CallStart? || step.CallPause? || step.CallResume? || step.CallStop? || step.Connect? {
      CallKeeps(env, r, step);
    } else if step.Open? || step.Install? || step.Silence? || step.LockPipelines? || step.Clear? {
      UiKeeps(env, r, step);
    } else if step.Close? || step.Dismiss? || step.Leave? {
      EndKeeps(env, r, step);
    } else if step.Capture? {
      CaptureKeeps(env, r, step.track, step.frame, step.taken);
    } else if step.DrainLock? || step.DrainUnlock? {
      DrainTurnKeeps(env, r, step);
    } else {
      WorkKeeps(env, r, step);
    }
  }

  lemma LaunchedInv<F, O>(env: Env<F, O>)
    ensures Inv(env, Launched<F, O>())
  {
  }

  lemma {:induction false} ExecKeeps<F, O>(env: Env<F, O>, start: Recorder<F, O>, steps: seq<Step<F>>)
    requires Inv(env, start) && Legal(env, start, steps)
    ensures Inv(env, Exec(env, start, steps))
  {
    if steps == [] {
    } else {
      ExecKeeps(env, start, steps[..|steps| - 1]);
      StepKeeps(env, Exec(env, start, steps[..|steps| - 1]), steps[|steps| - 1]);
    }
  }

  lemma ReachableInv<F(!new), O>(env: Env<F, O>, r: Recorder<F, O>)
    requires Reachable(env, r)
    ensures Inv(env, r)
  {
    var steps :| Legal(env, Launched(), steps) && Exec(env, Launched(), steps) == r;
    LaunchedInv(env);
    ExecKeeps(env, Launched(), steps);
  }

  // ----- Main results -------------------------------------------------------------------

  /** The rings have one consumer: never are two drains under way, and the one that is belongs
      to the thread holding the mutex. */
  lemma OneConsumer<F(!new), O>(env: Env<F, O>, r: Recorder<F, O>, who: Thread)
    requires Reachable(env, r)
    ensures !(r.drain.Some? && r.ui.Draining?)
    ensures WorkOf(r, who).Some? ==> r.holder == who
  {
    ReachableInv(env, r);
  }

  /** When stopStreams lets the pipelines go, nothing waits in any ring, every frame accepted
      was aligned once and in order, and all of it was written unless a write failed: the
      recording so far is its streams spliced together. */
  lemma StoppedStreamsAreDrained<F(!new), O>(env: Env<F, O>, r: Recorder<F, O>, t: nat)
    requires Reachable(env, r) && Enabled(env, r, Clear) && t < TRACKS
    ensures |r.tracks| == TRACKS
    ensures var track := r.tracks[t];
      && track.queue == [] && !track.capturing
      && track.processed == track.accepted
      && track.aligned == AllAligned(env, t, track.accepted)
      && (Writable(r, t) ==> track.delivered == Spliced(env, t, track.past + [track.accepted]))
  {
    ReachableInv(env, r);
    assert TrackInv(env, r, t) && UiTrackInv(r, t);
    ReleaseSplices(env, t, r.tracks[t]);
    ConcatEmpty(r.tracks[t].delivered);
  }

  /** A saved file holds, on every track the writer has, all that was captured between start
      and stop, across every pause. */
  lemma SavedRecordingIsComplete<F(!new), O>(env: Env<F, O>, r: Recorder<F, O>, ok: bool, t: nat)
    requires Reachable(env, r) && Enabled(env, r, Close(ok)) && Apply(env, r, Close(ok)).outcome == Saved && t < TRACKS
    ensures |r.tracks| == TRACKS && r.writerOpen && !r.writerFailed && r.ui.reason == ForStop && ok
    ensures r.tracks[t].recorded ==> r.tracks[t].delivered == Spliced(env, t, r.tracks[t].past)
  {
    ReachableInv(env, r);
    assert TrackInv(env, r, t) && UiTrackInv(r, t);
    ConcatEmpty(r.tracks[t].delivered);
    ConcatEmpty(Spliced(env, t, r.tracks[t].past));
  }

  /** A track that was not selected when the recording started has no track in the file. Selected
      at resume it is captured and aligned like any other, and nothing of it is written: a saved
      recording holds all of a track exactly when the writer has it or there was nothing to hold. */
  lemma OnlyRecordedTracksAreSaved<F(!new), O>(env: Env<F, O>, r: Recorder<F, O>, ok: bool, t: nat)
    requires Reachable(env, r) && Enabled(env, r, Close(ok)) && Apply(env, r, Close(ok)).outcome == Saved && t < TRACKS
    ensures |r.tracks| == TRACKS
    ensures !r.tracks[t].recorded ==> r.tracks[t].delivered == []
    ensures r.tracks[t].delivered == Spliced(env, t, r.tracks[t].past)
       <==> r.tracks[t].recorded || Spliced(env, t, r.tracks[t].past) == []
  {
    SavedRecordingIsComplete(env, r, ok, t);
    ReachableInv(env, r);
    assert TrackInv(env, r, t);
  }

  lemma WorkLeavesRecorded<F, O>(env: Env<F, O>, r: Recorder<F, O>, step: Step<F>, t: nat)
    requires Inv(env, r) && Enabled(env, r, step) && t < TRACKS
    requires step.TakeFrame? || step.NextTrack? || step.Upload? || step.Uploaded? || step.Write?
    ensures var r' := Apply(env, r, step);
      |r'.tracks| == TRACKS && r'.tracks[t].recorded == r.tracks[t].recorded
  {
    if !step.Upload? {
      WorkerIsUnique(r, step.who);
    }
  }

  /** Whether the writer has a track is settled by the selection at start: no resume changes it. */
  lemma SelectionAtStartDecides<F, O>(env: Env<F, O>, r: Recorder<F, O>, step: Step<F>, t: nat)
    requires Inv(env, r) && Enabled(env, r, step) && t < TRACKS
    ensures var r' := Apply(env, r, step);
      && |r'.tracks| == TRACKS
      && r'.tracks[t].recorded == if step.CallStart? && r'.session != r.session then step.selected[t]
                                  else r.tracks[t].recorded
  {
    if step.TakeFrame? || step.NextTrack? || step.Upload? || step.Uploaded? || step.Write? {
      WorkLeavesRecorded(env, r, step, t);
    }
  }

  lemma WorkLeavesSelection<F, O>(env: Env<F, O>, r: Recorder<F, O>, step: Step<F>, t: nat)
    requires Inv(env, r) && Enabled(env, r, step) && t < TRACKS
    requires step.TakeFrame? || step.NextTrack? || step.Upload? || step.Uploaded? || step.Write?
    ensures var r' := Apply(env, r, step);
      |r'.tracks| == TRACKS && r'.tracks[t].selected == r.tracks[t].selected
  {
    if !step.Upload? {
      WorkerIsUnique(r, step.who);
    }
  }

  lemma CapturedIsSelected<F, O>(env: Env<F, O>, r: Recorder<F, O>, t: nat)
    requires Inv(env, r) && t < TRACKS
    ensures r.tracks[t].capturing || r.tracks[t].installed ==> r.tracks[t].selected
  {
    assert TrackInv(env, r, t);
  }

  /** The selection after a step that is not the drain's. */
  predicate SelectsAs<F, O>(env: Env<F, O>, r: Recorder<F, O>, step: Step<F>, t: nat)
    requires |r.tracks| == TRACKS && Enabled(env, r, step) && t < TRACKS
  {
    var r' := Apply(env, r, step);
    && |r'.tracks| == TRACKS
    && r'.tracks[t].selected == (if (step.CallStart? && r'.session != r.session)
                                    || (step.CallResume? && r.session == Paused)
                                 then step.selected[t] else r.tracks[t].selected)
  }

  lemma TrackStepSelects<F, O>(env: Env<F, O>, r: Recorder<F, O>, step: Step<F>, t: nat)
    requires |r.tracks| == TRACKS && Enabled(env, r, step) && t < TRACKS
    requires step.Open? || step.Install? || step.Silence? || step.Capture? || step.Clear?
    ensures SelectsAs(env, r, step, t)
  {
  }

  lemma CallSelects<F, O>(env: Env<F, O>, r: Recorder<F, O>, step: Step<F>, t: nat)
    requires |r.tracks| == TRACKS && Enabled(env, r, step) && t < TRACKS
    requires step.CallStart? || step.CallResume?
    ensures SelectsAs(env, r, step, t)
  {
  }

  lemma OtherStepSelects<F, O>(env: Env<F, O>, r: Recorder<F, O>, step: Step<F>, t: nat)
    requires |r.tracks| == TRACKS && Enabled(env, r, step) && t < TRACKS
    requires || step.CallPause? || step.CallStop? || step.Connect? || step.LockPipelines? || step.Close?
             || step.Dismiss? || step.Leave? || step.DrainLock? || step.DrainUnlock?
    ensures SelectsAs(env, r, step, t)
  {
  }

  lemma OthersSelect<F, O>(env: Env<F, O>, r: Recorder<F, O>, step: Step<F>, t: nat)
    requires |r.tracks| == TRACKS && Enabled(env, r, step) && t < TRACKS
    requires !(step.TakeFrame? || step.NextTrack? || step.Upload? || step.Uploaded? || step.Write?)
    ensures SelectsAs(env, r, step, t)
  {
    if step.Open? || step.Install? || step.Silence? || step.Capture? || step.Clear? {
      TrackStepSelects(env, r, step, t);
    } else if step.CallStart? || step.CallResume? {
      CallSelects(env, r, step, t);
    } else {
      OtherStepSelects(env, r, step, t);
    }
  }

  /** Which tracks are captured is what the last start or resume was asked for: the selection is
      read then and at no other time. */
  lemma SelectionFollowsCalls<F, O>(env: Env<F, O>, r: Recorder<F, O>, step: Step<F>, t: nat)
    requires Inv(env, r) && Enabled(env, r, step) && t < TRACKS
    ensures r.tracks[t].capturing || r.tracks[t].installed ==> r.tracks[t].selected
    ensures var r' := Apply(env, r, step);
      && |r'.tracks| == TRACKS
      && r'.tracks[t].selected == (if (step.CallStart? && r'.session != r.session)
                                      || (step.CallResume? && r.session == Paused)
                                   then step.selected[t] else r.tracks[t].selected)
  {
    CapturedIsSelected(env, r, t);
    if step.TakeFrame? || step.NextTrack? || step.Upload? || step.Uploaded? || step.Write? {
      WorkLeavesSelection(env, r, step, t);
    } else {
      OthersSelect(env, r, step, t);
    }
  }

  /** Whatever closing decides, and whether or not a write failed, the writer has taken a first
      part of every track it has, in order: a kept partial file has no holes. */
  lemma KeptRecordingIsAPrefix<F(!new), O>(env: Env<F, O>, r: Recorder<F, O>, ok: bool, t: nat)
    requires Reachable(env, r) && Enabled(env, r, Close(ok)) && t < TRACKS
    ensures |r.tracks| == TRACKS
    ensures r.tracks[t].recorded ==> r.tracks[t].delivered <= Spliced(env, t, r.tracks[t].past)
  {
    ReachableInv(env, r);
    assert TrackInv(env, r, t) && UiTrackInv(r, t);
    ConcatEmpty(r.tracks[t].delivered);
    ConcatEmpty(Spliced(env, t, r.tracks[t].past));
  }

  /** A frame goes to the uploader only while the client is connected and stop is not running:
      the caller discipline the client's own accounting needs. */
  lemma UploadsDoNotOverlapStop<F(!new), O>(env: Env<F, O>, r: Recorder<F, O>, who: Thread)
    requires Reachable(env, r) && Enabled(env, r, Upload(who))
    ensures r.client == Connected && !r.ui.Leaving?
  {
    ReachableInv(env, r);
    WorkerIsUnique(r, who);
  }

  /** The client is taken away from the drain only between two drains. */
  lemma HangUpWaitsForUploads<F(!new), O>(env: Env<F, O>, r: Recorder<F, O>)
    requires Reachable(env, r) && Enabled(env, r, Dismiss)
    ensures Working(r).None?
  {
    ReachableInv(env, r);
  }

  /** A write goes only to a writer that is open, has the track, and has not failed. */
  lemma WritesReachAnOpenWriter<F(!new), O>(env: Env<F, O>, r: Recorder<F, O>, who: Thread, ok: bool)
    requires Reachable(env, r) && Enabled(env, r, Write(who, ok))
    ensures Writable(r, WorkOf(r, who).value.track) && !r.ui.Closing? && !r.ui.Dismissing?
  {
    ReachableInv(env, r);
    WorkerIsUnique(r, who);
    assert UiTrackInv(r, WorkOf(r, who).value.track);
  }

  // ----- What a call may do -------------------------------------------------------------

  /** The session's transitions, one by one. */
  lemma TransitionsAreThese(from: Session, event: SessionEvent, to: Session)
    ensures Transition(from, event) == Some(to) <==>
      (from, event, to) in {(Idle, Start, Recording), (Recording, Pause, Paused), (Paused, Resume, Recording),
                            (Recording, Stop, Stopping), (Paused, Stop, Stopping), (Stopping, StopComplete, Stopped),
                            (Stopped, Reset, Idle), (Failed, Reset, Idle), (Idle, Fault, Failed),
                            (Recording, Fault, Failed), (Paused, Fault, Failed), (Stopping, Fault, Failed)}
  {
  }

  /** A call by the user acts only in its state: start when idle, with a track selected and a writer
      made; pause when recording; resume when paused; stop when recording or paused. Then it
      settles the session and begins with its first stage. */
  lemma CallsActInTheirState<F, O>(env: Env<F, O>, r: Recorder<F, O>, step: Step<F>)
    requires Inv(env, r) && Enabled(env, r, step)
    ensures var r' := Apply(env, r, step);
      match step
      case CallStart(selected, created) =>
        && (r' != r <==> r.session == Idle && (selected[0] || selected[1]) && created)
        && (r' != r ==> r'.session == Recording && r'.ui == Connecting && r'.writerOpen && !r'.writerFailed)
      case CallPause =>
        && (r' != r <==> r.session == Recording)
        && (r' != r ==> r' == r.(session := Paused, ui := Silencing(0, ForPause)))
      case CallResume(selected) =>
        && (r.session != Paused ==> r' == r)
        && (r.session == Paused ==> r'.session == Paused && r'.ui == Opening(0, true))
      case CallStop =>
        && (r' != r <==> r.session == Recording || r.session == Paused)
        && (r' != r ==> r' == r.(session := Stopping, ui := Silencing(0, ForStop)))
      case _ => true
  {
  }

  lemma ClosingDecides<F, O>(env: Env<F, O>, r: Recorder<F, O>, ok: bool)
    requires |r.tracks| == TRACKS && UiSessionInv(r) && Enabled(env, r, Close(ok))
    ensures var outcome := Apply(env, r, Close(ok)).outcome;
      var written := !NothingWritten(r.tracks);
      var stopped := r.ui.reason == ForStop;
      && (outcome == Saved <==> stopped && !r.writerFailed && written && ok)
      && (outcome == Kept <==> stopped && (r.writerFailed || (written && !ok)))
      && (outcome == Discarded <==> !stopped || (!r.writerFailed && !written))
  {
  }

  /** What becomes of the recording: a failed start leaves nothing, and so does a stop when nothing
      was written; otherwise stop saves it, unless a write or the finalizing failed, and then the
      partial file is kept. */
  lemma OutcomeIsExact<F(!new), O>(env: Env<F, O>, r: Recorder<F, O>, ok: bool)
    requires Reachable(env, r) && Enabled(env, r, Close(ok))
    ensures |r.tracks| == TRACKS
    ensures var outcome := Apply(env, r, Close(ok)).outcome;
      var written := r.tracks[0].delivered != [] || r.tracks[1].delivered != [];
      var stopped := r.ui.reason == ForStop;
      && (outcome == Saved <==> stopped && !r.writerFailed && written && ok)
      && (outcome == Kept <==> stopped && (r.writerFailed || (written && !ok)))
      && (outcome == Discarded <==> !stopped || (!r.writerFailed && !written))
  {
    ReachableInv(env, r);
    ClosingDecides(env, r, ok);
    NothingWrittenOnEither(r.tracks);
  }

  lemma NothingWrittenOnEither<F, O>(tracks: seq<Track<F, O>>)
    requires |tracks| == TRACKS
    ensures NothingWritten(tracks) <==> tracks[0].delivered == [] && tracks[1].delivered == []
  {
  }

  // ----- A failed resume ----------------------------------------------------------------

  /** resume found a stream that would not open, or nothing selected. */
  predicate ResumeFails<F, O>(r: Recorder<F, O>, step: Step<F>)
    requires |r.tracks| == TRACKS
  {
    && step.Open? && r.ui.Opening? && r.ui.resuming
    && (if r.ui.track < TRACKS then r.tracks[r.ui.track].selected && !step.ok
        else !r.tracks[0].selected && !r.tracks[1].selected)
  }

  lemma WorkLeavesSession<F, O>(env: Env<F, O>, r: Recorder<F, O>, step: Step<F>)
    requires Inv(env, r) && Enabled(env, r, step)
    requires step.TakeFrame? || step.NextTrack? || step.Upload? || step.Uploaded? || step.Write?
    ensures var r' := Apply(env, r, step);
      && r'.session == r.session && r'.writerOpen == r.writerOpen && r'.outcome == r.outcome
  {
    if !step.Upload? {
      WorkerIsUnique(r, step.who);
    }
  }

  lemma OpenMayFail<F, O>(env: Env<F, O>, r: Recorder<F, O>, ok: bool)
    requires Inv(env, r) && Enabled(env, r, Open(ok)) && r.session != Failed
    ensures Apply(env, r, Open(ok)).session == Failed <==> ResumeFails(r, Open(ok))
  {
    assert AnySelected(r.tracks) <==> r.tracks[0].selected || r.tracks[1].selected;
  }

  lemma OthersDoNotFail<F, O>(env: Env<F, O>, r: Recorder<F, O>, step: Step<F>)
    requires Inv(env, r) && Enabled(env, r, step) && r.session != Failed && !step.Open?
    ensures Apply(env, r, step).session != Failed
  {
    if step.TakeFrame? || step.NextTrack? || step.Upload? || step.Uploaded? || step.Write? {
      WorkLeavesSession(env, r, step);
    }
  }

  /** The session is left failed by a failed resume and by nothing else. */
  lemma OnlyResumeFails<F(!new), O>(env: Env<F, O>, r: Recorder<F, O>, step: Step<F>)
    requires Reachable(env, r) && Enabled(env, r, step) && r.session != Failed
    ensures |r.tracks| == TRACKS
    ensures Apply(env, r, step).session == Failed <==> ResumeFails(r, step)
  {
    ReachableInv(env, r);
    if step.Open? {
      OpenMayFail(env, r, step.ok);
    } else {
      OthersDoNotFail(env, r, step);
    }
  }

  predicate IsTransportCall<F>(step: Step<F>) {
    step.CallStart? || step.CallPause? || step.CallResume? || step.CallStop?
  }

  lemma StuckStep<F, O>(env: Env<F, O>, r: Recorder<F, O>, step: Step<F>)
    requires Inv(env, r) && r.session == Failed && Enabled(env, r, step)
    ensures var r' := Apply(env, r, step);
      && r'.session == Failed && r'.writerOpen && r'.outcome == r.outcome
      && (IsTransportCall(step) ==> r' == r)
  {
    if step.TakeFrame? || step.NextTrack? || step.Upload? || step.Uploaded? || step.Write? {
      WorkLeavesSession(env, r, step);
    }
  }

  /** From then on, whatever happens, no transport call does anything, and
      the recording that was under way is neither finalized nor discarded. */
  lemma {:induction false} FailedSessionIsStuck<F, O>(
      env: Env<F, O>, r: Recorder<F, O>, more: seq<Step<F>>, call: Step<F>)
    requires Inv(env, r) && Legal(env, r, more) && r.session == Failed && IsTransportCall(call)
    ensures var r' := Exec(env, r, more);
      && r'.session == Failed && r'.ui.Ready? && r'.writerOpen && r'.outcome == r.outcome
      && (Enabled(env, r', call) ==> Apply(env, r', call) == r')
      && (call.CallPause? || call.CallStop? ==> Enabled(env, r', call))
  {
    ExecKeeps(env, r, more);
    if more == [] {
    } else {
      var init := more[..|more| - 1];
      FailedSessionIsStuck(env, r, init, call);
      ExecKeeps(env, r, init);
      StuckStep(env, Exec(env, r, init), more[|more| - 1]);
    }
    CallDoesNothing(env, Exec(env, r, more), call);
  }

  lemma CallDoesNothing<F, O>(env: Env<F, O>, r: Recorder<F, O>, call: Step<F>)
    requires Inv(env, r) && r.session == Failed && IsTransportCall(call)
    ensures r.ui.Ready?
    ensures Enabled(env, r, call) ==> Apply(env, r, call) == r
    ensures call.CallPause? || call.CallStop? ==> Enabled(env, r, call)
  {
    if Enabled(env, r, call) {
      StuckStep(env, r, call);
    }
  }

  lemma ExecOneMore<F, O>(env: Env<F, O>, start: Recorder<F, O>, steps: seq<Step<F>>, r: Recorder<F, O>, step: Step<F>)
    requires Legal(env, start, steps) && Exec(env, start, steps) == r && Enabled(env, r, step)
    ensures Legal(env, start, steps + [step]) && Exec(env, start, steps + [step]) == Apply(env, r, step)
  {
    assert (steps + [step])[..|steps|] == steps;
  }

  lemma ReachableStep<F(!new), O>(env: Env<F, O>, r: Recorder<F, O>, step: Step<F>)
    requires Reachable(env, r) && Enabled(env, r, step)
    ensures Reachable(env, Apply(env, r, step))
  {
    var steps :| Legal(env, Launched(), steps) && Exec(env, Launched(), steps) == r;
    ExecOneMore(env, Launched(), steps, r, step);
  }

  lemma LaunchedIsReachable<F(!new), O>(env: Env<F, O>)
    ensures Reachable(env, Launched<F, O>())
  {
    assert Legal(env, Launched<F, O>(), []);
  }

  /** The microphone alone, recording. */
  function MicrophoneOn<F, O>(): Recorder<F, O> {
    var off := Track(false, false, false, false, [], [], [], [], [], []);
    var on := off.(selected := true, recorded := true, capturing := true, installed := true);
    Launched().(session := Recording, tracks := [on, off], writerOpen := true)
  }

  /** Before that: its stream is open and its pipeline not yet in place. */
  function MicrophoneStaged<F, O>(): Recorder<F, O> {
    var on := MicrophoneOn<F, O>();
    on.(ui := Staged(0, false), tracks := [on.tracks[0].(installed := false), on.tracks[1]])
  }

  lemma StagedIsReachable<F(!new), O>(env: Env<F, O>)
    ensures Reachable(env, MicrophoneStaged<F, O>())
  {
    LaunchedIsReachable<F, O>(env);
    var r := Launched<F, O>();
    ReachableStep(env, r, CallStart([true, false], true));
    var tracks := [r.tracks[0].(selected := true, recorded := true), r.tracks[1]];
    assert Begun(r.tracks, [true, false]) == tracks;
    var begun := r.(session := Recording, ui := Connecting, tracks := tracks, writerOpen := true);
    ReachableStep(env, begun, Connect(false));
    ReachableStep(env, begun.(ui := Opening(0, false)), Open(true));
  }

  lemma InstalledIsReachable<F(!new), O>(env: Env<F, O>)
    ensures Reachable(env, MicrophoneOn<F, O>().(ui := Opening(1, false)))
  {
    StagedIsReachable<F, O>(env);
    ReachableStep(env, MicrophoneStaged<F, O>(), Install);
    assert MicrophoneStaged<F, O>().tracks[0 := MicrophoneOn<F, O>().tracks[0]] == MicrophoneOn<F, O>().tracks;
  }

  lemma RecordingIsReachable<F(!new), O>(env: Env<F, O>)
    ensures Reachable(env, MicrophoneOn<F, O>())
  {
    var on := MicrophoneOn<F, O>();
    InstalledIsReachable<F, O>(env);
    ReachableStep(env, on.(ui := Opening(1, false)), Open(true));
    assert on.tracks[0].selected;
    ReachableStep(env, on.(ui := Opening(2, false)), Open(true));
  }

  /** Paused after it: the stream is part of the past. */
  function MicrophonePaused<F, O>(): Recorder<F, O> {
    MicrophoneOn().(session := Paused, tracks := Cleared(MicrophoneOn<F, O>().tracks))
  }

  /** On the way there: the stream has stopped. */
  function MicrophoneSilent<F, O>(ui: Ui<O>): Recorder<F, O> {
    var on := MicrophoneOn<F, O>();
    on.(session := Paused, ui := ui, tracks := [on.tracks[0].(capturing := false), on.tracks[1]])
  }

  lemma SilentIsReachable<F(!new), O>(env: Env<F, O>)
    ensures Reachable(env, MicrophoneSilent<F, O>(Locking(ForPause)))
  {
    RecordingIsReachable<F, O>(env);
    var on := MicrophoneOn<F, O>();
    ReachableStep(env, on, CallPause);
    ReachableStep(env, on.(session := Paused, ui := Silencing(0, ForPause)), Silence);
    var silent := MicrophoneSilent<F, O>(Silencing(1, ForPause));
    assert on.tracks[0 := silent.tracks[0]] == silent.tracks;
    ReachableStep(env, silent, Silence);
  }

  /** The UI thread holds the mutex and has emptied the rings before track t. */
  function MicrophoneDrained<F, O>(t: nat): Recorder<F, O> {
    MicrophoneSilent<F, O>(Draining(ForPause, At(t))).(holder := UiThread)
  }

  lemma DrainTurns<F, O>(env: Env<F, O>, t: nat)
    requires t < TRACKS
    ensures Enabled(env, MicrophoneDrained<F, O>(t), NextTrack(UiThread))
    ensures Apply(env, MicrophoneDrained<F, O>(t), NextTrack(UiThread)) == MicrophoneDrained<F, O>(t + 1)
  {
  }

  lemma DrainReaches<F(!new), O>(env: Env<F, O>, t: nat)
    requires t < TRACKS && Reachable(env, MicrophoneDrained<F, O>(t))
    ensures Reachable(env, MicrophoneDrained<F, O>(t + 1))
  {
    DrainTurns<F, O>(env, t);
    ReachableStep(env, MicrophoneDrained<F, O>(t), NextTrack(UiThread));
  }

  lemma DrainReachesNext<F(!new), O>(env: Env<F, O>, t: nat, u: nat)
    requires t < TRACKS && u == t + 1 && Reachable(env, MicrophoneDrained<F, O>(t))
    ensures Reachable(env, MicrophoneDrained<F, O>(u))
  {
    DrainReaches<F, O>(env, t);
  }

  lemma LockReaches<F(!new), O>(env: Env<F, O>)
    requires Reachable(env, MicrophoneSilent<F, O>(Locking(ForPause)))
    ensures Reachable(env, MicrophoneDrained<F, O>(0))
  {
    ReachableStep(env, MicrophoneSilent<F, O>(Locking(ForPause)), LockPipelines);
  }

  lemma ClearReaches<F(!new), O>(env: Env<F, O>)
    requires Reachable(env, MicrophoneDrained<F, O>(TRACKS))
    ensures Reachable(env, MicrophonePaused<F, O>())
  {
    ReachableStep(env, MicrophoneDrained<F, O>(TRACKS), Clear);
    assert Cleared(MicrophoneDrained<F, O>(TRACKS).tracks) == Cleared(MicrophoneOn<F, O>().tracks);
  }

  lemma LockedIsReachable<F(!new), O>(env: Env<F, O>)
    ensures Reachable(env, MicrophoneDrained<F, O>(0))
  {
    SilentIsReachable<F, O>(env);
    LockReaches<F, O>(env);
  }

  lemma HalfDrainedIsReachable<F(!new), O>(env: Env<F, O>)
    ensures Reachable(env, MicrophoneDrained<F, O>(1))
  {
    LockedIsReachable<F, O>(env);
    DrainReachesNext<F, O>(env, 0, 1);
  }

  lemma DrainedIsReachable<F(!new), O>(env: Env<F, O>)
    ensures Reachable(env, MicrophoneDrained<F, O>(TRACKS))
  {
    HalfDrainedIsReachable<F, O>(env);
    DrainReachesNext<F, O>(env, 1, 2);
  }

  lemma PausedIsReachable<F(!new), O>(env: Env<F, O>)
    ensures Reachable(env, MicrophonePaused<F, O>())
  {
    DrainedIsReachable<F, O>(env);
    ClearReaches<F, O>(env);
  }

  /** It does happen: the microphone is unplugged during a pause and resume cannot open it. */
  lemma StuckSessionIsReachable<F(!new), O>(env: Env<F, O>)
    ensures exists r: Recorder<F, O> :: Reachable(env, r) && r.session == Failed && r.writerOpen
  {
    PausedIsReachable<F, O>(env);
    var r := MicrophonePaused<F, O>();
    ReachableStep(env, r, CallResume([true, false]));
    var resuming := r.(ui := Opening(0, true), tracks := Chosen(r.tracks, [true, false]));
    ReachableStep(env, resuming, Open(false));
    var stuck := resuming.(ui := Ready, session := Failed);
    assert Reachable(env, stuck);
  }

  // ----- A selection changed during a pause -----------------------------------------------

  /** Resumed with system output alone: the microphone was what the recording started with. */
  function Switched<F, O>(ui: Ui<O>, system: Track<F, O>): Recorder<F, O> {
    var paused := MicrophonePaused<F, O>();
    paused.(ui := ui, tracks := [paused.tracks[0].(selected := false), system])
  }

  function SystemChosen<F, O>(): Track<F, O> { MicrophonePaused<F, O>().tracks[1].(selected := true) }

  function SystemOn<F, O>(): Track<F, O> { SystemChosen<F, O>().(capturing := true, installed := true) }

  lemma SwitchIsReachable<F(!new), O>(env: Env<F, O>)
    ensures Reachable(env, Switched<F, O>(Opening(1, true), SystemChosen()))
  {
    PausedIsReachable<F, O>(env);
    var paused := MicrophonePaused<F, O>();
    ReachableStep(env, paused, CallResume([false, true]));
    var opening := Switched<F, O>(Opening(0, true), SystemChosen());
    assert Chosen(paused.tracks, [false, true]) == opening.tracks;
    ReachableStep(env, opening, Open(true));
  }

  lemma SystemStagedIsReachable<F(!new), O>(env: Env<F, O>)
    ensures Reachable(env, Switched<F, O>(Staged(1, true), SystemOn().(installed := false)))
  {
    SwitchIsReachable<F, O>(env);
    var before, after := Switched<F, O>(Opening(1, true), SystemChosen()),
                         Switched<F, O>(Staged(1, true), SystemOn().(installed := false));
    ReachableStep(env, before, Open(true));
    assert before.tracks[1 := after.tracks[1]] == after.tracks;
  }

  lemma SystemInstalledIsReachable<F(!new), O>(env: Env<F, O>)
    ensures Reachable(env, Switched<F, O>(Opening(2, true), SystemOn()))
  {
    SystemStagedIsReachable<F, O>(env);
    var before, after := Switched<F, O>(Staged(1, true), SystemOn().(installed := false)),
                         Switched<F, O>(Opening(2, true), SystemOn());
    ReachableStep(env, before, Install);
    assert before.tracks[1 := after.tracks[1]] == after.tracks;
  }

  /** Recording again, the drain thread having come as far as `holder` and `drain` say. */
  function SystemRecording<F, O>(system: Track<F, O>, holder: Thread, drain: Option<Work<O>>): Recorder<F, O> {
    Switched<F, O>(Ready, system).(session := Recording, holder := holder, drain := drain)
  }

  lemma SystemRecordingIsReachable<F(!new), O>(env: Env<F, O>)
    ensures Reachable(env, SystemRecording<F, O>(SystemOn(), Nobody, None))
  {
    SystemInstalledIsReachable<F, O>(env);
    var r := Switched<F, O>(Opening(2, true), SystemOn());
    assert r.tracks[1].selected;
    ReachableStep(env, r, Open(true));
  }

  function SystemHeard<F, O>(f: F): Track<F, O> { SystemOn<F, O>().(queue := [f], accepted := [f]) }

  lemma SystemHeardIsReachable<F(!new), O>(env: Env<F, O>, f: F)
    requires env.capacity > 0
    ensures Reachable(env, SystemRecording<F, O>(SystemHeard(f), Nobody, None))
  {
    SystemRecordingIsReachable<F, O>(env);
    var before, after := SystemRecording<F, O>(SystemOn(), Nobody, None),
                         SystemRecording<F, O>(SystemHeard(f), Nobody, None);
    ReachableStep(env, before, Capture(1, f, true));
    assert [] + [f] == [f] && before.tracks[1 := after.tracks[1]] == after.tracks;
  }

  lemma SystemDrainIsReachable<F(!new), O>(env: Env<F, O>, f: F)
    requires env.capacity > 0
    ensures Reachable(env, SystemRecording<F, O>(SystemHeard(f), DrainThread, Some(At(0))))
  {
    SystemHeardIsReachable<F, O>(env, f);
    ReachableStep(env, SystemRecording<F, O>(SystemHeard(f), Nobody, None), DrainLock);
  }

  lemma SystemTurns<F, O>(env: Env<F, O>, f: F)
    ensures var before, after := SystemRecording<F, O>(SystemHeard(f), DrainThread, Some(At(0))),
                                 SystemRecording<F, O>(SystemHeard(f), DrainThread, Some(At(1)));
      Enabled(env, before, NextTrack(DrainThread)) && Apply(env, before, NextTrack(DrainThread)) == after
  {
  }

  lemma SystemTurnIsReachable<F(!new), O>(env: Env<F, O>, f: F)
    requires env.capacity > 0
    ensures Reachable(env, SystemRecording<F, O>(SystemHeard(f), DrainThread, Some(At(1))))
  {
    SystemDrainIsReachable<F, O>(env, f);
    SystemTurns<F, O>(env, f);
    ReachableStep(env, SystemRecording<F, O>(SystemHeard(f), DrainThread, Some(At(0))), NextTrack(DrainThread));
  }

  /** A recording under way whose track t is selected and captured but not the writer's. */
  predicate GoesUnrecorded<F, O>(r: Recorder<F, O>, t: nat) {
    && r.session == Recording && r.writerOpen && t < |r.tracks|
    && r.tracks[t].selected && r.tracks[t].installed && !r.tracks[t].recorded
  }

  /** It does happen: a recording of the microphone goes on with system output alone, whose audio
      is captured and aligned and belongs to no track of the file. */
  lemma LateTrackIsReachable<F(!new), O>(env: Env<F, O>, f: F)
    requires env.capacity > 0
    ensures exists r: Recorder<F, O> ::
      Reachable(env, r) && GoesUnrecorded(r, 1) && r.tracks[1].aligned == env.align(1, [], f)
  {
    SystemTurnIsReachable<F, O>(env, f);
    var r := SystemRecording<F, O>(SystemHeard(f), DrainThread, Some(At(1)));
    ReachableStep(env, r, TakeFrame(DrainThread));
    assert Apply(env, r, TakeFrame(DrainThread)).tracks[1].aligned == env.align(1, [], f);
  }
}
