/** No call on the recorder can get stuck: until it returns, the UI thread or the drain it waits
    for has a step to take, and each such step brings the return nearer. */
module ControllerProgress {
  import opened Audio
  import opened Controller
  import opened ControllerProofs

  // ----- How far the call is from its end -----------------------------------------------

  /** The stages still before the UI thread, then what is left of the drain under way: frames in
      the rings ahead of it, tracks, and outputs in hand. */
  datatype Distance = Distance(stages: nat, frames: nat, turns: nat, outputs: nat)
  {
    /** Nearer the end, the first difference deciding. */
    predicate Below(d: Distance) {
      || stages < d.stages
      || (stages == d.stages && frames < d.frames)
      || (stages == d.stages && frames == d.frames && turns < d.turns)
      || (stages == d.stages && frames == d.frames && turns == d.turns && outputs < d.outputs)
    }
  }

  function Stages<O>(ui: Ui<O>): nat {
    match ui
    case Ready => 0
    case Leaving(_) => 1
    case Dismissing(_) => 2
    case Closing(_) => 3
    case Draining(_, _) => 4
    case Locking(_) => 5
    case Silencing(t, _) => if t < TRACKS then 6 + TRACKS - t else 6
    case Opening(t, _) => if t < TRACKS then 10 + 2 * (TRACKS - t) else 10
    case Staged(t, _) => if t < TRACKS then 9 + 2 * (TRACKS - t) else 9
    case Connecting => 20
  }

  /** Frames in the rings of track t and those after it. */
  function Ahead<F, O>(tracks: seq<Track<F, O>>, t: nat): nat
    decreases |tracks| - t
  {
    if t >= |tracks| then 0 else |tracks[t].queue| + Ahead(tracks, t + 1)
  }

  function Position<O>(work: Work<O>): nat {
    match work
    case At(t) => t
    case Uploading(t, _, _) => t
    case Offering(t, _) => t
  }

  /** What the drain still holds of the frame it took. */
  function Left<O>(work: Work<O>): nat {
    match work
    case At(_) => 0
    case Uploading(_, _, rest) => |rest| + 2
    case Offering(_, rest) => |rest| + 1
  }

  function DistanceOf<F, O>(r: Recorder<F, O>): Distance {
    match Working(r)
    case None => Distance(Stages(r.ui), 0, 0, 0)
    case Some(work) =>
      var t := Position(work);
      Distance(Stages(r.ui), Ahead(r.tracks, t), if t < TRACKS then TRACKS - t + 1 else 1, Left(work))
  }

  // ----- Steps towards it ---------------------------------------------------------------

  /** The next step of a drain. `ok` is what the writer answers. */
  function DrainStep<F, O>(r: Recorder<F, O>, who: Thread, work: Work<O>, ok: bool): Step<F> {
    match work
    case At(t) =>
      if t >= TRACKS then (if who == UiThread then Clear else DrainUnlock)
      else if t < |r.tracks| && r.tracks[t].installed && r.tracks[t].queue != [] then TakeFrame(who)
      else NextTrack(who)
    case Uploading(_, _, _) => Uploaded(who)
    case Offering(_, _) => Write(who, ok)
  }

  /** The next step of the UI thread outside a drain. `ok` is what it is answered. */
  function UiStep<F, O>(ui: Ui<O>, ok: bool): Step<F>
    requires !ui.Ready? && !ui.Draining?
  {
    match ui
    case Connecting => Connect(ok)
    case Opening(_, _) => Open(ok)
    case Staged(_, _) => Install
    case Silencing(_, _) => Silence
    case Locking(_) => LockPipelines
    case Closing(_) => Close(ok)
    case Dismissing(_) => Dismiss
    case Leaving(_) => Leave
  }

  /** Whose turn it is until the call returns: first the drain under way, then the UI thread. */
  function NextStep<F, O>(r: Recorder<F, O>, ok: bool): Step<F>
    requires !r.ui.Ready?
  {
    if r.drain.Some? then DrainStep(r, DrainThread, r.drain.value, ok)
    else if r.ui.Draining? then DrainStep(r, UiThread, r.ui.work, ok)
    else UiStep(r.ui, ok)
  }

  lemma AheadMoves<F, O>(tracks: seq<Track<F, O>>, t: nat)
    requires t < |tracks|
    ensures Ahead(tracks, t) == |tracks[t].queue| + Ahead(tracks, t + 1)
  {
  }

  lemma {:induction false} AheadUnchanged<F, O>(tracks: seq<Track<F, O>>, changed: Track<F, O>, u: nat, t: nat)
    requires u < t <= |tracks|
    ensures Ahead(tracks[u := changed], t) == Ahead(tracks, t)
    decreases |tracks| - t
  {
    if t == |tracks| {
    } else {
      AheadUnchanged(tracks, changed, u, t + 1);
    }
  }

  lemma AheadDrops<F, O>(tracks: seq<Track<F, O>>, t: nat, taken: Track<F, O>)
    requires t < |tracks| && |taken.queue| == |tracks[t].queue| - 1
    ensures Ahead(tracks[t := taken], t) == Ahead(tracks, t) - 1
  {
    AheadUnchanged(tracks, taken, t, t + 1);
  }

  lemma {:induction false} SameAhead<F, O>(tracks: seq<Track<F, O>>, tracks': seq<Track<F, O>>, t: nat)
    requires |tracks| == |tracks'| && forall i :: 0 <= i < |tracks| ==> tracks'[i].queue == tracks[i].queue
    ensures Ahead(tracks', t) == Ahead(tracks, t)
    decreases |tracks| - t
  {
    if t >= |tracks| {
    } else {
      SameAhead(tracks, tracks', t + 1);
    }
  }

  // ----- Each brings the end nearer -----------------------------------------------------

  /** A step of the drain under way other than a send, which leaves the recorder as it is. */
  predicate IsDrainStep<F>(step: Step<F>) {
    step.TakeFrame? || step.NextTrack? || step.Uploaded? || step.Write? || step.DrainUnlock?
  }

  lemma TakeIsNearer<F, O>(env: Env<F, O>, r: Recorder<F, O>, who: Thread)
    requires Inv(env, r) && Enabled(env, r, TakeFrame(who))
    ensures DistanceOf(Apply(env, r, TakeFrame(who))).Below(DistanceOf(r))
  {
    WorkerIsUnique(r, who);
    var t := WorkOf(r, who).value.track;
    AheadDrops(r.tracks, t, Taken(env, t, r.tracks[t]));
  }

  lemma TurnIsNearer<F, O>(env: Env<F, O>, r: Recorder<F, O>, who: Thread)
    requires Inv(env, r) && Enabled(env, r, NextTrack(who))
    ensures DistanceOf(Apply(env, r, NextTrack(who))).Below(DistanceOf(r))
  {
    WorkerIsUnique(r, who);
    AheadMoves(r.tracks, WorkOf(r, who).value.track);
  }

  lemma UploadedIsNearer<F, O>(env: Env<F, O>, r: Recorder<F, O>, who: Thread)
    requires Inv(env, r) && Enabled(env, r, Uploaded(who))
    ensures DistanceOf(Apply(env, r, Uploaded(who))).Below(DistanceOf(r))
  {
    WorkerIsUnique(r, who);
  }

  lemma WriteIsNearer<F, O>(env: Env<F, O>, r: Recorder<F, O>, who: Thread, ok: bool)
    requires Inv(env, r) && Enabled(env, r, Write(who, ok))
    ensures DistanceOf(Apply(env, r, Write(who, ok))).Below(DistanceOf(r))
  {
    WorkerIsUnique(r, who);
    SameAhead(r.tracks, Apply(env, r, Write(who, ok)).tracks, WorkOf(r, who).value.track);
  }

  lemma DrainStepIsNearer<F, O>(env: Env<F, O>, r: Recorder<F, O>, step: Step<F>)
    requires Inv(env, r) && Enabled(env, r, step) && IsDrainStep(step)
    ensures DistanceOf(Apply(env, r, step)).Below(DistanceOf(r))
  {
    match step
    case TakeFrame(who) => TakeIsNearer(env, r, who);
    case NextTrack(who) => TurnIsNearer(env, r, who);
    case Uploaded(who) => UploadedIsNearer(env, r, who);
    case Write(who, ok) => WriteIsNearer(env, r, who, ok);
    case DrainUnlock =>
  }

  /** A step only the UI thread takes while a call is under way. */
  predicate IsUiStep<F>(step: Step<F>) {
    || step.Connect? || step.Open? || step.Install? || step.Silence? || step.LockPipelines?
    || step.Clear? || step.Close? || step.Dismiss? || step.Leave?
  }

  lemma UiStepPassesAStage<F, O>(env: Env<F, O>, r: Recorder<F, O>, step: Step<F>)
    requires UiSessionInv(r) && Enabled(env, r, step) && IsUiStep(step)
    ensures Stages(Apply(env, r, step).ui) < Stages(r.ui)
  {
  }

  lemma UiStepIsNearer<F, O>(env: Env<F, O>, r: Recorder<F, O>, step: Step<F>)
    requires Inv(env, r) && Enabled(env, r, step) && IsUiStep(step)
    ensures DistanceOf(Apply(env, r, step)).Below(DistanceOf(r))
  {
    UiStepPassesAStage(env, r, step);
    StagesDecide(r, Apply(env, r, step));
  }

  lemma StagesDecide<F, O>(r: Recorder<F, O>, r': Recorder<F, O>)
    requires Stages(r'.ui) < Stages(r.ui)
    ensures DistanceOf(r').Below(DistanceOf(r))
  {
  }

  lemma DrainIsEnabled<F, O>(env: Env<F, O>, r: Recorder<F, O>, who: Thread, ok: bool)
    requires Inv(env, r) && WorkOf(r, who).Some?
    ensures var step := DrainStep(r, who, WorkOf(r, who).value, ok);
      Enabled(env, r, step) && (IsDrainStep(step) || step.Clear?)
  {
    WorkerIsUnique(r, who);
  }

  lemma UiIsEnabled<F, O>(env: Env<F, O>, r: Recorder<F, O>, ok: bool)
    requires Inv(env, r) && Working(r).None? && !r.ui.Ready?
    ensures Enabled(env, r, UiStep<F, O>(r.ui, ok)) && IsUiStep(UiStep<F, O>(r.ui, ok))
  {
  }

  lemma NextStepIsNearer<F, O>(env: Env<F, O>, r: Recorder<F, O>, ok: bool)
    requires Inv(env, r) && !r.ui.Ready?
    ensures Enabled(env, r, NextStep(r, ok))
    ensures DistanceOf(Apply(env, r, NextStep(r, ok))).Below(DistanceOf(r))
  {
    if Working(r).Some? {
      DrainIsEnabled(env, r, if r.drain.Some? then DrainThread else UiThread, ok);
    } else {
      UiIsEnabled(env, r, ok);
    }
    StepIsNearer(env, r, NextStep(r, ok));
  }

  /** In every reachable state in which a call has not returned there is a step to take, by the
      UI thread or by the drain holding the mutex it waits for, and it brings the return nearer,
      whatever the devices, the writer and the connection answer. */
  lemma CallIsNeverStuck<F(!new), O>(env: Env<F, O>, r: Recorder<F, O>, ok: bool)
    requires Reachable(env, r) && !r.ui.Ready?
    ensures Enabled(env, r, NextStep(r, ok))
    ensures DistanceOf(Apply(env, r, NextStep(r, ok))).Below(DistanceOf(r))
  {
    ReachableInv(env, r);
    NextStepIsNearer(env, r, ok);
  }

  lemma StepIsNearer<F, O>(env: Env<F, O>, r: Recorder<F, O>, step: Step<F>)
    requires Inv(env, r) && Enabled(env, r, step) && (IsDrainStep(step) || IsUiStep(step))
    ensures DistanceOf(Apply(env, r, step)).Below(DistanceOf(r))
  {
    if IsDrainStep(step) {
      DrainStepIsNearer(env, r, step);
    } else {
      UiStepIsNearer(env, r, step);
    }
  }

  /** Once the streams have stopped. */
  predicate IsEnding<F, O>(r: Recorder<F, O>) {
    r.ui.Locking? || r.ui.Draining? || r.ui.Closing? || r.ui.Dismissing? || r.ui.Leaving?
  }

  /** From when the streams have stopped, only the drain thread taking the mutex once more puts
      the return off; a send leaves everything where it is. */
  lemma OnlyDrainsDelayStop<F(!new), O>(env: Env<F, O>, r: Recorder<F, O>, step: Step<F>)
    requires Reachable(env, r) && Enabled(env, r, step) && IsEnding(r)
    requires !step.DrainLock? && !step.Upload?
    ensures DistanceOf(Apply(env, r, step)).Below(DistanceOf(r))
  {
    ReachableInv(env, r);
    assert step.Capture? ==> UiTrackInv(r, step.track);
    StepIsNearer(env, r, step);
  }

  // ----- Where the call ends --------------------------------------------------------------

  /** The recorder once the call has returned, with those steps taken in turn; answers(n) is what
      the n-th of them is answered. */
  ghost function Returned<F, O>(env: Env<F, O>, r: Recorder<F, O>, answers: nat -> bool, n: nat): (end: Recorder<F, O>)
    requires Inv(env, r)
    ensures Inv(env, end) && end.ui.Ready?
    decreases DistanceOf(r).stages, DistanceOf(r).frames, DistanceOf(r).turns, DistanceOf(r).outputs
  {
    if r.ui.Ready? then r
    else
      NextStepIsNearer(env, r, answers(n));
      StepKeeps(env, r, NextStep(r, answers(n)));
      Returned(env, Apply(env, r, NextStep(r, answers(n))), answers, n + 1)
  }

  /** A call that stops the streams is under way, for this reason. */
  predicate IsStopping<O>(ui: Ui<O>, reason: Reason) {
    match ui
    case Silencing(_, why) => why == reason
    case Locking(why) => why == reason
    case Draining(why, _) => why == reason
    case Closing(why) => why == reason
    case Dismissing(why) => why == reason
    case Leaving(why) => why == reason
    case _ => false
  }

  /** What such a call comes to. A pause leaves the session paused and the writer open. After stop
      or a failed start the session is over: idle, the writer closed, the client gone. Either way
      the call no longer holds the mutex. */
  predicate IsOver<F, O>(r: Recorder<F, O>, reason: Reason) {
    && r.ui.Ready? && r.holder != UiThread
    && if reason == ForPause then r.session == Paused && r.writerOpen
       else r.session == Idle && !r.writerOpen && r.client == NoClient
  }

  /** The drain thread's own steps leave the UI thread where it is. */
  lemma DrainLeavesUi<F, O>(env: Env<F, O>, r: Recorder<F, O>, step: Step<F>)
    requires Inv(env, r) && r.drain.Some? && Enabled(env, r, step) && IsDrainStep(step)
    ensures Apply(env, r, step).ui == r.ui
  {
    if !step.DrainUnlock? {
      WorkerIsUnique(r, step.who);
    }
  }

  lemma OwnDrainGoesOn<F, O>(env: Env<F, O>, r: Recorder<F, O>, ok: bool)
    requires UiSessionInv(r) && Exclusive(r) && r.drain.None? && r.ui.Draining? && Enabled(env, r, NextStep(r, ok))
    ensures var r', reason := Apply(env, r, NextStep(r, ok)), r.ui.reason;
      IsStopping(r'.ui, reason) || IsOver(r', reason)
  {
  }

  lemma UiStopsOn<F, O>(env: Env<F, O>, r: Recorder<F, O>, ok: bool, reason: Reason)
    requires UiSessionInv(r) && Exclusive(r) && IsStopping(r.ui, reason) && !r.ui.Draining?
    requires Enabled(env, r, UiStep(r.ui, ok))
    ensures var r' := Apply(env, r, UiStep(r.ui, ok));
      IsStopping(r'.ui, reason) || IsOver(r', reason)
  {
  }

  lemma StoppingGoesOn<F, O>(env: Env<F, O>, r: Recorder<F, O>, ok: bool, reason: Reason)
    requires Inv(env, r) && IsStopping(r.ui, reason) && Enabled(env, r, NextStep(r, ok))
    ensures var r' := Apply(env, r, NextStep(r, ok));
      IsStopping(r'.ui, reason) || IsOver(r', reason)
  {
    if r.drain.Some? {
      DrainIsEnabled(env, r, DrainThread, ok);
      DrainLeavesUi(env, r, NextStep(r, ok));
    } else if r.ui.Draining? {
      OwnDrainGoesOn(env, r, ok);
    } else {
      UiStopsOn(env, r, ok, reason);
    }
  }

  /** However full the rings, wherever the drain thread is and whatever is answered, a pause, a stop
      or a failed start that has begun comes to its end: paused with the recording still open, or
      ready to start again. */
  lemma {:induction false} StopGetsThrough<F, O>(
      env: Env<F, O>, r: Recorder<F, O>, answers: nat -> bool, n: nat, reason: Reason)
    requires Inv(env, r) && (IsStopping(r.ui, reason) || IsOver(r, reason))
    ensures IsOver(Returned(env, r, answers, n), reason)
    decreases DistanceOf(r).stages, DistanceOf(r).frames, DistanceOf(r).turns, DistanceOf(r).outputs
  {
    if r.ui.Ready? {
    } else {
      NextStepIsNearer(env, r, answers(n));
      StepKeeps(env, r, NextStep(r, answers(n)));
      StoppingGoesOn(env, r, answers(n), reason);
      StopGetsThrough(env, Apply(env, r, NextStep(r, answers(n))), answers, n + 1, reason);
    }
  }
}
