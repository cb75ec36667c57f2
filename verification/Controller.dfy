/** The recorder's three threads over one mutex. Capture pushes into the rings; the drain thread
    and, when streams stop, the UI thread take turns emptying them into the synchronizer, the
    uploader and the writer; the UI thread opens and closes all of these. A step is one critical
    section, one turn of the drain loop, or one call made outside the lock. */
module Controller {
  import opened Audio

  const TRACKS := 2

  // ----- The session's transition table -------------------------------------------------

  datatype Session = Idle | Recording | Paused | Stopping | Stopped | Failed

  datatype SessionEvent = Start | Pause | Resume | Stop | StopComplete | Fault | Reset

  function Transition(from: Session, event: SessionEvent): Option<Session> {
    match event
    case Start => if from == Idle then Some(Recording) else None
    case Pause => if from == Recording then Some(Paused) else None
    case Resume => if from == Paused then Some(Recording) else None
    case Stop => if from == Recording || from == Paused then Some(Stopping) else None
    case StopComplete => if from == Stopping then Some(Stopped) else None
    case Fault => if from == Stopped || from == Failed then None else Some(Failed)
    case Reset => if from == Stopped || from == Failed then Some(Idle) else None
  }

  /** A transition that is not allowed leaves the session where it is. */
  function Handled(from: Session, event: SessionEvent): Session {
    match Transition(from, event)
    case Some(to) => to
    case None => from
  }

  // ----- State --------------------------------------------------------------------------

  /** What a track's synchronizer returns for a frame after the frames before it. */
  datatype Env<!F, !O> = Env(capacity: nat, align: (nat, seq<F>, F) -> seq<O>)

  /** One drain of the pipelines: at a track, handing a frame's outputs to the uploader (the
      client was found present or not), or handing them to the writer. */
  datatype Work<+O> =
    | At(track: nat)
    | Uploading(track: nat, upload: bool, rest: seq<O>)
    | Offering(track: nat, rest: seq<O>)

  /** A track's pipeline and its history: this stream's frames as the ring accepted them, as
      they left it, and what became of them; the earlier streams of this recording; and what
      the writer took. `recorded` says the writer has a track for it. */
  datatype Track<+F, +O> = Track(
    selected: bool,
    recorded: bool,
    capturing: bool,
    installed: bool,
    queue: seq<F>,
    accepted: seq<F>,
    processed: seq<F>,
    aligned: seq<O>,
    past: seq<seq<F>>,
    delivered: seq<O>)
  {
    predicate Quiet() {
      !capturing && !installed && queue == [] && accepted == [] && processed == [] && aligned == []
    }
  }

  datatype Reason = ForPause | ForStop | ForFailedStart

  /** Where the UI thread is. */
  datatype Ui<+O> =
    | Ready
    | Connecting
    | Opening(track: nat, resuming: bool)
    | Staged(track: nat, resuming: bool)
    | Silencing(track: nat, reason: Reason)
    | Locking(reason: Reason)
    | Draining(reason: Reason, work: Work<O>)
    | Closing(reason: Reason)
    | Dismissing(reason: Reason)
    | Leaving(reason: Reason)

  datatype Thread = Nobody | DrainThread | UiThread

  datatype Uploader = NoClient | Connected | HangingUp

  datatype Outcome = Pending | Saved | Kept | Discarded

  datatype Recorder<+F, +O> = Recorder(
    session: Session,
    holder: Thread,
    drain: Option<Work<O>>,
    ui: Ui<O>,
    tracks: seq<Track<F, O>>,
    writerOpen: bool,
    writerFailed: bool,
    client: Uploader,
    outcome: Outcome)

  datatype Step<+F> =
    | CallStart(selected: seq<bool>, created: bool)
    | CallPause
    | CallResume(selected: seq<bool>)
    | CallStop
    | Connect(up: bool)
    | Open(ok: bool)
    | Install
    | Silence
    | LockPipelines
    | Clear
    | Close(ok: bool)
    | Dismiss
    | Leave
    | Capture(track: nat, frame: F, taken: bool)
    | DrainLock
    | DrainUnlock
    | TakeFrame(who: Thread)
    | NextTrack(who: Thread)
    | Upload(who: Thread)
    | Uploaded(who: Thread)
    | Write(who: Thread, ok: bool)

  // ----- The drain both threads perform -------------------------------------------------

  /** The drain a thread is in, if it is in one. */
  function WorkOf<F, O>(r: Recorder<F, O>, who: Thread): Option<Work<O>> {
    match who
    case DrainThread => r.drain
    case UiThread => if r.ui.Draining? then Some(r.ui.work) else None
    case Nobody => None
  }

  function WithWork<F, O>(r: Recorder<F, O>, who: Thread, work: Work<O>): Recorder<F, O> {
    if who == UiThread && r.ui.Draining? then r.(ui := Draining(r.ui.reason, work)) else r.(drain := Some(work))
  }

  /** The writer takes this track's outputs. */
  predicate Writable<F, O>(r: Recorder<F, O>, t: nat) {
    t < |r.tracks| && r.writerOpen && r.tracks[t].recorded && !r.writerFailed
  }

  // ----- Steps --------------------------------------------------------------------------

  predicate InTracks<F, O>(r: Recorder<F, O>, t: nat) { t < TRACKS && |r.tracks| == TRACKS }

  predicate WorkEnabled<F, O>(r: Recorder<F, O>, step: Step<F>)
    requires step.TakeFrame? || step.NextTrack? || step.Upload? || step.Uploaded? || step.Write?
  {
    && WorkOf(r, step.who).Some?
    && var work := WorkOf(r, step.who).value;
       && |r.tracks| == TRACKS
       && match step
          case TakeFrame(_) =>
            work.At? && work.track < TRACKS && r.tracks[work.track].installed && r.tracks[work.track].queue != []
          // The drain thread may find a ring empty whose last push it has not seen. The UI thread
          // drains after the capture threads have stopped, and sees every push.
          case NextTrack(who) =>
            work.At? && work.track < TRACKS
            && (who == UiThread ==> r.tracks[work.track].installed ==> r.tracks[work.track].queue == [])
          case Upload(_) => work.Uploading? && work.upload
          case Uploaded(_) => work.Uploading?
          case Write(_, _) => work.Offering? && work.track < TRACKS && work.rest != []
          case _ => false
  }

  predicate Enabled<F, O>(env: Env<F, O>, r: Recorder<F, O>, step: Step<F>) {
    match step
    case CallStart(selected, _) => r.ui.Ready? && r.holder == Nobody && |selected| == TRACKS && |r.tracks| == TRACKS
    case CallPause => r.ui.Ready?
    case CallResume(selected) => r.ui.Ready? && |selected| == TRACKS && |r.tracks| == TRACKS
    case CallStop => r.ui.Ready?
    case Connect(_) => r.ui.Connecting? && r.holder == Nobody
    case Open(_) => r.ui.Opening? && |r.tracks| == TRACKS
    case Install => r.ui.Staged? && InTracks(r, r.ui.track) && r.holder == Nobody
    case Silence => r.ui.Silencing? && InTracks(r, r.ui.track)
    case LockPipelines => r.ui.Locking? && r.holder == Nobody
    case Clear => r.ui.Draining? && r.ui.work == At(TRACKS)
    case Close(_) => r.ui.Closing? && r.holder == Nobody
    case Dismiss => r.ui.Dismissing? && r.holder == Nobody
    case Leave => r.ui.Leaving?
    case Capture(t, _, taken) =>
      InTracks(r, t) && r.tracks[t].capturing && (taken ==> |r.tracks[t].queue| < env.capacity)
    case DrainLock => r.drain.None? && r.holder == Nobody
    case DrainUnlock => r.drain == Some(At(TRACKS))
    case _ => WorkEnabled(r, step)
  }

  function Chosen<F, O>(tracks: seq<Track<F, O>>, selected: seq<bool>): seq<Track<F, O>>
    requires |selected| == |tracks|
  {
    seq(|tracks|, i requires 0 <= i < |tracks| => tracks[i].(selected := selected[i]))
  }

  /** Tracks at the start of a recording: the writer has a track for each one selected. */
  function Begun<F, O>(tracks: seq<Track<F, O>>, selected: seq<bool>): seq<Track<F, O>>
    requires |selected| == |tracks|
  {
    seq(|tracks|, i requires 0 <= i < |tracks| =>
      tracks[i].(selected := selected[i], recorded := selected[i], past := [], delivered := []))
  }

  /** A pipeline let go: its stream's frames become part of the recording's past. */
  function Released<F, O>(t: Track<F, O>): Track<F, O> {
    t.(capturing := false, installed := false, queue := [], accepted := [], processed := [], aligned := [],
       past := t.past + [t.accepted])
  }

  function Cleared<F, O>(tracks: seq<Track<F, O>>): seq<Track<F, O>> {
    seq(|tracks|, i requires 0 <= i < |tracks| => Released(tracks[i]))
  }

  /** startStreams answering: some stream opened and none failed, or not. */
  function Answered<F, O>(r: Recorder<F, O>, resuming: bool, ok: bool): Recorder<F, O> {
    if resuming then r.(ui := Ready, session := Handled(r.session, if ok then Resume else Fault))
    else if ok then r.(ui := Ready)
    else r.(ui := Silencing(0, ForFailedStart))
  }

  predicate AnySelected<F, O>(tracks: seq<Track<F, O>>) {
    exists i :: 0 <= i < |tracks| && tracks[i].selected
  }

  function Opened<F, O>(r: Recorder<F, O>, t: nat, resuming: bool, ok: bool): Recorder<F, O>
    requires |r.tracks| == TRACKS
  {
    if t >= TRACKS then Answered(r, resuming, AnySelected(r.tracks))
    else if !r.tracks[t].selected then r.(ui := Opening(t + 1, resuming))
    else if !ok then Answered(r, resuming, false)
    else r.(ui := Staged(t, resuming), tracks := r.tracks[t := r.tracks[t].(capturing := true)])
  }

  predicate NothingWritten<F, O>(tracks: seq<Track<F, O>>) {
    forall i :: 0 <= i < |tracks| ==> tracks[i].delivered == []
  }

  function ApplyUi<F, O>(env: Env<F, O>, r: Recorder<F, O>, step: Step<F>): Recorder<F, O>
    requires Enabled(env, r, step)
  {
    match step
    case CallStart(selected, created) =>
      if r.session != Idle || !(selected[0] || selected[1]) || !created then r
      else r.(session := Handled(r.session, Start), ui := Connecting, tracks := Begun(r.tracks, selected),
              writerOpen := true, writerFailed := false, outcome := Pending)
    case CallPause =>
      if Transition(r.session, Pause).None? then r
      else r.(session := Handled(r.session, Pause), ui := Silencing(0, ForPause))
    case CallResume(selected) =>
      if r.session != Paused then r else r.(ui := Opening(0, true), tracks := Chosen(r.tracks, selected))
    case CallStop =>
      if Transition(r.session, Stop).None? then r
      else r.(session := Handled(r.session, Stop), ui := Silencing(0, ForStop))
    case Connect(up) => r.(ui := Opening(0, false), client := if up then Connected else r.client)
    case Open(ok) => Opened(r, r.ui.track, r.ui.resuming, ok)
    case Install =>
      r.(tracks := r.tracks[r.ui.track := r.tracks[r.ui.track].(installed := true)],
         ui := Opening(r.ui.track + 1, r.ui.resuming))
    case Silence =>
      var t := r.ui.track;
      r.(tracks := if r.tracks[t].installed then r.tracks[t := r.tracks[t].(capturing := false)] else r.tracks,
         ui := if t + 1 < TRACKS then Silencing(t + 1, r.ui.reason) else Locking(r.ui.reason))
    case LockPipelines => r.(holder := UiThread, ui := Draining(r.ui.reason, At(0)))
    case Clear =>
      r.(holder := Nobody, tracks := Cleared(r.tracks),
         ui := if r.ui.reason == ForPause then Ready else Closing(r.ui.reason))
    case Close(ok) =>
      r.(ui := Dismissing(r.ui.reason), writerOpen := false,
         outcome := if !r.writerOpen then r.outcome
                    else if r.ui.reason == ForFailedStart then Discarded
                    else if r.writerFailed then Kept
                    else if NothingWritten(r.tracks) then Discarded
                    else if ok then Saved else Kept)
    case Dismiss => r.(ui := Leaving(r.ui.reason), client := if r.client == Connected then HangingUp else r.client)
    case Leave =>
      r.(ui := Ready, client := NoClient,
         session := Handled(Handled(r.session, if r.ui.reason == ForStop then StopComplete else Fault), Reset))
    case _ => r
  }

  /** What track k's synchronizer makes of the oldest frame in its ring. */
  function NextOutput<F, O>(env: Env<F, O>, k: nat, t: Track<F, O>): seq<O>
    requires t.queue != []
  {
    env.align(k, t.processed, t.queue[0])
  }

  function Taken<F, O>(env: Env<F, O>, k: nat, t: Track<F, O>): Track<F, O>
    requires t.queue != []
  {
    t.(queue := t.queue[1..], processed := t.processed + [t.queue[0]], aligned := t.aligned + NextOutput(env, k, t))
  }

  function ApplyWork<F, O>(env: Env<F, O>, r: Recorder<F, O>, step: Step<F>): Recorder<F, O>
    requires Enabled(env, r, step)
  {
    match step
    case TakeFrame(who) =>
      var t := WorkOf(r, who).value.track;
      WithWork(r.(tracks := r.tracks[t := Taken(env, t, r.tracks[t])]), who,
               Uploading(t, r.client == Connected, NextOutput(env, t, r.tracks[t])))
    case NextTrack(who) => WithWork(r, who, At(WorkOf(r, who).value.track + 1))
    case Uploaded(who) =>
      var work := WorkOf(r, who).value;
      WithWork(r, who, if Writable(r, work.track) && work.rest != [] then Offering(work.track, work.rest)
                       else At(work.track))
    case Write(who, ok) =>
      var work := WorkOf(r, who).value;
      var track := r.tracks[work.track];
      if !ok then WithWork(r.(writerFailed := true), who, At(work.track))
      else
        WithWork(r.(tracks := r.tracks[work.track := track.(delivered := track.delivered + [work.rest[0]])]), who,
                 if |work.rest| > 1 then Offering(work.track, work.rest[1..]) else At(work.track))
    case _ => r
  }

  function Apply<F, O>(env: Env<F, O>, r: Recorder<F, O>, step: Step<F>): Recorder<F, O>
    requires Enabled(env, r, step)
  {
    match step
    case Capture(t, frame, taken) =>
      if !taken then r
      else r.(tracks := r.tracks[t := r.tracks[t].(queue := r.tracks[t].queue + [frame],
                                                   accepted := r.tracks[t].accepted + [frame])])
    case DrainLock => r.(holder := DrainThread, drain := Some(At(0)))
    case DrainUnlock => r.(holder := Nobody, drain := None)
    case TakeFrame(_) | NextTrack(_) | Upload(_) | Uploaded(_) | Write(_, _) => ApplyWork(env, r, step)
    case _ => ApplyUi(env, r, step)
  }

  function Launched<F, O>(): Recorder<F, O> {
    var track := Track(false, false, false, false, [], [], [], [], [], []);
    Recorder(Idle, Nobody, None, Ready, [track, track], false, false, NoClient, Pending)
  }

  // ----- Runs ---------------------------------------------------------------------------

  ghost predicate Legal<F, O>(env: Env<F, O>, start: Recorder<F, O>, steps: seq<Step<F>>)
    decreases |steps|, 0
  {
    steps != [] ==>
      && Legal(env, start, steps[..|steps| - 1])
      && Enabled(env, Exec(env, start, steps[..|steps| - 1]), steps[|steps| - 1])
  }

  /** The recorder after an interleaving of its threads. */
  ghost function Exec<F, O>(env: Env<F, O>, start: Recorder<F, O>, steps: seq<Step<F>>): Recorder<F, O>
    requires Legal(env, start, steps)
    decreases |steps|, 1
  {
    if steps == [] then start
    else Apply(env, Exec(env, start, steps[..|steps| - 1]), steps[|steps| - 1])
  }

  /** Some interleaving leads from launch to here. */
  ghost predicate Reachable<F(!new), O>(env: Env<F, O>, r: Recorder<F, O>) {
    exists steps :: Legal(env, Launched(), steps) && Exec(env, Launched(), steps) == r
  }
}
