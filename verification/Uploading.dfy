/** The recorder's threads and the upload client they share: what the drain and the owner do is,
    for the client, a run in which no send overlaps a stop. */
module Uploading {
  import opened Audio
  import opened Controller
  import Threads = ControllerProofs
  import Client = SttClient

  /** The recorder, the client of the current session, and that client's steps since it was
      made. A request stands for one frame of the transcription stream. */
  datatype Joint<+F, +O, +R> = Joint(
    recorder: Recorder<F, O>,
    client: Client.Client<R>,
    history: seq<Client.Step<R>>)

  /** A step of the recorder, a send by the drain of a thread, or a step the client's writer and
      its stop take by themselves. */
  datatype Move<+F, +R> = Drive(step: Step<F>) | SendOne(who: Thread, request: R) | Background(own: Client.Step<R>)

  predicate IsOwn<R>(step: Client.Step<R>) {
    step.Take? || step.WriteReturns? || step.CountSent? || step.Break? || step.Exit? || step.Join?
  }

  /** The owner comes back from stop when the client has joined its writer. */
  predicate Possible<F, O, R>(env: Env<F, O>, j: Joint<F, O, R>, move: Move<F, R>) {
    match move
    case Drive(step) =>
      && !step.Upload? && Enabled(env, j.recorder, step)
      && (step.Leave? && j.recorder.client == HangingUp ==> j.client.stopper == Client.Joined)
    case SendOne(who, _) => Enabled(env, j.recorder, Upload(who))
    case Background(own) => IsOwn(own) && Client.Enabled(j.client, own)
  }

  /** The client takes a step; one it could not take would leave it as it is. */
  function Taking<F, O, R>(j: Joint<F, O, R>, step: Client.Step<R>): Joint<F, O, R> {
    j.(client := if Client.Enabled(j.client, step) then Client.Apply(j.client, step) else j.client,
       history := j.history + [step])
  }

  /** What a step of the recorder asks of the client: connecting makes a new one, taking it away
      begins its stop, and the return from that ends it. */
  function Asking<F, O, R>(capacity: nat, j: Joint<F, O, R>, step: Step<F>): Joint<F, O, R> {
    match step
    case Connect(up) => Taking(j.(client := Client.Fresh(capacity), history := []), Client.Start(up))
    case Dismiss => if j.recorder.client == Connected then Taking(j, Client.StopBegin) else j
    case Leave => if j.recorder.client == HangingUp then Taking(j, Client.StopEnd) else j
    case _ => j
  }

  function Next<F, O, R>(env: Env<F, O>, capacity: nat, j: Joint<F, O, R>, move: Move<F, R>): Joint<F, O, R>
    requires Possible(env, j, move)
  {
    match move
    case Drive(step) => Asking(capacity, j, step).(recorder := Apply(env, j.recorder, step))
    case SendOne(_, request) => Taking(j, Client.Send(request))
    case Background(own) => Taking(j, own)
  }

  function Opening<F, O, R>(capacity: nat): Joint<F, O, R> {
    Joint(Launched(), Client.Fresh(capacity), [])
  }

  // ----- The invariant ------------------------------------------------------------------

  /** The client is where its steps lead, and they keep the discipline. */
  ghost predicate Tracked<R>(capacity: nat, client: Client.Client<R>, history: seq<Client.Step<R>>) {
    && Client.Legal(Client.Fresh(capacity), history)
    && Client.Exec(Client.Fresh(capacity), history) == client
    && Client.Disciplined(Client.Fresh(capacity), history)
    && Client.Inv(client)
  }

  /** The recorder's idea of the client against the client's own. */
  predicate Agrees<F, O, R>(r: Recorder<F, O>, c: Client.Client<R>) {
    match r.client
    case NoClient => !c.running
    case Connected => c.running && c.stopper == Client.Out
    case HangingUp => c.running && c.stopper != Client.Out
  }

  ghost predicate JointInv<F, O, R>(env: Env<F, O>, capacity: nat, j: Joint<F, O, R>) {
    && Threads.Inv(env, j.recorder)
    && Tracked(capacity, j.client, j.history)
    && Agrees(j.recorder, j.client)
  }

  lemma TakingKeeps<F, O, R>(capacity: nat, j: Joint<F, O, R>, step: Client.Step<R>)
    requires Tracked(capacity, j.client, j.history) && Client.Enabled(j.client, step)
    requires step.Send? ==> j.client.stopper == Client.Out
    ensures Tracked(capacity, Taking(j, step).client, Taking(j, step).history)
    ensures Taking(j, step).client == Client.Apply(j.client, step)
  {
    Client.ExecOneMore(Client.Fresh(capacity), j.history, step);
    Client.StepKeeps(j.client, step);
    assert (j.history + [step])[..|j.history|] == j.history;
  }

  lemma FreshIsTracked<R>(capacity: nat)
    ensures Tracked<R>(capacity, Client.Fresh(capacity), [])
  {
  }

  /** The recorder's idea of the client moves only where the client is asked for something. */
  lemma WorkLeavesClient<F, O>(env: Env<F, O>, r: Recorder<F, O>, step: Step<F>)
    requires Threads.Inv(env, r) && Enabled(env, r, step)
    requires step.TakeFrame? || step.NextTrack? || step.Upload? || step.Uploaded? || step.Write?
    ensures Apply(env, r, step).client == r.client
  {
    if !step.Upload? {
      Threads.WorkerIsUnique(r, step.who);
    }
  }

  lemma ClientMoves<F, O>(env: Env<F, O>, r: Recorder<F, O>, step: Step<F>)
    requires Threads.Inv(env, r) && Enabled(env, r, step)
    ensures Apply(env, r, step).client
         == match step
            case Connect(up) => if up then Connected else r.client
            case Dismiss => if r.client == Connected then HangingUp else r.client
            case Leave => NoClient
            case _ => r.client
  {
    if step.TakeFrame? || step.NextTrack? || step.Upload? || step.Uploaded? || step.Write? {
      WorkLeavesClient(env, r, step);
    }
  }

  lemma AskingKeeps<F, O, R>(env: Env<F, O>, capacity: nat, j: Joint<F, O, R>, step: Step<F>)
    requires JointInv(env, capacity, j) && Possible(env, j, Drive(step))
    ensures var j' := Asking(capacity, j, step);
      Tracked(capacity, j'.client, j'.history) && Agrees(Apply(env, j.recorder, step), j'.client)
  {
    ClientMoves(env, j.recorder, step);
    match step
    case Connect(up) =>
      FreshIsTracked<R>(capacity);
      TakingKeeps(capacity, j.(client := Client.Fresh(capacity), history := []), Client.Start(up));
    case Dismiss =>
      if j.recorder.client == Connected {
        TakingKeeps(capacity, j, Client.StopBegin);
      }
    case Leave =>
      if j.recorder.client == HangingUp {
        TakingKeeps(capacity, j, Client.StopEnd);
      }
    case _ =>
  }

  /** A step of the client that is no request of the recorder's leaves the two in agreement. */
  lemma OwnStepAgrees<F, O, R>(r: Recorder<F, O>, c: Client.Client<R>, step: Client.Step<R>)
    requires Agrees(r, c) && Client.Enabled(c, step) && (IsOwn(step) || step.Send?)
    ensures Agrees(r, Client.Apply(c, step))
  {
  }

  lemma DriveKeeps<F, O, R>(env: Env<F, O>, capacity: nat, j: Joint<F, O, R>, step: Step<F>)
    requires JointInv(env, capacity, j) && Possible(env, j, Drive(step))
    ensures JointInv(env, capacity, Next(env, capacity, j, Drive(step)))
  {
    AskingKeeps(env, capacity, j, step);
    Threads.StepKeeps(env, j.recorder, step);
  }

  lemma SendKeeps<F, O, R>(env: Env<F, O>, capacity: nat, j: Joint<F, O, R>, who: Thread, request: R)
    requires JointInv(env, capacity, j) && Enabled(env, j.recorder, Upload(who))
    ensures JointInv(env, capacity, Taking(j, Client.Send(request)))
  {
    Threads.WorkerIsUnique(j.recorder, who);
    TakingKeeps(capacity, j, Client.Send(request));
    OwnStepAgrees(j.recorder, j.client, Client.Send(request));
  }

  lemma NextKeeps<F, O, R>(env: Env<F, O>, capacity: nat, j: Joint<F, O, R>, move: Move<F, R>)
    requires JointInv(env, capacity, j) && Possible(env, j, move)
    ensures JointInv(env, capacity, Next(env, capacity, j, move))
  {
    if move.Drive? {
      DriveKeeps(env, capacity, j, move.step);
    } else if move.SendOne? {
      SendKeeps(env, capacity, j, move.who, move.request);
    } else {
      TakingKeeps(capacity, j, move.own);
      OwnStepAgrees(j.recorder, j.client, move.own);
    }
  }

  // ----- Runs ---------------------------------------------------------------------------

  ghost predicate Legal<F, O, R>(env: Env<F, O>, capacity: nat, moves: seq<Move<F, R>>)
    decreases |moves|, 0
  {
    moves != [] ==>
      && Legal(env, capacity, moves[..|moves| - 1])
      && Possible(env, Exec(env, capacity, moves[..|moves| - 1]), moves[|moves| - 1])
  }

  /** Recorder and client after an interleaving of all their threads. */
  ghost function Exec<F, O, R>(env: Env<F, O>, capacity: nat, moves: seq<Move<F, R>>): Joint<F, O, R>
    requires Legal(env, capacity, moves)
    decreases |moves|, 1
  {
    if moves == [] then Opening(capacity)
    else Next(env, capacity, Exec(env, capacity, moves[..|moves| - 1]), moves[|moves| - 1])
  }

  lemma {:induction false} ExecKeeps<F, O, R>(env: Env<F, O>, capacity: nat, moves: seq<Move<F, R>>)
    requires Legal(env, capacity, moves)
    ensures JointInv(env, capacity, Exec(env, capacity, moves))
  {
    if moves == [] {
      Threads.LaunchedInv(env);
      FreshIsTracked<R>(capacity);
    } else {
      var init := moves[..|moves| - 1];
      ExecKeeps(env, capacity, init);
      NextKeeps(env, capacity, Exec(env, capacity, init), moves[|moves| - 1]);
    }
  }

  /** In every interleaving the recorder's use of a client is a legal run of it in which no send
      overlaps a stop, so nothing is lost uncounted: while it runs every call is sent, dropped,
      queued or in flight, and once it has stopped every call was sent or dropped. */
  lemma RecorderIsDisciplined<F, O, R>(env: Env<F, O>, capacity: nat, moves: seq<Move<F, R>>)
    requires Legal(env, capacity, moves)
    ensures var j := Exec(env, capacity, moves);
      var c := j.client;
      && Client.Legal(Client.Fresh(capacity), j.history)
      && c == Client.Exec(Client.Fresh(capacity), j.history)
      && Client.Disciplined(Client.Fresh(capacity), j.history)
      && c.calls == c.sent + c.dropped + |c.queue| + c.writer.InFlight()
      && (j.recorder.client == NoClient ==> !c.running && c.calls == c.sent + c.dropped)
  {
    ExecKeeps(env, capacity, moves);
    Client.DisciplinedClientLosesNothing(capacity, Exec(env, capacity, moves).history);
  }
}
