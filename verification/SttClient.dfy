/** The upload client: callers enqueue under a mutex, one writer thread sends, and stop waits
    for it. Each step is one critical section or one call into the stream. start and stop are
    called by one owner; sendFrame may come from anywhere at any time. */
module SttClient {
  import opened Audio

  /** Where the writer thread is. */
  datatype Writer<+R> = Absent | Waiting | Writing(request: R) | Written | Refused(request: R) | Exited
  {
    /** Taken from the queue and neither counted as sent nor as dropped yet. */
    function InFlight(): nat { if Writing? || Written? || Refused? then 1 else 0 }

    /** Taken from the queue and not sent. */
    function Held(): seq<R> { if Writing? || Refused? then [request] else [] }
  }

  /** Where the owner's call of stop is. */
  datatype Stopper = Out | Joining | Joined

  /** The client's fields, both program counters, and the history: every call of sendFrame,
      what this session accepted and sent, what stop cleared, and the sends that were accepted
      after the writer had gone. */
  datatype Client<+R> = Client(
    capacity: nat,
    queue: seq<R>,
    running: bool,
    stopRequested: bool,
    broken: bool,
    sent: nat,
    dropped: nat,
    writer: Writer<R>,
    stopper: Stopper,
    calls: nat,
    accepted: seq<R>,
    written: seq<R>,
    cleared: nat,
    late: nat)

  datatype Step<+R> =
    | Start(connects: bool)
    | Send(request: R)
    | Take
    | WriteReturns(ok: bool)
    | CountSent
    | Break
    | Exit
    | StopBegin
    | Join
    | StopEnd

  predicate Enabled<R>(c: Client<R>, step: Step<R>) {
    match step
    case Start(_) => c.stopper == Out
    case Send(_) => true
    case Take => c.writer.Waiting? && c.queue != []
    case WriteReturns(_) => c.writer.Writing?
    case CountSent => c.writer.Written?
    case Break => c.writer.Refused?
    case Exit => c.writer.Waiting? && c.stopRequested && c.queue == []
    case StopBegin => c.stopper == Out
    case Join => c.stopper == Joining && c.writer.Exited?
    case StopEnd => c.stopper == Joined
  }

  /** What sendFrame decides under the lock. */
  predicate Admits<R>(c: Client<R>) { c.running && !c.broken && |c.queue| < c.capacity }

  function Apply<R>(c: Client<R>, step: Step<R>): Client<R>
    requires Enabled(c, step)
  {
    match step
    case Start(connects) =>
      if c.running || !connects then c
      else c.(stopRequested := false, broken := false, running := true, writer := Waiting,
              accepted := [], written := [])
    case Send(request) =>
      if Admits(c)
      then c.(queue := c.queue + [request], calls := c.calls + 1, accepted := c.accepted + [request],
              late := c.late + if c.writer.Exited? then 1 else 0)
      else c.(dropped := c.dropped + 1, calls := c.calls + 1)
    case Take => c.(writer := Writing(c.queue[0]), queue := c.queue[1..])
    case WriteReturns(ok) =>
      if ok then c.(writer := Written, written := c.written + [c.writer.request])
      else c.(writer := Refused(c.writer.request))
    case CountSent => c.(writer := Waiting, sent := c.sent + 1)
    case Break => c.(writer := Exited, broken := true, dropped := c.dropped + (|c.queue| + 1), queue := [])
    case Exit => c.(writer := Exited)
    case StopBegin => if !c.running then c else c.(stopRequested := true, stopper := Joining)
    case Join => c.(stopper := Joined)
    case StopEnd =>
      c.(stopper := Out, running := false, writer := Absent, cleared := c.cleared + |c.queue|, queue := [])
  }

  function Fresh<R>(capacity: nat): Client<R> {
    Client(capacity, [], false, false, false, 0, 0, Absent, Out, 0, [], [], 0, 0)
  }

  // ----- The invariant ------------------------------------------------------------------

  ghost predicate PhaseInv<R>(c: Client<R>) {
    && (c.running <==> !c.writer.Absent?)
    && (c.running ==> (c.stopRequested <==> c.stopper != Out))
    && (!c.running ==> c.queue == [] && c.stopper == Out)
    && (c.stopper == Joined ==> c.writer.Exited?)
    && (c.broken && c.running ==> c.writer.Exited? && c.queue == [])
    && (c.writer.Exited? ==> c.broken || c.stopRequested)
  }

  /** In one session requests leave in the order they came, and none is invented. */
  ghost predicate OrderInv<R>(c: Client<R>) {
    && c.written <= c.accepted
    && (c.running && !c.broken ==> c.accepted == c.written + c.writer.Held() + c.queue)
  }

  predicate CountInv<R>(c: Client<R>) {
    && |c.queue| <= c.capacity
    && c.calls == c.sent + c.dropped + |c.queue| + c.writer.InFlight() + c.cleared
    && c.late == c.cleared + if c.writer.Exited? then |c.queue| else 0
  }

  ghost predicate Inv<R>(c: Client<R>) {
    PhaseInv(c) && OrderInv(c) && CountInv(c)
  }

  /** Steps of the writer and of its callers, and those of the owner. */
  predicate IsOwners<R>(step: Step<R>) { step.Start? || step.StopBegin? || step.Join? || step.StopEnd? }

  lemma StepKeepsPhase<R>(c: Client<R>, step: Step<R>)
    requires PhaseInv(c) && Enabled(c, step)
    ensures PhaseInv(Apply(c, step))
  {
  }

  lemma OwnerKeepsCounts<R>(c: Client<R>, step: Step<R>)
    requires PhaseInv(c) && CountInv(c) && Enabled(c, step) && IsOwners(step)
    ensures CountInv(Apply(c, step))
  {
  }

  lemma OthersKeepCounts<R>(c: Client<R>, step: Step<R>)
    requires PhaseInv(c) && CountInv(c) && Enabled(c, step) && !IsOwners(step)
    ensures CountInv(Apply(c, step))
  {
  }

  lemma OwnerKeepsOrder<R>(c: Client<R>, step: Step<R>)
    requires PhaseInv(c) && OrderInv(c) && Enabled(c, step) && IsOwners(step)
    ensures OrderInv(Apply(c, step))
  {
  }

  lemma OthersKeepOrder<R>(c: Client<R>, step: Step<R>)
    requires PhaseInv(c) && OrderInv(c) && Enabled(c, step) && !IsOwners(step)
    ensures OrderInv(Apply(c, step))
  {
    match step
    case Take => assert c.queue == [c.queue[0]] + c.queue[1..];
    case _ =>
  }

  lemma StepKeeps<R>(c: Client<R>, step: Step<R>)
    requires Inv(c) && Enabled(c, step)
    ensures Inv(Apply(c, step))
  {
    StepKeepsPhase(c, step);
    if IsOwners(step) {
      OwnerKeepsCounts(c, step);
      OwnerKeepsOrder(c, step);
    } else {
      OthersKeepCounts(c, step);
      OthersKeepOrder(c, step);
    }
  }

  // ----- Runs ---------------------------------------------------------------------------

  ghost predicate Legal<R>(c: Client<R>, steps: seq<Step<R>>)
    decreases |steps|, 0
  {
    steps != [] ==>
      && Legal(c, steps[..|steps| - 1])
      && Enabled(Exec(c, steps[..|steps| - 1]), steps[|steps| - 1])
  }

  /** The client after an interleaving of its callers, its writer and its owner. */
  ghost function Exec<R>(c: Client<R>, steps: seq<Step<R>>): Client<R>
    requires Legal(c, steps)
    decreases |steps|, 1
  {
    if steps == [] then c else Apply(Exec(c, steps[..|steps| - 1]), steps[|steps| - 1])
  }

  lemma {:induction false} ExecKeeps<R>(c: Client<R>, steps: seq<Step<R>>)
    requires Inv(c) && Legal(c, steps)
    ensures Inv(Exec(c, steps)) && Exec(c, steps).capacity == c.capacity
  {
    if steps == [] {
    } else {
      ExecKeeps(c, steps[..|steps| - 1]);
      StepKeeps(Exec(c, steps[..|steps| - 1]), steps[|steps| - 1]);
    }
  }

  lemma ExecOneMore<R>(c: Client<R>, steps: seq<Step<R>>, step: Step<R>)
    requires Legal(c, steps) && Enabled(Exec(c, steps), step)
    ensures Legal(c, steps + [step]) && Exec(c, steps + [step]) == Apply(Exec(c, steps), step)
  {
    assert (steps + [step])[..|steps|] == steps;
  }

  /** In every interleaving, restarts included: the queue is bounded, what a session sent is a
      prefix of what it accepted, and every call of sendFrame is in exactly one place. */
  lemma SessionsAreOrderedAndCounted<R>(capacity: nat, steps: seq<Step<R>>)
    requires Legal(Fresh<R>(capacity), steps)
    ensures var c := Exec(Fresh<R>(capacity), steps);
      && |c.queue| <= capacity
      && c.written <= c.accepted
      && (c.running && !c.broken ==> c.accepted == c.written + c.writer.Held() + c.queue)
      && c.calls == c.sent + c.dropped + |c.queue| + c.writer.InFlight() + c.cleared
  {
    ExecKeeps(Fresh<R>(capacity), steps);
  }

  /** In every interleaving a frame handed to sendFrame is dropped and counted if and only if the
      client is stopped, its stream is broken, or its queue holds as many as it may; otherwise it
      goes last into the queue. */
  lemma SendIsDroppedExactly<R>(capacity: nat, steps: seq<Step<R>>, request: R)
    requires Legal(Fresh(capacity), steps)
    ensures var c := Exec(Fresh(capacity), steps);
      var c' := Apply(c, Send(request));
      var refused := !c.running || c.broken || |c.queue| == capacity;
      && c'.queue == (if refused then c.queue else c.queue + [request])
      && c'.dropped == c.dropped + (if refused then 1 else 0)
      && c'.accepted == (if refused then c.accepted else c.accepted + [request])
      && c'.calls == c.calls + 1
  {
    SessionsAreOrderedAndCounted(capacity, steps);
    ExecKeepsCapacity(Fresh(capacity), steps);
  }

  lemma ApplyKeepsCapacity<R>(c: Client<R>, step: Step<R>)
    requires Enabled(c, step)
    ensures Apply(c, step).capacity == c.capacity
  {
  }

  lemma {:induction false} ExecKeepsCapacity<R>(c: Client<R>, steps: seq<Step<R>>)
    requires Legal(c, steps)
    ensures Exec(c, steps).capacity == c.capacity
  {
    if steps == [] {
    } else {
      ExecKeepsCapacity(c, steps[..|steps| - 1]);
      ApplyKeepsCapacity(Exec(c, steps[..|steps| - 1]), steps[|steps| - 1]);
    }
  }

  /** When no session runs, sent and dropped account for every call exactly when no send was
      accepted after a session's writer had gone. */
  lemma StoppedClientIsAccounted<R>(capacity: nat, steps: seq<Step<R>>)
    requires Legal(Fresh<R>(capacity), steps) && !Exec(Fresh<R>(capacity), steps).running
    ensures var c := Exec(Fresh<R>(capacity), steps);
      && c.calls == c.sent + c.dropped + c.late
      && (c.calls == c.sent + c.dropped <==> c.late == 0)
  {
    ExecKeeps(Fresh<R>(capacity), steps);
  }

  /** No sendFrame is made while a call of stop is under way. */
  ghost predicate Disciplined<R>(c: Client<R>, steps: seq<Step<R>>)
    requires Legal(c, steps)
  {
    steps != [] ==>
      var before, last := steps[..|steps| - 1], steps[|steps| - 1];
      Disciplined(c, before) && (last.Send? ==> Exec(c, before).stopper == Out)
  }

  lemma {:induction false} DisciplinedSendsAreNotLate<R>(capacity: nat, steps: seq<Step<R>>)
    requires Legal(Fresh<R>(capacity), steps) && Disciplined(Fresh<R>(capacity), steps)
    ensures Exec(Fresh<R>(capacity), steps).late == 0
  {
    if steps == [] {
    } else {
      var before := steps[..|steps| - 1];
      DisciplinedSendsAreNotLate(capacity, before);
      ExecKeeps(Fresh<R>(capacity), before);
      LateMeansStopping(Exec(Fresh<R>(capacity), before), steps[|steps| - 1]);
    }
  }

  /** A send is accepted after the writer has gone only inside a stop. */
  lemma LateMeansStopping<R>(c: Client<R>, step: Step<R>)
    requires Inv(c) && Enabled(c, step)
    ensures Apply(c, step).late != c.late ==> step.Send? && c.stopper != Out && !c.broken
  {
  }

  /** With that discipline every call is sent or dropped once the client has stopped. */
  lemma DisciplinedClientLosesNothing<R>(capacity: nat, steps: seq<Step<R>>)
    requires Legal(Fresh<R>(capacity), steps) && Disciplined(Fresh<R>(capacity), steps)
    ensures var c := Exec(Fresh<R>(capacity), steps);
      && c.calls == c.sent + c.dropped + |c.queue| + c.writer.InFlight()
      && (!c.running ==> c.calls == c.sent + c.dropped)
  {
    ExecKeeps(Fresh<R>(capacity), steps);
    DisciplinedSendsAreNotLate(capacity, steps);
  }

  /** A client stopped before its writer had anything to send: the writer has left, join is pending. */
  function WriterGone<R>(): Client<R> {
    var c := Fresh<R>(1);
    c.(stopRequested := true, running := true, writer := Exited, stopper := Joining)
  }

  lemma WriterLeaves<R>()
    ensures Legal(Fresh<R>(1), [Start(true), StopBegin, Exit])
    ensures Exec(Fresh<R>(1), [Start(true), StopBegin, Exit]) == WriterGone()
  {
    var c := Fresh<R>(1);
    var started := c.(running := true, writer := Waiting);
    var one: seq<Step<R>> := [Start(true)];
    var two: seq<Step<R>> := [Start(true), StopBegin];
    Extends(c, [], Start(true), c);
    assert [] + one == one;
    Extends(c, one, StopBegin, started);
    assert one + [StopBegin] == two;
    Extends(c, two, Exit, started.(stopRequested := true, stopper := Joining));
    assert two + [Exit] == [Start(true), StopBegin, Exit];
  }

  /** Without it a frame can vanish: accepted after the writer left, cleared, never counted. */
  lemma LateSendIsLost<R>(request: R)
    ensures var steps := [Start(true), StopBegin, Exit, Send(request), Join, StopEnd];
      && Legal(Fresh(1), steps)
      && Exec(Fresh(1), steps).calls == 1
      && Exec(Fresh(1), steps).sent == 0 && Exec(Fresh(1), steps).dropped == 0
  {
    var c := Fresh<R>(1);
    var leaving := [Start(true), StopBegin, Exit];
    var late := WriterGone<R>().(queue := [request], calls := 1, accepted := [request], late := 1);
    WriterLeaves<R>();
    assert Apply(WriterGone<R>(), Send(request)) == late by {
      assert [] + [request] == [request];
    }
    Extends(c, leaving, Send(request), WriterGone());
    Extends(c, leaving + [Send(request)], Join, late);
    Extends(c, leaving + [Send(request)] + [Join], StopEnd, late.(stopper := Joined));
    assert leaving + [Send(request)] + [Join] + [StopEnd]
      == [Start(true), StopBegin, Exit, Send(request), Join, StopEnd];
  }

  lemma Extends<R>(c: Client<R>, steps: seq<Step<R>>, step: Step<R>, at: Client<R>)
    requires Legal(c, steps) && Exec(c, steps) == at && Enabled(at, step)
    ensures Legal(c, steps + [step]) && Exec(c, steps + [step]) == Apply(at, step)
  {
    ExecOneMore(c, steps, step);
  }

  /** After a failed write nothing more is sent or accepted until the next start. */
  lemma FailureEndsTheSession<R>(capacity: nat, steps: seq<Step<R>>, step: Step<R>)
    requires Legal(Fresh<R>(capacity), steps)
    requires var c := Exec(Fresh<R>(capacity), steps); c.broken && Enabled(c, step)
    ensures var c := Exec(Fresh<R>(capacity), steps);
      var c' := Apply(c, step);
      && c'.sent == c.sent
      && (c'.broken ==> c'.written == c.written && c'.accepted == c.accepted && c'.queue == [])
      && (!c'.broken ==> step.Start? && !c.running && c'.running)
      && (step.Send? ==> c'.dropped == c.dropped + 1)
  {
    ExecKeeps(Fresh<R>(capacity), steps);
  }

  // ----- stop always gets through -------------------------------------------------------

  /** The step the writer thread takes next, if it has any left. */
  function WriterStep<R>(c: Client<R>, ok: bool): Step<R>
    requires !c.writer.Absent? && !c.writer.Exited?
  {
    match c.writer
    case Writing(_) => WriteReturns(ok)
    case Written => CountSent
    case Refused(_) => Break
    case _ => if c.queue == [] then Exit else Take
  }

  /** Writer steps left before it leaves. */
  function Ahead<R>(c: Client<R>): nat {
    match c.writer
    case Absent | Exited => 0
    case Waiting => 1 + 3 * |c.queue|
    case Writing(_) => 3 + 3 * |c.queue|
    case Written | Refused(_) => 2 + 3 * |c.queue|
  }

  /** Once stop has begun the writer is never stuck, and each of its steps brings it nearer to
      leaving whatever the stream answers; only an accepted send can put that off. */
  lemma StopIsNeverStuck<R>(c: Client<R>, ok: bool)
    requires Inv(c) && c.stopper == Joining
    ensures c.writer.Exited? ==> Enabled(c, Join)
    ensures !c.writer.Exited? ==>
      && !c.writer.Absent?
      && Enabled(c, WriterStep(c, ok))
      && Ahead(Apply(c, WriterStep(c, ok))) < Ahead(c)
      && Apply(c, WriterStep(c, ok)).stopper == Joining
  {
  }

  lemma OnlySendsDelayStop<R>(c: Client<R>, step: Step<R>)
    requires Inv(c) && Enabled(c, step) && c.stopper == Joining
    ensures Ahead(Apply(c, step)) > Ahead(c) ==> step.Send? && Admits(c)
  {
  }

  // ----- The writer left alone ----------------------------------------------------------

  /** The writer finishing the request it holds, if it holds one. */
  function Settled<R>(c: Client<R>, ok: bool): (r: Client<R>)
    ensures |r.queue| <= |c.queue|
    decreases c.writer.Writing?
  {
    match c.writer
    case Writing(_) => Settled(Apply(c, WriteReturns(ok)), ok)
    case Written => Apply(c, CountSent)
    case Refused(_) => Apply(c, Break)
    case _ => c
  }

  /** One turn of the writer's loop with nothing in between. */
  function WriterTurn<R>(c: Client<R>, ok: bool): Client<R>
    requires c.writer.Waiting? && (c.stopRequested || c.queue != [])
  {
    if c.queue == [] then Apply(c, Exit) else Settled(Apply(c, Take), ok)
  }

  /** The turns until it has to wait or leaves; `answers` is what the stream returns. */
  function WriterTurns<R>(c: Client<R>, answers: nat -> bool, n: nat): Client<R>
    requires c.writer.Waiting?
    decreases |c.queue|, 1
  {
    if !c.stopRequested && c.queue == [] then c else NextTurns(c, WriterTurn(c, answers(n)), answers, n)
  }

  function NextTurns<R>(c: Client<R>, c': Client<R>, answers: nat -> bool, n: nat): Client<R>
    requires c'.writer.Waiting? ==> |c'.queue| < |c.queue|
    decreases |c.queue|, 0
  {
    if c'.writer.Waiting? then WriterTurns(c', answers, n + 1) else c'
  }

  /** All of that from wherever the writer is. */
  function WriterRest<R>(c: Client<R>, answers: nat -> bool): Client<R> {
    var c' := Settled(c, answers(0));
    if c'.writer.Waiting? then WriterTurns(c', answers, 1) else c'
  }

  lemma TurnsUnfold<R>(c: Client<R>, answers: nat -> bool, n: nat)
    requires c.writer.Waiting? && (c.stopRequested || c.queue != [])
    ensures var c' := WriterTurn(c, answers(n));
      WriterTurns(c, answers, n) == if c'.writer.Waiting? then WriterTurns(c', answers, n + 1) else c'
  {
  }

  /** Only the writer's fields differ. */
  ghost predicate OnlyWriterMoved<R>(c: Client<R>, c': Client<R>) {
    c' == c.(writer := c'.writer, queue := c'.queue, broken := c'.broken, sent := c'.sent, dropped := c'.dropped,
             written := c'.written)
  }

  /** Either it has left for good with nothing queued, or it waits for more. */
  predicate AtRest<R>(c: Client<R>) {
    c.queue == [] && (c.writer.Exited? || (c.writer.Waiting? && !c.stopRequested))
  }

  lemma {:induction false} SettleKeeps<R>(c: Client<R>, ok: bool)
    requires Inv(c)
    ensures var c' := Settled(c, ok);
      && Inv(c') && OnlyWriterMoved(c, c')
      && (c.running && !c.writer.Exited? ==> c'.writer.Waiting? || (c'.writer.Exited? && c'.queue == []))
    decreases c.writer.Writing?
  {
    match c.writer
    case Writing(_) =>
      StepKeeps(c, WriteReturns(ok));
      SettleKeeps(Apply(c, WriteReturns(ok)), ok);
    case Written => StepKeeps(c, CountSent);
    case Refused(_) => StepKeeps(c, Break);
    case _ =>
  }

  lemma TurnKeeps<R>(c: Client<R>, ok: bool)
    requires Inv(c) && c.writer.Waiting? && (c.stopRequested || c.queue != [])
    ensures var c' := WriterTurn(c, ok);
      && Inv(c') && OnlyWriterMoved(c, c')
      && ((c'.writer.Waiting? && |c'.queue| < |c.queue|) || (c'.writer.Exited? && c'.queue == []))
  {
    if c.queue == [] {
      StepKeeps(c, Exit);
    } else {
      StepKeeps(c, Take);
      SettleKeeps(Apply(c, Take), ok);
    }
  }

  /** Left alone, the writer empties the queue, then waits or, if stop was requested, leaves. */
  lemma {:induction false} TurnsDrain<R>(c: Client<R>, answers: nat -> bool, n: nat)
    requires Inv(c) && c.writer.Waiting?
    ensures var c' := WriterTurns(c, answers, n); Inv(c') && OnlyWriterMoved(c, c') && AtRest(c')
    decreases |c.queue|
  {
    if !c.stopRequested && c.queue == [] {
    } else {
      TurnKeeps(c, answers(n));
      var next := WriterTurn(c, answers(n));
      if next.writer.Waiting? {
        TurnsDrain(next, answers, n + 1);
      }
    }
  }

  /** From wherever it is, and whatever the stream answers, it touches no one else's fields. */
  lemma WriterDrains<R>(c: Client<R>, answers: nat -> bool)
    requires Inv(c) && c.running && (c.writer.Exited? ==> c.queue == [])
    ensures var c' := WriterRest(c, answers); Inv(c') && OnlyWriterMoved(c, c') && AtRest(c')
  {
    SettleKeeps(c, answers(0));
    if Settled(c, answers(0)).writer.Waiting? {
      TurnsDrain(Settled(c, answers(0)), answers, 1);
    }
  }

  // ----- The client object --------------------------------------------------------------

  /** Each method that another thread may interleave with is one step; the writer's
      turns and stop are the schedules in which nobody interrupts. */
  class SttStreamClient<R> {
    const capacity: nat
    var queue: seq<R>
    var running: bool
    var stopRequested: bool
    var streamBroken: bool
    var framesSent: nat
    var framesDropped: nat
    var writer: Writer<R>
    ghost var stopper: Stopper
    ghost var calls: nat
    ghost var accepted: seq<R>
    ghost var written: seq<R>
    ghost var cleared: nat
    ghost var late: nat

    ghost function View(): Client<R>
      reads this
    {
      Client(capacity, queue, running, stopRequested, streamBroken, framesSent, framesDropped, writer, stopper,
             calls, accepted, written, cleared, late)
    }

    constructor (capacity: nat)
      ensures View() == Fresh(capacity)
    {
      this.capacity := capacity;
      queue, running, stopRequested, streamBroken, framesSent, framesDropped := [], false, false, false, 0, 0;
      writer, stopper, calls, accepted, written, cleared, late := Absent, Out, 0, [], [], 0, 0;
    }

    method StartSession(connects: bool) returns (ok: bool)
      requires stopper == Out
      modifies this
      ensures View() == Apply(old(View()), Start(connects)) && ok == (!old(running) && connects)
    {
      if running || !connects {
        return false;
      }
      stopRequested, streamBroken, running := false, false, true;
      writer, accepted, written := Waiting, [], [];
      ok := true;
    }

    method SendFrame(request: R) returns (ok: bool)
      modifies this
      ensures View() == Apply(old(View()), Send(request))
      ensures ok <==> old(running) && !old(streamBroken) && |old(queue)| < capacity
      ensures ok ==> queue == old(queue) + [request] && framesDropped == old(framesDropped)
      ensures !ok ==> queue == old(queue) && framesDropped == old(framesDropped) + 1
    {
      calls := calls + 1;
      if !running || streamBroken || |queue| >= capacity {
        framesDropped := framesDropped + 1;
        return false;
      }
      late := late + if writer.Exited? then 1 else 0;
      accepted := accepted + [request];
      queue := queue + [request];
      ok := true;
    }

    /** The writer's first critical section, once its wait is over. */
    method TakeRequest() returns (request: Option<R>)
      requires writer.Waiting? && (stopRequested || queue != [])
      modifies this
      ensures View() == Apply(old(View()), if old(queue) == [] then Exit else Take)
      ensures request == if old(queue) == [] then None else Some(old(queue)[0])
    {
      if queue == [] {
        writer := Exited;
        return None;
      }
      request := Some(queue[0]);
      writer := Writing(queue[0]);
      queue := queue[1..];
    }

    /** The writer's second critical section, after a failed write. */
    method DropRest()
      requires writer.Refused?
      modifies this
      ensures View() == Apply(old(View()), Break)
    {
      streamBroken := true;
      framesDropped := framesDropped + (|queue| + 1);
      queue := [];
      writer := Exited;
    }

    /** What follows a request being taken, from any point of it on. */
    method Settle(answer: bool)
      modifies this
      ensures View() == Settled(old(View()), answer)
    {
      if writer.Writing? {
        if answer {
          written := written + [writer.request];
          writer := Written;
        } else {
          writer := Refused(writer.request);
        }
      }
      if writer.Refused? {
        DropRest();
      } else if writer.Written? {
        framesSent := framesSent + 1;
        writer := Waiting;
      }
    }

    /** One turn of the writer's loop; false when it leaves the loop. */
    method WriteOne(answer: bool) returns (more: bool)
      requires writer.Waiting? && (stopRequested || queue != [])
      modifies this
      ensures View() == WriterTurn(old(View()), answer) && more == View().writer.Waiting?
    {
      var request := TakeRequest();
      if request.None? {
        return false;
      }
      Settle(answer);
      more := writer.Waiting?;
    }

    /** The writer's loop until it has to wait or leaves. */
    method TakeTurns(answers: nat -> bool, from: nat)
      requires Inv(View()) && writer.Waiting?
      modifies this
      ensures View() == WriterTurns(old(View()), answers, from)
    {
      var n, more := from, true;
      ghost var end := WriterTurns(View(), answers, from);
      while more && (stopRequested || queue != [])
        invariant Inv(View())
        invariant if more then writer.Waiting? && WriterTurns(View(), answers, n) == end else View() == end
        decreases |queue|, more
      {
        ghost var c := View();
        TurnsUnfold(c, answers, n);
        TurnKeeps(c, answers(n));
        more := WriteOne(answers(n));
        n := n + 1;
      }
    }

    /** The writer from wherever it is until it has to wait or leaves. */
    method WriteLoop(answers: nat -> bool)
      requires Inv(View())
      modifies this
      ensures View() == WriterRest(old(View()), answers)
    {
      SettleKeeps(View(), answers(0));
      Settle(answers(0));
      if writer.Waiting? {
        TakeTurns(answers, 1);
      }
    }

    method RequestStop()
      requires running && stopper == Out
      modifies this
      ensures View() == Apply(old(View()), StopBegin)
    {
      stopRequested := true;
      stopper := Joining;
    }

    /** The end of stop, the writer having been joined. */
    method EndStop()
      requires writer.Exited? && stopper == Joining
      modifies this
      ensures View() == Apply(Apply(old(View()), Join), StopEnd)
    {
      cleared := cleared + |queue|;
      running := false;
      queue := [];
      writer, stopper := Absent, Out;
    }

    /** The owner's stop, wherever the writer is and with no call of sendFrame meanwhile: every
        call made before is sent or dropped when it returns. */
    method StopSession(answers: nat -> bool)
      requires Inv(View()) && stopper == Out
      modifies this
      ensures Inv(View()) && !running && queue == [] && stopper == Out
      ensures calls == old(calls) && late == old(late)
      ensures late == 0 ==> framesSent + framesDropped == calls
      ensures !old(running) ==> View() == old(View())
    {
      if !running {
        return;
      }
      StepKeeps(View(), StopBegin);
      RequestStop();
      WriterDrains(View(), answers);
      WriteLoop(answers);
      StepKeeps(View(), Join);
      StepKeeps(Apply(View(), Join), StopEnd);
      EndStop();
    }
  }
}
