/** The lock-free ring buffer as two threads taking one memory access at a time.
    Loads of the other side's index may return any value from the last one seen up to the
    current one, which is what acquire and release leave open. */
module RingProtocol {

  /** A slot holds an item or what a move left behind. */
  datatype Cell<+T> = Moved | Full(item: T)

  datatype Producer<+T> =
    | PIdle
    | PLoaded(item: T, head: nat)
    | PChecked(item: T, head: nat)
    | PRefused
    | PWritten(item: T, head: nat)
    | PStored

  datatype Consumer<+T> =
    | CIdle
    | CLoaded(tail: nat)
    | CChecked(tail: nat)
    | CTaken(tail: nat, item: T)
    | CStored

  /** The shared memory, both program counters, how many stores to the other side's index
      each side has seen, and the history of both ends. */
  datatype Ring<+T> = Ring(
    slots: seq<Cell<T>>,
    head: nat,
    tail: nat,
    pushed: nat,
    popped: nat,
    rejected: nat,
    producer: Producer<T>,
    consumer: Consumer<T>,
    tailSeen: nat,
    headSeen: nat,
    accepted: seq<T>,
    taken: seq<T>)
  {
    function Capacity(): int { |slots| - 1 }

    /** What the ring holds, as a queue. */
    function Queue(): seq<T>
      requires |taken| <= |accepted|
    {
      accepted[|taken|..]
    }
  }

  function Increment(index: nat, size: nat): nat {
    if index + 1 == size then 0 else index + 1
  }

  /** The value of an index after it was stored n times. */
  function IndexAfter(n: nat, size: nat): nat {
    if n == 0 then 0 else Increment(IndexAfter(n - 1, size), size)
  }

  datatype Step<+T> =
    | PushBegin(item: T)
    | PushCheck(seen: nat)
    | PushReject
    | PushWrite
    | PushStore
    | PushCount
    | PopBegin
    | PopCheck(seen: nat)
    | PopRead
    | PopStore
    | PopCount

  predicate Enabled<T>(r: Ring<T>, step: Step<T>) {
    match step
    case PushBegin(_) => r.producer.PIdle?
    case PushCheck(seen) => r.producer.PLoaded? && r.tailSeen <= seen <= |r.taken|
    case PushReject => r.producer.PRefused?
    case PushWrite => r.producer.PChecked? && r.producer.head < |r.slots|
    case PushStore => r.producer.PWritten?
    case PushCount => r.producer.PStored?
    case PopBegin => r.consumer.CIdle?
    case PopCheck(seen) => r.consumer.CLoaded? && r.headSeen <= seen <= |r.accepted|
    case PopRead => r.consumer.CChecked? && r.consumer.tail < |r.slots| && r.slots[r.consumer.tail].Full?
    case PopStore => r.consumer.CTaken?
    case PopCount => r.consumer.CStored?
  }

  function Apply<T>(r: Ring<T>, step: Step<T>): Ring<T>
    requires Enabled(r, step)
  {
    var size := |r.slots|;
    match step
    case PushBegin(item) => r.(producer := PLoaded(item, r.head))
    case PushCheck(seen) =>
      var p := r.producer;
      if Increment(p.head, size) == IndexAfter(seen, size)
      then r.(producer := PRefused, tailSeen := seen)
      else r.(producer := PChecked(p.item, p.head), tailSeen := seen)
    case PushReject => r.(producer := PIdle, rejected := r.rejected + 1)
    case PushWrite =>
      var p := r.producer;
      r.(slots := r.slots[p.head := Full(p.item)], producer := PWritten(p.item, p.head))
    case PushStore =>
      var p := r.producer;
      r.(head := Increment(p.head, size), accepted := r.accepted + [p.item], producer := PStored)
    case PushCount => r.(pushed := r.pushed + 1, producer := PIdle)
    case PopBegin => r.(consumer := CLoaded(r.tail))
    case PopCheck(seen) =>
      var c := r.consumer;
      if c.tail == IndexAfter(seen, size)
      then r.(consumer := CIdle, headSeen := seen)
      else r.(consumer := CChecked(c.tail), headSeen := seen)
    case PopRead =>
      var c := r.consumer;
      r.(slots := r.slots[c.tail := Moved], consumer := CTaken(c.tail, r.slots[c.tail].item))
    case PopStore =>
      var c := r.consumer;
      r.(tail := Increment(c.tail, size), taken := r.taken + [c.item], consumer := CStored)
    case PopCount => r.(popped := r.popped + 1, consumer := CIdle)
  }

  function Initial<T>(capacity: nat): Ring<T> {
    Ring(seq(capacity + 1, _ => Moved), 0, 0, 0, 0, 0, PIdle, CIdle, 0, 0, [], [])
  }

  // ----- Wrapped indices ----------------------------------------------------------------

  lemma {:induction false} IndexBelow(n: nat, size: nat)
    requires size > 0
    ensures IndexAfter(n, size) < size
  {
    if n == 0 {
    } else {
      IndexBelow(n - 1, size);
    }
  }

  /** Within one lap an index either advances or wraps once. */
  lemma {:induction false} IndexAdvance(a: nat, d: nat, size: nat)
    requires size > 0 && d <= size
    ensures var i := IndexAfter(a, size);
      i < size && IndexAfter(a + d, size) == if i + d < size then i + d else i + d - size
  {
    IndexBelow(a, size);
    if d == 0 {
    } else {
      IndexAdvance(a, d - 1, size);
    }
  }

  /** Two counts at most a lap apart share an index only when equal or exactly a lap apart. */
  lemma SameIndex(a: nat, b: nat, size: nat)
    requires size > 0 && a <= b <= a + size
    ensures IndexAfter(a, size) == IndexAfter(b, size) <==> (a == b || b == a + size)
  {
    IndexAdvance(a, b - a, size);
  }

  // ----- The invariant ------------------------------------------------------------------

  ghost predicate ProducerInv<T>(r: Ring<T>) {
    var size, h := |r.slots|, |r.accepted|;
    match r.producer
    case PIdle | PRefused | PStored => true
    case PLoaded(_, head) => head == r.head
    case PChecked(_, head) => head == r.head && h < r.tailSeen + size - 1
    case PWritten(item, head) =>
      head == r.head && h < r.tailSeen + size - 1 && head < size && r.slots[head] == Full(item)
  }

  ghost predicate ConsumerInv<T>(r: Ring<T>) {
    var k := |r.taken|;
    match r.consumer
    case CIdle | CStored => true
    case CLoaded(tail) => tail == r.tail
    case CChecked(tail) => tail == r.tail && k < r.headSeen
    case CTaken(tail, item) => tail == r.tail && k < r.headSeen && k < |r.accepted| && item == r.accepted[k]
  }

  /** Counts, views and indices agree. */
  ghost predicate CountsInv<T>(r: Ring<T>) {
    var size, h, k := |r.slots|, |r.accepted|, |r.taken|;
    && size >= 1
    && r.head == IndexAfter(h, size) < size
    && r.tail == IndexAfter(k, size) < size
    && r.tailSeen <= k <= r.headSeen <= h <= r.tailSeen + size - 1
    && r.pushed + (if r.producer.PStored? then 1 else 0) == h
    && r.popped + (if r.consumer.CStored? then 1 else 0) == k
  }

  /** The first count whose slot still holds its item. */
  function Oldest<T>(r: Ring<T>): nat {
    |r.taken| + if r.consumer.CTaken? then 1 else 0
  }

  /** Everything accepted and not yet moved out is still in its slot. */
  ghost predicate SlotsInv<T>(r: Ring<T>)
    requires |r.slots| >= 1
  {
    forall n :: Oldest(r) <= n < |r.accepted| ==> Holds(r, n)
  }

  ghost predicate Holds<T>(r: Ring<T>, n: nat)
    requires n < |r.accepted|
  {
    IndexAfter(n, |r.slots|) < |r.slots| && r.slots[IndexAfter(n, |r.slots|)] == Full(r.accepted[n])
  }

  ghost predicate Inv<T>(r: Ring<T>) {
    && CountsInv(r)
    && r.taken <= r.accepted
    && ProducerInv(r)
    && ConsumerInv(r)
    && SlotsInv(r)
  }

  lemma InitialInv<T>(capacity: nat)
    ensures Inv(Initial<T>(capacity))
  {
  }

  /** Both tests on wrapped indices decide exactly what they mean about the counts seen. */
  lemma PushTestMeansFull<T>(r: Ring<T>, seen: nat)
    requires Inv(r) && r.producer.PLoaded? && r.tailSeen <= seen <= |r.taken|
    ensures Increment(r.producer.head, |r.slots|) == IndexAfter(seen, |r.slots|)
        <==> |r.accepted| == seen + r.Capacity()
  {
    SameIndex(seen, |r.accepted| + 1, |r.slots|);
  }

  lemma PopTestMeansEmpty<T>(r: Ring<T>, seen: nat)
    requires Inv(r) && r.consumer.CLoaded? && r.headSeen <= seen <= |r.accepted|
    ensures r.consumer.tail == IndexAfter(seen, |r.slots|) <==> seen == |r.taken|
  {
    SameIndex(|r.taken|, seen, |r.slots|);
  }

  /** The slot being written belongs to no accepted item. */
  lemma WriteSlotIsFree<T>(r: Ring<T>, n: nat)
    requires Inv(r) && (r.producer.PChecked? || r.producer.PWritten?)
    requires |r.taken| <= n < |r.accepted|
    ensures IndexAfter(n, |r.slots|) != r.producer.head
  {
    SameIndex(n, |r.accepted|, |r.slots|);
  }

  lemma ReadSlotIsSingle<T>(r: Ring<T>, n: nat)
    requires Inv(r) && |r.taken| < n < |r.accepted|
    ensures IndexAfter(n, |r.slots|) != IndexAfter(|r.taken|, |r.slots|)
  {
    SameIndex(|r.taken|, n, |r.slots|);
  }

  lemma PushCheckKeeps<T>(r: Ring<T>, seen: nat)
    requires Inv(r) && Enabled(r, PushCheck(seen))
    ensures Inv(Apply(r, PushCheck(seen)))
  {
    PushTestMeansFull(r, seen);
    var r' := Apply(r, PushCheck(seen));
    forall n | Oldest(r') <= n < |r'.accepted| ensures Holds(r', n) { assert Holds(r, n); }
  }

  lemma PopCheckKeeps<T>(r: Ring<T>, seen: nat)
    requires Inv(r) && Enabled(r, PopCheck(seen))
    ensures Inv(Apply(r, PopCheck(seen)))
  {
    PopTestMeansEmpty(r, seen);
    var r' := Apply(r, PopCheck(seen));
    forall n | Oldest(r') <= n < |r'.accepted| ensures Holds(r', n) { assert Holds(r, n); }
  }

  lemma PushWriteKeeps<T>(r: Ring<T>)
    requires Inv(r) && Enabled(r, PushWrite)
    ensures Inv(Apply(r, PushWrite))
  {
    var r' := Apply(r, PushWrite);
    forall n | Oldest(r') <= n < |r'.accepted| ensures Holds(r', n) {
      assert Holds(r, n);
      WriteSlotIsFree(r, n);
    }
  }

  lemma PushStoreKeeps<T>(r: Ring<T>)
    requires Inv(r) && Enabled(r, PushStore)
    ensures Inv(Apply(r, PushStore))
  {
    var r' := Apply(r, PushStore);
    IndexBelow(|r'.accepted|, |r.slots|);
    forall n | Oldest(r') <= n < |r'.accepted| ensures Holds(r', n) {
      if n < |r.accepted| { assert Holds(r, n); }
    }
  }

  lemma PopReadKeeps<T>(r: Ring<T>)
    requires Inv(r) && Enabled(r, PopRead)
    ensures Inv(Apply(r, PopRead))
  {
    var r' := Apply(r, PopRead);
    assert Holds(r, |r.taken|);
    forall n | Oldest(r') <= n < |r'.accepted| ensures Holds(r', n) {
      assert Holds(r, n);
      ReadSlotIsSingle(r, n);
    }
    if r.producer.PWritten? {
      WriteSlotIsFree(r, |r.taken|);
    }
  }

  lemma PopStoreKeeps<T>(r: Ring<T>)
    requires Inv(r) && Enabled(r, PopStore)
    ensures Inv(Apply(r, PopStore))
  {
    var r' := Apply(r, PopStore);
    IndexBelow(|r'.taken|, |r.slots|);
    forall n | Oldest(r') <= n < |r'.accepted| ensures Holds(r', n) { assert Holds(r, n); }
  }

  lemma StepKeeps<T>(r: Ring<T>, step: Step<T>)
    requires Inv(r) && Enabled(r, step)
    ensures Inv(Apply(r, step))
  {
    match step
    case PushCheck(seen) => PushCheckKeeps(r, seen);
    case PushWrite => PushWriteKeeps(r);
    case PushStore => PushStoreKeeps(r);
    case PopCheck(seen) => PopCheckKeeps(r, seen);
    case PopRead => PopReadKeeps(r);
    case PopStore => PopStoreKeeps(r);
    case _ =>
      var r' := Apply(r, step);
      forall n | Oldest(r') <= n < |r'.accepted| ensures Holds(r', n) { assert Holds(r, n); }
  }

  // ----- Runs and the refinement --------------------------------------------------------

  ghost predicate Legal<T>(r: Ring<T>, steps: seq<Step<T>>)
    decreases |steps|, 0
  {
    steps != [] ==>
      && Legal(r, steps[..|steps| - 1])
      && Enabled(Exec(r, steps[..|steps| - 1]), steps[|steps| - 1])
  }

  /** The ring after an interleaving of producer and consumer steps. */
  ghost function Exec<T>(r: Ring<T>, steps: seq<Step<T>>): Ring<T>
    requires Legal(r, steps)
    decreases |steps|, 1
  {
    if steps == [] then r
    else Apply(Exec(r, steps[..|steps| - 1]), steps[|steps| - 1])
  }

  lemma {:induction false} ExecKeeps<T>(r: Ring<T>, steps: seq<Step<T>>)
    requires Inv(r) && Legal(r, steps)
    ensures Inv(Exec(r, steps))
  {
    if steps == [] {
    } else {
      ExecKeeps(r, steps[..|steps| - 1]);
      StepKeeps(Exec(r, steps[..|steps| - 1]), steps[|steps| - 1]);
    }
  }

  lemma ApplyKeepsSize<T>(r: Ring<T>, step: Step<T>)
    requires Enabled(r, step)
    ensures |Apply(r, step).slots| == |r.slots|
  {
  }

  lemma {:induction false} ExecKeepsSize<T>(r: Ring<T>, steps: seq<Step<T>>)
    requires Legal(r, steps)
    ensures |Exec(r, steps).slots| == |r.slots|
  {
    if steps == [] {
    } else {
      ExecKeepsSize(r, steps[..|steps| - 1]);
      ApplyKeepsSize(Exec(r, steps[..|steps| - 1]), steps[|steps| - 1]);
    }
  }

  /** The operation a step performs on a bounded queue of the same capacity. */
  datatype QueueOp<+T> = Stutter | Enqueue(item: T) | Dequeue(item: T)

  function Operation<T>(r: Ring<T>, step: Step<T>): QueueOp<T>
    requires Enabled(r, step)
  {
    match step
    case PushStore => Enqueue(r.producer.item)
    case PopStore => Dequeue(r.consumer.item)
    case _ => Stutter
  }

  /** A bounded queue may enqueue when it has room and dequeue its oldest item. */
  ghost predicate QueueStep<T>(capacity: int, q: seq<T>, op: QueueOp<T>, q': seq<T>) {
    match op
    case Stutter => q' == q
    case Enqueue(item) => |q| < capacity && q' == q + [item]
    case Dequeue(item) => q != [] && item == q[0] && q' == q[1..]
  }

  lemma PushRefines<T>(capacity: nat, r: Ring<T>)
    requires Inv(r) && Enabled(r, PushStore) && |r.slots| == capacity + 1 && Inv(Apply(r, PushStore))
    ensures QueueStep(capacity, r.Queue(), Enqueue(r.producer.item), Apply(r, PushStore).Queue())
  {
    var r' := Apply(r, PushStore);
    assert r'.accepted[|r'.taken|..] == r.accepted[|r.taken|..] + [r.producer.item];
  }

  lemma PopRefines<T>(capacity: nat, r: Ring<T>)
    requires Inv(r) && Enabled(r, PopStore) && |r.slots| == capacity + 1 && Inv(Apply(r, PopStore))
    ensures QueueStep(capacity, r.Queue(), Dequeue(r.consumer.item), Apply(r, PopStore).Queue())
  {
    var r' := Apply(r, PopStore);
    assert r'.accepted[|r'.taken|..] == r.accepted[|r.taken|..][1..];
  }

  lemma StepRefines<T>(capacity: nat, r: Ring<T>, step: Step<T>)
    requires Inv(r) && Enabled(r, step) && |r.slots| == capacity + 1 && Inv(Apply(r, step))
    ensures |r.Queue()| <= capacity
    ensures QueueStep(capacity, r.Queue(), Operation(r, step), Apply(r, step).Queue())
  {
    ApplyKeepsSize(r, step);
    match step
    case PushStore => PushRefines(capacity, r);
    case PopStore => PopRefines(capacity, r);
    case _ =>
  }

  /** Every step of every interleaving is a step of the bounded queue. */
  lemma RefinesQueue<T>(capacity: nat, steps: seq<Step<T>>, step: Step<T>)
    requires Legal(Initial(capacity), steps) && Enabled(Exec(Initial(capacity), steps), step)
    ensures var r := Exec(Initial(capacity), steps);
      && r.taken <= r.accepted && Apply(r, step).taken <= Apply(r, step).accepted
      && |r.Queue()| <= capacity
      && QueueStep(capacity, r.Queue(), Operation(r, step), Apply(r, step).Queue())
  {
    var r := Exec(Initial(capacity), steps);
    InitialInv<T>(capacity);
    ExecKeeps(Initial(capacity), steps);
    ExecKeepsSize(Initial(capacity), steps);
    StepKeeps(r, step);
    StepRefines(capacity, r, step);
  }

  /** Over every interleaving the values popped are a prefix of the values accepted, at most
      `capacity` are in between, and those are in the slots from tail to head, in order. */
  lemma PoppedIsPrefixOfAccepted<T>(capacity: nat, steps: seq<Step<T>>)
    requires Legal(Initial(capacity), steps)
    ensures var r := Exec(Initial(capacity), steps);
      && r.taken <= r.accepted
      && |r.accepted| - |r.taken| <= capacity
      && |r.slots| == capacity + 1
      && r.head == IndexAfter(|r.accepted|, capacity + 1)
      && r.tail == IndexAfter(|r.taken|, capacity + 1)
      && (!r.consumer.CTaken? ==>
            forall n :: |r.taken| <= n < |r.accepted| ==> Holds(r, n))
  {
    InitialInv<T>(capacity);
    ExecKeeps(Initial(capacity), steps);
    ExecKeepsSize(Initial(capacity), steps);
  }

  /** When the producer writes a slot, every earlier read of that slot is one it has already
      seen completed, and nothing the consumer may read is in it. */
  lemma WritesDoNotRace<T>(capacity: nat, steps: seq<Step<T>>, n: nat)
    requires Legal(Initial(capacity), steps) && Enabled(Exec(Initial(capacity), steps), PushWrite)
    requires var r := Exec(Initial(capacity), steps);
      n < |r.accepted| && IndexAfter(n, capacity + 1) == r.producer.head && |r.accepted| <= n + capacity + 1
    ensures var r := Exec(Initial(capacity), steps);
      n < r.tailSeen <= |r.taken|
  {
    var r := Exec(Initial(capacity), steps);
    InitialInv<T>(capacity);
    ExecKeeps(Initial(capacity), steps);
    ExecKeepsSize(Initial(capacity), steps);
    SameIndex(n, |r.accepted|, capacity + 1);
  }

  /** When the consumer reads a slot, the write that filled it is one it has already seen
      published, and the producer's target is a different slot. */
  lemma ReadsDoNotRace<T>(capacity: nat, steps: seq<Step<T>>)
    requires Legal(Initial(capacity), steps) && Exec(Initial(capacity), steps).consumer.CChecked?
    ensures var r := Exec(Initial(capacity), steps);
      && |r.taken| < r.headSeen <= |r.accepted|
      && Enabled(r, PopRead)
      && r.slots[r.consumer.tail] == Full(r.accepted[|r.taken|])
      && ((r.producer.PChecked? || r.producer.PWritten?) ==> r.producer.head != r.consumer.tail)
  {
    var r := Exec(Initial(capacity), steps);
    InitialInv<T>(capacity);
    ExecKeeps(Initial(capacity), steps);
    assert Holds(r, |r.taken|);
    if r.producer.PChecked? || r.producer.PWritten? {
      WriteSlotIsFree(r, |r.taken|);
    }
  }

  /** The counters trail the index stores by at most one on each side. */
  lemma CountersTrail<T>(capacity: nat, steps: seq<Step<T>>)
    requires Legal(Initial(capacity), steps)
    ensures var r := Exec(Initial(capacity), steps);
      && -1 <= r.pushed - r.popped <= capacity + 1
      && (r.producer.PIdle? && r.consumer.CIdle? ==> r.pushed - r.popped == |r.accepted| - |r.taken|)
  {
    InitialInv<T>(capacity);
    ExecKeeps(Initial(capacity), steps);
    ExecKeepsSize(Initial(capacity), steps);
  }

  /** A refused push means the ring was full as far as the producer had seen, and the
      refusal changes the rejection counter alone. */
  lemma RefusalMeansFull<T>(capacity: nat, steps: seq<Step<T>>, seen: nat)
    requires Legal(Initial(capacity), steps) && Enabled(Exec(Initial(capacity), steps), PushCheck(seen))
    ensures var r := Exec(Initial(capacity), steps);
      var checked := Apply(r, PushCheck(seen));
      && (checked.producer.PRefused? <==> |r.accepted| - seen == capacity)
      && (checked.producer.PRefused? ==>
            Apply(checked, PushReject) == r.(producer := PIdle, tailSeen := seen, rejected := r.rejected + 1))
  {
    var r := Exec(Initial(capacity), steps);
    InitialInv<T>(capacity);
    ExecKeeps(Initial(capacity), steps);
    ExecKeepsSize(Initial(capacity), steps);
    PushTestMeansFull(r, seen);
  }

  /** A pop that finds nothing has taken everything it had seen published, and changes nothing. */
  lemma EmptyMeansDrained<T>(capacity: nat, steps: seq<Step<T>>, seen: nat)
    requires Legal(Initial(capacity), steps) && Enabled(Exec(Initial(capacity), steps), PopCheck(seen))
    ensures var r := Exec(Initial(capacity), steps);
      var checked := Apply(r, PopCheck(seen));
      && (checked.consumer.CIdle? <==> seen == |r.taken|)
      && (checked.consumer.CIdle? ==> checked == r.(consumer := CIdle, headSeen := seen))
  {
    var r := Exec(Initial(capacity), steps);
    InitialInv<T>(capacity);
    ExecKeeps(Initial(capacity), steps);
    PopTestMeansEmpty(r, seen);
  }

  /** The arithmetic of size(), on two index values read at any two moments. */
  function SizeOf(head: nat, tail: nat, size: nat): int {
    if head >= tail then head - tail else size - tail + head
  }

  lemma SizeIsExact<T>(r: Ring<T>)
    requires CountsInv(r)
    ensures SizeOf(r.head, r.tail, |r.slots|) == |r.accepted| - |r.taken|
  {
    IndexAdvance(|r.taken|, |r.accepted| - |r.taken|, |r.slots|);
  }

  /** Whatever the two moments, the answer is a possible size; read together it is exact. */
  lemma SizeIsPlausible<T>(capacity: nat, steps: seq<Step<T>>, headCount: nat, tailCount: nat)
    requires Legal(Initial(capacity), steps)
    ensures 0 <= SizeOf(IndexAfter(headCount, capacity + 1), IndexAfter(tailCount, capacity + 1), capacity + 1)
              <= capacity
    ensures var r := Exec(Initial(capacity), steps);
      SizeOf(r.head, r.tail, capacity + 1) == |r.accepted| - |r.taken|
  {
    var r := Exec(Initial(capacity), steps);
    IndexBelow(headCount, capacity + 1);
    IndexBelow(tailCount, capacity + 1);
    InitialInv<T>(capacity);
    ExecKeeps(Initial(capacity), steps);
    ExecKeepsSize(Initial(capacity), steps);
    SizeIsExact(r);
  }
}
