/** The ring buffer as one thread sees it when no call overlaps another: a bounded FIFO kept
    in a fixed array. Each call is also the protocol's steps taken without interruption. */
module RingBuffer {
  import opened Audio
  import opened RingProtocol

  ghost predicate Idle<T>(r: Ring<T>) { r.producer.PIdle? && r.consumer.CIdle? }

  /** A whole tryPush with nothing in between and every load current. */
  ghost function WholePush<T>(r: Ring<T>, item: T): Ring<T>
    requires Inv(r)
  {
    if |r.Queue()| == r.Capacity() then r.(rejected := r.rejected + 1, tailSeen := |r.taken|)
    else r.(slots := r.slots[r.head := Full(item)], head := Increment(r.head, |r.slots|), pushed := r.pushed + 1,
            tailSeen := |r.taken|, accepted := r.accepted + [item])
  }

  /** The index test of tryPush, and the steps of the protocol that the call amounts to. */
  lemma WholePushIsProtocol<T>(r: Ring<T>, item: T)
    requires Inv(r) && Idle(r)
    ensures Increment(r.head, |r.slots|) == r.tail <==> |r.Queue()| == r.Capacity()
    ensures Enabled(r, PushBegin(item)) && Enabled(Apply(r, PushBegin(item)), PushCheck(|r.taken|))
    ensures var checked := Apply(Apply(r, PushBegin(item)), PushCheck(|r.taken|));
      && Inv(checked)
      && (|r.Queue()| == r.Capacity() ==>
            checked.producer.PRefused? && WholePush(r, item) == Apply(checked, PushReject))
      && (|r.Queue()| < r.Capacity() ==>
            Enabled(checked, PushWrite)
            && WholePush(r, item) == Apply(Apply(Apply(checked, PushWrite), PushStore), PushCount))
  {
    var loaded := Apply(r, PushBegin(item));
    StepKeeps(r, PushBegin(item));
    PushTestMeansFull(loaded, |r.taken|);
    StepKeeps(loaded, PushCheck(|r.taken|));
  }

  /** The index test alone. */
  lemma HeadRunsIntoTail<T>(r: Ring<T>, item: T)
    requires Inv(r) && Idle(r)
    ensures Increment(r.head, |r.slots|) == r.tail <==> |r.Queue()| == r.Capacity()
  {
    WholePushIsProtocol(r, item);
  }

  lemma WholePushKeeps<T>(r: Ring<T>, item: T)
    requires Inv(r) && Idle(r)
    ensures Inv(WholePush(r, item)) && Idle(WholePush(r, item))
  {
    WholePushIsProtocol(r, item);
    var checked := Apply(Apply(r, PushBegin(item)), PushCheck(|r.taken|));
    if |r.Queue()| == r.Capacity() {
      StepKeeps(checked, PushReject);
    } else {
      StepKeeps(checked, PushWrite);
      StepKeeps(Apply(checked, PushWrite), PushStore);
      StepKeeps(Apply(Apply(checked, PushWrite), PushStore), PushCount);
    }
  }

  /** A whole tryPop with nothing in between and every load current. */
  ghost function WholePop<T>(r: Ring<T>): Ring<T>
    requires Inv(r)
  {
    if r.Queue() == [] then r.(headSeen := |r.accepted|)
    else r.(slots := r.slots[r.tail := Moved], tail := Increment(r.tail, |r.slots|), popped := r.popped + 1,
            headSeen := |r.accepted|, taken := r.taken + [r.Queue()[0]])
  }

  lemma HeadMeetsTail<T>(r: Ring<T>)
    requires Inv(r) && Idle(r)
    ensures r.tail == r.head <==> r.Queue() == []
    ensures r.Queue() != [] ==> r.slots[r.tail] == Full(r.Queue()[0])
  {
    SameIndex(|r.taken|, |r.accepted|, |r.slots|);
    if r.Queue() != [] {
      assert Holds(r, |r.taken|);
    }
  }

  lemma WholePopIsProtocol<T>(r: Ring<T>)
    requires Inv(r) && Idle(r)
    ensures Enabled(r, PopBegin) && Enabled(Apply(r, PopBegin), PopCheck(|r.accepted|))
    ensures var checked := Apply(Apply(r, PopBegin), PopCheck(|r.accepted|));
      && Inv(checked)
      && (r.Queue() == [] ==> WholePop(r) == checked)
      && (r.Queue() != [] ==>
            Enabled(checked, PopRead)
            && WholePop(r) == Apply(Apply(Apply(checked, PopRead), PopStore), PopCount))
  {
    HeadMeetsTail(r);
    var loaded := Apply(r, PopBegin);
    StepKeeps(r, PopBegin);
    PopTestMeansEmpty(loaded, |r.accepted|);
    StepKeeps(loaded, PopCheck(|r.accepted|));
  }

  lemma WholePopKeeps<T>(r: Ring<T>)
    requires Inv(r) && Idle(r)
    ensures Inv(WholePop(r)) && Idle(WholePop(r))
  {
    WholePopIsProtocol(r);
    if r.Queue() != [] {
      var checked := Apply(Apply(r, PopBegin), PopCheck(|r.accepted|));
      StepKeeps(checked, PopRead);
      StepKeeps(Apply(checked, PopRead), PopStore);
      StepKeeps(Apply(Apply(checked, PopRead), PopStore), PopCount);
    }
  }

  class SpscRingBuffer<T> {
    const slots: array<Cell<T>>
    var head: nat
    var tail: nat
    var pushed: nat
    var popped: nat
    var rejected: nat
    ghost var accepted: seq<T>
    ghost var taken: seq<T>
    ghost var tailSeen: nat
    ghost var headSeen: nat

    ghost function View(): Ring<T>
      reads this, slots
    {
      Ring(slots[..], head, tail, pushed, popped, rejected, PIdle, CIdle, tailSeen, headSeen, accepted, taken)
    }

    ghost predicate Valid()
      reads this, slots
    {
      Inv(View())
    }

    ghost function Contents(): seq<T>
      reads this, slots
      requires Valid()
    {
      View().Queue()
    }

    function Capacity(): int { slots.Length - 1 }

    constructor (capacity: nat)
      ensures Valid() && fresh(slots) && Capacity() == capacity
      ensures Contents() == [] && View() == Initial(capacity)
    {
      slots := new Cell<T>[capacity + 1](_ => Moved);
      head, tail, pushed, popped, rejected := 0, 0, 0, 0, 0;
      accepted, taken, tailSeen, headSeen := [], [], 0, 0;
      new;
      InitialInv<T>(capacity);
      assert slots[..] == seq(capacity + 1, _ => Moved);
    }

    /** A full buffer refuses the item and counts the refusal; otherwise it goes in last. */
    method TryPush(item: T) returns (ok: bool)
      requires Valid()
      modifies this, slots
      ensures Valid() && View() == WholePush(old(View()), item)
      ensures ok <==> |old(Contents())| < Capacity()
      ensures Contents() == old(Contents()) + if ok then [item] else []
    {
      HeadRunsIntoTail(View(), item);
      WholePushKeeps(View(), item);
      var next := Increment(head, slots.Length);
      tailSeen := |taken|;
      if next == tail {
        rejected := rejected + 1;
        return false;
      }
      slots[head] := Full(item);
      head := next;
      accepted := accepted + [item];
      pushed := pushed + 1;
      assert View() == WholePush(old(View()), item);
      return true;
    }

    /** An empty buffer yields nothing; otherwise the oldest item comes out. */
    method TryPop() returns (item: Option<T>)
      requires Valid()
      modifies this, slots
      ensures Valid() && View() == WholePop(old(View()))
      ensures item == if old(Contents()) == [] then None else Some(old(Contents())[0])
      ensures Contents() == if old(Contents()) == [] then [] else old(Contents())[1..]
    {
      WholePopKeeps(View());
      HeadMeetsTail(View());
      headSeen := |accepted|;
      if tail == head {
        return None;
      }
      item := Some(slots[tail].item);
      slots[tail] := Moved;
      tail := Increment(tail, slots.Length);
      taken := taken + [item.value];
      popped := popped + 1;
      assert View() == WholePop(old(View()));
    }

    method Size() returns (n: nat)
      requires Valid()
      ensures n == |Contents()|
    {
      IndexAdvance(|taken|, |accepted| - |taken|, slots.Length);
      n := if head >= tail then head - tail else slots.Length - tail + head;
    }
  }
}
