/** The bounded per-device downlink queue kept in memory by the device manager. */
module CommandQueue {
  import opened Wrappers
  import opened GosterWy

  datatype Message = Message(commandId: int, cmdId: CmdId, payload: seq<bv8>)

  type Queues = map<string, seq<Message>>

  datatype QueueError = QueueFull

  function QueueOf(queues: Queues, uuid: string): seq<Message> {
    if uuid in queues then queues[uuid] else []
  }

  predicate IsFull(q: seq<Message>, capacity: int) {
    capacity > 0 && |q| >= capacity
  }

  /** A full queue gives up its oldest message to the new one. */
  function Enqueued(q: seq<Message>, m: Message, capacity: int): (r: seq<Message>) {
    if IsFull(q, capacity) then q[1..] + [m] else q + [m]
  }

  /** A full queue gives up its newest message to the retried one, which goes to the head. */
  function Requeued(q: seq<Message>, m: Message, capacity: int): (r: Option<seq<Message>>) {
    var kept := if IsFull(q, capacity) then q[..|q| - 1] else q;
    if IsFull(kept, capacity) then None else Some([m] + kept)
  }

  /** Pops the head; an emptied queue leaves the table. */
  function Dequeued(queues: Queues, uuid: string): (r: (Queues, Option<Message>)) {
    var q := QueueOf(queues, uuid);
    if q == [] then (queues, None)
    else if |q| == 1 then (queues - {uuid}, Some(q[0]))
    else (queues[uuid := q[1..]], Some(q[0]))
  }

  class DeviceCommandQueue {
    var queues: Queues
    const capacity: int

    constructor (capacity: int)
      ensures this.capacity == capacity && queues == map[]
    {
      this.capacity := capacity;
      queues := map[];
    }

    method Enqueue(uuid: string, message: Message)
      modifies this
      ensures queues == old(queues)[uuid := Enqueued(QueueOf(old(queues), uuid), message, capacity)]
    {
      var queue := if uuid in queues then queues[uuid] else [];
      if capacity > 0 && |queue| >= capacity {
        queue := queue[1..] + [message];
        queues := queues[uuid := queue];
        return;
      }
      queues := queues[uuid := queue + [message]];
    }

    method Requeue(uuid: string, message: Message) returns (r: Result<(), QueueError>)
      modifies this
      ensures match Requeued(QueueOf(old(queues), uuid), message, capacity)
              case None => r == Err(QueueFull) && queues == old(queues)
              case Some(q) => r == Ok(()) && queues == old(queues)[uuid := q]
    {
      var queue := if uuid in queues then queues[uuid] else [];
      if capacity > 0 && |queue| >= capacity {
        queue := queue[..|queue| - 1];
      }
      if capacity > 0 && |queue| >= capacity {
        return Err(QueueFull);
      }
      queue := [message] + queue;
      queues := queues[uuid := queue];
      return Ok(());
    }

    method Dequeue(uuid: string) returns (r: Option<Message>)
      modifies this
      ensures (queues, r) == Dequeued(old(queues), uuid)
    {
      var queue := if uuid in queues then queues[uuid] else [];
      if |queue| == 0 {
        return None;
      }
      var msg := queue[0];
      queue := queue[1..];
      if |queue| == 0 {
        queues := queues - {uuid};
      } else {
        queues := queues[uuid := queue];
      }
      return Some(msg);
    }
  }

  // ---------------------------------------------------------------- one queue over any history

  datatype Op = Enqueue(m: Message) | Requeue(m: Message) | Dequeue

  /** A queue together with everything that ever went in at the tail and came out at the head. */
  datatype History = History(queue: seq<Message>, entered: seq<Message>, left: seq<Message>, overflows: nat)

  const EMPTY_HISTORY := History([], [], [], 0)

  function Apply(h: History, op: Op, capacity: int): History {
    match op
    case Enqueue(m) =>
      h.(queue := Enqueued(h.queue, m, capacity), entered := h.entered + [m],
         overflows := h.overflows + if IsFull(h.queue, capacity) then 1 else 0)
    case Requeue(m) =>
      (match Requeued(h.queue, m, capacity)
       case None => h
       case Some(q) => h.(queue := q, overflows := h.overflows + if IsFull(h.queue, capacity) then 1 else 0))
    case Dequeue =>
      if h.queue == [] then h else h.(queue := h.queue[1..], left := h.left + [h.queue[0]])
  }

  function ApplyAll(h: History, ops: seq<Op>, capacity: int): History
    decreases ops
  {
    if ops == [] then h else ApplyAll(Apply(h, ops[0], capacity), ops[1..], capacity)
  }

  /** A queue of positive capacity never outgrows it, so a retry is never refused and lands at the head. */
  lemma {:induction false} CapacityHolds(h: History, ops: seq<Op>, capacity: int, m: Message)
    requires capacity > 0 && |h.queue| <= capacity
    ensures var q := ApplyAll(h, ops, capacity).queue;
            && |q| <= capacity
            && Requeued(q, m, capacity).Some?
            && Requeued(q, m, capacity).value[0] == m
    decreases ops
  {
    if ops != [] {
      CapacityHolds(Apply(h, ops[0], capacity), ops[1..], capacity, m);
    }
  }

  /** a can be read off b from left to right. */
  predicate Subsequence(a: seq<Message>, b: seq<Message>)
    decreases |b|
  {
    if a == [] then true
    else if b == [] then false
    else if a[|a| - 1] == b[|b| - 1] then Subsequence(a[..|a| - 1], b[..|b| - 1])
    else Subsequence(a, b[..|b| - 1])
  }

  lemma {:induction false} SubsequenceSkips(a: seq<Message>, b: seq<Message>)
    requires a != [] && Subsequence(a, b)
    ensures Subsequence(a[..|a| - 1], b)
    decreases |b|
  {
    var a', b' := a[..|a| - 1], b[..|b| - 1];
    if a' != [] {
      if a[|a| - 1] != b[|b| - 1] {
        SubsequenceSkips(a, b');
      }
      assert Subsequence(a', b');
      if a'[|a'| - 1] == b[|b| - 1] {
        SubsequenceSkips(a', b');
      }
    }
  }

  lemma {:induction false} SubsequenceDrops(a: seq<Message>, k: nat, b: seq<Message>)
    requires k < |a| && Subsequence(a, b)
    ensures Subsequence(a[..k] + a[k + 1..], b)
    decreases |b|
  {
    var c := a[..k] + a[k + 1..];
    if k == |a| - 1 {
      SubsequenceSkips(a, b);
      assert c == a[..|a| - 1];
    } else {
      assert c[|c| - 1] == a[|a| - 1];
      var b' := b[..|b| - 1];
      if a[|a| - 1] == b[|b| - 1] {
        SubsequenceDrops(a[..|a| - 1], k, b');
        assert c[..|c| - 1] == a[..|a| - 1][..k] + a[..|a| - 1][k + 1..];
      } else {
        SubsequenceDrops(a, k, b');
      }
    }
  }

  lemma SubsequenceSnoc(a: seq<Message>, b: seq<Message>, m: Message)
    requires Subsequence(a, b)
    ensures Subsequence(a + [m], b + [m])
  {
    assert (a + [m])[..|a|] == a && (b + [m])[..|b|] == b;
  }

  /**
   * Without retries the queue is a lossy FIFO: what left followed by what remains is a subsequence of
   * what entered, and exactly what entered when no enqueue met a full queue.
   */
  lemma {:induction false} FifoUpToOverflow(h: History, ops: seq<Op>, capacity: int)
    requires forall i :: 0 <= i < |ops| ==> !ops[i].Requeue?
    requires Subsequence(h.left + h.queue, h.entered)
    requires h.overflows == 0 ==> h.left + h.queue == h.entered
    ensures var end := ApplyAll(h, ops, capacity);
            && Subsequence(end.left + end.queue, end.entered)
            && (end.overflows == 0 ==> end.left + end.queue == end.entered)
    decreases ops
  {
    if ops != [] {
      var next := Apply(h, ops[0], capacity);
      FifoStep(h, ops[0], capacity);
      FifoUpToOverflow(next, ops[1..], capacity);
    }
  }

  lemma FifoStep(h: History, op: Op, capacity: int)
    requires !op.Requeue?
    requires Subsequence(h.left + h.queue, h.entered)
    requires h.overflows == 0 ==> h.left + h.queue == h.entered
    ensures var next := Apply(h, op, capacity);
            && Subsequence(next.left + next.queue, next.entered)
            && (next.overflows == 0 ==> next.left + next.queue == next.entered)
  {
    hide Subsequence;
    match op {
      case Enqueue(m) => FifoEnqueue(h, m, capacity);
      case Dequeue =>
        assert h.queue != [] ==> h.left + [h.queue[0]] + h.queue[1..] == h.left + h.queue;
    }
  }

  lemma FifoEnqueue(h: History, m: Message, capacity: int)
    requires Subsequence(h.left + h.queue, h.entered)
    ensures Subsequence(h.left + Enqueued(h.queue, m, capacity), h.entered + [m])
    ensures !IsFull(h.queue, capacity) ==> h.left + Enqueued(h.queue, m, capacity) == h.left + h.queue + [m]
  {
    hide Subsequence;
    if IsFull(h.queue, capacity) {
      var a, kept := h.left + h.queue, h.left + h.queue[1..];
      SubsequenceDrops(a, |h.left|, h.entered);
      assert kept == a[..|h.left|] + a[|h.left| + 1..];
      SubsequenceSnoc(kept, h.entered, m);
      assert kept + [m] == h.left + (h.queue[1..] + [m]);
    } else {
      SubsequenceSnoc(h.left + h.queue, h.entered, m);
      assert h.left + h.queue + [m] == h.left + (h.queue + [m]);
    }
  }
}
