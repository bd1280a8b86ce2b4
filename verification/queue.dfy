/** The follow-up queue: a FIFO of typed items
    (agent-core/packages/agent/core/queue.go). */
module FollowUpQueue {
  import opened Wrappers
  import opened JsonValues

  /** One queued item: a type tag and an untyped payload. */
  datatype FollowUpItem = FollowUpItem(kind: string, payload: Option<Json>)

  /** The queue holds its items oldest first. */
  datatype Queue<T> = Queue(items: seq<T>)

  function NewQueue<T>(): (q: Queue<T>)
    ensures IsEmpty(q) && Size(q) == 0
  {
    Queue([])
  }

  /** Appends at the tail; the size grows by one. */
  function Enqueue<T>(q: Queue<T>, x: T): (q': Queue<T>)
    ensures Size(q') == Size(q) + 1
    ensures q'.items[..Size(q)] == q.items && q'.items[Size(q)] == x
  {
    Queue(q.items + [x])
  }

  /** Removes the head. On an empty queue reports `None` and changes nothing. */
  function Dequeue<T>(q: Queue<T>): (r: (Option<T>, Queue<T>))
    ensures IsEmpty(q) ==> r.0 == None && r.1 == q
    ensures !IsEmpty(q) ==> r.0 == Some(q.items[0]) && [q.items[0]] + r.1.items == q.items
  {
    if |q.items| == 0 then (None, q) else (Some(q.items[0]), Queue(q.items[1..]))
  }

  predicate IsEmpty<T>(q: Queue<T>) {
    |q.items| == 0
  }

  function Size<T>(q: Queue<T>): nat {
    |q.items|
  }

  /** IsEmpty holds exactly when the size is zero. */
  lemma EmptyIffSizeZero<T>(q: Queue<T>)
    ensures IsEmpty(q) <==> Size(q) == 0
  {
  }

  function Clear<T>(q: Queue<T>): (q': Queue<T>)
    ensures IsEmpty(q')
  {
    Queue([])
  }

  /** Returns every item, oldest first, and leaves the queue empty. */
  function Drain<T>(q: Queue<T>): (r: (seq<T>, Queue<T>))
    ensures IsEmpty(r.1)
    ensures |r.0| == Size(q)
    ensures forall i :: 0 <= i < |r.0| ==> r.0[i] == q.items[i]
  {
    (q.items, Queue([]))
  }

  /** Enqueues every item in order. */
  function EnqueueAll<T>(q: Queue<T>, xs: seq<T>): Queue<T>
    decreases |xs|
  {
    if |xs| == 0 then q else EnqueueAll(Enqueue(q, xs[0]), xs[1..])
  }

  /** Dequeues `k` times, collecting what comes out. */
  function DequeueN<T>(q: Queue<T>, k: nat): (seq<T>, Queue<T>)
    decreases k
  {
    if k == 0 then ([], q)
    else
      var (x, q1) := Dequeue(q);
      match x
      case None => ([], q1)
      case Some(v) => var (rest, q2) := DequeueN(q1, k - 1); ([v] + rest, q2)
  }

  /** Enqueueing onto any queue keeps the old items in front. */
  lemma {:induction false} EnqueueAllAppends<T>(q: Queue<T>, xs: seq<T>)
    ensures EnqueueAll(q, xs).items == q.items + xs
    decreases |xs|
  {
    if |xs| > 0 {
      EnqueueAllAppends(Enqueue(q, xs[0]), xs[1..]);
      assert q.items + [xs[0]] + xs[1..] == q.items + xs;
    }
  }

  /** FIFO: dequeuing as many items as the queue holds returns them in
      enqueue order and leaves the queue empty. */
  lemma {:induction false} DequeueAllIsFifo<T>(q: Queue<T>)
    ensures DequeueN(q, Size(q)) == (q.items, Queue([]))
    decreases Size(q)
  {
    if Size(q) > 0 {
      DequeueAllIsFifo(Queue(q.items[1..]));
      assert [q.items[0]] + q.items[1..] == q.items;
    }
  }

  /** Items enqueued onto a fresh queue come back out, by Dequeue or by
      Drain, in the order they went in. */
  lemma FifoRoundTrip<T>(xs: seq<T>)
    ensures DequeueN(EnqueueAll(NewQueue<T>(), xs), |xs|).0 == xs
    ensures Drain(EnqueueAll(NewQueue<T>(), xs)).0 == xs
  {
    EnqueueAllAppends(NewQueue<T>(), xs);
    DequeueAllIsFifo(EnqueueAll(NewQueue<T>(), xs));
  }
}
