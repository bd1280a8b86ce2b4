/** The event stream: an ordered event log paired with a cell that is
    settled at most once (agent-core/packages/stream/eventstream.go).
    Channels, goroutines and the 10-slot buffer collapse to a sequential
    state machine: `Open(events)` moves to `Ended(events, r)` or
    `Failed(events, e)` and never moves again. */
module EventStream {
  import opened Wrappers

  datatype Stream<T, R> =
    | Open(events: seq<T>)
    | Ended(events: seq<T>, result: R)
    | Failed(events: seq<T>, err: string)
  {
    predicate Terminated() {
      !Open?
    }
  }

  /** A fresh stream: open, nothing pushed. */
  function NewStream<T, R>(): (s: Stream<T, R>)
    ensures s.Open? && s.events == []
  {
    Open([])
  }

  /** `Push`: appends while open; a terminated stream is left as it is. */
  function Push<T, R>(s: Stream<T, R>, e: T): (s': Stream<T, R>)
    ensures s.Open? ==> s'.Open? && s'.events == s.events + [e]
    ensures s.Terminated() ==> s' == s
  {
    if s.Open? then Open(s.events + [e]) else s
  }

  /** `End`: settles the stream with a result, unless already settled. */
  function End<T, R>(s: Stream<T, R>, r: R): (s': Stream<T, R>)
    ensures s'.Terminated() && s'.events == s.events
    ensures s.Open? ==> s'.Ended? && s'.result == r
    ensures s.Terminated() ==> s' == s
  {
    if s.Open? then Ended(s.events, r) else s
  }

  /** `EndWithError`: settles the stream with an error, unless already settled. */
  function EndWithError<T, R>(s: Stream<T, R>, e: string): (s': Stream<T, R>)
    ensures s'.Terminated() && s'.events == s.events
    ensures s.Open? ==> s'.Failed? && s'.err == e
    ensures s.Terminated() ==> s' == s
  {
    if s.Open? then Failed(s.events, e) else s
  }

  /** `Events`: everything pushed while the stream was open, in push order. */
  function Events<T, R>(s: Stream<T, R>): seq<T> {
    s.events
  }

  /** `Result`: only available once the stream is settled (the Go call blocks
      until then). An error settlement gives the error; Go pairs it with the
      zero value of the result type. */
  function Result<T, R>(s: Stream<T, R>): (r: Result<R, string>)
    requires s.Terminated()
    ensures s.Ended? ==> r == Ok(s.result)
    ensures s.Failed? ==> r == Err(s.err)
  {
    if s.Ended? then Ok(s.result) else Err(s.err)
  }

  /** Pushing a sequence of events in order. */
  function PushAll<T, R>(s: Stream<T, R>, es: seq<T>): Stream<T, R>
    decreases |es|
  {
    if |es| == 0 then s else PushAll(Push(s, es[0]), es[1..])
  }

  /** While open, consumers see exactly the pushed events in push order; once
      settled, pushes change nothing. */
  lemma {:induction false} PushAllOrder<T, R>(s: Stream<T, R>, es: seq<T>)
    ensures s.Open? ==> PushAll(s, es) == Open(s.events + es)
    ensures s.Terminated() ==> PushAll(s, es) == s
    decreases |es|
  {
    if |es| > 0 {
      PushAllOrder(Push(s, es[0]), es[1..]);
      assert s.events + [es[0]] + es[1..] == s.events + es;
    }
  }

  /** Only the first terminator takes effect: whatever is called afterwards,
      the settlement and the events stay as the first call left them. */
  lemma FirstTerminatorWins<T, R>(s: Stream<T, R>, r1: R, r2: R, e: string, later: seq<T>)
    requires s.Open?
    ensures End(End(s, r1), r2) == Ended(s.events, r1)
    ensures EndWithError(End(s, r1), e) == Ended(s.events, r1)
    ensures End(EndWithError(s, e), r1) == Failed(s.events, e)
    ensures PushAll(End(s, r1), later) == Ended(s.events, r1)
  {
    PushAllOrder(End(s, r1), later);
  }

  /** Ending with no pushes leaves no events and the end value; repeated
      Result calls return the same pair. */
  lemma EndWithoutPushes<T, R>(r: R)
    ensures Events(End(NewStream<T, R>(), r)) == []
    ensures Result(End(NewStream<T, R>(), r)) == Ok(r)
  {
  }

  // ---------------------------------------------------------------------
  // The Go `Push` as written: `select { case events <- e: case <-done: }`.
  // After termination both cases are ready; Go picks one at random, and the
  // send case on the closed `events` channel panics.

  /** What one `Push` call can do. */
  datatype PushStep<T, R> = Delivered(s: Stream<T, R>) | Panicked

  /** Every outcome the as-written `Push` allows. */
  function PushAsWritten<T(==), R(==)>(s: Stream<T, R>, e: T): (steps: set<PushStep<T, R>>)
    ensures s.Open? ==> steps == {Delivered(Push(s, e))}
    ensures s.Terminated() ==> steps == {Delivered(s), Panicked}
  {
    if s.Open? then {Delivered(Open(s.events + [e]))} else {Delivered(s), Panicked}
  }

  /** The discrepancy: a push after `End` or `EndWithError` may panic
      instead of being dropped. */
  lemma PushAfterEndMayPanic(r: int, err: string, e: int)
    ensures Panicked in PushAsWritten(End(NewStream<int, int>(), r), e)
    ensures Panicked in PushAsWritten(EndWithError(NewStream<int, int>(), err), e)
  {
  }

  /** The corrected `Push` is one of the outcomes the code as written
      allows, and it is the only one that never panics. */
  lemma PushIsAnAllowedOutcome<T, R>(s: Stream<T, R>, e: T)
    ensures Delivered(Push(s, e)) in PushAsWritten(s, e)
    ensures forall st :: st in PushAsWritten(s, e) && st != Panicked ==> st == Delivered(Push(s, e))
  {
  }
}
