/** The two asyncio primitives the core relies on, reduced to the state the
    core inspects: a task handle and a FIFO queue; and what the strategy
    runners' tasks run. */
module Tasks {
  import opened Types

  /** An asyncio task: whether it has finished, and whether cancellation has
      been requested. The coroutine it runs is not modelled. */
  class Task {
    var done: bool
    var cancelRequested: bool

    constructor ()
      ensures !done && !cancelRequested
    {
      done := false;
      cancelRequested := false;
    }

    /** `task.cancel()`: a finished task refuses (returns False); otherwise the
        request is recorded and the task finishes later. */
    method Cancel() returns (accepted: bool)
      modifies this
      ensures accepted == !old(done)
      ensures done == old(done)
      ensures cancelRequested == (old(cancelRequested) || !old(done))
    {
      accepted := !done;
      if !done {
        cancelRequested := true;
      }
    }

    /** The event loop runs the task to completion (by return, exception or
        cancellation). */
    method Finish()
      modifies this
      ensures done && cancelRequested == old(cancelRequested)
    {
      done := true;
    }
  }

  /** `asyncio.Queue(maxsize)`; a maxsize of zero or less means unbounded. */
  class Queue<T> {
    var items: seq<T>
    const maxsize: int

    constructor (maxsize: int)
      ensures items == [] && this.maxsize == maxsize
    {
      items := [];
      this.maxsize := maxsize;
    }

    /** `queue.full()`. */
    predicate Full()
      reads this
    {
      0 < maxsize <= |items|
    }

    /** `queue.put_nowait(x)`: raises QueueFull instead of waiting. */
    method PutNowait(x: T) returns (r: Outcome)
      modifies this
      ensures r == if old(Full()) then Raised(QueueFull) else Completed
      ensures items == if old(Full()) then old(items) else old(items) + [x]
    {
      if Full() {
        r := Raised(QueueFull);
      } else {
        items := items + [x];
        r := Completed;
      }
    }
  }

  /** What a strategy runner's task runs: the consumer of one event type,
      or the timer of one interval. */
  datatype TaskKind = Wait(eventType: string) | Timer(interval: int)

  /** The consumers of `events`, in order. */
  function Waits(events: seq<string>): (r: seq<TaskKind>)
    ensures |r| == |events| && forall i :: 0 <= i < |r| ==> r[i] == Wait(events[i])
  {
    seq(|events|, i requires 0 <= i < |events| => Wait(events[i]))
  }

  /** The timers of `intervals`, in order. */
  function Timers(intervals: seq<int>): (r: seq<TaskKind>)
    ensures |r| == |intervals| && forall i :: 0 <= i < |r| ==> r[i] == Timer(intervals[i])
  {
    seq(|intervals|, i requires 0 <= i < |intervals| => Timer(intervals[i]))
  }
}
