/** The event dispatcher of the mmm/core snapshot
    (mmm/core/events/dispatcher.py). `conf` is the configured
    `EVENT_SOURCE_CONF`, from the name of an event class to the queue behind
    that class's event source; several classes may share one queue. Python
    keys by the class object, so two same-named classes from different
    modules are one key here only. */
module MmmCoreDispatcher {
  import opened Types
  import opened Tasks

  /** `put_nowait(e)` on a queue of capacity `maxsize` holding `xs`: a full
      queue keeps what it had. */
  function Offer<E>(xs: seq<E>, maxsize: int, e: E): seq<E>
  {
    if 0 < maxsize <= |xs| then xs else xs + [e]
  }

  /** A queue holding `xs`, after `es` have been offered to it in turn with
      nothing taken out: the events that found room, in order; once full, every
      later event is dropped. */
  function Fill<E>(xs: seq<E>, maxsize: int, es: seq<E>): (r: seq<E>)
    ensures maxsize <= 0 ==> r == xs + es
    ensures 0 < maxsize && maxsize <= |xs| ==> r == xs
    ensures 0 < maxsize && |xs| < maxsize ==>
              r == xs + es[..if |es| < maxsize - |xs| then |es| else maxsize - |xs|]
    decreases |es|
  {
    if |es| == 0 then xs
    else
      var before := Fill(xs, maxsize, es[..|es| - 1]);
      assert es[..|es| - 1] + [es[|es| - 1]] == es;
      Offer(before, maxsize, es[|es| - 1])
  }

  /** Offering `a` and then `b` leaves a queue as offering `a + b` does. */
  lemma {:induction false} FillConcat<E>(xs: seq<E>, maxsize: int, a: seq<E>, b: seq<E>)
    ensures Fill(Fill(xs, maxsize, a), maxsize, b) == Fill(xs, maxsize, a + b)
    decreases |b|
  {
    if |b| == 0 {
      assert a + b == a;
    } else {
      assert (a + b)[..|a + b| - 1] == a + b[..|b| - 1];
      FillConcat(xs, maxsize, a, b[..|b| - 1]);
    }
  }

  /** The events of `es`, in order, whose class `conf` sends to queue `q`. */
  function Routed<E>(typeOf: E -> string, conf: map<string, Queue<E>>, es: seq<E>, q: Queue<E>): (r: seq<E>)
    ensures |r| <= |es|
    ensures forall i :: 0 <= i < |r| ==> typeOf(r[i]) in conf && conf[typeOf(r[i])] == q
    decreases |es|
  {
    if |es| == 0 then []
    else
      var last := es[|es| - 1];
      Routed(typeOf, conf, es[..|es| - 1], q)
      + (if typeOf(last) in conf && conf[typeOf(last)] == q then [last] else [])
  }

  lemma {:induction false} RoutedConcat<E>(typeOf: E -> string, conf: map<string, Queue<E>>, a: seq<E>, b: seq<E>, q: Queue<E>)
    ensures Routed(typeOf, conf, a + b, q) == Routed(typeOf, conf, a, q) + Routed(typeOf, conf, b, q)
    decreases |b|
  {
    if |b| == 0 {
      assert a + b == a;
    } else {
      assert (a + b)[..|a + b| - 1] == a + b[..|b| - 1];
      RoutedConcat(typeOf, conf, a, b[..|b| - 1], q);
    }
  }

  /** How many of `es` `dispatch` accepts before the first one whose class
      has no source, which raises RuntimeError. */
  function Accepted<E>(typeOf: E -> string, conf: map<string, Queue<E>>, es: seq<E>): (n: nat)
    ensures n <= |es|
    ensures forall i :: 0 <= i < n ==> typeOf(es[i]) in conf
    ensures n < |es| ==> typeOf(es[n]) !in conf
  {
    if |es| == 0 || typeOf(es[0]) !in conf then 0
    else
      var n := Accepted(typeOf, conf, es[1..]);
      assert forall i :: 0 < i <= n ==> es[i] == es[1..][i - 1];
      n + 1
  }

  /** Between two snapshots of the sources' queues, each queue has been
      offered exactly the events of `sent` routed to it. */
  ghost predicate FilledBy<E>(typeOf: E -> string, conf: map<string, Queue<E>>,
                             before: map<Queue<E>, seq<E>>, after: map<Queue<E>, seq<E>>, sent: seq<E>)
  {
    && after.Keys == before.Keys
    && forall q :: q in after ==> after[q] == Fill(before[q], q.maxsize, Routed(typeOf, conf, sent, q))
  }

  lemma FilledByTrans<E>(typeOf: E -> string, conf: map<string, Queue<E>>,
                         a: map<Queue<E>, seq<E>>, b: map<Queue<E>, seq<E>>, c: map<Queue<E>, seq<E>>,
                         s: seq<E>, t: seq<E>)
    requires FilledBy(typeOf, conf, a, b, s) && FilledBy(typeOf, conf, b, c, t)
    ensures FilledBy(typeOf, conf, a, c, s + t)
  {
    forall q | q in c
      ensures c[q] == Fill(a[q], q.maxsize, Routed(typeOf, conf, s + t, q))
    {
      RoutedConcat(typeOf, conf, s, t, q);
      FillConcat(a[q], q.maxsize, Routed(typeOf, conf, s, q), Routed(typeOf, conf, t, q));
    }
  }

  class Dispatcher<E> {
    const typeOf: E -> string
    const conf: map<string, Queue<E>>

    constructor (typeOf: E -> string, conf: map<string, Queue<E>>)
      ensures this.typeOf == typeOf && this.conf == conf
    {
      this.typeOf := typeOf;
      this.conf := conf;
    }

    ghost function Sources(): set<Queue<E>>
    {
      set t | t in conf :: conf[t]
    }

    /** What each source's queue holds. */
    ghost function Contents(): (m: map<Queue<E>, seq<E>>)
      reads Sources()
      ensures m.Keys == Sources()
    {
      map q | q in Sources() :: q.items
    }

    /** `dispatch(event)`: RuntimeError when the event's exact class has no
        source; otherwise `put_nowait`, where a full queue is logged and the
        event dropped without raising. */
    method Dispatch(event: E) returns (r: Outcome)
      modifies Sources()
      ensures typeOf(event) !in conf ==> r == Raised(RuntimeError)
      ensures typeOf(event) in conf ==> r == Completed
      ensures forall t :: t in conf ==>
                conf[t].items
                == if typeOf(event) in conf && conf[t] == conf[typeOf(event)] && !old(conf[typeOf(event)].Full())
                   then old(conf[t].items) + [event]
                   else old(conf[t].items)
    {
      if typeOf(event) !in conf {
        return Raised(RuntimeError);
      }
      var source := conf[typeOf(event)];
      var outcome := source.PutNowait(event);
      // QueueFull is caught and only logged.
      r := Completed;
    }

    /** `dispatch` in the terms of `Fill`: an accepted event is offered to the
        one queue its class is configured with. */
    method DispatchOffers(event: E) returns (r: Outcome)
      modifies Sources()
      ensures r == if typeOf(event) in conf then Completed else Raised(RuntimeError)
      ensures FilledBy(typeOf, conf, old(Contents()), Contents(), if r.Completed? then [event] else [])
    {
      r := Dispatch(event);
      ghost var sent := if r.Completed? then [event] else [];
      ghost var before := old(Contents());
      ghost var after := Contents();
      forall q | q in after
        ensures after[q] == Fill(before[q], q.maxsize, Routed(typeOf, conf, sent, q))
      {
        var t :| t in conf && conf[t] == q;
        OfferOne(typeOf, conf, sent, q);
      }
    }
  }

  /** At most one event offered: the queue takes it when its class is routed
      there and the queue has room. */
  lemma OfferOne<E>(typeOf: E -> string, conf: map<string, Queue<E>>, sent: seq<E>, q: Queue<E>)
    requires |sent| <= 1
    ensures |sent| == 0 ==> Routed(typeOf, conf, sent, q) == []
    ensures |sent| == 1 ==>
              Routed(typeOf, conf, sent, q) == (if typeOf(sent[0]) in conf && conf[typeOf(sent[0])] == q then [sent[0]] else [])
    ensures forall xs: seq<E>, e: E :: Fill(xs, q.maxsize, [e]) == Offer(xs, q.maxsize, e)
  {
    forall xs: seq<E>, e: E
      ensures Fill(xs, q.maxsize, [e]) == Offer(xs, q.maxsize, e)
    {
      assert [e][..0] == [];
    }
  }
}

/** The event dispatcher of the mmm snapshot (mmm/events/dispatcher.py),
    which behaves as the mmm/core one does. */
module MmmDispatcher {
  import opened Types
  import opened Tasks

  class Dispatcher<E> {
    const typeOf: E -> string
    const conf: map<string, Queue<E>>

    constructor (typeOf: E -> string, conf: map<string, Queue<E>>)
      ensures this.typeOf == typeOf && this.conf == conf
    {
      this.typeOf := typeOf;
      this.conf := conf;
    }

    ghost function Sources(): set<Queue<E>>
    {
      set t | t in conf :: conf[t]
    }

    /** `dispatch(event)`: RuntimeError for an unconfigured class; a full
        queue drops the event with a logged error. */
    method Dispatch(event: E) returns (r: Outcome)
      modifies Sources()
      ensures typeOf(event) !in conf ==> r == Raised(RuntimeError)
      ensures typeOf(event) in conf ==> r == Completed
      ensures forall t :: t in conf ==>
                conf[t].items
                == if typeOf(event) in conf && conf[t] == conf[typeOf(event)] && !old(conf[typeOf(event)].Full())
                   then old(conf[t].items) + [event]
                   else old(conf[t].items)
    {
      if typeOf(event) !in conf {
        return Raised(RuntimeError);
      }
      var source := conf[typeOf(event)];
      var outcome := source.PutNowait(event);
      r := Completed;
    }
  }
}
