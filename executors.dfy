/** What the three order executors share: the verdict of an order filter
    (a `Filter` or `MiddleWare`), the filter chain that stops at the first
    denial, and the per-exchange handler cache. */
module OrderExecution {
  import opened Types

  /** What `filter(c)` or `check(c)` returns. The executors unpack it as
      `rv, reason = ...`: a pair unpacks, a bare boolean (what the
      `CoinFilter` of mmm/order/middleware.py returns) raises TypeError. */
  datatype Verdict = Verdict(allowed: bool, reason: string) | Bare(value: bool)

  /** The `for middleware in self.middlewares` loop: Ok(true) when every
      filter allows the event, Ok(false) at the first denial, TypeError at the
      first verdict that does not unpack. */
  function Screen<E>(filters: seq<E -> Verdict>, e: E): (r: Result<bool>)
    ensures r == Ok(true) <==> forall i :: 0 <= i < |filters| ==> filters[i](e).Verdict? && filters[i](e).allowed
    ensures r.Err? ==> r.exc == TypeError && exists i :: 0 <= i < |filters| && filters[i](e).Bare?
    ensures r == Ok(false) ==> exists i :: 0 <= i < |filters| && filters[i](e).Verdict? && !filters[i](e).allowed
    decreases |filters|
  {
    if |filters| == 0 then Ok(true)
    else
      var rest := Screen(filters[1..], e);
      assert forall i :: 1 <= i < |filters| ==> filters[i] == filters[1..][i - 1];
      match filters[0](e)
      case Bare(_) => Err(TypeError)
      case Verdict(allowed, _) => if !allowed then Ok(false) else rest
  }

  /** `get_order_handler`'s choice: a cached handler wins whatever the
      event's credential; a missing or None entry gives what the miss path
      `built`. */
  function Resolve<H>(cache: map<ExchangeId, Option<H>>, exchange: ExchangeId, built: Option<H>): Option<H>
  {
    if exchange in cache && cache[exchange].Some? then cache[exchange] else built
  }

  /** Once a lookup has produced a handler and written it back, every later
      lookup for that exchange returns the same handler, whatever it would
      have built. */
  lemma ResolveSticks<H>(cache: map<ExchangeId, Option<H>>, exchange: ExchangeId, built: Option<H>, later: Option<H>)
    requires Resolve(cache, exchange, built).Some?
    ensures Resolve(cache[exchange := Resolve(cache, exchange, built)], exchange, later) == Resolve(cache, exchange, built)
  {
  }
}

/** The order executor of the mmm/core snapshot (mmm/core/order/executor.py).
    Storage is the log of `save_order` calls. An `Arrival` is an event taken
    from the queue together with what the exchange answers for it. */
module MmmCoreOrderExecutor {
  import opened Types
  import opened Orders
  import opened MmmCoreEvents
  import opened OrderExecution
  import opened Tasks
  import H = MmmCoreOrderHandler

  datatype Arrival = Arrival(event: OrderEvent, place: Result<Json>, query: Result<Json>)

  /** The cache and the storage log. */
  datatype Store = Store(cache: map<ExchangeId, Option<H.Handler>>, saved: seq<Option<OrderResult>>)

  datatype Step = Step(outcome: Outcome, store: Store)

  /** The miss path of `get_order_handler`: a handler for OKEX or BINANCE
      built from this event's credential, None for any other exchange. */
  function Build(exchange: ExchangeId, credential: Credential): (h: Option<H.Handler>)
    ensures h.Some? <==> exchange == OKEX || exchange == BINANCE
    ensures h.Some? ==> h.value.credential == credential && (h.value.OkexOrderHandler? <==> exchange == OKEX)
  {
    match exchange
    case OKEX => Some(H.OkexOrderHandler(credential))
    case BINANCE => Some(H.BinanceOrderHandler(credential))
    case Unlisted(_) => None
  }

  /** Every cached handler is of the kind its exchange is built with. */
  predicate Matching(cache: map<ExchangeId, Option<H.Handler>>)
  {
    forall x :: x in cache && cache[x].Some? ==>
      (x == OKEX || x == BINANCE) && (cache[x].value.OkexOrderHandler? <==> x == OKEX)
  }

  /** Lookups alone keep the cache matching, and under a matching cache an
      OKEX event always reaches an OKX handler and an unlisted exchange never
      gets one. */
  lemma LookupKeepsMatching(cache: map<ExchangeId, Option<H.Handler>>, exchange: ExchangeId, credential: Credential)
    requires Matching(cache)
    ensures var h := Resolve(cache, exchange, Build(exchange, credential));
            && Matching(cache[exchange := h])
            && (h.Some? <==> exchange == OKEX || exchange == BINANCE)
            && (h.Some? ==> (h.value.OkexOrderHandler? <==> exchange == OKEX))
  {
  }

  /** One `on_order_event(order_event)`: a denial returns with nothing looked
      up or saved; otherwise the lookup is written back to the cache, a None
      handler raises AttributeError, an exception from `create_order`
      propagates, and any result (None from the Binance stub included) is
      saved once. The log is any `Storage`: the default `SQLStorage` would
      instead raise AttributeError on that None. */
  function Handle(st: Store, filters: seq<OrderEvent -> Verdict>, a: Arrival): Step
  {
    match Screen(filters, a.event)
    case Err(e) => Step(Raised(e), st)
    case Ok(allowed) =>
      if !allowed then Step(Completed, st)
      else
        var h := Resolve(st.cache, a.event.exchange, Build(a.event.exchange, a.event.credential));
        var looked := st.(cache := st.cache[a.event.exchange := h]);
        if h.None? then Step(Raised(AttributeError), looked)
        else
          match H.HandlerResult(h.value, a.event, a.place, a.query)
          case Err(e) => Step(Raised(e), looked)
          case Ok(o) => Step(Completed, looked.(saved := looked.saved + [o]))
  }

  /** The exactly-one-save rule: a call saves one result or nothing, saves
      exactly when the filters allow the event and the call completes, and
      leaves everything as it was when a filter stops the event. */
  lemma HandleSavesOnce(st: Store, filters: seq<OrderEvent -> Verdict>, a: Arrival)
    ensures var s := Handle(st, filters, a);
            && (s.store.saved == st.saved || (|s.store.saved| == |st.saved| + 1 && s.store.saved[..|st.saved|] == st.saved))
            && (|s.store.saved| == |st.saved| + 1 <==> Screen(filters, a.event) == Ok(true) && s.outcome.Completed?)
            && (Screen(filters, a.event) != Ok(true) ==> s.store == st)
            && (Screen(filters, a.event) == Ok(true) ==>
                  s.store.cache == st.cache[a.event.exchange := Resolve(st.cache, a.event.exchange, Build(a.event.exchange, a.event.credential))])
  {
    var s := Handle(st, filters, a);
    if |s.store.saved| == |st.saved| + 1 {
      assert s.store.saved[..|st.saved|] == st.saved;
    }
  }

  /** With the default empty filter list, every event reaches the handler
      lookup, and a matching cache makes a completed OKX call save the
      handler's result for this very event. */
  lemma NoFiltersReachHandler(st: Store, a: Arrival)
    requires Matching(st.cache)
    ensures var s := Handle(st, [], a);
            && s.store.cache == st.cache[a.event.exchange := Resolve(st.cache, a.event.exchange, Build(a.event.exchange, a.event.credential))]
            && (a.event.exchange == OKEX && s.outcome.Completed? ==>
                  && s.store.saved == st.saved + [Some(H.OkexResult(a.event, a.place, a.query).value)]
                  && (s.store.saved[|st.saved|].value.status == SUCCESS <==> H.Confirmed(a.place, a.query)))
  {
    LookupKeepsMatching(st.cache, a.event.exchange, a.event.credential);
  }

  datatype Ran = Ran(handled: nat, exc: Option<Exc>, store: Store)

  /** The consumer task over the events it takes, one at a time and in queue
      order: the first exception ends the `while True` loop, and with it the
      task. `handled` counts the events that completed. */
  function Run(st: Store, filters: seq<OrderEvent -> Verdict>, arrivals: seq<Arrival>): Ran
    decreases |arrivals|
  {
    if |arrivals| == 0 then Ran(0, None, st)
    else
      var s := Handle(st, filters, arrivals[0]);
      if s.outcome.Raised? then Ran(0, Some(s.outcome.exc), s.store)
      else
        var rest := Run(s.store, filters, arrivals[1..]);
        Ran(rest.handled + 1, rest.exc, rest.store)
  }

  /** The task ends early exactly when an event raised, saves only by
      appending, and saves at most once per completed event. */
  lemma {:induction false} RunSpec(st: Store, filters: seq<OrderEvent -> Verdict>, arrivals: seq<Arrival>)
    ensures var r := Run(st, filters, arrivals);
            && r.handled <= |arrivals|
            && (r.exc.None? <==> r.handled == |arrivals|)
            && (r.exc.Some? ==> Handle(Run(st, filters, arrivals[..r.handled]).store, filters, arrivals[r.handled]).outcome == Raised(r.exc.value))
            && |st.saved| <= |r.store.saved| <= |st.saved| + r.handled
            && r.store.saved[..|st.saved|] == st.saved
    decreases |arrivals|
  {
    if |arrivals| > 0 {
      var s := Handle(st, filters, arrivals[0]);
      HandleSavesOnce(st, filters, arrivals[0]);
      if s.outcome.Completed? {
        RunSpec(s.store, filters, arrivals[1..]);
        var r := Run(st, filters, arrivals);
        var rest := Run(s.store, filters, arrivals[1..]);
        assert r.store.saved[..|s.store.saved|] == s.store.saved;
        assert r.store.saved[..|st.saved|] == s.store.saved[..|st.saved|];
        if r.exc.Some? {
          assert arrivals[..r.handled][0] == arrivals[0];
          assert arrivals[..r.handled][1..] == arrivals[1..][..rest.handled];
          assert arrivals[r.handled] == arrivals[1..][rest.handled];
        }
      }
    }
  }

  /** A saved entry belongs to an event: None exactly for a Binance event,
      and otherwise a result carrying the event's `uniq_id`. */
  predicate Belongs(entry: Option<OrderResult>, a: Arrival)
  {
    (entry == None <==> a.event.exchange == BINANCE) && (entry.Some? ==> entry.value.uniqId == a.event.uniqId)
  }

  /** With no filters and a matching cache, a completed call appends one
      entry that belongs to the event. */
  lemma SavedForEvent(st: Store, a: Arrival)
    requires Matching(st.cache)
    requires Handle(st, [], a).outcome.Completed?
    ensures var s := Handle(st, [], a);
            && Matching(s.store.cache)
            && |s.store.saved| == |st.saved| + 1 && s.store.saved[..|st.saved|] == st.saved
            && Belongs(s.store.saved[|st.saved|], a)
  {
    LookupKeepsMatching(st.cache, a.event.exchange, a.event.credential);
    var s := Handle(st, [], a);
    assert s.store.saved[..|st.saved|] == st.saved;
  }

  /** `after` is `before` followed by one entry for each of the first `k`
      arrivals, in order, each belonging to its event. */
  ghost predicate SavedInOrder(before: seq<Option<OrderResult>>, after: seq<Option<OrderResult>>, arrivals: seq<Arrival>, k: nat)
  {
    && k <= |arrivals|
    && |after| == |before| + k
    && after[..|before|] == before
    && forall i :: 0 <= i < k ==> Belongs(after[|before| + i], arrivals[i])
  }

  /** With no filters and a matching cache, each completed event was saved
      exactly once, in queue order: the n-th new entry belongs to the n-th
      event. */
  lemma {:induction false} RunWithoutFilters(st: Store, arrivals: seq<Arrival>)
    requires Matching(st.cache)
    ensures SavedInOrder(st.saved, Run(st, [], arrivals).store.saved, arrivals, Run(st, [], arrivals).handled)
    decreases |arrivals|
  {
    if |arrivals| > 0 {
      var s := Handle(st, [], arrivals[0]);
      if s.outcome.Completed? {
        SavedForEvent(st, arrivals[0]);
        RunWithoutFilters(s.store, arrivals[1..]);
        var rest := Run(s.store, [], arrivals[1..]);
        assert Run(st, [], arrivals) == Ran(rest.handled + 1, rest.exc, rest.store);
        SavedChain(st.saved, s.store.saved, rest.store.saved, arrivals, rest.handled);
      } else {
        RaisedKeepsStore(st, arrivals[0]);
      }
    }
  }

  /** With no filters, the task keeps the handler cache matching. */
  lemma {:induction false} RunKeepsMatching(st: Store, arrivals: seq<Arrival>)
    requires Matching(st.cache)
    ensures Matching(Run(st, [], arrivals).store.cache)
    decreases |arrivals|
  {
    if |arrivals| > 0 {
      var a := arrivals[0];
      LookupKeepsMatching(st.cache, a.event.exchange, a.event.credential);
      var s := Handle(st, [], a);
      assert Matching(s.store.cache);
      if s.outcome.Completed? {
        RunKeepsMatching(s.store, arrivals[1..]);
      }
    }
  }

  /** With no filters and a matching cache, a call that raises saves nothing
      and leaves the cache matching. */
  lemma RaisedKeepsStore(st: Store, a: Arrival)
    requires Matching(st.cache)
    requires Handle(st, [], a).outcome.Raised?
    ensures Matching(Handle(st, [], a).store.cache) && Handle(st, [], a).store.saved == st.saved
  {
    LookupKeepsMatching(st.cache, a.event.exchange, a.event.credential);
    HandleSavesOnce(st, [], a);
  }

  /** One entry saved for the first event, then one for each of the next `k`
      events: `k + 1` entries, each for its event, in order. */
  lemma SavedChain(before: seq<Option<OrderResult>>, mid: seq<Option<OrderResult>>, after: seq<Option<OrderResult>>,
                   arrivals: seq<Arrival>, k: nat)
    requires 0 < |arrivals|
    requires |mid| == |before| + 1 && mid[..|before|] == before && Belongs(mid[|before|], arrivals[0])
    requires SavedInOrder(mid, after, arrivals[1..], k)
    ensures SavedInOrder(before, after, arrivals, k + 1)
  {
    var n := |before|;
    assert after[..n] == mid[..n];
    assert after[n] == mid[n];
    BelongsShift(after, n, arrivals, k);
  }

  /** The entries from position `n` belong to `arrivals` once the first does
      and those after it belong to the rest. */
  lemma BelongsShift(saved: seq<Option<OrderResult>>, n: nat, arrivals: seq<Arrival>, k: nat)
    requires k < |arrivals| && n + 1 + k <= |saved|
    requires Belongs(saved[n], arrivals[0])
    requires forall i :: 0 <= i < k ==> Belongs(saved[(n + 1) + i], arrivals[1..][i])
    ensures forall i :: 0 <= i < k + 1 ==> Belongs(saved[n + i], arrivals[i])
  {
    forall i | 1 <= i < k + 1
      ensures Belongs(saved[n + i], arrivals[i])
    {
      assert saved[n + i] == saved[(n + 1) + (i - 1)];
      assert arrivals[i] == arrivals[1..][i - 1];
    }
  }

  class OrderExecutor {
    /** `settings.EVENT_SOURCE_CONF.get(OrderEvent)`, None when unconfigured
        (logged, and fatal only once the consumer runs). */
    const eventSource: Option<Queue<OrderEvent>>
    var cachedHandler: map<ExchangeId, Option<H.Handler>>
    var middlewares: seq<OrderEvent -> Verdict>
    var saved: seq<Option<OrderResult>>

    constructor (eventSource: Option<Queue<OrderEvent>>)
      ensures this.eventSource == eventSource
      ensures cachedHandler == map[] && middlewares == [] && saved == []
    {
      this.eventSource := eventSource;
      cachedHandler := map[];
      middlewares := [];
      saved := [];
    }

    function State(): Store
      reads this
    {
      Store(cachedHandler, saved)
    }

    /** `get_order_handler(exchange, credential)`: the result is written back
        to the cache on every call, None included. */
    method GetOrderHandler(exchange: ExchangeId, credential: Credential) returns (h: Option<H.Handler>)
      modifies this
      ensures h == Resolve(old(cachedHandler), exchange, Build(exchange, credential))
      ensures cachedHandler == old(cachedHandler)[exchange := h]
      ensures middlewares == old(middlewares) && saved == old(saved)
    {
      h := if exchange in cachedHandler then cachedHandler[exchange] else None;
      if h.None? {
        if exchange == OKEX {
          h := Some(H.OkexOrderHandler(credential));
        } else if exchange == BINANCE {
          h := Some(H.BinanceOrderHandler(credential));
        }
      }
      SetHandler(exchange, h);
    }

    /** `set_handler(exchange, handler)`. */
    method SetHandler(exchange: ExchangeId, handler: Option<H.Handler>)
      modifies this
      ensures cachedHandler == old(cachedHandler)[exchange := handler]
      ensures middlewares == old(middlewares) && saved == old(saved)
    {
      cachedHandler := cachedHandler[exchange := handler];
    }

    /** The filter loop of `on_order_event`, over the deep copy `c`. */
    method Permits(c: OrderEvent) returns (r: Result<bool>)
      ensures r == Screen(middlewares, c)
    {
      var i := 0;
      while i < |middlewares|
        invariant 0 <= i <= |middlewares|
        invariant Screen(middlewares, c) == Screen(middlewares[i..], c)
      {
        assert middlewares[i..][1..] == middlewares[i + 1..];
        var verdict := middlewares[i](c);
        if verdict.Bare? {
          return Err(TypeError);
        }
        if !verdict.allowed {
          return Ok(false);
        }
        i := i + 1;
      }
      r := Ok(true);
    }

    /** `on_order_event(order_event)`. */
    method OnOrderEvent(a: Arrival) returns (r: Outcome)
      modifies this
      ensures Step(r, State()) == Handle(old(State()), middlewares, a)
      ensures middlewares == old(middlewares)
    {
      var c := a.event;
      var permitted := Permits(c);
      if permitted.Err? {
        return Raised(permitted.exc);
      }
      if !permitted.value {
        return Completed;
      }
      var handler := GetOrderHandler(a.event.exchange, a.event.credential);
      if handler.None? {
        return Raised(AttributeError);
      }
      var result := H.CreateOrder(handler.value, a.event, a.place, a.query);
      if result.Err? {
        return Raised(result.exc);
      }
      saved := saved + [result.value];
      r := Completed;
    }

    /** The task `create_task` starts, over the events `event_source.get()`
        hands it: an unconfigured source fails the first `get` with
        AttributeError. */
    method Consume(arrivals: seq<Arrival>) returns (handled: nat, exc: Option<Exc>)
      modifies this
      ensures eventSource.None? ==> handled == 0 && exc == Some(AttributeError) && State() == old(State())
      ensures eventSource.Some? ==> Ran(handled, exc, State()) == Run(old(State()), middlewares, arrivals)
      ensures middlewares == old(middlewares)
    {
      if eventSource.None? {
        return 0, Some(AttributeError);
      }
      ghost var start := State();
      var i := 0;
      while i < |arrivals|
        invariant 0 <= i <= |arrivals|
        invariant middlewares == old(middlewares)
        invariant var rest := Run(State(), middlewares, arrivals[i..]);
                  Run(start, middlewares, arrivals) == Ran(rest.handled + i, rest.exc, rest.store)
      {
        assert arrivals[i..][1..] == arrivals[i + 1..];
        var outcome := OnOrderEvent(arrivals[i]);
        if outcome.Raised? {
          return i, Some(outcome.exc);
        }
        i := i + 1;
      }
      handled, exc := i, None;
    }
  }
}

/** The order executor of the src snapshot (src/mmm/core/order/executor.py):
    as the mmm/core one, over the inner event hub, and skipping falsy queue
    items. */
module SrcOrderExecutor {
  import opened Types
  import opened Orders
  import opened SrcInnerEvents
  import opened OrderExecution
  import opened Tasks
  import opened MmmCoreInnerEventHub
  import H = SrcOrderHandler

  datatype Arrival = Arrival(event: OrderCreationEvent, place: Result<Json>, query: Result<Json>)

  datatype Store = Store(cache: map<ExchangeId, Option<H.Handler>>, saved: seq<Option<OrderResult>>)

  datatype Step = Step(outcome: Outcome, store: Store)

  function Build(exchange: ExchangeId, credential: Credential): (h: Option<H.Handler>)
    ensures h.Some? <==> exchange == OKEX || exchange == BINANCE
    ensures h.Some? ==> h.value.credential == credential && (h.value.OkexOrderHandler? <==> exchange == OKEX)
  {
    match exchange
    case OKEX => Some(H.OkexOrderHandler(credential))
    case BINANCE => Some(H.BinanceOrderHandler(credential))
    case Unlisted(_) => None
  }

  /** One `on_order_event(order_event)`, as in the mmm/core executor. */
  function Handle(st: Store, filters: seq<OrderCreationEvent -> Verdict>, a: Arrival): Step
  {
    match Screen(filters, a.event)
    case Err(e) => Step(Raised(e), st)
    case Ok(allowed) =>
      if !allowed then Step(Completed, st)
      else
        var h := Resolve(st.cache, a.event.exchange, Build(a.event.exchange, a.event.credential));
        var looked := st.(cache := st.cache[a.event.exchange := h]);
        if h.None? then Step(Raised(AttributeError), looked)
        else
          match H.HandlerResult(h.value, a.event, a.place, a.query)
          case Err(e) => Step(Raised(e), looked)
          case Ok(o) => Step(Completed, looked.(saved := looked.saved + [o]))
  }

  /** A call saves one result or nothing, exactly when the filters allow the
      event and the call completes; a stopped event changes nothing; a
      completed OKX call saves a result that is never CREATED. */
  lemma HandleSavesOnce(st: Store, filters: seq<OrderCreationEvent -> Verdict>, a: Arrival)
    ensures var s := Handle(st, filters, a);
            && (s.store.saved == st.saved || (|s.store.saved| == |st.saved| + 1 && s.store.saved[..|st.saved|] == st.saved))
            && (|s.store.saved| == |st.saved| + 1 <==> Screen(filters, a.event) == Ok(true) && s.outcome.Completed?)
            && (Screen(filters, a.event) != Ok(true) ==> s.store == st)
            && (|s.store.saved| == |st.saved| + 1 && s.store.saved[|st.saved|].Some? ==>
                  s.store.saved[|st.saved|].value.status != CREATED && s.store.saved[|st.saved|].value.uniqId == a.event.uniqId)
  {
    var s := Handle(st, filters, a);
    if |s.store.saved| == |st.saved| + 1 {
      assert s.store.saved[..|st.saved|] == st.saved;
    }
  }

  datatype Ran = Ran(taken: nat, exc: Option<Exc>, store: Store)

  /** `run_executor` over the items `queue.get()` hands it, in order: a falsy
      item (None) is skipped, and the first exception ends the loop. `taken`
      counts the items consumed without raising. */
  function Run(st: Store, filters: seq<OrderCreationEvent -> Verdict>, items: seq<Option<Arrival>>): Ran
    decreases |items|
  {
    if |items| == 0 then Ran(0, None, st)
    else if items[0].None? then
      var rest := Run(st, filters, items[1..]);
      Ran(rest.taken + 1, rest.exc, rest.store)
    else
      var s := Handle(st, filters, items[0].value);
      if s.outcome.Raised? then Ran(0, Some(s.outcome.exc), s.store)
      else
        var rest := Run(s.store, filters, items[1..]);
        Ran(rest.taken + 1, rest.exc, rest.store)
  }

  /** The number of real events among the first `n` items. */
  function Events(items: seq<Option<Arrival>>): nat
    decreases |items|
  {
    if |items| == 0 then 0 else (if items[0].Some? then 1 else 0) + Events(items[1..])
  }

  /** Skipped items never reach the handler: the run ends early exactly when
      an event raised, and saves at most once per real event consumed. */
  lemma {:induction false} RunSpec(st: Store, filters: seq<OrderCreationEvent -> Verdict>, items: seq<Option<Arrival>>)
    ensures var r := Run(st, filters, items);
            && r.taken <= |items|
            && (r.exc.None? <==> r.taken == |items|)
            && (r.exc.Some? ==> items[r.taken].Some?)
            && |st.saved| <= |r.store.saved| <= |st.saved| + Events(items[..r.taken])
            && r.store.saved[..|st.saved|] == st.saved
    decreases |items|
  {
    if |items| > 0 {
      var r := Run(st, filters, items);
      if items[0].None? {
        RunSpec(st, filters, items[1..]);
        var rest := Run(st, filters, items[1..]);
        assert items[..r.taken][1..] == items[1..][..rest.taken];
      } else {
        var s := Handle(st, filters, items[0].value);
        HandleSavesOnce(st, filters, items[0].value);
        if s.outcome.Completed? {
          RunSpec(s.store, filters, items[1..]);
          var rest := Run(s.store, filters, items[1..]);
          assert items[..r.taken][1..] == items[1..][..rest.taken];
          assert r.store.saved[..|s.store.saved|] == s.store.saved;
          assert r.store.saved[..|st.saved|] == s.store.saved[..|st.saved|];
        }
      }
    }
  }

  /** A run over only None items saves nothing and changes nothing. */
  lemma {:induction false} SkipsOnlyNone(st: Store, filters: seq<OrderCreationEvent -> Verdict>, items: seq<Option<Arrival>>)
    requires forall i :: 0 <= i < |items| ==> items[i].None?
    ensures Run(st, filters, items) == Ran(|items|, None, st)
    decreases |items|
  {
    if |items| > 0 {
      SkipsOnlyNone(st, filters, items[1..]);
    }
  }

  class OrderExecutor {
    var cachedHandler: map<ExchangeId, Option<H.Handler>>
    var middlewares: seq<OrderCreationEvent -> Verdict>
    var saved: seq<Option<OrderResult>>

    constructor ()
      ensures cachedHandler == map[] && middlewares == [] && saved == []
    {
      cachedHandler := map[];
      middlewares := [];
      saved := [];
    }

    function State(): Store
      reads this
    {
      Store(cachedHandler, saved)
    }

    /** `get_order_handler(exchange, credential)`. */
    method GetOrderHandler(exchange: ExchangeId, credential: Credential) returns (h: Option<H.Handler>)
      modifies this
      ensures h == Resolve(old(cachedHandler), exchange, Build(exchange, credential))
      ensures cachedHandler == old(cachedHandler)[exchange := h]
      ensures middlewares == old(middlewares) && saved == old(saved)
    {
      h := if exchange in cachedHandler then cachedHandler[exchange] else None;
      if h.None? {
        if exchange == OKEX {
          h := Some(H.OkexOrderHandler(credential));
        } else if exchange == BINANCE {
          h := Some(H.BinanceOrderHandler(credential));
        }
      }
      SetHandler(exchange, h);
    }

    /** `set_handler(exchange, handler)`. */
    method SetHandler(exchange: ExchangeId, handler: Option<H.Handler>)
      modifies this
      ensures cachedHandler == old(cachedHandler)[exchange := handler]
      ensures middlewares == old(middlewares) && saved == old(saved)
    {
      cachedHandler := cachedHandler[exchange := handler];
    }

    method Permits(c: OrderCreationEvent) returns (r: Result<bool>)
      ensures r == Screen(middlewares, c)
    {
      var i := 0;
      while i < |middlewares|
        invariant 0 <= i <= |middlewares|
        invariant Screen(middlewares, c) == Screen(middlewares[i..], c)
      {
        assert middlewares[i..][1..] == middlewares[i + 1..];
        var verdict := middlewares[i](c);
        if verdict.Bare? {
          return Err(TypeError);
        }
        if !verdict.allowed {
          return Ok(false);
        }
        i := i + 1;
      }
      r := Ok(true);
    }

    /** `on_order_event(order_event)`. */
    method OnOrderEvent(a: Arrival) returns (r: Outcome)
      modifies this
      ensures Step(r, State()) == Handle(old(State()), middlewares, a)
      ensures middlewares == old(middlewares)
    {
      var permitted := Permits(a.event);
      if permitted.Err? {
        return Raised(permitted.exc);
      }
      if !permitted.value {
        return Completed;
      }
      var handler := GetOrderHandler(a.event.exchange, a.event.credential);
      if handler.None? {
        return Raised(AttributeError);
      }
      var result := H.CreateOrder(handler.value, a.event, a.place, a.query);
      if result.Err? {
        return Raised(result.exc);
      }
      saved := saved + [result.value];
      r := Completed;
    }

    /** `run_executor()`: subscribes to the hub by the type
        `OrderCreationEvent`, then handles the items the queue hands it. The
        hub's queue is returned; what arrives on it is `items`. */
    method RunExecutor(hub: AsyncioQueueEventHub<OrderCreationEvent>, items: seq<Option<Arrival>>)
      returns (queue: Queue<OrderCreationEvent>, taken: nat, exc: Option<Exc>)
      requires hub.Valid()
      modifies this, hub
      ensures hub.Valid()
      ensures "OrderCreationEvent" in hub.subscriptions.items && queue == hub.subscriptions.items["OrderCreationEvent"]
      ensures Ran(taken, exc, State()) == Run(old(State()), middlewares, items)
      ensures middlewares == old(middlewares)
    {
      queue := hub.Subscribe("OrderCreationEvent");
      taken, exc := Consume(items);
    }

    /** The `while True` loop of `run_executor`: each item `queue.get()`
        hands it goes to `on_order_event`, and the first exception ends the
        task. */
    method Consume(items: seq<Option<Arrival>>) returns (taken: nat, exc: Option<Exc>)
      modifies this
      ensures Ran(taken, exc, State()) == Run(old(State()), middlewares, items)
      ensures middlewares == old(middlewares)
    {
      ghost var start := State();
      var i := 0;
      while i < |items|
        invariant 0 <= i <= |items|
        invariant middlewares == old(middlewares)
        invariant var rest := Run(State(), middlewares, items[i..]);
                  Run(start, middlewares, items) == Ran(rest.taken + i, rest.exc, rest.store)
      {
        assert items[i..][1..] == items[i + 1..];
        var item := items[i];
        if item.Some? {
          var outcome := OnOrderEvent(item.value);
          if outcome.Raised? {
            return i, Some(outcome.exc);
          }
        }
        i := i + 1;
      }
      taken, exc := i, None;
    }
  }
}

/** The order executor of the mmm snapshot (mmm/order/executor.py): the
    handler's `create_order` and `query_order` run in a thread, and only an
    order the query finds is saved. The handlers of mmm/order/handler.py are
    placeholders, so their answers are inputs: `created` is the client order
    id or the exception, `found` the queried order, None, or the exception. */
module MmmOrderExecutor {
  import opened Types
  import opened EventData
  import opened MmmEvents
  import opened OrderExecution
  import opened Tasks

  datatype Handler = OkexOrderHandler(credential: Credential) | BinanceOrderHandler(credential: Credential)

  /** `Order` of mmm/project_types.py, the record a query yields. */
  datatype Order = Order(exchange: ExchangeId, orderId: string, clientOrderId: string, instrumentId: string,
                         currency: string, orderType: OrderType, side: string,
                         avgPrice: Decimal, turnover: Decimal, volume: Decimal)

  datatype Arrival = Arrival(event: OrderEvent, created: Result<Json>, found: Result<Option<Order>>)

  /** The cache and the rows `save(uniq_id, order)` stored, in order. */
  datatype Store = Store(cache: map<ExchangeId, Option<Handler>>, saved: seq<(string, Order)>)

  datatype Step = Step(outcome: Outcome, store: Store)

  function Build(exchange: ExchangeId, credential: Credential): (h: Option<Handler>)
    ensures h.Some? <==> exchange == OKEX || exchange == BINANCE
    ensures h.Some? ==> h.value.credential == credential && (h.value.OkexOrderHandler? <==> exchange == OKEX)
  {
    match exchange
    case OKEX => Some(OkexOrderHandler(credential))
    case BINANCE => Some(BinanceOrderHandler(credential))
    case Unlisted(_) => None
  }

  /** One `on_order_event(order_event)`: after the middleware checks and the
      lookup, a None handler raises AttributeError in the worker thread, an
      exception from creating or querying propagates, a None query result is
      only logged, and a found order is saved once under the event's
      `uniq_id`. */
  function Handle(st: Store, checks: seq<OrderEvent -> Verdict>, a: Arrival): Step
  {
    match Screen(checks, a.event)
    case Err(e) => Step(Raised(e), st)
    case Ok(allowed) =>
      if !allowed then Step(Completed, st)
      else
        var h := Resolve(st.cache, a.event.exchange, Build(a.event.exchange, a.event.credential));
        var looked := st.(cache := st.cache[a.event.exchange := h]);
        if h.None? then Step(Raised(AttributeError), looked)
        else if a.created.Err? then Step(Raised(a.created.exc), looked)
        else if a.found.Err? then Step(Raised(a.found.exc), looked)
        else if a.found.value.None? then Step(Completed, looked)
        else Step(Completed, looked.(saved := looked.saved + [(a.event.uniqId, a.found.value.value)]))
  }

  /** Save-if-found: a call saves at most one row, saves exactly when the
      checks pass, a handler exists and the query finds the order, and that
      row is the found order under the event's `uniq_id`. */
  lemma HandleSavesIfFound(st: Store, checks: seq<OrderEvent -> Verdict>, a: Arrival)
    ensures var s := Handle(st, checks, a);
            && (Screen(checks, a.event) != Ok(true) ==> s.store == st)
            && (s.store.saved == st.saved
                || (s.store.saved == st.saved + [(a.event.uniqId, a.found.value.value)]))
            && (s.store.saved != st.saved <==>
                  && Screen(checks, a.event) == Ok(true)
                  && Resolve(st.cache, a.event.exchange, Build(a.event.exchange, a.event.credential)).Some?
                  && a.created.Ok? && a.found.Ok? && a.found.value.Some?)
  {
  }

  datatype Ran = Ran(handled: nat, exc: Option<Exc>, store: Store)

  /** The task `create_task` starts, over the events it takes in arrival
      order, until the first exception. */
  function Run(st: Store, checks: seq<OrderEvent -> Verdict>, arrivals: seq<Arrival>): Ran
    decreases |arrivals|
  {
    if |arrivals| == 0 then Ran(0, None, st)
    else
      var s := Handle(st, checks, arrivals[0]);
      if s.outcome.Raised? then Ran(0, Some(s.outcome.exc), s.store)
      else
        var rest := Run(s.store, checks, arrivals[1..]);
        Ran(rest.handled + 1, rest.exc, rest.store)
  }

  /** The rows the completed events add: each found order, under its
      event's id, in arrival order. */
  function Found(arrivals: seq<Arrival>): (rows: seq<(string, Order)>)
    ensures |rows| <= |arrivals|
    decreases |arrivals|
  {
    if |arrivals| == 0 then []
    else
      var a := arrivals[0];
      (if a.found.Ok? && a.found.value.Some? then [(a.event.uniqId, a.found.value.value)] else []) + Found(arrivals[1..])
  }

  /** With no middlewares and only listed exchanges, the completed events add
      exactly their found orders, in arrival order, and the run ends early
      exactly when one raised. */
  lemma {:induction false} RunSavesFound(st: Store, arrivals: seq<Arrival>)
    requires forall i :: 0 <= i < |arrivals| ==> arrivals[i].event.exchange == OKEX || arrivals[i].event.exchange == BINANCE
    ensures var r := Run(st, [], arrivals);
            && r.handled <= |arrivals|
            && (r.exc.None? <==> r.handled == |arrivals|)
            && r.store.saved == st.saved + Found(arrivals[..r.handled])
    decreases |arrivals|
  {
    if |arrivals| > 0 {
      var a := arrivals[0];
      var s := Handle(st, [], a);
      var r := Run(st, [], arrivals);
      if s.outcome.Completed? {
        RunSavesFound(s.store, arrivals[1..]);
        FoundPrefix(arrivals, r.handled);
        HandleUnscreened(st, a);
      } else {
        assert arrivals[..r.handled] == [];
      }
    }
  }

  /** The rows of a non-empty prefix: those of its first event, then those
      of the rest. */
  lemma FoundPrefix(arrivals: seq<Arrival>, n: nat)
    requires 0 < n <= |arrivals|
    ensures Found(arrivals[..n]) == Found([arrivals[0]]) + Found(arrivals[1..][..n - 1])
  {
    var p := arrivals[..n];
    assert p[1..] == arrivals[1..][..n - 1];
  }

  /** One event with no middlewares and a listed exchange: a completed call
      saves the event's found order, if any. */
  lemma HandleUnscreened(st: Store, a: Arrival)
    requires a.event.exchange == OKEX || a.event.exchange == BINANCE
    ensures var s := Handle(st, [], a);
            s.outcome.Completed? ==> s.store.saved == st.saved + Found([a])
  {
    assert Screen([], a.event) == Ok(true);
    assert Found([a]) == (if a.found.Ok? && a.found.value.Some? then [(a.event.uniqId, a.found.value.value)] else []) + Found([]);
  }

  class OrderExecutor {
    /** `settings.EVENT_SOURCE_CONF.get(OrderEvent)`. */
    const eventSource: Option<Queue<OrderEvent>>
    var cachedHandler: map<ExchangeId, Option<Handler>>
    var middlewares: seq<OrderEvent -> Verdict>
    var saved: seq<(string, Order)>

    constructor (eventSource: Option<Queue<OrderEvent>>)
      ensures this.eventSource == eventSource
      ensures cachedHandler == map[] && middlewares == [] && saved == []
    {
      this.eventSource := eventSource;
      cachedHandler := map[];
      middlewares := [];
      saved := [];
    }

    function State(): Store
      reads this
    {
      Store(cachedHandler, saved)
    }

    /** `get_order_handler(exchange, credential)`. */
    method GetOrderHandler(exchange: ExchangeId, credential: Credential) returns (h: Option<Handler>)
      modifies this
      ensures h == Resolve(old(cachedHandler), exchange, Build(exchange, credential))
      ensures cachedHandler == old(cachedHandler)[exchange := h]
      ensures middlewares == old(middlewares) && saved == old(saved)
    {
      h := if exchange in cachedHandler then cachedHandler[exchange] else None;
      if h.None? {
        if exchange == OKEX {
          h := Some(OkexOrderHandler(credential));
        } else if exchange == BINANCE {
          h := Some(BinanceOrderHandler(credential));
        }
      }
      SetHandler(exchange, h);
    }

    /** `set_handler(exchange, handler)`. */
    method SetHandler(exchange: ExchangeId, handler: Option<Handler>)
      modifies this
      ensures cachedHandler == old(cachedHandler)[exchange := handler]
      ensures middlewares == old(middlewares) && saved == old(saved)
    {
      cachedHandler := cachedHandler[exchange := handler];
    }

    /** The `middleware.check(c)` loop. */
    method Permits(c: OrderEvent) returns (r: Result<bool>)
      ensures r == Screen(middlewares, c)
    {
      var i := 0;
      while i < |middlewares|
        invariant 0 <= i <= |middlewares|
        invariant Screen(middlewares, c) == Screen(middlewares[i..], c)
      {
        assert middlewares[i..][1..] == middlewares[i + 1..];
        var verdict := middlewares[i](c);
        if verdict.Bare? {
          return Err(TypeError);
        }
        if !verdict.allowed {
          return Ok(false);
        }
        i := i + 1;
      }
      r := Ok(true);
    }

    /** `on_order_event(order_event)`: create, then query, then save what was
        found. */
    method OnOrderEvent(a: Arrival) returns (r: Outcome)
      modifies this
      ensures Step(r, State()) == Handle(old(State()), middlewares, a)
      ensures middlewares == old(middlewares)
    {
      var permitted := Permits(a.event);
      if permitted.Err? {
        return Raised(permitted.exc);
      }
      if !permitted.value {
        return Completed;
      }
      var handler := GetOrderHandler(a.event.exchange, a.event.credential);
      if handler.None? {
        return Raised(AttributeError);
      }
      if a.created.Err? {
        return Raised(a.created.exc);
      }
      if a.found.Err? {
        return Raised(a.found.exc);
      }
      var rv := a.found.value;
      if rv.Some? {
        saved := saved + [(a.event.uniqId, rv.value)];
      }
      r := Completed;
    }

    /** The task `create_task` starts. */
    method Consume(arrivals: seq<Arrival>) returns (handled: nat, exc: Option<Exc>)
      modifies this
      ensures eventSource.None? ==> handled == 0 && exc == Some(AttributeError) && State() == old(State())
      ensures eventSource.Some? ==> Ran(handled, exc, State()) == Run(old(State()), middlewares, arrivals)
      ensures middlewares == old(middlewares)
    {
      if eventSource.None? {
        return 0, Some(AttributeError);
      }
      ghost var start := State();
      var i := 0;
      while i < |arrivals|
        invariant 0 <= i <= |arrivals|
        invariant middlewares == old(middlewares)
        invariant var rest := Run(State(), middlewares, arrivals[i..]);
                  Run(start, middlewares, arrivals) == Ran(rest.handled + i, rest.exc, rest.store)
      {
        assert arrivals[i..][1..] == arrivals[i + 1..];
        var outcome := OnOrderEvent(arrivals[i]);
        if outcome.Raised? {
          return i, Some(outcome.exc);
        }
        i := i + 1;
      }
      handled, exc := i, None;
    }
  }
}
