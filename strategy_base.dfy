/** The strategy base of mmm/core/strategy/core/base.py. Its `StrategyMeta`
    is the same text as that of mmm/core/strategy/core.py and is modelled
    once, by `MmmCoreStrategyCore.NewStrategyClass`. What is particular here
    is the strategy's order submission and a runner that keeps one list of
    tasks for one strategy. */
module MmmCoreStrategyBase {
  import opened Types
  import opened Dicts
  import opened Tasks
  import opened MmmCoreEvents
  import MmmCoreStrategy
  import C = MmmCoreStrategyCore

  /** `DefaultOrderManager`: order events go to the event source configured
      for `OrderEvent`. */
  class OrderManager {
    const eventSource: Queue<OrderEvent>

    constructor (eventSource: Queue<OrderEvent>)
      ensures this.eventSource == eventSource
    {
      this.eventSource := eventSource;
    }

    /** `create_order(order_event)`: `put_nowait` into the event source. */
    method CreateOrder(e: OrderEvent) returns (o: Outcome)
      modifies eventSource
      ensures o == if old(eventSource.Full()) then Raised(QueueFull) else Completed
      ensures eventSource.items == if old(eventSource.Full()) then old(eventSource.items) else old(eventSource.items) + [e]
    {
      o := eventSource.PutNowait(e);
    }
  }

  /** `DefaultOrderManager()`: without a source configured for `OrderEvent`
      construction raises RuntimeError. */
  method NewDefaultOrderManager(configured: Option<Queue<OrderEvent>>) returns (r: Result<OrderManager>)
    ensures configured.None? <==> r.Err?
    ensures r.Err? ==> r.exc == RuntimeError
    ensures r.Ok? ==> fresh(r.value) && r.value.eventSource == configured.value
  {
    if configured.None? {
      return Err(RuntimeError);
    }
    var m := new OrderManager(configured.value);
    r := Ok(m);
  }

  /** A strategy instance. */
  class Strategy {
    const cls: C.StrategyClass
    const botId: string
    const credential: Credential
    const orderManager: OrderManager

    constructor (cls: C.StrategyClass, botId: string, credential: Credential, orderManager: OrderManager)
      ensures this.cls == cls && this.botId == botId && this.credential == credential
      ensures this.orderManager == orderManager
    {
      this.cls := cls;
      this.botId := botId;
      this.credential := credential;
      this.orderManager := orderManager;
    }

    /** `get_strategy_name()`: a classmethod, so an instance gives its
        class's module, a dot, then its class's name. */
    function GetStrategyName(): (r: string)
      ensures |r| == |cls.moduleName| + 1 + |cls.name|
      ensures r[..|cls.moduleName|] == cls.moduleName && r[|cls.moduleName|] == '.'
      ensures r[|cls.moduleName| + 1..] == cls.name
    {
      MmmCoreStrategy.StrategyName(cls.moduleName, cls.name)
    }

    /** `create_order(uniq_id, exchange, params)`: exactly one order event,
        carrying the strategy's name, bot id and credential with the given
        id, exchange and params, is handed to the order manager. */
    method CreateOrder(uniqId: string, exchange: ExchangeId, params: Json) returns (o: Outcome)
      modifies orderManager.eventSource
      ensures var e := NewOrderEvent(uniqId, GetStrategyName(), botId, exchange, credential, params);
              && o == (if old(orderManager.eventSource.Full()) then Raised(QueueFull) else Completed)
              && orderManager.eventSource.items ==
                   if old(orderManager.eventSource.Full()) then old(orderManager.eventSource.items)
                   else old(orderManager.eventSource.items) + [e]
    {
      var e := NewOrderEvent(uniqId, GetStrategyName(), botId, exchange, credential, params);
      o := orderManager.CreateOrder(e);
    }
  }

  /** `Strategy(bot_id, credential, order_manager=None)`: a falsy order
      manager is replaced by a `DefaultOrderManager`, which can fail. */
  method NewStrategy(cls: C.StrategyClass, botId: string, credential: Credential,
                     orderManager: Option<OrderManager>, configured: Option<Queue<OrderEvent>>)
    returns (r: Result<Strategy>)
    ensures orderManager.Some? ==> r.Ok? && r.value.orderManager == orderManager.value
    ensures orderManager.None? ==> (r.Ok? <==> configured.Some?)
    ensures orderManager.None? && r.Ok? ==> r.value.orderManager.eventSource == configured.value
    ensures r.Err? ==> r.exc == RuntimeError
    ensures r.Ok? ==> fresh(r.value) && r.value.cls == cls && r.value.botId == botId && r.value.credential == credential
  {
    var m: OrderManager;
    if orderManager.Some? {
      m := orderManager.value;
    } else {
      var d := NewDefaultOrderManager(configured);
      if d.Err? {
        return Err(d.exc);
      }
      m := d.value;
    }
    var s := new Strategy(cls, botId, credential, m);
    r := Ok(s);
  }

  /** `StrategyRunner(strategy)`: `tasks` is the task list and `kinds[i]`
      what `tasks[i]` runs; `monitors` holds the monitor tasks, which are
      created but not kept in the list. */
  class StrategyRunner {
    const strategy: Strategy
    var tasks: seq<Task>
    var kinds: seq<TaskKind>
    var monitors: seq<Task>

    ghost predicate Valid()
      reads this
    {
      |tasks| == |kinds|
    }

    constructor (strategy: Strategy)
      ensures Valid() && this.strategy == strategy && tasks == [] && kinds == [] && monitors == []
    {
      this.strategy := strategy;
      tasks := [];
      kinds := [];
      monitors := [];
    }

    /** `create_listening_tasks()`: one task per event registry entry, in
        registry order, even for an event with no configured source (that is
        only logged). */
    method CreateListeningTasks()
      requires Valid()
      modifies this
      ensures Valid() && monitors == old(monitors)
      ensures kinds == old(kinds) + Waits(strategy.cls.registries.events.keys)
      ensures |tasks| == |old(tasks)| + |strategy.cls.registries.events.keys| && tasks[..|old(tasks)|] == old(tasks)
      ensures forall k :: |old(tasks)| <= k < |tasks| ==> fresh(tasks[k]) && !tasks[k].done
    {
      var events := strategy.cls.registries.events.keys;
      var i := 0;
      while i < |events|
        invariant 0 <= i <= |events| && Valid() && monitors == old(monitors)
        invariant kinds == old(kinds) + Waits(events[..i])
        invariant |tasks| == |old(tasks)| + i && tasks[..|old(tasks)|] == old(tasks)
        invariant forall k :: |old(tasks)| <= k < |tasks| ==> fresh(tasks[k]) && !tasks[k].done
      {
        var t := new Task();
        tasks := tasks + [t];
        kinds := kinds + [Wait(events[i])];
        assert Waits(events[..i + 1]) == Waits(events[..i]) + [Wait(events[i])];
        i := i + 1;
      }
      assert events[..i] == events;
    }

    /** `create_schedule_task()`: one task per timer registry entry, in
        registry order. */
    method CreateScheduleTask()
      requires Valid()
      modifies this
      ensures Valid() && monitors == old(monitors)
      ensures kinds == old(kinds) + Timers(strategy.cls.registries.timers.keys)
      ensures |tasks| == |old(tasks)| + |strategy.cls.registries.timers.keys| && tasks[..|old(tasks)|] == old(tasks)
      ensures forall k :: |old(tasks)| <= k < |tasks| ==> fresh(tasks[k]) && !tasks[k].done
    {
      var intervals := strategy.cls.registries.timers.keys;
      var i := 0;
      while i < |intervals|
        invariant 0 <= i <= |intervals| && Valid() && monitors == old(monitors)
        invariant kinds == old(kinds) + Timers(intervals[..i])
        invariant |tasks| == |old(tasks)| + i && tasks[..|old(tasks)|] == old(tasks)
        invariant forall k :: |old(tasks)| <= k < |tasks| ==> fresh(tasks[k]) && !tasks[k].done
      {
        var t := new Task();
        tasks := tasks + [t];
        kinds := kinds + [Timer(intervals[i])];
        assert Timers(intervals[..i + 1]) == Timers(intervals[..i]) + [Timer(intervals[i])];
        i := i + 1;
      }
      assert intervals[..i] == intervals;
    }

    /** `create_monitor_task()`: the watchdog over `tasks` runs as a task of
        its own, outside the list. */
    method CreateMonitorTask()
      modifies this
      ensures tasks == old(tasks) && kinds == old(kinds)
      ensures |monitors| == |old(monitors)| + 1 && monitors[..|old(monitors)|] == old(monitors)
      ensures fresh(monitors[|old(monitors)|]) && !monitors[|old(monitors)|].done
    {
      var t := new Task();
      monitors := monitors + [t];
    }

    /** `create_tasks()`: listening tasks first, then timers, then the
        monitor; the list grows by one task per event plus one per timer. */
    method CreateTasks()
      requires Valid()
      modifies this
      ensures Valid()
      ensures kinds == old(kinds) + Waits(strategy.cls.registries.events.keys) + Timers(strategy.cls.registries.timers.keys)
      ensures |tasks| == |old(tasks)| + |strategy.cls.registries.events.keys| + |strategy.cls.registries.timers.keys|
      ensures tasks[..|old(tasks)|] == old(tasks)
      ensures forall k :: |old(tasks)| <= k < |tasks| ==> fresh(tasks[k]) && !tasks[k].done
      ensures |monitors| == |old(monitors)| + 1
    {
      CreateListeningTasks();
      CreateScheduleTask();
      CreateMonitorTask();
    }
  }
}
