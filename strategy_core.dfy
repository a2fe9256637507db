/** Strategy classes and their runner in mmm/core/strategy/core.py: a
    metaclass that builds per-class event and timer registries from the class
    body alone, a registry of each bot's tasks, and a runner that creates,
    starts and stops those tasks. */
module MmmCoreStrategyCore {
  import opened Types
  import opened Dicts
  import opened Tasks
  import MmmCoreStrategy

  /** An event class, known by its name. Python keys by the class object, so
      two same-named classes from different modules are one key here only. */
  type EventType = string

  /** What `StrategyMeta` reads from one namespace entry: `__sub_event__` and
      `__timer_interval__`, None when unset. */
  datatype Annotations = Annotations(subEvent: Option<EventType>, interval: Option<int>)

  /** `__event_registry__` (event class to method name) and
      `__timer_registry__` (interval to method name). */
  datatype Registries = Registries(events: Dict<EventType, string>, timers: Dict<int, string>) {
    ghost predicate Valid() {
      events.Valid() && timers.Valid()
    }
  }

  function NoRegistries(): (r: Registries)
    ensures r.Valid() && r.events.keys == [] && r.timers.keys == []
  {
    Registries(Empty(), Empty())
  }

  /** One namespace entry. An event already registered raises RuntimeError
      before anything is recorded; None is never a key, so entries without an
      event pass. Any interval that is not None is recorded, replacing an
      earlier method for it. */
  function Visit(acc: Registries, methodName: string, a: Annotations): (r: Result<Registries>)
    requires acc.Valid()
    ensures r.Ok? ==> r.value.Valid()
  {
    if a.subEvent.Some? && a.subEvent.value in acc.events.items then Err(RuntimeError)
    else
      Ok(Registries(
        if a.subEvent.Some? then Put(acc.events, a.subEvent.value, methodName) else acc.events,
        if a.interval.Some? then Put(acc.timers, a.interval.value, methodName) else acc.timers))
  }

  /** The loop over the class namespace, stopping at the first failure. */
  function Collect(acc: Registries, entries: seq<(string, Annotations)>): (r: Result<Registries>)
    requires acc.Valid()
    ensures r.Ok? ==> r.value.Valid()
    ensures r.Err? ==> r.exc == RuntimeError
    decreases |entries|
  {
    if |entries| == 0 then Ok(acc)
    else
      var v := Visit(acc, entries[0].0, entries[0].1);
      if v.Err? then v else Collect(v.value, entries[1..])
  }

  /** The events the entries subscribe to, in order. */
  function EventsOf(entries: seq<(string, Annotations)>): seq<EventType>
    decreases |entries|
  {
    if |entries| == 0 then []
    else (if entries[0].1.subEvent.Some? then [entries[0].1.subEvent.value] else []) + EventsOf(entries[1..])
  }

  predicate EventAt(entries: seq<(string, Annotations)>, i: int)
  {
    0 <= i < |entries| && entries[i].1.subEvent.Some?
  }

  /** Class creation succeeds exactly when no event is subscribed twice. */
  lemma {:induction false} CollectFailsOnRepeat(acc: Registries, entries: seq<(string, Annotations)>)
    requires acc.Valid()
    ensures Collect(acc, entries).Ok? <==> NoRepeat(acc.events.keys + EventsOf(entries))
    decreases |entries|
  {
    if |entries| == 0 {
      assert acc.events.keys + EventsOf(entries) == acc.events.keys;
    } else {
      var a := entries[0].1;
      var keys := acc.events.keys;
      if a.subEvent.Some? && a.subEvent.value in acc.events.items {
        var x := a.subEvent.value;
        assert x in keys;
        var k :| 0 <= k < |keys| && keys[k] == x;
        var all := keys + EventsOf(entries);
        assert all[|keys|] == x && all[k] == x;
      } else {
        var v := Visit(acc, entries[0].0, a).value;
        CollectFailsOnRepeat(v, entries[1..]);
        EventsStep(acc, entries);
      }
    }
  }

  /** A successful first entry moves its event, if any, from the entries to
      the registry. */
  lemma EventsStep(acc: Registries, entries: seq<(string, Annotations)>)
    requires acc.Valid() && |entries| > 0 && Visit(acc, entries[0].0, entries[0].1).Ok?
    ensures acc.events.keys + EventsOf(entries) ==
              Visit(acc, entries[0].0, entries[0].1).value.events.keys + EventsOf(entries[1..])
  {
    var a := entries[0].1;
    var head := if a.subEvent.Some? then [a.subEvent.value] else [];
    assert EventsOf(entries) == head + EventsOf(entries[1..]);
    assert Visit(acc, entries[0].0, a).value.events.keys == acc.events.keys + head;
    ConcatAssoc(acc.events.keys, head, EventsOf(entries[1..]));
  }

  /** On success the event registry lists the events in body order, keeps
      what it held, and maps each event to the one method subscribing to it. */
  lemma {:induction false} CollectEvents(acc: Registries, entries: seq<(string, Annotations)>)
    requires acc.Valid()
    ensures Collect(acc, entries).Ok? ==>
              var r := Collect(acc, entries).value;
              && r.events.keys == acc.events.keys + EventsOf(entries)
              && (forall k :: k in acc.events.items ==> k in r.events.items && r.events.items[k] == acc.events.items[k])
              && (forall i :: EventAt(entries, i) ==>
                    entries[i].1.subEvent.value in r.events.items && r.events.items[entries[i].1.subEvent.value] == entries[i].0)
    decreases |entries|
  {
    if |entries| > 0 {
      var a := entries[0].1;
      var rest := entries[1..];
      var step := Visit(acc, entries[0].0, a);
      if step.Ok? {
        var v := step.value;
        CollectEvents(v, rest);
        EventsStep(acc, entries);
        if Collect(v, rest).Ok? {
          var r := Collect(v, rest).value;
          forall i | EventAt(entries, i)
            ensures entries[i].1.subEvent.value in r.events.items && r.events.items[entries[i].1.subEvent.value] == entries[i].0
          {
            if i > 0 {
              assert entries[i] == rest[i - 1];
              assert EventAt(rest, i - 1);
            }
          }
        }
      }
    }
  }

  predicate LastTimerAt(entries: seq<(string, Annotations)>, j: int)
  {
    && 0 <= j < |entries| && entries[j].1.interval.Some?
    && forall k :: j < k < |entries| ==> entries[k].1.interval != entries[j].1.interval
  }

  predicate TimerIn(entries: seq<(string, Annotations)>, iv: int)
  {
    exists j :: 0 <= j < |entries| && entries[j].1.interval == Some(iv)
  }

  /** On success the timer registry holds every interval given, zero
      included, besides what it held. */
  lemma {:induction false} CollectTimerKeys(acc: Registries, entries: seq<(string, Annotations)>)
    requires acc.Valid()
    ensures Collect(acc, entries).Ok? ==>
              forall iv :: iv in Collect(acc, entries).value.timers.items <==> iv in acc.timers.items || TimerIn(entries, iv)
    decreases |entries|
  {
    if |entries| > 0 {
      var rest := entries[1..];
      var step := Visit(acc, entries[0].0, entries[0].1);
      if step.Ok? && Collect(step.value, rest).Ok? {
        var v := step.value;
        CollectTimerKeys(v, rest);
        forall iv ensures TimerIn(entries, iv) <==> entries[0].1.interval == Some(iv) || TimerIn(rest, iv) {
          if TimerIn(rest, iv) {
            var j :| 0 <= j < |rest| && rest[j].1.interval == Some(iv);
            assert entries[j + 1] == rest[j];
          }
          if TimerIn(entries, iv) && entries[0].1.interval != Some(iv) {
            var j :| 0 <= j < |entries| && entries[j].1.interval == Some(iv);
            assert rest[j - 1] == entries[j];
          }
        }
      }
    }
  }

  /** On success each interval maps to the LAST method giving it: a repeated
      interval is never rejected; an interval no entry gives keeps its method. */
  lemma {:induction false} CollectTimerMethods(acc: Registries, entries: seq<(string, Annotations)>)
    requires acc.Valid()
    ensures Collect(acc, entries).Ok? ==>
              var r := Collect(acc, entries).value;
              && (forall iv :: iv in acc.timers.items && !TimerIn(entries, iv) ==>
                    iv in r.timers.items && r.timers.items[iv] == acc.timers.items[iv])
              && (forall j :: LastTimerAt(entries, j) ==>
                    entries[j].1.interval.value in r.timers.items && r.timers.items[entries[j].1.interval.value] == entries[j].0)
    decreases |entries|
  {
    if |entries| > 0 {
      var a := entries[0].1;
      var rest := entries[1..];
      var step := Visit(acc, entries[0].0, a);
      if step.Ok? && Collect(step.value, rest).Ok? {
        var v := step.value;
        CollectTimerMethods(v, rest);
        var r := Collect(v, rest).value;
        assert Collect(acc, entries) == Collect(v, rest);
        forall iv | iv in acc.timers.items && !TimerIn(entries, iv)
          ensures iv in r.timers.items && r.timers.items[iv] == acc.timers.items[iv]
        {
          assert entries[0].1.interval != Some(iv);
          forall j | 0 <= j < |rest| ensures rest[j].1.interval != Some(iv) {
            assert rest[j] == entries[j + 1];
          }
          assert !TimerIn(rest, iv);
          assert iv in v.timers.items && v.timers.items[iv] == acc.timers.items[iv];
        }
        forall j | LastTimerAt(entries, j)
          ensures entries[j].1.interval.value in r.timers.items && r.timers.items[entries[j].1.interval.value] == entries[j].0
        {
          if j == 0 {
            forall k | 0 <= k < |rest| ensures rest[k].1.interval != a.interval {
              assert rest[k] == entries[k + 1];
            }
            assert !TimerIn(rest, a.interval.value);
            assert v.timers.items[a.interval.value] == entries[0].0;
          } else {
            forall k | j - 1 < k < |rest| ensures rest[k] == entries[k + 1] { }
            assert rest[j - 1] == entries[j];
            assert LastTimerAt(rest, j - 1);
          }
        }
      }
    }
  }

  /** A class made by `StrategyMeta`. Its registries are fixed once made. */
  datatype StrategyClass = StrategyClass(moduleName: string, name: string, registries: Registries)

  /** One turn of the loop of `StrategyMeta.__new__`: it does what `Visit`
      says. */
  method VisitEntry(acc: Registries, methodName: string, a: Annotations) returns (r: Result<Registries>)
    requires acc.Valid()
    ensures r == Visit(acc, methodName, a)
  {
    var events, timers := acc.events, acc.timers;
    if a.subEvent.Some? && a.subEvent.value in events.items {
      return Err(RuntimeError);
    }
    if a.subEvent.Some? {
      events := Put(events, a.subEvent.value, methodName);
    }
    if a.interval.Some? {
      timers := Put(timers, a.interval.value, methodName);
    }
    r := Ok(Registries(events, timers));
  }

  /** `StrategyMeta.__new__(name, bases, body)`: the registries come from the
      body alone; the bases are not read. */
  method NewStrategyClass(moduleName: string, name: string, bases: seq<StrategyClass>, body: seq<(string, Annotations)>)
    returns (r: Result<StrategyClass>)
    ensures var c := Collect(NoRegistries(), Items(Namespace(body)));
            r == if c.Ok? then Ok(StrategyClass(moduleName, name, c.value)) else Err(c.exc)
  {
    var entries := Items(Namespace(body));
    var acc := NoRegistries();
    ghost var goal := Collect(acc, entries);
    var i := 0;
    while i < |entries|
      invariant 0 <= i <= |entries| && acc.Valid()
      invariant goal == Collect(acc, entries[i..])
    {
      assert entries[i..][1..] == entries[i + 1..];
      var v := VisitEntry(acc, entries[i].0, entries[i].1);
      if v.Err? {
        return Err(v.exc);
      }
      acc := v.value;
      i := i + 1;
    }
    r := Ok(StrategyClass(moduleName, name, acc));
  }

  /** A strategy instance: its class, its bot id and credential. */
  datatype StrategyBot = StrategyBot(cls: StrategyClass, botId: string, credential: Credential)

  /** `strategy_name`: `get_strategy_name()` of the instance's class. */
  function StrategyNameOf(s: StrategyBot): string
  {
    MmmCoreStrategy.StrategyName(s.cls.moduleName, s.cls.name)
  }

  /** A value of the `defaultdict(dict)`: `{}` as inserted by a lookup of an
      unknown id, or the two lists `add_task` stores. */
  datatype Entry = Blank | Entry(schedule: seq<Task>, consuming: seq<Task>)

  /** `get_tasks(bot_id, 'all')` on an entry: a missing list counts as []. */
  function AllTasks(e: Entry): seq<Task>
  {
    if e.Blank? then [] else e.schedule + e.consuming
  }

  /** `entry.get(task_type)`. */
  function TasksOfType(e: Entry, taskType: string): Option<seq<Task>>
  {
    if e.Blank? then None
    else if taskType == "schedule_task" then Some(e.schedule)
    else if taskType == "event_consuming_task" then Some(e.consuming)
    else None
  }

  /** The dict after `self._data[bot_id]`: an unknown id gets a `{}` entry. */
  function Touched(d: Dict<string, Entry>, botId: string): (r: Dict<string, Entry>)
    requires d.Valid()
    ensures r.Valid() && botId in r.items
    ensures botId in d.items ==> r == d
    ensures botId !in d.items ==> r.keys == d.keys + [botId] && r.items == d.items[botId := Blank]
  {
    if botId in d.items then d else Put(d, botId, Blank)
  }

  class StrategyTaskRegistry {
    var data: Dict<string, Entry>

    ghost predicate Valid()
      reads this
    {
      data.Valid()
    }

    constructor ()
      ensures Valid() && data == Empty()
    {
      data := Empty();
    }

    /** `add_task`: the entry for the id is replaced whether or not it exists
        (a warning is logged either way). */
    method AddTask(botId: string, schedule: seq<Task>, consuming: seq<Task>)
      requires Valid()
      modifies this
      ensures Valid() && data == Put(old(data), botId, Entry(schedule, consuming))
    {
      data := Put(data, botId, Entry(schedule, consuming));
    }

    /** `exists(bot_id)`. */
    predicate Exists(botId: string)
      reads this
    {
      botId in data.items
    }

    /** `get_tasks(bot_id, task_type)`: 'all' gives the schedule tasks followed
        by the event-consuming tasks; any other type the list stored under
        that name, or None. The lookup inserts an empty entry for an unknown
        id. */
    method GetTasks(botId: string, taskType: string) returns (r: Option<seq<Task>>)
      requires Valid()
      modifies this
      ensures Valid() && data == Touched(old(data), botId)
      ensures botId !in old(data.items) ==> r == if taskType == "all" then Some([]) else None
      ensures botId in old(data.items) ==>
                r == if taskType == "all" then Some(AllTasks(data.items[botId])) else TasksOfType(data.items[botId], taskType)
    {
      data := Touched(data, botId);
      var e := data.items[botId];
      if taskType == "all" {
        r := Some(AllTasks(e));
      } else {
        r := TasksOfType(e, taskType);
      }
    }

    /** `get_all_tasks()`: every id with all its tasks, in insertion order. */
    method GetAllTasks() returns (r: Dict<string, seq<Task>>)
      requires Valid()
      ensures r.Valid() && r.keys == data.keys
      ensures forall k :: k in r.items ==> r.items[k] == AllTasks(data.items[k])
    {
      r := Empty();
      var i := 0;
      while i < |data.keys|
        invariant 0 <= i <= |data.keys|
        invariant r.Valid() && r.keys == data.keys[..i]
        invariant forall k :: k in r.items ==> r.items[k] == AllTasks(data.items[k])
      {
        var k := data.keys[i];
        KeyNotBefore(data, i);
        r := Put(r, k, AllTasks(data.items[k]));
        assert data.keys[..i + 1] == data.keys[..i] + [k];
        i := i + 1;
      }
      assert data.keys[..i] == data.keys;
    }
  }

  /** The bot ids of the strategies, in order. */
  function BotIds(strategies: seq<StrategyBot>): (r: seq<string>)
    ensures |r| == |strategies| && forall i :: 0 <= i < |r| ==> r[i] == strategies[i].botId
  {
    seq(|strategies|, i requires 0 <= i < |strategies| => strategies[i].botId)
  }

  /** The strategy names of the strategies, in order. */
  function Names(strategies: seq<StrategyBot>): (r: seq<string>)
    ensures |r| == |strategies| && forall i :: 0 <= i < |r| ==> r[i] == StrategyNameOf(strategies[i])
  {
    seq(|strategies|, i requires 0 <= i < |strategies| => StrategyNameOf(strategies[i]))
  }

  /** The ids whose name is `name`, in order. */
  function IdsNamed(names: seq<string>, ids: seq<string>, name: string): seq<string>
    requires |names| == |ids|
    decreases |names|
  {
    if |names| == 0 then []
    else
      var k := |names| - 1;
      IdsNamed(names[..k], ids[..k], name) + (if names[k] == name then [ids[k]] else [])
  }

  /** `conf[name].append(id)` on a `defaultdict(list)`. */
  function Appended(conf: Dict<string, seq<string>>, name: string, id: string): (r: Dict<string, seq<string>>)
    requires conf.Valid()
    ensures r.Valid()
  {
    Put(conf, name, (if name in conf.items then conf.items[name] else []) + [id])
  }

  /** `strategy_bot_conf` after appending each id under its name, in order. */
  function Grouped(names: seq<string>, ids: seq<string>): (d: Dict<string, seq<string>>)
    requires |names| == |ids|
    ensures d.Valid()
    decreases |names|
  {
    if |names| == 0 then Empty()
    else
      var k := |names| - 1;
      Appended(Grouped(names[..k], ids[..k]), names[k], ids[k])
  }

  /** `strategy_bot_conf` maps exactly the names in use, each to the bot ids
      of its strategies in input order. */
  lemma {:induction false} GroupedByName(names: seq<string>, ids: seq<string>, n: string)
    requires |names| == |ids|
    ensures n in Grouped(names, ids).items <==> n in names
    ensures n in Grouped(names, ids).items ==> Grouped(names, ids).items[n] == IdsNamed(names, ids, n)
    ensures n !in Grouped(names, ids).items ==> IdsNamed(names, ids, n) == []
    decreases |names|
  {
    if |names| > 0 {
      var k := |names| - 1;
      GroupedByName(names[..k], ids[..k], n);
      assert Grouped(names, ids) == Appended(Grouped(names[..k], ids[..k]), names[k], ids[k]);
      assert IdsNamed(names, ids, n) == IdsNamed(names[..k], ids[..k], n) + (if names[k] == n then [ids[k]] else []);
      InInitOrLast(names, n);
    }
  }

  /** An element of a non-empty sequence is in all but its last place, or in
      that place. */
  lemma InInitOrLast<T>(s: seq<T>, x: T)
    requires |s| > 0
    ensures x in s <==> x in s[..|s| - 1] || x == s[|s| - 1]
  {
    if x in s[..|s| - 1] {
      var j :| 0 <= j < |s| - 1 && s[..|s| - 1][j] == x;
      assert s[j] == x;
    }
  }

  /** The entry `StrategyRunner` stores for a strategy: one schedule task
      per timer and one consuming task per event of its class. */
  predicate Holds(e: Entry, s: StrategyBot)
  {
    && e.Entry?
    && |e.schedule| == |s.cls.registries.timers.keys|
    && |e.consuming| == |s.cls.registries.events.keys|
  }

  /** `n` fresh tasks that have not run. */
  method NewTasks(n: nat) returns (ts: seq<Task>)
    ensures |ts| == n
    ensures forall k :: 0 <= k < n ==> fresh(ts[k]) && !ts[k].done && !ts[k].cancelRequested
  {
    ts := [];
    while |ts| < n
      invariant |ts| <= n
      invariant forall k :: 0 <= k < |ts| ==> fresh(ts[k]) && !ts[k].done && !ts[k].cancelRequested
    {
      var t := new Task();
      ts := ts + [t];
    }
  }

  class StrategyRunner {
    var strategyBotConf: Dict<string, seq<string>>
    const taskRegistry: StrategyTaskRegistry

    ghost predicate Valid()
      reads this, taskRegistry
    {
      strategyBotConf.Valid() && taskRegistry.Valid()
    }

    constructor ()
      ensures Valid() && fresh(taskRegistry)
      ensures strategyBotConf == Empty() && taskRegistry.data == Empty()
    {
      strategyBotConf := Empty();
      taskRegistry := new StrategyTaskRegistry();
    }

    /** `create_schedule_task(strategy)`: one task per timer registry entry. */
    method CreateScheduleTask(s: StrategyBot) returns (ts: seq<Task>)
      ensures |ts| == |s.cls.registries.timers.keys|
      ensures forall k :: 0 <= k < |ts| ==> fresh(ts[k]) && !ts[k].done && !ts[k].cancelRequested
    {
      ts := NewTasks(|s.cls.registries.timers.keys|);
    }

    /** `create_event_consuming_tasks(strategy)`: one task per event registry
        entry, also for an event without a configured source (that is only
        logged). */
    method CreateEventConsumingTasks(s: StrategyBot) returns (ts: seq<Task>)
      ensures |ts| == |s.cls.registries.events.keys|
      ensures forall k :: 0 <= k < |ts| ==> fresh(ts[k]) && !ts[k].done && !ts[k].cancelRequested
    {
      ts := NewTasks(|s.cls.registries.events.keys|);
    }

    /** One iteration of the constructor's loop: the bot id is appended under
        the strategy name first; a known id is refused (the constructor then
        raises), anything else gets fresh tasks. */
    method Admit(s: StrategyBot) returns (admitted: bool)
      requires Valid()
      modifies this, taskRegistry
      ensures Valid() && strategyBotConf == Appended(old(strategyBotConf), StrategyNameOf(s), s.botId)
      ensures admitted <==> s.botId !in old(taskRegistry.data.items)
      ensures !admitted ==> taskRegistry.data == old(taskRegistry.data)
      ensures admitted ==>
                && taskRegistry.data.keys == old(taskRegistry.data.keys) + [s.botId]
                && (forall k :: k in old(taskRegistry.data.items) ==> taskRegistry.data.items[k] == old(taskRegistry.data.items[k]))
                && Holds(taskRegistry.data.items[s.botId], s)
                && forall n :: 0 <= n < |AllTasks(taskRegistry.data.items[s.botId])| ==>
                     fresh(AllTasks(taskRegistry.data.items[s.botId])[n]) && !AllTasks(taskRegistry.data.items[s.botId])[n].done
    {
      strategyBotConf := Appended(strategyBotConf, StrategyNameOf(s), s.botId);
      if taskRegistry.Exists(s.botId) {
        return false;
      }
      AddTasks(s);
      admitted := true;
    }

    /** The rest of an iteration for an id not known yet: the schedule and
        event-consuming tasks are created and stored under the id. */
    method AddTasks(s: StrategyBot)
      requires Valid() && s.botId !in taskRegistry.data.items
      modifies taskRegistry
      ensures Valid()
      ensures taskRegistry.data.keys == old(taskRegistry.data.keys) + [s.botId]
      ensures forall k :: k in old(taskRegistry.data.items) ==> taskRegistry.data.items[k] == old(taskRegistry.data.items[k])
      ensures Holds(taskRegistry.data.items[s.botId], s)
      ensures forall n :: 0 <= n < |AllTasks(taskRegistry.data.items[s.botId])| ==>
                fresh(AllTasks(taskRegistry.data.items[s.botId])[n]) && !AllTasks(taskRegistry.data.items[s.botId])[n].done
    {
      ghost var before := taskRegistry.data;
      var schedule := CreateScheduleTask(s);
      var consuming := CreateEventConsumingTasks(s);
      taskRegistry.AddTask(s.botId, schedule, consuming);
      ghost var all := schedule + consuming;
      assert AllTasks(taskRegistry.data.items[s.botId]) == all;
      forall n | 0 <= n < |all| ensures fresh(all[n]) && !all[n].done {
        if n < |schedule| {
          assert all[n] == schedule[n];
        } else {
          assert all[n] == consuming[n - |schedule|];
        }
      }
    }

    /** The tasks of a bot the registry knows, as a set. */
    function TaskSet(botId: string): set<Task>
      reads this, taskRegistry
    {
      if botId in taskRegistry.data.items then set t | t in AllTasks(taskRegistry.data.items[botId]) else {}
    }

    /** `start_strategy(bot_id)`: starts only a known bot all of whose tasks
        are done; otherwise it logs and does nothing. The gathering task it
        starts is not modelled. */
    method StartStrategy(botId: string) returns (started: bool)
      requires Valid()
      modifies taskRegistry
      ensures Valid() && taskRegistry.data == old(taskRegistry.data)
      ensures started <==> botId in taskRegistry.data.items &&
                           forall k :: 0 <= k < |AllTasks(taskRegistry.data.items[botId])| ==> AllTasks(taskRegistry.data.items[botId])[k].done
    {
      if !taskRegistry.Exists(botId) {
        return false;
      }
      var tasks := taskRegistry.GetTasks(botId, "all");
      var ts := tasks.value;
      var i := 0;
      while i < |ts|
        invariant 0 <= i <= |ts|
        invariant forall k :: 0 <= k < i ==> ts[k].done
      {
        if !ts[i].done {
          return false;
        }
        i := i + 1;
      }
      started := true;
    }

    /** `stop_bot(bot_id)`: cancels every task of the bot. The lookup inserts
        an empty entry for an unknown id, which `exists` then reports. */
    method StopBot(botId: string)
      requires Valid()
      modifies taskRegistry, TaskSet(botId)
      ensures Valid() && taskRegistry.data == Touched(old(taskRegistry.data), botId)
      ensures forall t :: t in old(TaskSet(botId)) ==>
                t.done == old(t.done) && t.cancelRequested == (old(t.cancelRequested) || !old(t.done))
    {
      ghost var targets := TaskSet(botId);
      var tasks := taskRegistry.GetTasks(botId, "all");
      var ts := tasks.value;
      assert forall t :: t in ts ==> t in targets;
      var i := 0;
      while i < |ts|
        invariant 0 <= i <= |ts|
        invariant taskRegistry.data == Touched(old(taskRegistry.data), botId)
        invariant forall t :: t in targets ==>
                    t.done == old(t.done) && t.cancelRequested == (old(t.cancelRequested) || (!old(t.done) && t in ts[..i]))
      {
        var accepted := ts[i].Cancel();
        assert ts[..i + 1] == ts[..i] + [ts[i]];
        i := i + 1;
      }
      assert ts[..i] == ts;
    }

    /** One control event of the monitor: 'stop' stops that bot, 'stopall'
        calls `stop_all`, which does nothing, and any other command is
        ignored. */
    method OnControl(command: string, botId: string)
      requires Valid()
      modifies taskRegistry, TaskSet(botId)
      ensures Valid()
      ensures command == "stop" ==>
                && taskRegistry.data == Touched(old(taskRegistry.data), botId)
                && forall t :: t in old(TaskSet(botId)) ==>
                     t.done == old(t.done) && t.cancelRequested == (old(t.cancelRequested) || !old(t.done))
      ensures command != "stop" ==>
                && taskRegistry.data == old(taskRegistry.data)
                && forall t :: t in old(TaskSet(botId)) ==> t.done == old(t.done) && t.cancelRequested == old(t.cancelRequested)
    {
      if command == "stop" {
        StopBot(botId);
      }
    }
  }

  lemma PrefixStep(strategies: seq<StrategyBot>, i: nat)
    requires i < |strategies|
    ensures Grouped(Names(strategies)[..i + 1], BotIds(strategies)[..i + 1]) ==
              Appended(Grouped(Names(strategies)[..i], BotIds(strategies)[..i]), StrategyNameOf(strategies[i]), strategies[i].botId)
    ensures BotIds(strategies)[..i + 1] == BotIds(strategies)[..i] + [strategies[i].botId]
  {
    GroupedSnoc(Names(strategies), BotIds(strategies), i);
    SliceSnoc(BotIds(strategies), i);
  }

  /** Grouping one more pair appends that pair. */
  lemma GroupedSnoc(names: seq<string>, ids: seq<string>, i: nat)
    requires |names| == |ids| && i < |names|
    ensures Grouped(names[..i + 1], ids[..i + 1]) == Appended(Grouped(names[..i], ids[..i]), names[i], ids[i])
  {
    assert names[..i + 1][..i] == names[..i];
    assert ids[..i + 1][..i] == ids[..i];
  }

  /** A prefix one longer is the prefix and one more element. */
  lemma SliceSnoc<T>(s: seq<T>, i: nat)
    requires i < |s|
    ensures s[..i + 1] == s[..i] + [s[i]]
  {
  }

  /** An id already among the first `i` is a repeat. */
  lemma RepeatedId(strategies: seq<StrategyBot>, i: nat)
    requires i < |strategies| && strategies[i].botId in BotIds(strategies)[..i]
    ensures !NoRepeat(BotIds(strategies))
  {
    var keys := BotIds(strategies)[..i];
    var j :| 0 <= j < i && keys[j] == strategies[i].botId;
    assert BotIds(strategies)[j] == BotIds(strategies)[i];
  }

  /** Turn `i` of the constructor's loop, with what it means for the whole
      of `strategies`: a refused id is a repeat, an admitted one extends
      the runner's state from the first `i` strategies to the first `i + 1`. */
  method AdmitAt(runner: StrategyRunner, strategies: seq<StrategyBot>, i: nat) returns (admitted: bool)
    requires i < |strategies| && runner.Valid()
    requires runner.strategyBotConf == Grouped(Names(strategies)[..i], BotIds(strategies)[..i])
    requires runner.taskRegistry.data.keys == BotIds(strategies)[..i]
    requires forall j :: 0 <= j < i ==> Holds(runner.taskRegistry.data.items[strategies[j].botId], strategies[j])
    modifies runner, runner.taskRegistry
    ensures runner.Valid()
    ensures !admitted ==> !NoRepeat(BotIds(strategies))
    ensures admitted ==>
              && runner.strategyBotConf == Grouped(Names(strategies)[..i + 1], BotIds(strategies)[..i + 1])
              && runner.taskRegistry.data.keys == BotIds(strategies)[..i + 1]
              && forall j :: 0 <= j < i + 1 ==> Holds(runner.taskRegistry.data.items[strategies[j].botId], strategies[j])
  {
    var s := strategies[i];
    ghost var before := runner.taskRegistry.data;
    admitted := runner.Admit(s);
    if !admitted {
      RepeatedId(strategies, i);
      return;
    }
    PrefixStep(strategies, i);
    HoldsExtended(before, runner.taskRegistry.data, strategies, i);
  }

  /** Entries kept unchanged for the first `i` strategies and a stored entry
      for strategy `i` make an entry for each of the first `i + 1`. */
  lemma HoldsExtended(before: Dict<string, Entry>, after: Dict<string, Entry>, strategies: seq<StrategyBot>, i: nat)
    requires i < |strategies| && before.Valid() && before.keys == BotIds(strategies)[..i]
    requires forall j :: 0 <= j < i ==> Holds(before.items[strategies[j].botId], strategies[j])
    requires forall k :: k in before.items ==> k in after.items && after.items[k] == before.items[k]
    requires strategies[i].botId in after.items && Holds(after.items[strategies[i].botId], strategies[i])
    ensures forall j :: 0 <= j < i + 1 ==> Holds(after.items[strategies[j].botId], strategies[j])
  {
    forall j | 0 <= j < i
      ensures Holds(after.items[strategies[j].botId], strategies[j])
    {
      assert before.keys[j] == strategies[j].botId;
      assert strategies[j].botId in before.items;
    }
  }

  /** `StrategyRunner(strategies)`: each bot id is appended under its
      strategy name, then a repeated id raises RuntimeError; otherwise the
      bot's schedule and event-consuming tasks are created and stored. */
  method NewStrategyRunner(strategies: seq<StrategyBot>) returns (r: Result<StrategyRunner>)
    ensures r.Ok? <==> NoRepeat(BotIds(strategies))
    ensures r.Err? ==> r.exc == RuntimeError
    ensures r.Ok? ==>
              var data := r.value.taskRegistry.data;
              && r.value.Valid() && fresh(r.value) && fresh(r.value.taskRegistry)
              && r.value.strategyBotConf == Grouped(Names(strategies), BotIds(strategies))
              && data.keys == BotIds(strategies)
              && forall i :: 0 <= i < |strategies| ==> Holds(data.items[strategies[i].botId], strategies[i])
  {
    var runner := new StrategyRunner();
    var i := 0;
    while i < |strategies|
      invariant 0 <= i <= |strategies|
      invariant runner.Valid() && fresh(runner) && fresh(runner.taskRegistry)
      invariant runner.strategyBotConf == Grouped(Names(strategies)[..i], BotIds(strategies)[..i])
      invariant runner.taskRegistry.data.keys == BotIds(strategies)[..i]
      invariant forall j :: 0 <= j < i ==> Holds(runner.taskRegistry.data.items[strategies[j].botId], strategies[j])
    {
      var admitted := AdmitAt(runner, strategies, i);
      if !admitted {
        return Err(RuntimeError);
      }
      i := i + 1;
    }
    assert Names(strategies)[..i] == Names(strategies);
    assert BotIds(strategies)[..i] == BotIds(strategies);
    r := Ok(runner);
  }
}
