/** The strategy base of the mmm snapshot (mmm/strategy/core/base.py): a
    `StrategyMeta` that checks nothing, strategies known by an id, and the
    same one-list runner as the mmm/core snapshot's base. */
module MmmStrategyBase {
  import opened Types
  import opened Dicts
  import opened Tasks

  /** `__sub_event__` (an event class, by name) and `__timer_interval__` of a
      namespace entry, None when unset. */
  datatype Annotations = Annotations(subEvent: Option<string>, interval: Option<int>)

  datatype Registries = Registries(events: Dict<string, string>, timers: Dict<int, string>) {
    ghost predicate Valid() {
      events.Valid() && timers.Valid()
    }
  }

  /** One namespace entry: whatever is not None is recorded, replacing the
      method recorded before for that key. */
  function Visit(acc: Registries, methodName: string, a: Annotations): (r: Registries)
    requires acc.Valid()
    ensures r.Valid()
  {
    Registries(
      if a.subEvent.Some? then Put(acc.events, a.subEvent.value, methodName) else acc.events,
      if a.interval.Some? then Put(acc.timers, a.interval.value, methodName) else acc.timers)
  }

  /** The loop over the class namespace; it cannot fail. */
  function Collect(acc: Registries, entries: seq<(string, Annotations)>): (r: Registries)
    requires acc.Valid()
    ensures r.Valid()
    decreases |entries|
  {
    if |entries| == 0 then acc else Collect(Visit(acc, entries[0].0, entries[0].1), entries[1..])
  }

  predicate EventIn(entries: seq<(string, Annotations)>, e: string)
  {
    exists j :: 0 <= j < |entries| && entries[j].1.subEvent == Some(e)
  }

  predicate LastEventAt(entries: seq<(string, Annotations)>, j: int)
  {
    && 0 <= j < |entries| && entries[j].1.subEvent.Some?
    && forall k :: j < k < |entries| ==> entries[k].1.subEvent != entries[j].1.subEvent
  }

  predicate TimerIn(entries: seq<(string, Annotations)>, iv: int)
  {
    exists j :: 0 <= j < |entries| && entries[j].1.interval == Some(iv)
  }

  predicate LastTimerAt(entries: seq<(string, Annotations)>, j: int)
  {
    && 0 <= j < |entries| && entries[j].1.interval.Some?
    && forall k :: j < k < |entries| ==> entries[k].1.interval != entries[j].1.interval
  }

  /** The event registry holds every event subscribed to, and each maps to
      the method subscribing LAST: two handlers for one event are not
      rejected, the later wins. */
  lemma {:induction false} CollectEvents(acc: Registries, entries: seq<(string, Annotations)>)
    requires acc.Valid()
    ensures var r := Collect(acc, entries);
            && (forall e :: e in r.events.items <==> e in acc.events.items || EventIn(entries, e))
            && (forall e :: e in acc.events.items && !EventIn(entries, e) ==> r.events.items[e] == acc.events.items[e])
            && (forall j :: LastEventAt(entries, j) ==>
                  entries[j].1.subEvent.value in r.events.items && r.events.items[entries[j].1.subEvent.value] == entries[j].0)
    decreases |entries|
  {
    if |entries| > 0 {
      var a := entries[0].1;
      var rest := entries[1..];
      var v := Visit(acc, entries[0].0, a);
      CollectEvents(v, rest);
      var r := Collect(v, rest);
      assert Collect(acc, entries) == r;
      forall e ensures EventIn(entries, e) <==> a.subEvent == Some(e) || EventIn(rest, e) {
        EventInCons(entries, e);
      }
      forall j | LastEventAt(entries, j)
        ensures entries[j].1.subEvent.value in r.events.items && r.events.items[entries[j].1.subEvent.value] == entries[j].0
      {
        LastEventAtCons(entries, j);
      }
    }
  }

  /** The same for timers: every interval given is registered, the LAST
      method giving it wins. */
  lemma {:induction false} CollectTimers(acc: Registries, entries: seq<(string, Annotations)>)
    requires acc.Valid()
    ensures var r := Collect(acc, entries);
            && (forall iv :: iv in r.timers.items <==> iv in acc.timers.items || TimerIn(entries, iv))
            && (forall iv :: iv in acc.timers.items && !TimerIn(entries, iv) ==> r.timers.items[iv] == acc.timers.items[iv])
            && (forall j :: LastTimerAt(entries, j) ==>
                  entries[j].1.interval.value in r.timers.items && r.timers.items[entries[j].1.interval.value] == entries[j].0)
    decreases |entries|
  {
    if |entries| > 0 {
      var a := entries[0].1;
      var rest := entries[1..];
      var v := Visit(acc, entries[0].0, a);
      CollectTimers(v, rest);
      var r := Collect(v, rest);
      assert Collect(acc, entries) == r;
      forall iv ensures TimerIn(entries, iv) <==> a.interval == Some(iv) || TimerIn(rest, iv) {
        TimerInCons(entries, iv);
      }
      forall j | LastTimerAt(entries, j)
        ensures entries[j].1.interval.value in r.timers.items && r.timers.items[entries[j].1.interval.value] == entries[j].0
      {
        LastTimerAtCons(entries, j);
      }
    }
  }

  /** An event is given by the entries exactly when the first entry or
      one of the rest gives it. */
  lemma EventInCons(entries: seq<(string, Annotations)>, e: string)
    requires |entries| > 0
    ensures EventIn(entries, e) <==> entries[0].1.subEvent == Some(e) || EventIn(entries[1..], e)
  {
    if EventIn(entries[1..], e) {
      var j :| 0 <= j < |entries[1..]| && entries[1..][j].1.subEvent == Some(e);
      assert entries[j + 1] == entries[1..][j];
    }
    if EventIn(entries, e) && entries[0].1.subEvent != Some(e) {
      var j :| 0 <= j < |entries| && entries[j].1.subEvent == Some(e);
      assert entries[1..][j - 1] == entries[j];
    }
  }

  /** The last place giving an event is, past the first entry, the last
      such place of the rest; the first entry itself is last when the rest
      never gives its event. */
  lemma LastEventAtCons(entries: seq<(string, Annotations)>, j: int)
    requires LastEventAt(entries, j)
    ensures j == 0 ==> !EventIn(entries[1..], entries[0].1.subEvent.value)
    ensures j > 0 ==> entries[1..][j - 1] == entries[j] && LastEventAt(entries[1..], j - 1)
  {
    var rest := entries[1..];
    if j == 0 {
      forall k | 0 <= k < |rest| ensures rest[k].1.subEvent != entries[0].1.subEvent {
        assert rest[k] == entries[k + 1];
      }
    } else {
      forall k | j - 1 < k < |rest| ensures rest[k] == entries[k + 1] { }
    }
  }

  /** An interval is given by the entries exactly when the first entry or
      one of the rest gives it. */
  lemma TimerInCons(entries: seq<(string, Annotations)>, iv: int)
    requires |entries| > 0
    ensures TimerIn(entries, iv) <==> entries[0].1.interval == Some(iv) || TimerIn(entries[1..], iv)
  {
    if TimerIn(entries[1..], iv) {
      var j :| 0 <= j < |entries[1..]| && entries[1..][j].1.interval == Some(iv);
      assert entries[j + 1] == entries[1..][j];
    }
    if TimerIn(entries, iv) && entries[0].1.interval != Some(iv) {
      var j :| 0 <= j < |entries| && entries[j].1.interval == Some(iv);
      assert entries[1..][j - 1] == entries[j];
    }
  }

  /** The last place giving an interval is, past the first entry, the last
      such place of the rest; the first entry itself is last when the rest
      never gives its interval. */
  lemma LastTimerAtCons(entries: seq<(string, Annotations)>, j: int)
    requires LastTimerAt(entries, j)
    ensures j == 0 ==> !TimerIn(entries[1..], entries[0].1.interval.value)
    ensures j > 0 ==> entries[1..][j - 1] == entries[j] && LastTimerAt(entries[1..], j - 1)
  {
    var rest := entries[1..];
    if j == 0 {
      forall k | 0 <= k < |rest| ensures rest[k].1.interval != entries[0].1.interval {
        assert rest[k] == entries[k + 1];
      }
    } else {
      forall k | j - 1 < k < |rest| ensures rest[k] == entries[k + 1] { }
    }
  }

  /** A class made by `StrategyMeta`. */
  datatype StrategyClass = StrategyClass(moduleName: string, name: string, registries: Registries)

  /** `StrategyMeta.__new__(name, bases, body)`: never fails, and the
      registries come from the body alone. */
  method NewStrategyClass(moduleName: string, name: string, bases: seq<StrategyClass>, body: seq<(string, Annotations)>)
    returns (c: StrategyClass)
    ensures c == StrategyClass(moduleName, name, Collect(Registries(Empty(), Empty()), Items(Namespace(body))))
  {
    var entries := Items(Namespace(body));
    var acc := Registries(Empty(), Empty());
    ghost var goal := Collect(acc, entries);
    var i := 0;
    while i < |entries|
      invariant 0 <= i <= |entries| && acc.Valid()
      invariant goal == Collect(acc, entries[i..])
    {
      assert entries[i..][1..] == entries[i + 1..];
      var (methodName, a) := entries[i];
      var events, timers := acc.events, acc.timers;
      if a.subEvent.Some? {
        events := Put(events, a.subEvent.value, methodName);
      }
      if a.interval.Some? {
        timers := Put(timers, a.interval.value, methodName);
      }
      acc := Registries(events, timers);
      i := i + 1;
    }
    c := StrategyClass(moduleName, name, acc);
  }

  /** A strategy instance, known by the id it was made with. */
  class Strategy {
    const cls: StrategyClass
    const strategyId: string
    const credential: Credential

    constructor (cls: StrategyClass, uniqId: string, credential: Credential)
      ensures this.cls == cls && strategyId == uniqId && this.credential == credential
    {
      this.cls := cls;
      strategyId := uniqId;
      this.credential := credential;
    }

    /** `get_id()`. */
    function GetId(): string
    {
      strategyId
    }

    /** `repr(strategy)`: "strategy." followed by the id. */
    function Repr(): (r: string)
      ensures |r| == 9 + |strategyId| && r[..9] == "strategy." && r[9..] == strategyId
    {
      "strategy." + GetId()
    }
  }

  /** `repr` tells strategies apart exactly by their ids. */
  lemma ReprDeterminesId(a: Strategy, b: Strategy)
    ensures a.Repr() == b.Repr() <==> a.GetId() == b.GetId()
  {
    if a.Repr() == b.Repr() {
      assert a.GetId() == a.Repr()[9..];
      assert b.GetId() == b.Repr()[9..];
    }
  }

  /** `StrategyRunner(strategy)`: `tasks` is the task list and `kinds[i]`
      what `tasks[i]` runs; `monitors` holds the monitor tasks, which are
      created but not kept in the list. */
  class StrategyRunner {
    const strategy: Strategy
    var tasks: seq<Task>
    var kinds: seq<TaskKind>
    var monitors: seq<Task>

    ghost predicate Valid()
      reads this
    {
      |tasks| == |kinds|
    }

    constructor (strategy: Strategy)
      ensures Valid() && this.strategy == strategy && tasks == [] && kinds == [] && monitors == []
    {
      this.strategy := strategy;
      tasks := [];
      kinds := [];
      monitors := [];
    }

    /** `create_listening_tasks()`: one task per event registry entry, also
        for an event with no configured source (that is only logged). */
    method CreateListeningTasks()
      requires Valid()
      modifies this
      ensures Valid() && monitors == old(monitors)
      ensures kinds == old(kinds) + Waits(strategy.cls.registries.events.keys)
      ensures |tasks| == |old(tasks)| + |strategy.cls.registries.events.keys| && tasks[..|old(tasks)|] == old(tasks)
      ensures forall k :: |old(tasks)| <= k < |tasks| ==> fresh(tasks[k]) && !tasks[k].done
    {
      var events := strategy.cls.registries.events.keys;
      var i := 0;
      while i < |events|
        invariant 0 <= i <= |events| && Valid() && monitors == old(monitors)
        invariant kinds == old(kinds) + Waits(events[..i])
        invariant |tasks| == |old(tasks)| + i && tasks[..|old(tasks)|] == old(tasks)
        invariant forall k :: |old(tasks)| <= k < |tasks| ==> fresh(tasks[k]) && !tasks[k].done
      {
        var t := new Task();
        tasks := tasks + [t];
        kinds := kinds + [Wait(events[i])];
        assert Waits(events[..i + 1]) == Waits(events[..i]) + [Wait(events[i])];
        i := i + 1;
      }
      assert events[..i] == events;
    }

    /** `create_schedule_task()`: one task per timer registry entry. */
    method CreateScheduleTask()
      requires Valid()
      modifies this
      ensures Valid() && monitors == old(monitors)
      ensures kinds == old(kinds) + Timers(strategy.cls.registries.timers.keys)
      ensures |tasks| == |old(tasks)| + |strategy.cls.registries.timers.keys| && tasks[..|old(tasks)|] == old(tasks)
      ensures forall k :: |old(tasks)| <= k < |tasks| ==> fresh(tasks[k]) && !tasks[k].done
    {
      var intervals := strategy.cls.registries.timers.keys;
      var i := 0;
      while i < |intervals|
        invariant 0 <= i <= |intervals| && Valid() && monitors == old(monitors)
        invariant kinds == old(kinds) + Timers(intervals[..i])
        invariant |tasks| == |old(tasks)| + i && tasks[..|old(tasks)|] == old(tasks)
        invariant forall k :: |old(tasks)| <= k < |tasks| ==> fresh(tasks[k]) && !tasks[k].done
      {
        var t := new Task();
        tasks := tasks + [t];
        kinds := kinds + [Timer(intervals[i])];
        assert Timers(intervals[..i + 1]) == Timers(intervals[..i]) + [Timer(intervals[i])];
        i := i + 1;
      }
      assert intervals[..i] == intervals;
    }

    /** `create_monitor_task()`: the watchdog runs outside the list. */
    method CreateMonitorTask()
      modifies this
      ensures tasks == old(tasks) && kinds == old(kinds)
      ensures |monitors| == |old(monitors)| + 1 && monitors[..|old(monitors)|] == old(monitors)
      ensures fresh(monitors[|old(monitors)|]) && !monitors[|old(monitors)|].done
    {
      var t := new Task();
      monitors := monitors + [t];
    }

    /** `create_tasks()`: listening tasks before schedule tasks, then the
        monitor; the list grows by one task per event plus one per timer. */
    method CreateTasks()
      requires Valid()
      modifies this
      ensures Valid()
      ensures kinds == old(kinds) + Waits(strategy.cls.registries.events.keys) + Timers(strategy.cls.registries.timers.keys)
      ensures |tasks| == |old(tasks)| + |strategy.cls.registries.events.keys| + |strategy.cls.registries.timers.keys|
      ensures tasks[..|old(tasks)|] == old(tasks)
      ensures forall k :: |old(tasks)| <= k < |tasks| ==> fresh(tasks[k]) && !tasks[k].done
      ensures |monitors| == |old(monitors)| + 1
    {
      CreateListeningTasks();
      CreateScheduleTask();
      CreateMonitorTask();
    }
  }
}
