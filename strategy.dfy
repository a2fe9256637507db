/** Strategy registration in the mmm/core snapshot
    (mmm/core/strategy/strategy.py): registry objects that record which
    method handles which subscription and which timer interval, filled in
    by the `StrategyMeta` metaclass from a class body. A class reuses the
    registry objects of its first base, so every subclass of `Strategy`
    writes into the same two registries. */
module MmmCoreStrategy {
  import opened Types
  import opened Dicts
  import opened MmmCoreOkexSubscription

  /** A set `__subscription__` attribute: a subscription object, or any other
      truthy value that is not a `Subscription`; the latter is known by a tag
      and has no `equal_to`. */
  datatype SubValue = SubObject(ref: SubscriptionRef) | Foreign(tag: string)

  /** What class creation reads from one namespace entry: its
      `__subscription__` and `__timer_interval__`, None when unset. An
      interval is an int or a float, both modelled as a real. */
  datatype Annotations = Annotations(subscription: Option<SubValue>, interval: Option<real>)

  predicate NoForeign(keys: seq<SubValue>)
  {
    forall i :: 0 <= i < |keys| ==> keys[i].SubObject?
  }

  /** The loop of `exists` over the registered keys, from the first: a key
      that is not a subscription has no `equal_to` (AttributeError); the
      first key `equal_to` the subscription answers True. */
  function FirstEqual(keys: seq<SubValue>, s: Subscription): (r: Result<bool>)
    ensures NoForeign(keys) ==> r == Ok(exists i :: 0 <= i < |keys| && EqualTo(keys[i].ref.value, s))
    ensures r.Err? ==> r.exc == AttributeError && exists i :: 0 <= i < |keys| && keys[i].Foreign?
    decreases |keys|
  {
    if |keys| == 0 then Ok(false)
    else
      var rest := FirstEqual(keys[1..], s);
      assert forall i :: 1 <= i < |keys| ==> keys[i] == keys[1..][i - 1];
      match keys[0]
      case Foreign(_) => Err(AttributeError)
      case SubObject(k) => if EqualTo(k.value, s) then Ok(true) else rest
  }

  /** `SubRegistry.exists(obj)`: False for anything that is not a
      `Subscription`, before any key is looked at. */
  function ExistsIn(keys: seq<SubValue>, obj: SubValue): Result<bool>
  {
    if obj.Foreign? then Ok(false) else FirstEqual(keys, obj.ref.value)
  }

  /** `TimerRegistry.exists(interval)`: the loop returns at its first key, so
      only the first registered interval is compared. */
  function FirstKeyIs(keys: seq<real>, interval: real): bool
  {
    |keys| > 0 && keys[0] == interval
  }

  class SubRegistry {
    var registry: Dict<SubValue, string>

    ghost predicate Valid()
      reads this
    {
      registry.Valid()
    }

    constructor ()
      ensures Valid() && registry == Empty()
    {
      registry := Empty();
    }

    /** `exists(obj)`. */
    method Exists(obj: SubValue) returns (r: Result<bool>)
      ensures r == ExistsIn(registry.keys, obj)
    {
      if obj.Foreign? {
        return Ok(false);
      }
      var keys := registry.keys;
      var i := 0;
      while i < |keys|
        invariant 0 <= i <= |keys|
        invariant FirstEqual(keys, obj.ref.value) == FirstEqual(keys[i..], obj.ref.value)
      {
        assert keys[i..][1..] == keys[i + 1..];
        match keys[i]
        case Foreign(_) =>
          return Err(AttributeError);
        case SubObject(k) =>
          if EqualTo(k.value, obj.ref.value) {
            return Ok(true);
          }
        i := i + 1;
      }
      r := Ok(false);
    }

    /** `register(s, method_name)`: inserts, or overwrites the name for a key
        already there. */
    method Register(s: SubValue, methodName: string)
      requires Valid()
      modifies this
      ensures Valid() && registry == Put(old(registry), s, methodName)
    {
      registry := Put(registry, s, methodName);
    }
  }

  class TimerRegistry {
    var registry: Dict<real, string>

    ghost predicate Valid()
      reads this
    {
      registry.Valid()
    }

    constructor ()
      ensures Valid() && registry == Empty()
    {
      registry := Empty();
    }

    /** `exists(interval)`. */
    method Exists(interval: real) returns (b: bool)
      ensures b == FirstKeyIs(registry.keys, interval)
    {
      if |registry.keys| == 0 {
        return false;
      }
      b := registry.keys[0] == interval;
    }

    /** `register(interval, method_name)`. */
    method Register(interval: real, methodName: string)
      requires Valid()
      modifies this
      ensures Valid() && registry == Put(old(registry), interval, methodName)
    {
      registry := Put(registry, interval, methodName);
    }
  }

  /** Both registries' contents as class creation leaves them, and the
      exception that stopped it, if any. */
  datatype Registered = Registered(subs: Dict<SubValue, string>, timers: Dict<real, string>, failure: Option<Exc>)

  /** One namespace entry of `StrategyMeta.__new__`. A subscription already
      present fails: the message formats `subscription.__name__`, which a
      subscription instance lacks, so AttributeError is raised in place of
      the intended SubscriptionError. A falsy value (None, 0) is skipped. */
  function Visit(subs: Dict<SubValue, string>, timers: Dict<real, string>, methodName: string, a: Annotations): (r: Registered)
    requires subs.Valid() && timers.Valid()
    ensures r.subs.Valid() && r.timers.Valid()
  {
    var found := if a.subscription.Some? then ExistsIn(subs.keys, a.subscription.value) else Ok(false);
    if found.Err? then Registered(subs, timers, Some(found.exc))
    else if found.value then Registered(subs, timers, Some(AttributeError))
    else
      var subs' := if a.subscription.Some? then Put(subs, a.subscription.value, methodName) else subs;
      if a.interval.Some? && a.interval.value != 0.0 then
        if FirstKeyIs(timers.keys, a.interval.value) then Registered(subs', timers, Some(TimerError))
        else Registered(subs', Put(timers, a.interval.value, methodName), None)
      else Registered(subs', timers, None)
  }

  /** The loop over the class namespace: the first failure stops it, and
      what was registered before stays in the registries. */
  function Fold(subs: Dict<SubValue, string>, timers: Dict<real, string>, entries: seq<(string, Annotations)>): (r: Registered)
    requires subs.Valid() && timers.Valid()
    ensures r.subs.Valid() && r.timers.Valid()
    decreases |entries|
  {
    if |entries| == 0 then Registered(subs, timers, None)
    else
      var v := Visit(subs, timers, entries[0].0, entries[0].1);
      if v.failure.Some? then v else Fold(v.subs, v.timers, entries[1..])
  }

  /** The entries carrying a subscription object. */
  predicate SubObjectAt(entries: seq<(string, Annotations)>, i: int)
  {
    0 <= i < |entries| && entries[i].1.subscription.Some? && entries[i].1.subscription.value.SubObject?
  }

  /** A namespace entry that passes adds its subscription object, which is
      `equal_to` no key before it, at the end of the registry. */
  lemma VisitAppendsNew(subs: Dict<SubValue, string>, timers: Dict<real, string>, methodName: string, a: Annotations)
    requires subs.Valid() && timers.Valid() && NoForeign(subs.keys)
    requires a.subscription.Some? ==> a.subscription.value.SubObject?
    ensures var v := Visit(subs, timers, methodName, a);
            v.failure.None? ==>
              && NoForeign(v.subs.keys)
              && (a.subscription.None? ==> v.subs.keys == subs.keys)
              && (a.subscription.Some? ==>
                    && v.subs.keys == subs.keys + [a.subscription.value]
                    && forall k :: 0 <= k < |subs.keys| ==> !EqualTo(subs.keys[k].ref.value, a.subscription.value.ref.value))
  {
    var v := Visit(subs, timers, methodName, a);
    if v.failure.None? && a.subscription.Some? {
      var x := a.subscription.value;
      EqualToReflexive(x.ref.value);
    }
  }

  /** Among subscription objects (no other subscription values involved),
      class creation succeeds only if no subscribed object is `equal_to` one
      registered before, by this class or through the shared registry by any
      other. */
  lemma {:induction false} FoldRejectsRepeats(subs: Dict<SubValue, string>, timers: Dict<real, string>, entries: seq<(string, Annotations)>)
    requires subs.Valid() && timers.Valid() && NoForeign(subs.keys)
    requires forall i :: 0 <= i < |entries| && entries[i].1.subscription.Some? ==> entries[i].1.subscription.value.SubObject?
    ensures Fold(subs, timers, entries).failure.None? ==>
              && NoForeign(Fold(subs, timers, entries).subs.keys)
              && (forall i, k :: SubObjectAt(entries, i) && 0 <= k < |subs.keys| ==>
                    !EqualTo(subs.keys[k].ref.value, entries[i].1.subscription.value.ref.value))
              && (forall i, j :: 0 <= i < j && SubObjectAt(entries, i) && SubObjectAt(entries, j) ==>
                    !EqualTo(entries[i].1.subscription.value.ref.value, entries[j].1.subscription.value.ref.value))
    decreases |entries|
  {
    if |entries| > 0 {
      var a := entries[0].1;
      var v := Visit(subs, timers, entries[0].0, a);
      if v.failure.None? {
        VisitAppendsNew(subs, timers, entries[0].0, a);
        var rest := entries[1..];
        FoldRejectsRepeats(v.subs, v.timers, rest);
        assert Fold(subs, timers, entries) == Fold(v.subs, v.timers, rest);
        if Fold(v.subs, v.timers, rest).failure.None? {
          forall i | 1 <= i < |entries| ensures entries[i] == rest[i - 1] { }
          forall i, k | SubObjectAt(entries, i) && 0 <= k < |subs.keys|
            ensures !EqualTo(subs.keys[k].ref.value, entries[i].1.subscription.value.ref.value)
          {
            if i > 0 {
              assert SubObjectAt(rest, i - 1);
              assert v.subs.keys[k] == subs.keys[k];
            }
          }
          forall i, j | 0 <= i < j && SubObjectAt(entries, i) && SubObjectAt(entries, j)
            ensures !EqualTo(entries[i].1.subscription.value.ref.value, entries[j].1.subscription.value.ref.value)
          {
            assert SubObjectAt(rest, j - 1);
            if i == 0 {
              assert v.subs.keys[|subs.keys|] == a.subscription.value;
            } else {
              assert SubObjectAt(rest, i - 1);
            }
          }
        }
      }
    }
  }

  /** A zero interval is never registered. */
  lemma ZeroIntervalSkipped(methodName: string)
    ensures var f := Fold(Empty(), Empty(), [(methodName, Annotations(None, Some(0.0)))]);
            f.failure.None? && f.timers == Empty()
  {
    var entries := [(methodName, Annotations(None, Some(0.0)))];
    assert entries[1..] == [];
  }

  /** A repeat of the first registered interval fails with TimerError. */
  lemma FirstTimerRepeatRejected(m1: string, m2: string, a: real)
    requires a != 0.0
    ensures Fold(Empty(), Empty(), [(m1, Annotations(None, Some(a))), (m2, Annotations(None, Some(a)))]).failure == Some(TimerError)
  {
    var entries := [(m1, Annotations(None, Some(a))), (m2, Annotations(None, Some(a)))];
    var v := Visit(Empty(), Empty(), m1, entries[0].1);
    assert v.timers.keys == [a];
    assert entries[1..] == [entries[1]];
    assert entries[1..][1..] == [];
  }

  /** A repeat of a later interval is not detected: its new method silently
      replaces the earlier one. */
  lemma LaterTimerRepeatOverwrites(m1: string, m2: string, m3: string, a: real, b: real)
    requires a != b && a != 0.0 && b != 0.0
    ensures var f := Fold(Empty(), Empty(), [(m1, Annotations(None, Some(a))), (m2, Annotations(None, Some(b))), (m3, Annotations(None, Some(b)))]);
            f.failure.None? && f.timers.keys == [a, b] && f.timers.items[b] == m3
  {
    var entries := [(m1, Annotations(None, Some(a))), (m2, Annotations(None, Some(b))), (m3, Annotations(None, Some(b)))];
    var v1 := Visit(Empty(), Empty(), m1, entries[0].1);
    assert v1.timers.keys == [a];
    var v2 := Visit(v1.subs, v1.timers, m2, entries[1].1);
    assert v2.timers.keys == [a, b];
    var v3 := Visit(v2.subs, v2.timers, m3, entries[2].1);
    assert v3.timers.keys == [a, b] && v3.timers.items[b] == m3;
    assert entries[1..][0] == entries[1] && entries[1..][1..] == [entries[2]] && entries[1..][1..][1..] == [];
    assert Fold(v2.subs, v2.timers, entries[1..][1..]) == Fold(v3.subs, v3.timers, []);
  }

  lemma EqualToReflexive(s: Subscription)
    ensures EqualTo(s, s)
  {
  }

  /** `f"{module}.{name}"`, as `get_strategy_name` formats it: the module,
      a dot, then the class name. */
  function StrategyName(moduleName: string, name: string): (r: string)
    ensures |r| == |moduleName| + 1 + |name|
    ensures r[..|moduleName|] == moduleName && r[|moduleName|] == '.' && r[|moduleName| + 1..] == name
  {
    moduleName + "." + name
  }

  /** Two classes of one module have the same strategy name exactly when
      they have the same name. */
  lemma StrategyNamesDistinguishClasses(moduleName: string, a: string, b: string)
    ensures StrategyName(moduleName, a) == StrategyName(moduleName, b) <==> a == b
  {
    var x, y := StrategyName(moduleName, a), StrategyName(moduleName, b);
    if x == y {
      assert a == x[|moduleName| + 1..] == y[|moduleName| + 1..] == b;
    }
  }

  /** A class made by `StrategyMeta`: the metaclass always sets both registry
      attributes, so they are never None on such a class. */
  class StrategyClass {
    const moduleName: string
    const name: string
    const subRegistry: SubRegistry
    const timerRegistry: TimerRegistry

    constructor (moduleName: string, name: string, subRegistry: SubRegistry, timerRegistry: TimerRegistry)
      ensures this.moduleName == moduleName && this.name == name
      ensures this.subRegistry == subRegistry && this.timerRegistry == timerRegistry
    {
      this.moduleName := moduleName;
      this.name := name;
      this.subRegistry := subRegistry;
      this.timerRegistry := timerRegistry;
    }

    /** `get_strategy_name()`: the class's module, a dot, then its name. */
    function GetStrategyName(): (r: string)
      ensures |r| == |moduleName| + 1 + |name|
      ensures r[..|moduleName|] == moduleName && r[|moduleName|] == '.' && r[|moduleName| + 1..] == name
    {
      StrategyName(moduleName, name)
    }

    /** `get_subscriptions()`: the registry is always set, so these are its
        keys in registration order. */
    method GetSubscriptions() returns (r: seq<SubValue>)
      ensures r == subRegistry.registry.keys
    {
      r := subRegistry.registry.keys;
    }
  }

  /** An entry of a class statement's bases: a class made by `StrategyMeta`,
      or another class, which lacks the registry attributes. */
  datatype Base = StrategyBase(cls: StrategyClass) | PlainBase(name: string)

  /** One turn of the loop of `StrategyMeta.__new__`, on the registries in
      place: what it leaves in them and the exception it raises are `Visit`'s. */
  method VisitEntry(subs: SubRegistry, timers: TimerRegistry, methodName: string, a: Annotations)
    returns (failure: Option<Exc>)
    requires subs.Valid() && timers.Valid()
    modifies subs, timers
    ensures subs.Valid() && timers.Valid()
    ensures var v := Visit(old(subs.registry), old(timers.registry), methodName, a);
            subs.registry == v.subs && timers.registry == v.timers && failure == v.failure
  {
    if a.subscription.Some? {
      var found := subs.Exists(a.subscription.value);
      if found.Err? {
        return Some(found.exc);
      }
      if found.value {
        return Some(AttributeError);
      }
      subs.Register(a.subscription.value, methodName);
    }
    if a.interval.Some? && a.interval.value != 0.0 {
      var repeated := timers.Exists(a.interval.value);
      if repeated {
        return Some(TimerError);
      }
      timers.Register(a.interval.value, methodName);
    }
    failure := None;
  }

  /** The loop of `StrategyMeta.__new__` over the namespace entries, on the
      registries in place: it ends as `Fold` says. */
  method VisitAll(subs: SubRegistry, timers: TimerRegistry, entries: seq<(string, Annotations)>)
    returns (failure: Option<Exc>)
    requires subs.Valid() && timers.Valid()
    modifies subs, timers
    ensures subs.Valid() && timers.Valid()
    ensures var f := Fold(old(subs.registry), old(timers.registry), entries);
            subs.registry == f.subs && timers.registry == f.timers && failure == f.failure
  {
    var i := 0;
    while i < |entries|
      invariant 0 <= i <= |entries|
      invariant subs.Valid() && timers.Valid()
      invariant Fold(old(subs.registry), old(timers.registry), entries) == Fold(subs.registry, timers.registry, entries[i..])
    {
      assert entries[i..][1..] == entries[i + 1..];
      failure := VisitEntry(subs, timers, entries[i].0, entries[i].1);
      if failure.Some? {
        return;
      }
      i := i + 1;
    }
    failure := None;
  }

  /** `StrategyMeta.__new__(name, bases, body)`. `__get_registry_from_base__`
      returns at the first base: its registry, which is never falsy, or
      AttributeError when it has none. */
  method NewStrategyClass(moduleName: string, name: string, bases: seq<Base>, body: seq<(string, Annotations)>)
    returns (r: Result<StrategyClass>)
    requires |bases| > 0 && bases[0].StrategyBase? ==>
               bases[0].cls.subRegistry.Valid() && bases[0].cls.timerRegistry.Valid()
    modifies if |bases| > 0 && bases[0].StrategyBase? then {bases[0].cls.subRegistry, bases[0].cls.timerRegistry} else {}
    ensures |bases| > 0 && bases[0].PlainBase? ==> r == Err(AttributeError)
    ensures |bases| > 0 && bases[0].StrategyBase? ==>
              var base := bases[0].cls;
              var f := Fold(old(base.subRegistry.registry), old(base.timerRegistry.registry), Items(Namespace(body)));
              && base.subRegistry.registry == f.subs && base.timerRegistry.registry == f.timers
              && (r.Ok? <==> f.failure.None?) && (r.Err? ==> r.exc == f.failure.value)
              && (r.Ok? ==> r.value.subRegistry == base.subRegistry && r.value.timerRegistry == base.timerRegistry)
    ensures |bases| == 0 ==>
              var f := Fold(Empty(), Empty(), Items(Namespace(body)));
              && (r.Ok? <==> f.failure.None?) && (r.Err? ==> r.exc == f.failure.value)
              && (r.Ok? ==> fresh(r.value.subRegistry) && fresh(r.value.timerRegistry)
                            && r.value.subRegistry.registry == f.subs && r.value.timerRegistry.registry == f.timers)
    ensures r.Ok? ==> fresh(r.value) && r.value.moduleName == moduleName && r.value.name == name
    ensures r.Ok? ==> r.value.subRegistry.Valid() && r.value.timerRegistry.Valid()
  {
    var subs: SubRegistry;
    var timers: TimerRegistry;
    if |bases| > 0 {
      if bases[0].PlainBase? {
        return Err(AttributeError);
      }
      subs, timers := bases[0].cls.subRegistry, bases[0].cls.timerRegistry;
    } else {
      subs := new SubRegistry();
      timers := new TimerRegistry();
    }
    var failure := VisitAll(subs, timers, Items(Namespace(body)));
    if failure.Some? {
      return Err(failure.value);
    }
    var cls := new StrategyClass(moduleName, name, subs, timers);
    r := Ok(cls);
  }
}
