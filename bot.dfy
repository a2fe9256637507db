/** Bot bookkeeping of mmm/core/strategy/bot.py: the registry of bots, the
    command table `HandlerMetaclass` builds for a handler class, and the
    handler's map from bot id to the task running that bot. */
module MmmCoreBot {
  import opened Types
  import opened Dicts
  import opened Tasks
  import opened EventData
  import opened MmmCoreEvents

  /** `BotStatus`: Created = 0, Running = 1, Stopped = 2. */
  datatype BotStatus = Created | Running | Stopped

  /** `Bot(strategy)`: known by its strategy's bot id. The jobs it gathers
      are not modelled. */
  class Bot {
    const botId: string
    const strategyName: string

    constructor (botId: string, strategyName: string)
      ensures this.botId == botId && this.strategyName == strategyName
    {
      this.botId := botId;
      this.strategyName := strategyName;
    }
  }

  /** Every bot is filed under its own id. */
  ghost predicate KeyedById(d: Dict<string, Bot>)
  {
    forall k :: k in d.items ==> d.items[k].botId == k
  }

  /** `add_bot` for each bot in turn. */
  function AddAll(d: Dict<string, Bot>, bots: seq<Bot>): (r: Dict<string, Bot>)
    requires d.Valid()
    ensures r.Valid()
    ensures KeyedById(d) ==> KeyedById(r)
    decreases |bots|
  {
    if |bots| == 0 then d else AddAll(Put(d, bots[0].botId, bots[0]), bots[1..])
  }

  predicate IdIn(bots: seq<Bot>, id: string)
  {
    exists j :: 0 <= j < |bots| && bots[j].botId == id
  }

  /** No later bot carries the id of `bots[j]`. */
  predicate LastWithId(bots: seq<Bot>, j: int)
  {
    0 <= j < |bots| && forall k :: j < k < |bots| ==> bots[k].botId != bots[j].botId
  }

  /** Adding bots keeps one bot per id and never rejects one: every id
      added is present, and it maps to the LAST bot added with it. */
  lemma {:induction false} AddAllLastWins(d: Dict<string, Bot>, bots: seq<Bot>)
    requires d.Valid()
    ensures var r := AddAll(d, bots);
            && (forall id :: id in r.items <==> id in d.items || IdIn(bots, id))
            && (forall id :: id in d.items && !IdIn(bots, id) ==> r.items[id] == d.items[id])
            && (forall j :: LastWithId(bots, j) ==> bots[j].botId in r.items && r.items[bots[j].botId] == bots[j])
    decreases |bots|
  {
    if |bots| > 0 {
      var b := bots[0];
      var rest := bots[1..];
      var v := Put(d, b.botId, b);
      AddAllLastWins(v, rest);
      var r := AddAll(v, rest);
      assert AddAll(d, bots) == r;
      IdInCons(bots);
      forall j | LastWithId(bots, j)
        ensures bots[j].botId in r.items && r.items[bots[j].botId] == bots[j]
      {
        LastWithIdCons(bots, j);
      }
    }
  }

  /** An id is among the bots when it is the first bot's or among the rest. */
  lemma IdInCons(bots: seq<Bot>)
    requires |bots| > 0
    ensures forall id :: IdIn(bots, id) <==> bots[0].botId == id || IdIn(bots[1..], id)
  {
    forall id ensures IdIn(bots, id) <==> bots[0].botId == id || IdIn(bots[1..], id) {
      if IdIn(bots[1..], id) {
        var j :| 0 <= j < |bots[1..]| && bots[1..][j].botId == id;
        assert bots[j + 1] == bots[1..][j];
      }
      if IdIn(bots, id) && bots[0].botId != id {
        var j :| 0 <= j < |bots| && bots[j].botId == id;
        assert bots[1..][j - 1] == bots[j];
      }
    }
  }

  /** The last bot with its id is, past the first bot, the last one of the
      rest; the first bot is the last with its id when no other has it. */
  lemma LastWithIdCons(bots: seq<Bot>, j: int)
    requires LastWithId(bots, j)
    ensures j == 0 ==> !IdIn(bots[1..], bots[0].botId)
    ensures j > 0 ==> LastWithId(bots[1..], j - 1) && bots[1..][j - 1] == bots[j]
  {
    var rest := bots[1..];
    if j == 0 {
      forall k | 0 <= k < |rest| ensures rest[k].botId != bots[0].botId {
        assert rest[k] == bots[k + 1];
      }
    } else {
      forall k | j - 1 < k < |rest| ensures rest[k] == bots[k + 1] { }
    }
  }

  /** `BotRegistry(bots)`. */
  class BotRegistry {
    var registry: Dict<string, Bot>

    ghost predicate Valid()
      reads this
    {
      registry.Valid() && KeyedById(registry)
    }

    constructor (bots: seq<Bot>)
      ensures Valid() && registry == AddAll(Empty(), bots)
    {
      registry := Empty();
      new;
      var i := 0;
      while i < |bots|
        invariant 0 <= i <= |bots| && Valid()
        invariant AddAll(registry, bots[i..]) == AddAll(Empty(), bots)
      {
        assert bots[i..][1..] == bots[i + 1..];
        AddBot(bots[i]);
        i := i + 1;
      }
    }

    /** `add_bot(bot)`: files the bot under its id, replacing any bot there. */
    method AddBot(bot: Bot)
      requires Valid()
      modifies this
      ensures Valid() && registry == Put(old(registry), bot.botId, bot)
    {
      registry := Put(registry, bot.botId, bot);
    }

    /** `get_bot(bot_id)`: None for an id not registered (None included). */
    function GetBot(botId: Option<string>): (r: Option<Bot>)
      requires Valid()
      reads this
      ensures r.Some? <==> botId.Some? && Exists(botId.value)
      ensures r.Some? ==> r.value == registry.items[botId.value] && r.value.botId == botId.value
    {
      if botId.Some? && botId.value in registry.items then Some(registry.items[botId.value]) else None
    }

    /** `get_all_bot()`: the bots in registration order, one per id. */
    function GetAllBot(): (r: seq<Bot>)
      requires Valid()
      reads this
      ensures |r| == |registry.keys|
      ensures forall i :: 0 <= i < |r| ==> r[i] == registry.items[registry.keys[i]] && r[i].botId == registry.keys[i]
      ensures forall i, j :: 0 <= i < j < |r| ==> r[i].botId != r[j].botId
    {
      Values(registry)
    }

    /** `exists(bot_id)`. */
    predicate Exists(botId: string)
      reads this
    {
      botId in registry.items
    }
  }

  /** A registry built from a list of bots answers, for each id in the list,
      the last bot given with it, and nothing for other ids. */
  lemma RegistryOfBots(bots: seq<Bot>, r: BotRegistry)
    requires r.Valid() && r.registry == AddAll(Empty(), bots)
    ensures forall id :: r.GetBot(Some(id)).Some? <==> IdIn(bots, id)
    ensures forall j :: LastWithId(bots, j) ==> r.GetBot(Some(bots[j].botId)) == Some(bots[j])
  {
    AddAllLastWins(Empty(), bots);
  }

  /** The four decorated coroutine functions of `BotControlEventHandler`;
      `StopBot` is the first of the two named `stop_bot`. */
  datatype Handler = StartAllBot | StartBot | StopBot | StopAllBots

  /** A value of a class namespace, with its `__command__` if it has one. */
  datatype Def = Plain | Decorated(command: Command, handler: Handler)

  /** The commands of the entries, in order. */
  function Commands(entries: seq<(string, Def)>): seq<Command>
    decreases |entries|
  {
    if |entries| == 0 then []
    else (if entries[0].1.Decorated? then [entries[0].1.command] else []) + Commands(entries[1..])
  }

  predicate CommandAt(entries: seq<(string, Def)>, i: int)
  {
    0 <= i < |entries| && entries[i].1.Decorated?
  }

  /** The loop of `HandlerMetaclass.__new__`: entries without a command are
      skipped; a command seen before raises HandlerRegisterError. */
  function CommandTable(acc: Dict<Command, Handler>, entries: seq<(string, Def)>): (r: Result<Dict<Command, Handler>>)
    requires acc.Valid()
    ensures r.Ok? ==> r.value.Valid()
    ensures r.Err? ==> r.exc == HandlerRegisterError
    decreases |entries|
  {
    if |entries| == 0 then Ok(acc)
    else
      match entries[0].1
      case Plain => CommandTable(acc, entries[1..])
      case Decorated(c, h) =>
        if c in acc.items then Err(HandlerRegisterError) else CommandTable(Put(acc, c, h), entries[1..])
  }

  /** One step over an entry without a command. */
  lemma PlainStep(acc: Dict<Command, Handler>, entries: seq<(string, Def)>)
    requires acc.Valid() && |entries| > 0 && entries[0].1.Plain?
    ensures CommandTable(acc, entries) == CommandTable(acc, entries[1..])
    ensures Commands(entries) == Commands(entries[1..])
  {
  }

  /** One step over an entry whose command is already in the table. */
  lemma RepeatStep(acc: Dict<Command, Handler>, entries: seq<(string, Def)>)
    requires acc.Valid() && |entries| > 0 && entries[0].1.Decorated? && entries[0].1.command in acc.items
    ensures CommandTable(acc, entries).Err?
    ensures !NoRepeat(acc.keys + Commands(entries))
  {
    var c := entries[0].1.command;
    var k :| 0 <= k < |acc.keys| && acc.keys[k] == c;
    assert Commands(entries) == [c] + Commands(entries[1..]);
    var all := acc.keys + Commands(entries);
    assert all[|acc.keys|] == c && all[k] == c;
  }

  /** One step over an entry with a new command: the table grows by it. */
  lemma NewStep(acc: Dict<Command, Handler>, entries: seq<(string, Def)>)
    requires acc.Valid() && |entries| > 0 && entries[0].1.Decorated? && entries[0].1.command !in acc.items
    ensures CommandTable(acc, entries) == CommandTable(Put(acc, entries[0].1.command, entries[0].1.handler), entries[1..])
  {
  }

  /** An entry with a command puts it in front of the later ones. */
  lemma CommandsOfDecorated(a: seq<Command>, entries: seq<(string, Def)>)
    requires |entries| > 0 && entries[0].1.Decorated?
    ensures a + Commands(entries) == (a + [entries[0].1.command]) + Commands(entries[1..])
  {
    var c := entries[0].1.command;
    var rest := Commands(entries[1..]);
    assert Commands(entries) == [c] + rest;
    assert a + ([c] + rest) == (a + [c]) + rest;
  }

  /** Building the table succeeds exactly when no command occurs twice. */
  lemma {:induction false} CommandTableFailsOnRepeat(acc: Dict<Command, Handler>, entries: seq<(string, Def)>)
    requires acc.Valid()
    ensures CommandTable(acc, entries).Ok? <==> NoRepeat(acc.keys + Commands(entries))
    decreases |entries|
  {
    if |entries| == 0 {
      assert acc.keys + Commands(entries) == acc.keys;
    } else {
      var d := entries[0].1;
      if d.Plain? {
        PlainStep(acc, entries);
        CommandTableFailsOnRepeat(acc, entries[1..]);
      } else if d.command in acc.items {
        RepeatStep(acc, entries);
      } else {
        NewStep(acc, entries);
        CommandsOfDecorated(acc.keys, entries);
        CommandTableFailsOnRepeat(Put(acc, d.command, d.handler), entries[1..]);
      }
    }
  }

  /** On success the table lists the commands in body order. */
  lemma {:induction false} CommandTableKeys(acc: Dict<Command, Handler>, entries: seq<(string, Def)>)
    requires acc.Valid()
    ensures CommandTable(acc, entries).Ok? ==> CommandTable(acc, entries).value.keys == acc.keys + Commands(entries)
    decreases |entries|
  {
    if |entries| == 0 {
      assert acc.keys + Commands(entries) == acc.keys;
    } else {
      var d := entries[0].1;
      if d.Plain? {
        PlainStep(acc, entries);
        CommandTableKeys(acc, entries[1..]);
      } else if d.command !in acc.items {
        NewStep(acc, entries);
        CommandsOfDecorated(acc.keys, entries);
        CommandTableKeys(Put(acc, d.command, d.handler), entries[1..]);
      } else {
        RepeatStep(acc, entries);
      }
    }
  }

  /** On success the table keeps what it held and maps each command to the
      function that carries it. */
  lemma {:induction false} CommandTableEntries(acc: Dict<Command, Handler>, entries: seq<(string, Def)>)
    requires acc.Valid()
    ensures CommandTable(acc, entries).Ok? ==>
              var r := CommandTable(acc, entries).value;
              && (forall c :: c in acc.items ==> c in r.items && r.items[c] == acc.items[c])
              && (forall i :: CommandAt(entries, i) ==>
                    entries[i].1.command in r.items && r.items[entries[i].1.command] == entries[i].1.handler)
    decreases |entries|
  {
    if |entries| > 0 {
      var d := entries[0].1;
      var rest := entries[1..];
      if d.Plain? {
        PlainStep(acc, entries);
        CommandTableEntries(acc, rest);
        ShiftCommandAt(entries);
      } else if d.command !in acc.items {
        NewStep(acc, entries);
        CommandTableEntries(Put(acc, d.command, d.handler), rest);
        ShiftCommandAt(entries);
      } else {
        RepeatStep(acc, entries);
      }
    }
  }

  lemma ShiftCommandAt(entries: seq<(string, Def)>)
    requires |entries| > 0
    ensures forall i :: CommandAt(entries, i) && i > 0 ==> CommandAt(entries[1..], i - 1) && entries[i] == entries[1..][i - 1]
  {
  }

  /** `HandlerMetaclass.__new__(name, bases, body)`: the command table of the
      class body, or HandlerRegisterError. */
  method NewHandlerClass(body: seq<(string, Def)>) returns (r: Result<Dict<Command, Handler>>)
    ensures r == CommandTable(Empty(), Items(Namespace(body)))
  {
    var entries := Items(Namespace(body));
    var acc: Dict<Command, Handler> := Empty();
    var i := 0;
    while i < |entries|
      invariant 0 <= i <= |entries| && acc.Valid()
      invariant CommandTable(Empty(), entries) == CommandTable(acc, entries[i..])
    {
      var t := entries[i..];
      assert t[1..] == entries[i + 1..];
      var d := entries[i].1;
      if d.Decorated? {
        if d.command in acc.items {
          RepeatStep(acc, t);
          return Err(HandlerRegisterError);
        }
        NewStep(acc, t);
        acc := Put(acc, d.command, d.handler);
      } else {
        PlainStep(acc, t);
      }
      i := i + 1;
    }
    r := Ok(acc);
  }

  /** The body of `BotControlEventHandler`, its own definitions in order
      (the implicit `__module__` and `__qualname__` entries carry no command
      and are left out). */
  function HandlerBody(): seq<(string, Def)>
  {
    [ ("__init__", Plain), ("handel", Plain), ("_clear_bot_task", Plain),
      ("_clear_persistent_task", Plain), ("persistent_bot", Plain), ("_start_bot", Plain),
      ("_stop_bot", Plain), ("start_all_bot", Decorated(START_ALL, StartAllBot)),
      ("start_bot", Decorated(START_BOT, StartBot)), ("stop_bot", Decorated(STOP_BOT, StopBot)),
      ("stop_bot", Decorated(STOP_ALL, StopAllBots)) ]
  }

  /** Creating the class `BotControlEventHandler`: its body registers no
      command twice, so the metaclass builds the command table. */
  method NewBotControlTable() returns (t: Dict<Command, Handler>)
    ensures t == BotControlTable()
  {
    var r := NewHandlerClass(HandlerBody());
    HandlerClassTable();
    t := r.value;
  }

  /** The command table of `BotControlEventHandler`. */
  function BotControlTable(): Dict<Command, Handler>
  {
    Dict([START_ALL, START_BOT, STOP_ALL], map[START_ALL := StartAllBot, START_BOT := StartBot, STOP_ALL := StopAllBots])
  }

  /** A namespace of distinct names lists them in order with their values. */
  lemma {:induction false} NamespaceOfDistinct<A>(defs: seq<(string, A)>)
    requires forall i, j :: 0 <= i < j < |defs| ==> defs[i].0 != defs[j].0
    ensures |Namespace(defs).keys| == |defs|
    ensures forall i :: 0 <= i < |defs| ==> Namespace(defs).keys[i] == defs[i].0 && Namespace(defs).items[defs[i].0] == defs[i].1
    decreases |defs|
  {
    if |defs| > 0 {
      var n := |defs| - 1;
      var pre := defs[..n];
      var last := defs[n];
      NamespaceOfDistinct(pre);
      var p := Namespace(pre);
      forall i | 0 <= i < n ensures pre[i].0 != last.0 {
        assert pre[i] == defs[i];
      }
      assert last.0 !in p.items;
      assert Namespace(defs) == Put(p, last.0, last.1);
      forall i | 0 <= i < n ensures Namespace(defs).keys[i] == defs[i].0 && Namespace(defs).items[defs[i].0] == defs[i].1 {
        assert pre[i] == defs[i];
      }
    }
  }

  /** `Commands` over entries of which the first `k` carry no command. */
  lemma {:induction false} CommandTableSkipsPlain(acc: Dict<Command, Handler>, entries: seq<(string, Def)>, k: nat)
    requires acc.Valid() && k <= |entries|
    requires forall i :: 0 <= i < k ==> entries[i].1.Plain?
    ensures CommandTable(acc, entries) == CommandTable(acc, entries[k..])
    decreases k
  {
    if k > 0 {
      assert entries[1..][k - 1..] == entries[k..];
      CommandTableSkipsPlain(acc, entries[1..], k - 1);
    }
  }

  /** The shape of `BotControlEventHandler`'s body: seven plain definitions,
      three decorated ones with distinct names, then a second `stop_bot`. */
  ghost predicate HandlerShaped(b: seq<(string, Def)>)
  {
    && |b| == 11
    && (forall i, j :: 0 <= i < j < 10 ==> b[i].0 != b[j].0)
    && (forall i :: 0 <= i < 7 ==> b[i].1.Plain?)
    && b[7].1 == Decorated(START_ALL, StartAllBot)
    && b[8].1 == Decorated(START_BOT, StartBot)
    && b[10].0 == b[9].0
    && b[10].1 == Decorated(STOP_ALL, StopAllBots)
  }

  /** The first ten names of the body differ: by length, or else by their
      first character. */
  lemma BodyNamesDistinct()
    ensures forall i, j :: 0 <= i < j < 10 ==> HandlerBody()[i].0 != HandlerBody()[j].0
  {
    var b := HandlerBody();
    forall i, j | 0 <= i < j < 10
      ensures b[i].0 != b[j].0
    {
      if |b[i].0| == |b[j].0| {
        assert b[i].0[0] != b[j].0[0];
      }
    }
  }

  /** A body of that shape has a namespace of ten entries, the second
      `stop_bot` in the first one's place, so the last three carry START_ALL,
      START_BOT and STOP_ALL. */
  lemma NamespaceOfShape(b: seq<(string, Def)>)
    requires HandlerShaped(b)
    ensures var items := Items(Namespace(b));
            && |items| == 10 && (forall i :: 0 <= i < 7 ==> items[i].1.Plain?)
            && items[7].1 == Decorated(START_ALL, StartAllBot)
            && items[8].1 == Decorated(START_BOT, StartBot)
            && items[9].1 == Decorated(STOP_ALL, StopAllBots)
  {
    var pre := b[..10];
    var last := b[10];
    NamespaceOfDistinct(pre);
    var p := Namespace(pre);
    assert b[..|b| - 1] == pre;
    assert Namespace(b) == Put(p, last.0, last.1);
    assert p.keys[9] == last.0;
    var items := Items(Namespace(b));
    forall i | 0 <= i < 9 ensures items[i].1 == pre[i].1 {
      assert p.keys[i] == pre[i].0 && pre[i].0 != pre[9].0;
    }
  }

  /** Entries of that shape give the table of `BotControlTable`. */
  lemma TableOfShape(items: seq<(string, Def)>)
    requires |items| == 10 && (forall i :: 0 <= i < 7 ==> items[i].1.Plain?)
    requires items[7].1 == Decorated(START_ALL, StartAllBot)
    requires items[8].1 == Decorated(START_BOT, StartBot)
    requires items[9].1 == Decorated(STOP_ALL, StopAllBots)
    ensures CommandTable(Empty(), items) == Ok(BotControlTable())
  {
    CommandTableSkipsPlain(Empty(), items, 7);
    var t := items[7..];
    NewStep(Empty(), t);
    var d1 := Put(Empty(), START_ALL, StartAllBot);
    NewStep(d1, t[1..]);
    var d2 := Put(d1, START_BOT, StartBot);
    NewStep(d2, t[1..][1..]);
    assert t[1..][1..][1..] == [];
    BuiltTable();
  }

  lemma BuiltTable()
    ensures Put(Put(Put(Empty(), START_ALL, StartAllBot), START_BOT, StartBot), STOP_ALL, StopAllBots) == BotControlTable()
  {
    var d0: Dict<Command, Handler> := Empty();
    PutNew(d0, START_ALL, StartAllBot);
    assert d0.keys + [START_ALL] == [START_ALL];
    var d1 := Dict([START_ALL], map[START_ALL := StartAllBot]);
    PutNew(d1, START_BOT, StartBot);
    assert d1.keys + [START_BOT] == [START_ALL, START_BOT];
    var d2 := Dict([START_ALL, START_BOT], map[START_ALL := StartAllBot, START_BOT := StartBot]);
    PutNew(d2, STOP_ALL, StopAllBots);
    assert d2.keys + [STOP_ALL] == [START_ALL, START_BOT, STOP_ALL];
  }

  /** Putting a key that is not there appends it. */
  lemma PutNew<K, V>(d: Dict<K, V>, k: K, v: V)
    requires d.Valid() && k !in d.items
    ensures Put(d, k, v) == Dict(d.keys + [k], d.items[k := v])
  {
  }

  /** The second `stop_bot` replaces the first in the class namespace, so the
      table built from `BotControlEventHandler`'s body maps START_ALL and
      START_BOT to their functions and STOP_ALL to the second `stop_bot`, and
      has no entry for STOP_BOT. */
  lemma HandlerClassTable()
    ensures CommandTable(Empty(), Items(Namespace(HandlerBody()))) == Ok(BotControlTable())
  {
    BodyNamesDistinct();
    NamespaceOfShape(HandlerBody());
    TableOfShape(Items(Namespace(HandlerBody())));
  }

  /** Calling a registered function: `wrap_func(self, *args)` with the
      arguments given; nothing runs until the coroutine is awaited. */
  datatype Call = Call(handler: Handler, receiver: BotControlEvent, args: seq<BotControlEvent>)

  /** Awaiting the coroutine calls the decorated function with `(self,
      *args)`; each of the four takes the handler and the event, so the
      binding raises TypeError unless exactly one argument follows the
      receiver. What a correctly bound call would then do is not modelled. */
  function Bind(c: Call): Outcome
  {
    if |c.args| == 1 then Completed else Raised(TypeError)
  }

  /** A `functools.partial` of `_clear_bot_task` or `_clear_persistent_task`
      with `bound` arguments, called as a done callback: asyncio passes the
      finished task after them, and both methods take `bot_id` alone, so the
      call raises TypeError unless nothing was bound. */
  function DoneCallback(bound: nat): Outcome
  {
    var passed := bound + 1;
    if passed == 1 then Completed else Raised(TypeError)
  }

  /** `_start_bot` binds `bot_id`, so its callbacks always raise TypeError
      and never reach the bodies of the clearing methods. */
  lemma StartBotCallbacksRaise()
    ensures DoneCallback(1) == Raised(TypeError)
    ensures DoneCallback(0) == Completed
  {
  }

  /** `BotControlEventHandler(bot_registry, storage)`. `storage` records the
      status writes of `create_or_update_bot` in order. */
  class BotControlEventHandler {
    const botRegistry: BotRegistry
    const commandRegistry: Dict<Command, Handler>
    var storage: seq<(string, BotStatus)>
    var botTasks: Dict<string, Task>
    var persistentTask: Dict<string, Task>

    ghost predicate Valid()
      reads this, botRegistry
    {
      botRegistry.Valid() && botTasks.Valid() && persistentTask.Valid()
    }

    constructor (botRegistry: BotRegistry)
      requires botRegistry.Valid()
      ensures Valid() && this.botRegistry == botRegistry && commandRegistry == BotControlTable()
      ensures storage == [] && botTasks == Empty() && persistentTask == Empty()
    {
      var table := NewBotControlTable();
      this.botRegistry := botRegistry;
      commandRegistry := table;
      storage := [];
      botTasks := Empty();
      persistentTask := Empty();
    }

    /** `handel(event)`: None (after logging) for a command without a
        function; otherwise the function called with the event as its only
        argument, which fills the receiver's place. */
    function Handel(e: BotControlEvent): (r: Option<Call>)
      ensures r.None? <==> e.command !in commandRegistry.items
      ensures r.Some? ==> r.value.handler == commandRegistry.items[e.command] && r.value.receiver == e && r.value.args == []
    {
      if e.command in commandRegistry.items then Some(Call(commandRegistry.items[e.command], e, [])) else None
    }

    /** `_start_bot(bot)`: for a bot without a task, a bot task and a
        watchdog task are created and filed under its id; a bot that has a
        task is left alone. */
    method StartBotTasks(bot: Bot)
      requires botTasks.Valid() && persistentTask.Valid()
      modifies this
      ensures botTasks.Valid() && persistentTask.Valid() && storage == old(storage)
      ensures bot.botId in old(botTasks.items) ==> botTasks == old(botTasks) && persistentTask == old(persistentTask)
      ensures bot.botId !in old(botTasks.items) ==>
                && bot.botId in botTasks.items && bot.botId in persistentTask.items
                && botTasks.keys == old(botTasks.keys) + [bot.botId]
                && persistentTask.keys ==
                     (if bot.botId in old(persistentTask.items) then old(persistentTask.keys)
                      else old(persistentTask.keys) + [bot.botId])
                && botTasks.items == old(botTasks.items)[bot.botId := botTasks.items[bot.botId]]
                && persistentTask.items == old(persistentTask.items)[bot.botId := persistentTask.items[bot.botId]]
                && fresh(botTasks.items[bot.botId]) && !botTasks.items[bot.botId].done
                && fresh(persistentTask.items[bot.botId]) && !persistentTask.items[bot.botId].done
    {
      botTasks, persistentTask := StartTasks(botTasks, persistentTask, bot.botId);
    }

    /** `_stop_bot(bot_id)`: a bot with a task has it cancelled and its
        entry removed; any other id changes nothing. */
    method StopBotTask(botId: Option<string>)
      requires Valid()
      modifies this, if botId.Some? && botId.value in botTasks.items then {botTasks.items[botId.value]} else {}
      ensures Valid() && storage == old(storage) && persistentTask == old(persistentTask)
      ensures !(botId.Some? && botId.value in old(botTasks.items)) ==> botTasks == old(botTasks)
      ensures botId.Some? && botId.value in old(botTasks.items) ==>
                var t := old(botTasks.items[botId.value]);
                && botTasks == Remove(old(botTasks), botId.value)
                && t.done == old(t.done) && t.cancelRequested == (old(t.cancelRequested) || !old(t.done))
    {
      if botId.Some? && botId.value in botTasks.items {
        var t := botTasks.items[botId.value];
        var _ := t.Cancel();
        botTasks := Remove(botTasks, botId.value);
      }
    }

    /** The body of `_clear_bot_task(bot_id)`: Stopped is written to storage
        first, then the entry is deleted, which raises KeyError for an id
        without one. The done callback `_start_bot` registers never gets
        here (see `OnTaskDone`). */
    method ClearBotTask(botId: string) returns (o: Outcome)
      requires Valid()
      modifies this
      ensures Valid() && persistentTask == old(persistentTask)
      ensures storage == old(storage) + [(botId, Stopped)]
      ensures botId in old(botTasks.items) ==> o == Completed && botTasks == Remove(old(botTasks), botId)
      ensures botId !in old(botTasks.items) ==> o == Raised(KeyError) && botTasks == old(botTasks)
    {
      storage := storage + [(botId, Stopped)];
      if botId !in botTasks.items {
        return Raised(KeyError);
      }
      botTasks := Remove(botTasks, botId);
      o := Completed;
    }

    /** The body of `_clear_persistent_task(bot_id)`, which the watchdog's
        done callback never reaches either. */
    method ClearPersistentTask(botId: string) returns (o: Outcome)
      requires Valid()
      modifies this
      ensures Valid() && storage == old(storage) && botTasks == old(botTasks)
      ensures botId in old(persistentTask.items) ==> o == Completed && persistentTask == Remove(old(persistentTask), botId)
      ensures botId !in old(persistentTask.items) ==> o == Raised(KeyError) && persistentTask == old(persistentTask)
    {
      if botId !in persistentTask.items {
        return Raised(KeyError);
      }
      persistentTask := Remove(persistentTask, botId);
      o := Completed;
    }

    /** A bot task or a watchdog finishing: the event loop calls its done
        callback, `partial(..., bot_id)(task)`, which raises TypeError (the
        loop logs it). Nothing is stored and no entry is removed. */
    method OnTaskDone(botId: string) returns (o: Outcome)
      ensures o == Raised(TypeError)
    {
      o := DoneCallback(1);
    }

    /** A bot whose task has finished is never started again: the callback
        leaves its entry in place, and `_start_bot` leaves a filed bot alone. */
    method FinishThenStart(bot: Bot) returns (o: Outcome)
      requires botTasks.Valid() && persistentTask.Valid() && bot.botId in botTasks.items
      modifies this, botTasks.items[bot.botId]
      ensures o == Raised(TypeError) && storage == old(storage)
      ensures botTasks == old(botTasks) && persistentTask == old(persistentTask)
      ensures botTasks.items[bot.botId].done
    {
      var t := botTasks.items[bot.botId];
      t.Finish();
      o := OnTaskDone(bot.botId);
      StartBotTasks(bot);
    }

    /** START_ALL (`start_all_bot`): `_start_bot` for every registered bot in
        registration order; bots already running keep their tasks. */
    method StartAllBot(e: BotControlEvent)
      requires Valid()
      modifies this
      ensures Valid() && storage == old(storage)
      ensures botTasks.keys == old(botTasks.keys) + Unstarted(botRegistry.registry.keys, old(botTasks.items.Keys))
      ensures forall id :: id in old(botTasks.items) ==> id in botTasks.items && botTasks.items[id] == old(botTasks.items[id])
      ensures forall id :: id in botTasks.items && id !in old(botTasks.items) ==> id in persistentTask.items
      ensures forall j :: 0 <= j < |botRegistry.registry.keys| && botRegistry.registry.keys[j] !in old(botTasks.items) ==>
                var id := botRegistry.registry.keys[j];
                && id in botTasks.items && fresh(botTasks.items[id]) && !botTasks.items[id].done
                && id in persistentTask.items && fresh(persistentTask.items[id]) && !persistentTask.items[id].done
      ensures forall id :: id !in botTasks.items || id in old(botTasks.items) ==>
                (id in persistentTask.items <==> id in old(persistentTask.items))
                && (id in persistentTask.items ==> persistentTask.items[id] == old(persistentTask.items[id]))
    {
      ghost var ids := botRegistry.registry.keys;
      var bots := botRegistry.GetAllBot();
      var b, p := StartAll(botTasks, persistentTask, bots, ids);
      botTasks, persistentTask := b, p;
      assert botRegistry.registry.keys == ids;
    }

    /** START_BOT (`start_bot`): `_start_bot` for the bot with the event's
        id; an unknown id (None included) finds no bot, and reading the bot
        id of None raises AttributeError. */
    method StartBot(e: BotControlEvent) returns (o: Outcome)
      requires Valid()
      modifies this
      ensures Valid() && storage == old(storage)
      ensures o.Raised? <==> botRegistry.GetBot(e.botId).None?
      ensures o.Raised? ==> o.exc == AttributeError && botTasks == old(botTasks) && persistentTask == old(persistentTask)
      ensures o.Completed? ==>
                var id := e.botId.value;
                && (id in old(botTasks.items) ==> botTasks == old(botTasks) && persistentTask == old(persistentTask))
                && (id !in old(botTasks.items) ==>
                      && id in botTasks.items && id in persistentTask.items
                      && botTasks.keys == old(botTasks.keys) + [id]
                      && botTasks.items == old(botTasks.items)[id := botTasks.items[id]]
                      && persistentTask.items == old(persistentTask.items)[id := persistentTask.items[id]]
                      && fresh(botTasks.items[id]) && !botTasks.items[id].done
                      && fresh(persistentTask.items[id]) && !persistentTask.items[id].done)
    {
      var bot := botRegistry.GetBot(e.botId);
      if bot.None? {
        return Raised(AttributeError);
      }
      StartBotTasks(bot.value);
      o := Completed;
    }

    /** STOP_ALL (the second `stop_bot`): iterating `bot_tasks` while
        `_stop_bot` deletes from it stops the first bot, then the next
        iteration step raises RuntimeError. With no bot tasks nothing
        happens. */
    method StopAllBots(e: BotControlEvent) returns (o: Outcome)
      requires Valid()
      modifies this, if |botTasks.keys| > 0 then {botTasks.items[botTasks.keys[0]]} else {}
      ensures Valid() && storage == old(storage) && persistentTask == old(persistentTask)
      ensures |old(botTasks.keys)| == 0 ==> o == Completed && botTasks == old(botTasks)
      ensures |old(botTasks.keys)| > 0 ==>
                var id := old(botTasks.keys[0]);
                var t := old(botTasks.items[botTasks.keys[0]]);
                && o == Raised(RuntimeError)
                && botTasks == Remove(old(botTasks), id)
                && t.done == old(t.done) && t.cancelRequested == (old(t.cancelRequested) || !old(t.done))
    {
      if |botTasks.keys| == 0 {
        return Completed;
      }
      var id := botTasks.keys[0];
      assert id in botTasks.items;
      StopBotTask(Some(id));
      o := Raised(RuntimeError);
    }
  }

  /** Since the bot tasks `o` (with watchdogs `op`), exactly the ids of
      `started` not in `o` were started: `b` files their tasks in order, with
      watchdogs in `p`, and every other id keeps its entries. */
  ghost predicate Extends(b: Dict<string, Task>, p: Dict<string, Task>, o: Dict<string, Task>, op: Dict<string, Task>,
                          started: seq<string>)
  {
    && b.keys == o.keys + Unstarted(started, o.items.Keys)
    && (forall id :: id in b.items <==> id in o.items || id in started)
    && (forall id :: id in o.items ==> b.items[id] == o.items[id])
    && (forall id :: id in b.items && id !in o.items ==> id in p.items)
    && (forall id :: id !in started || id in o.items ==>
          && (id in p.items <==> id in op.items)
          && (id in p.items ==> p.items[id] == op.items[id]))
  }

  /** `_start_bot` on the bot tasks `b` and the watchdogs `p`: an id
      without a task gains a new bot task at the end of `b` and a new
      watchdog in `p`; an id with a task changes nothing. */
  method StartTasks(b: Dict<string, Task>, p: Dict<string, Task>, id: string)
    returns (b2: Dict<string, Task>, p2: Dict<string, Task>)
    requires b.Valid() && p.Valid()
    ensures b2.Valid() && p2.Valid()
    ensures id in b.items ==> b2 == b && p2 == p
    ensures id !in b.items ==>
              && id in b2.items && id in p2.items
              && b2.keys == b.keys + [id]
              && p2.keys == (if id in p.items then p.keys else p.keys + [id])
              && b2.items == b.items[id := b2.items[id]]
              && p2.items == p.items[id := p2.items[id]]
              && fresh(b2.items[id]) && !b2.items[id].done
              && fresh(p2.items[id]) && !p2.items[id].done
  {
    b2, p2 := b, p;
    if id !in b.items {
      var t := new Task();
      b2 := Put(b, id, t);
      var w := new Task();
      p2 := Put(p, id, w);
    }
  }

  /** The loop of `start_all_bot`: `_start_bot` for each of `bots` in turn,
      whose ids `ids` do not repeat. */
  method StartAll(b: Dict<string, Task>, p: Dict<string, Task>, bots: seq<Bot>, ghost ids: seq<string>)
    returns (b2: Dict<string, Task>, p2: Dict<string, Task>)
    requires b.Valid() && p.Valid()
    requires |bots| == |ids| && forall k :: 0 <= k < |bots| ==> bots[k].botId == ids[k]
    ensures b2.Valid() && p2.Valid() && Extends(b2, p2, b, p, ids)
    ensures forall j :: 0 <= j < |ids| && ids[j] !in b.items ==>
              && ids[j] in b2.items && fresh(b2.items[ids[j]]) && !b2.items[ids[j]].done
              && ids[j] in p2.items && fresh(p2.items[ids[j]]) && !p2.items[ids[j]].done
  {
    assert ids[..0] == [];
    b2, p2 := b, p;
    var i := 0;
    while i < |bots|
      invariant 0 <= i <= |bots| && b2.Valid() && p2.Valid()
      invariant Extends(b2, p2, b, p, ids[..i])
      invariant forall j :: 0 <= j < i && ids[j] !in b.items ==>
                  && ids[j] in b2.items && fresh(b2.items[ids[j]]) && !b2.items[ids[j]].done
                  && ids[j] in p2.items && fresh(p2.items[ids[j]]) && !p2.items[ids[j]].done
    {
      var b1, p1 := StartTasks(b2, p2, bots[i].botId);
      StartStep(b2, p2, b1, p1, b, p, ids, i);
      forall j | 0 <= j < i + 1 && ids[j] !in b.items
        ensures && ids[j] in b1.items && fresh(b1.items[ids[j]]) && !b1.items[ids[j]].done
                && ids[j] in p1.items && fresh(p1.items[ids[j]]) && !p1.items[ids[j]].done
      {
        if j < i {
          assert ids[j] in b2.items;
          if ids[i] in b2.items {
            assert b1 == b2 && p1 == p2;
          } else {
            assert ids[j] != ids[i];
            assert b1.items[ids[j]] == b2.items[ids[j]] && p1.items[ids[j]] == p2.items[ids[j]];
          }
        }
      }
      b2, p2 := b1, p1;
      i := i + 1;
    }
    assert ids[..i] == ids;
  }

  /** One step of START_ALL on the dicts alone: `b0`, `p0` before and `b1`,
      `p1` after `_start_bot` for the bot with id `ids[i]`. */
  lemma StartStep(b0: Dict<string, Task>, p0: Dict<string, Task>, b1: Dict<string, Task>, p1: Dict<string, Task>,
                  o: Dict<string, Task>, op: Dict<string, Task>, ids: seq<string>, i: int)
    requires 0 <= i < |ids|
    requires Extends(b0, p0, o, op, ids[..i])
    requires ids[i] in b0.items ==> b1 == b0 && p1 == p0
    requires ids[i] !in b0.items ==>
               && b1.keys == b0.keys + [ids[i]] && ids[i] in b1.items && b1.items == b0.items[ids[i] := b1.items[ids[i]]]
               && ids[i] in p1.items && p1.items == p0.items[ids[i] := p1.items[ids[i]]]
    ensures Extends(b1, p1, o, op, ids[..i + 1])
  {
    NextUnstarted(ids, i, b0.items.Keys, o.items.Keys);
    TakeSnoc(ids, i);
    if ids[i] in b0.items {
      ExtendsKept(b0, p0, o, op, ids[..i], ids[i]);
    } else {
      ExtendsPut(b0, p0, o, op, ids[..i], ids[i], b1, p1);
    }
  }

  /** An id that had a task before adds nothing. */
  lemma ExtendsKept(b: Dict<string, Task>, p: Dict<string, Task>, o: Dict<string, Task>, op: Dict<string, Task>,
                    started: seq<string>, id: string)
    requires Extends(b, p, o, op, started) && id in b.items
    requires Unstarted(started + [id], o.items.Keys) == Unstarted(started, o.items.Keys)
    ensures Extends(b, p, o, op, started + [id])
  {
    assert forall x :: x in started + [id] <==> x in started || x == id;
  }

  /** An id without a task gains the new bot task and watchdog. */
  lemma ExtendsPut(b: Dict<string, Task>, p: Dict<string, Task>, o: Dict<string, Task>, op: Dict<string, Task>,
                   started: seq<string>, id: string, b2: Dict<string, Task>, p2: Dict<string, Task>)
    requires Extends(b, p, o, op, started)
    requires id !in b.items
    requires Unstarted(started + [id], o.items.Keys) == Unstarted(started, o.items.Keys) + [id]
    requires b2.keys == b.keys + [id] && id in b2.items && b2.items == b.items[id := b2.items[id]]
    requires id in p2.items && p2.items == p.items[id := p2.items[id]]
    ensures Extends(b2, p2, o, op, started + [id])
  {
    var s := started + [id];
    assert forall x :: x in s <==> x in started || x == id;
    AppendAssoc(o.keys, Unstarted(started, o.items.Keys), [id]);
  }

  lemma TakeSnoc<T>(s: seq<T>, i: int)
    requires 0 <= i < |s|
    ensures s[..i + 1] == s[..i] + [s[i]]
  {
  }

  lemma AppendAssoc<T>(a: seq<T>, b: seq<T>, c: seq<T>)
    ensures (a + b) + c == a + (b + c)
  {
  }

  /** The ids not yet started, in order of first occurrence: an id that
      repeats an earlier one, or that has a task already, adds nothing. */
  function Unstarted(ids: seq<string>, started: set<string>): (r: seq<string>)
    ensures forall x :: x in r <==> x in ids && x !in started
    decreases |ids|
  {
    if |ids| == 0 then []
    else
      var last := ids[|ids| - 1];
      var pre := ids[..|ids| - 1];
      assert forall x :: x in ids <==> x in pre || x == last;
      Unstarted(pre, started) + (if last in started || last in pre then [] else [last])
  }

  /** One step of START_ALL: the next id has a task exactly when it had one
      before the loop or an earlier bot had it. */
  lemma NextUnstarted(ids: seq<string>, i: int, present: set<string>, started: set<string>)
    requires 0 <= i < |ids|
    requires forall id :: id in present <==> id in started || id in ids[..i]
    ensures Unstarted(ids[..i + 1], started) == Unstarted(ids[..i], started) + (if ids[i] in present then [] else [ids[i]])
  {
    assert ids[..i + 1][..i] == ids[..i];
  }

  /** Dispatch through the table of `BotControlEventHandler`: STOP_BOT finds
      no function; every other command finds its function, STOP_ALL the
      second `stop_bot`, but the call binds the event as the receiver and
      passes no event, so awaiting it raises TypeError. */
  lemma HandelRoutes(h: BotControlEventHandler, e: BotControlEvent)
    requires h.commandRegistry == BotControlTable()
    ensures h.Handel(e).None? <==> e.command == STOP_BOT
    ensures e.command == START_ALL ==> h.Handel(e).value.handler == StartAllBot
    ensures e.command == START_BOT ==> h.Handel(e).value.handler == StartBot
    ensures e.command == STOP_ALL ==> h.Handel(e).value.handler == StopAllBots
    ensures h.Handel(e).Some? ==> Bind(h.Handel(e).value) == Raised(TypeError)
  {
  }
}
