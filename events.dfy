/** What the event modules of every snapshot share: `clear`, the `Command`
    enumeration and the values an event's `raw_data` dict holds. */
module EventData {
  import opened Types
  import opened Dicts

  /** `Command(Enum)`: START_BOT = 1, STOP_BOT = 2, START_ALL = 3, STOP_ALL = 4. */
  datatype Command = START_BOT | STOP_BOT | START_ALL | STOP_ALL

  function CommandValue(c: Command): (v: int)
    ensures 1 <= v <= 4
  {
    match c
    case START_BOT => 1
    case STOP_BOT => 2
    case START_ALL => 3
    case STOP_ALL => 4
  }

  /** `Command(v)`: the member with value `v`, or ValueError. */
  function CommandOf(v: int): (r: Result<Command>)
    ensures r.Ok? <==> 1 <= v <= 4
    ensures r.Ok? ==> CommandValue(r.value) == v
  {
    if v == 1 then Ok(START_BOT)
    else if v == 2 then Ok(STOP_BOT)
    else if v == 3 then Ok(START_ALL)
    else if v == 4 then Ok(STOP_ALL)
    else Err(ValueError)
  }

  /** Every member is found again from its value, so no two share one. */
  lemma CommandRoundTrip(c: Command)
    ensures CommandOf(CommandValue(c)) == Ok(c)
  {
  }

  /** `OrderType(Enum)` of mmm/project_types.py. */
  datatype OrderType = MARKET | LIMIT | POST_ONLY | FOK | IOC | OPTIMAL_LIMIT_IOC

  /** A value in a constructor's `locals()`: None, a string, an exchange, a
      credential, a decoded dict, a command, an order type, the event
      object itself (`self`) or a class (the `__class__` cell). */
  datatype Value =
    | VNone
    | VStr(s: string)
    | VExchange(exchange: ExchangeId)
    | VCredential(credential: Credential)
    | VJson(doc: Json)
    | VCommand(command: Command)
    | VOrderType(orderType: OrderType)
    | VSelf
    | VClass(name: string)

  function VOptStr(o: Option<string>): Value
  {
    if o.Some? then VStr(o.value) else VNone
  }

  /** The name of a constructor's local variable, a key of `locals()`. */
  datatype Param =
    | PSelf | PUniqId | PStrategyName | PBotId | PExchange | PCredential
    | POrderType | PParams | PCommand | PClass

  /** The key as Python spells it. */
  function Name(p: Param): string
  {
    match p
    case PSelf => "self"
    case PUniqId => "uniq_id"
    case PStrategyName => "strategy_name"
    case PBotId => "bot_id"
    case PExchange => "exchange"
    case PCredential => "credential"
    case POrderType => "order_type"
    case PParams => "params"
    case PCommand => "command"
    case PClass => "__class__"
  }

  /** No two locals share a spelling. */
  lemma NameInjective(p: Param, q: Param)
    ensures Name(p) == Name(q) ==> p == q
  {
  }

  /** `clear(data, key)`: a copy of `data` without `key`; every other entry
      keeps its value and its place, and `data` itself is left as it was. */
  function Clear<K(==,!new), V>(data: Dict<K, V>, key: K): (r: Dict<K, V>)
    requires data.Valid()
    ensures r.Valid()
    ensures key !in r.items
    ensures forall k :: k in r.items <==> k in data.items && k != key
    ensures forall k :: k in r.items ==> r.items[k] == data.items[k]
    ensures key !in data.items ==> r == data
  {
    if key in data.items then Remove(data, key)
    else
      WithoutAbsent(data.keys, key);
      data
  }

  /** Clearing a key twice is clearing it once. */
  lemma ClearIdempotent<K(!new), V>(data: Dict<K, V>, key: K)
    requires data.Valid()
    ensures Clear(Clear(data, key), key) == Clear(data, key)
  {
  }

  /** Removing an element a sequence does not hold changes nothing. */
  lemma {:induction false} WithoutAbsent<K>(s: seq<K>, k: K)
    requires k !in s
    ensures Without(s, k) == s
  {
    if |s| > 0 {
      WithoutAbsent(s[1..], k);
    }
  }

  /** Clearing the first key of a dict leaves the rest in order. */
  lemma ClearFirst<K(!new), V>(data: Dict<K, V>, key: K)
    requires data.Valid() && |data.keys| > 0 && data.keys[0] == key
    ensures Clear(data, key).keys == data.keys[1..]
  {
    assert key !in data.keys[1..];
    WithoutAbsent(data.keys[1..], key);
  }

  /** The dict `locals()` returns at the top of a constructor: `self` first,
      then the given locals in order. */
  function Locals(names: seq<Param>, values: seq<Value>): (d: Dict<Param, Value>)
    requires |names| == |values|
    requires PSelf !in names
    requires forall i, j :: 0 <= i < j < |names| ==> names[i] != names[j]
    ensures d.Valid() && d.keys == [PSelf] + names
    ensures d.items[PSelf] == VSelf
    ensures forall i :: 0 <= i < |names| ==> d.items[names[i]] == values[i]
  {
    var m := map i | 0 <= i < |names| :: names[i] := values[i];
    assert forall i :: 0 <= i < |names| ==> m[names[i]] == values[i];
    Dict([PSelf] + names, m[PSelf := VSelf])
  }

  /** `d` holds exactly the locals `names`, in that order, each mapped to
      the value at the same position of `values`. */
  ghost predicate Records(d: Dict<Param, Value>, names: seq<Param>, values: seq<Value>)
  {
    && d.Valid() && d.keys == names && |values| == |names|
    && forall i :: 0 <= i < |names| ==> d.items[names[i]] == values[i]
  }

  /** `clear(locals(), 'self')`: the other locals, in order, each mapped to
      its value. */
  function Arguments(names: seq<Param>, values: seq<Value>): (d: Dict<Param, Value>)
    requires |names| == |values|
    requires PSelf !in names
    requires forall i, j :: 0 <= i < j < |names| ==> names[i] != names[j]
    ensures Records(d, names, values)
  {
    var locals := Locals(names, values);
    ClearFirst(locals, PSelf);
    Clear(locals, PSelf)
  }

  /** The event base class: `Event(data=None)`, read back by `raw_data`. */
  datatype Event = Event(rawData: Value)

  function NewEvent(data: Value := VNone): (e: Event)
    ensures e.rawData == data
  {
    Event(data)
  }

  /** `NewEvent()` carries no data. */
  lemma EventDataDefaultsToNone()
    ensures NewEvent().rawData == VNone
  {
  }
}

/** The events of the mmm/core snapshot (mmm/core/events/event.py). Their
    constructors call `super(Cls, self)`. Any use of the name `super` inside a
    function makes the implicit `__class__` cell a free variable of it,
    whether or not `super` is given arguments, so `locals()` holds `self`,
    the arguments and then `__class__`, and `raw_data` keeps `__class__`. */
module MmmCoreEvents {
  import opened Types
  import opened Dicts
  import opened EventData

  datatype OrderEvent = OrderEvent(
    uniqId: string, strategyName: string, botId: string, exchange: ExchangeId,
    credential: Credential, params: Json, rawData: Dict<Param, Value>)

  /** `OrderEvent(uniq_id, strategy_name, bot_id, exchange, credential, params)`:
      the attributes are the arguments and `raw_data` maps each parameter
      name, in parameter order, to its argument. */
  function NewOrderEvent(uniqId: string, strategyName: string, botId: string, exchange: ExchangeId,
                         credential: Credential, params: Json): (e: OrderEvent)
    ensures e.uniqId == uniqId && e.strategyName == strategyName && e.botId == botId
    ensures e.exchange == exchange && e.credential == credential && e.params == params
    ensures Records(e.rawData, [PUniqId, PStrategyName, PBotId, PExchange, PCredential, PParams, PClass],
                    [VStr(uniqId), VStr(strategyName), VStr(botId), VExchange(exchange),
                     VCredential(credential), VJson(params), VClass("OrderEvent")])
  {
    OrderEvent(uniqId, strategyName, botId, exchange, credential, params,
               Arguments([PUniqId, PStrategyName, PBotId, PExchange, PCredential, PParams, PClass],
                         [VStr(uniqId), VStr(strategyName), VStr(botId), VExchange(exchange),
                          VCredential(credential), VJson(params), VClass("OrderEvent")]))
  }

  datatype BotControlEvent = BotControlEvent(command: Command, botId: Option<string>, rawData: Dict<Param, Value>)

  /** `BotControlEvent(command, bot_id=None)`. */
  function NewBotControlEvent(command: Command, botId: Option<string> := None): (e: BotControlEvent)
    ensures e.command == command && e.botId == botId
    ensures Records(e.rawData, [PCommand, PBotId, PClass],
                    [VCommand(command), VOptStr(botId), VClass("BotControlEvent")])
  {
    BotControlEvent(command, botId, Arguments([PCommand, PBotId, PClass],
                                              [VCommand(command), VOptStr(botId), VClass("BotControlEvent")]))
  }

  /** Without a bot id the event carries None, in its attribute and in its
      `raw_data`. */
  lemma BotIdDefaultsToNone(c: Command)
    ensures NewBotControlEvent(c).botId == None
    ensures NewBotControlEvent(c).rawData.items[PBotId] == VNone
  {
    var names := [PCommand, PBotId, PClass];
    assert names[1] == PBotId;
  }
}

/** The events of the src snapshot (src/mmm/core/hub/inner_event_hub/event.py).
    Their constructors call the zero-argument `super()`, which makes the
    implicit `__class__` cell a free variable of `__init__`: `locals()` then
    also holds `__class__`, after the arguments, and `raw_data` keeps it. */
module SrcInnerEvents {
  import opened Types
  import opened Dicts
  import opened EventData

  datatype OrderCreationEvent = OrderCreationEvent(
    uniqId: string, strategyName: string, botId: string, exchange: ExchangeId,
    credential: Credential, params: Json, rawData: Dict<Param, Value>)

  function NewOrderCreationEvent(uniqId: string, strategyName: string, botId: string, exchange: ExchangeId,
                                 credential: Credential, params: Json): (e: OrderCreationEvent)
    ensures e.uniqId == uniqId && e.strategyName == strategyName && e.botId == botId
    ensures e.exchange == exchange && e.credential == credential && e.params == params
    ensures Records(e.rawData, [PUniqId, PStrategyName, PBotId, PExchange, PCredential, PParams, PClass],
                    [VStr(uniqId), VStr(strategyName), VStr(botId), VExchange(exchange),
                     VCredential(credential), VJson(params), VClass("OrderCreationEvent")])
  {
    OrderCreationEvent(uniqId, strategyName, botId, exchange, credential, params,
                       Arguments([PUniqId, PStrategyName, PBotId, PExchange, PCredential, PParams, PClass],
                                 [VStr(uniqId), VStr(strategyName), VStr(botId), VExchange(exchange),
                                  VCredential(credential), VJson(params), VClass("OrderCreationEvent")]))
  }

  datatype BotControlEvent = BotControlEvent(command: Command, botId: Option<string>, rawData: Dict<Param, Value>)

  function NewBotControlEvent(command: Command, botId: Option<string> := None): (e: BotControlEvent)
    ensures e.command == command && e.botId == botId
    ensures Records(e.rawData, [PCommand, PBotId, PClass],
                    [VCommand(command), VOptStr(botId), VClass("BotControlEvent")])
  {
    BotControlEvent(command, botId, Arguments([PCommand, PBotId, PClass],
                                              [VCommand(command), VOptStr(botId), VClass("BotControlEvent")]))
  }

  lemma BotIdDefaultsToNone(c: Command)
    ensures NewBotControlEvent(c).botId == None
    ensures NewBotControlEvent(c).rawData.items[PBotId] == VNone
  {
    var names := [PCommand, PBotId, PClass];
    assert names[1] == PBotId;
  }
}

/** The events of the mmm snapshot (mmm/events/event.py): the order event
    carries an order type and no strategy name or bot id. Its constructor
    calls `super(OrderEvent, self)`, so `raw_data` ends with `__class__`, as
    in the other snapshots. */
module MmmEvents {
  import opened Types
  import opened Dicts
  import opened EventData

  datatype OrderEvent = OrderEvent(
    uniqId: string, exchange: ExchangeId, credential: Credential, orderType: OrderType,
    params: Json, rawData: Dict<Param, Value>)

  function NewOrderEvent(uniqId: string, exchange: ExchangeId, credential: Credential,
                         orderType: OrderType, params: Json): (e: OrderEvent)
    ensures e.uniqId == uniqId && e.exchange == exchange && e.credential == credential
    ensures e.orderType == orderType && e.params == params
    ensures Records(e.rawData, [PUniqId, PExchange, PCredential, POrderType, PParams, PClass],
                    [VStr(uniqId), VExchange(exchange), VCredential(credential),
                     VOrderType(orderType), VJson(params), VClass("OrderEvent")])
  {
    OrderEvent(uniqId, exchange, credential, orderType, params,
               Arguments([PUniqId, PExchange, PCredential, POrderType, PParams, PClass],
                         [VStr(uniqId), VExchange(exchange), VCredential(credential),
                          VOrderType(orderType), VJson(params), VClass("OrderEvent")]))
  }
}
