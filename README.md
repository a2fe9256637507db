# mmm: a verified model of the trading-bot runtime's core

mmm is an asyncio runtime for trading bots on the OKX exchange. Strategies
are classes whose methods subscribe to events or to timers. A runner turns
each strategy into tasks. Market data arrives over a websocket, is parsed
into events and routed through hubs or dispatchers into queues. Order
events go through filters to an exchange handler, and the handler's
result is saved.

The repository holds three snapshots of this runtime that behave
differently: `mmm/`, `mmm/core/` and `src/mmm/`. Each core source file is
one Dafny module, named after its snapshot:

- `Mmm*` for `mmm/`;
- `MmmCore*` for `mmm/core/`;
- `Src*` for `src/mmm/`.

Six modules hold what several of them share:

- `Types`: Option, Result, the exceptions, JSON values, credentials.
- `Dicts`: Python's insertion-ordered `dict` and a class body's namespace.
- `Tasks`: asyncio task handles, `asyncio.Queue`, and what a strategy runner's task runs.
- `Frames` and `Sessions`: websocket frames and the receive loop.
- `OrderExecution` and `Orders`: filter verdicts, the handler cache, order results.
- `Conversions`: when `Decimal(x)` and `int(x)` accept a JSON value.

Code that changes state becomes classes and methods with loop invariants,
proved against specification functions. Pure code becomes functions and
lemmas.

The model keeps the code's behaviour as written. It proves the
consequences where the code does something surprising:

- `TimerRegistry.exists` compares only the first key.
- A derived strategy class fills its base's registry objects instead of copies.
- A repeated subscription fails with AttributeError, not SubscriptionError, because the message reads `__name__` of an instance.
- The second `stop_bot` in `BotControlEventHandler` replaces the first, so STOP_BOT has no handler.
- STOP_ALL deletes from `bot_tasks` while iterating over it, so the next step of the iteration raises RuntimeError.
- `handel` calls the stored function with the event alone.
- `ParserFactory.get` takes the first registered prefix, not the longest.
- The done callbacks `_start_bot` registers bind `bot_id`, and asyncio passes the task as well, so they raise TypeError. Stopped is never stored, and a finished bot's entry stays, so the bot cannot be started again.
- mmm/core/strategy/core.py imports `ControlEvent` (line 8), which mmm/core/events/event.py does not define, so importing that module raises ImportError. The model describes its code as if the import succeeded.
- mmm/core/strategy/strategy.py imports `SubscriptionError` and `TimerError` (line 8), which mmm/exceptions.py does not define, so importing that module raises ImportError. The model describes its code as if the import succeeded.
- mmm/project_types.py defines `Asset`, `OrderType`, `Exchange` and `Order` (lines 7-28) but neither `OrderResult` nor `OrderStatus`. So mmm/core/order/handler.py (line 10), mmm/core/order/manager.py (line 9) and mmm/core/storage.py (line 8) raise ImportError when imported. The model gives the order result and status the shape the handlers use.
- The src snapshot's order handler always confirms, and lets the confirmation decide the status.

## Model

| member | source | states |
|---|---|---|
| MmmCoreBot.Bot.constructor | mmm/core/strategy/bot.py:28-32 | a bot is known by the bot id of its strategy |
| MmmCoreBot.AddAll | mmm/core/strategy/bot.py:90-96 | adding bots in turn keeps the dict well formed and keeps every bot filed under its own id |
| MmmCoreBot.AddAllLastWins | mmm/core/strategy/bot.py:89-96 | after adding a list of bots, an id is registered exactly when it was before or some bot carries it; ids no bot carries keep their bot; every id maps to the last bot with that id |
| MmmCoreBot.IdInCons | mmm/core/strategy/bot.py:92-93 | an id is among the bots exactly when it is the first bot's or among the rest |
| MmmCoreBot.LastWithIdCons | mmm/core/strategy/bot.py:92-93 | the last bot with a given id is either the first bot with no later namesake, or the last such bot among the rest |
| MmmCoreBot.BotRegistry.constructor | mmm/core/strategy/bot.py:90-93 | the registry is the given bots added one by one to an empty dict |
| MmmCoreBot.BotRegistry.AddBot | mmm/core/strategy/bot.py:95-96 | the bot is filed under its id, replacing any bot already there, and nothing else changes |
| MmmCoreBot.BotRegistry.GetBot | mmm/core/strategy/bot.py:98-99 | the result is a bot exactly when the id is given and registered, and then it is the registered bot and carries that id |
| MmmCoreBot.BotRegistry.GetAllBot | mmm/core/strategy/bot.py:101-102 | the bots in registration order, one per registered id, with pairwise different ids |
| MmmCoreBot.RegistryOfBots | mmm/core/strategy/bot.py:89-99 | a registry built from a list finds a bot for an id exactly when the list holds that id, and the bot it finds is the last one with that id |
| MmmCoreBot.CommandTable | mmm/core/strategy/bot.py:110-117 | a successful build yields a well-formed table; a failed one raises HandlerRegisterError |
| MmmCoreBot.PlainStep | mmm/core/strategy/bot.py:112-114 | a namespace entry without `__command__` is skipped and adds no command |
| MmmCoreBot.RepeatStep | mmm/core/strategy/bot.py:115-116 | an entry whose command is already in the table makes the build fail, and the commands then repeat |
| MmmCoreBot.NewStep | mmm/core/strategy/bot.py:117 | an entry with a new command puts it into the table and the build goes on with the rest |
| MmmCoreBot.CommandsOfDecorated | mmm/core/strategy/bot.py:111-117 | the command of a decorated entry comes before the commands of the later entries |
| MmmCoreBot.CommandTableFailsOnRepeat | mmm/core/strategy/bot.py:110-117 | the build succeeds if and only if no command occurs twice, counting the commands already in the table |
| MmmCoreBot.CommandTableKeys | mmm/core/strategy/bot.py:110-118 | on success the table lists its commands in body order |
| MmmCoreBot.CommandTableEntries | mmm/core/strategy/bot.py:110-118 | on success the table keeps what it held and maps each command to the function that carries it |
| MmmCoreBot.ShiftCommandAt | mmm/core/strategy/bot.py:111-117 | an entry with a command past the first one is an entry with that command of the rest of the body |
| MmmCoreBot.NewHandlerClass | mmm/core/strategy/bot.py:108-119 | creating a handler class yields the command table built from the class namespace, or HandlerRegisterError |
| MmmCoreBot.NewBotControlTable | mmm/core/strategy/bot.py:122-193 | creating `BotControlEventHandler` succeeds and maps START_ALL, START_BOT and STOP_ALL to their functions, with no entry for STOP_BOT |
| MmmCoreBot.NamespaceOfDistinct | mmm/core/strategy/bot.py:109-111 | a class body whose names are distinct has a namespace listing them in order with their values |
| MmmCoreBot.CommandTableSkipsPlain | mmm/core/strategy/bot.py:111-114 | leading entries without a command leave the build unchanged |
| MmmCoreBot.BodyNamesDistinct | mmm/core/strategy/bot.py:122-190 | the first ten names defined in the body of `BotControlEventHandler` all differ |
| MmmCoreBot.NamespaceOfShape | mmm/core/strategy/bot.py:122-193 | the namespace of the handler body has ten entries: seven without a command, then START_ALL, START_BOT and STOP_ALL, the second `stop_bot` having replaced the first |
| MmmCoreBot.TableOfShape | mmm/core/strategy/bot.py:108-119 | a namespace of that shape builds the table of START_ALL, START_BOT and STOP_ALL |
| MmmCoreBot.BuiltTable | mmm/core/strategy/bot.py:174-193 | putting the three decorated functions in body order yields the handler's table |
| MmmCoreBot.PutNew | mmm/core/strategy/bot.py:117 | storing a command not yet in the table appends it to the keys |
| MmmCoreBot.HandlerClassTable | mmm/core/strategy/bot.py:186-193 | the table built from the handler's body is START_ALL, START_BOT, STOP_ALL: the STOP_BOT function is lost to the second `stop_bot` |
| MmmCoreBot.BotControlEventHandler.constructor | mmm/core/strategy/bot.py:123-127 | the handler starts with the given registry, the class table, no storage records and empty task dicts |
| MmmCoreBot.BotControlEventHandler.Handel | mmm/core/strategy/bot.py:129-135 | no call exactly when the command has no function; otherwise a call of the command's function with the event as its only argument |
| MmmCoreBot.BotControlEventHandler.StartBotTasks | mmm/core/strategy/bot.py:157-166 | a bot that has a task changes nothing; otherwise it gains a fresh, running bot task appended to the keys and a fresh watchdog, appended to the watchdog keys unless an entry for the id is replaced in place, and no other entry changes |
| MmmCoreBot.BotControlEventHandler.StopBotTask | mmm/core/strategy/bot.py:168-172 | a bot with a task has it removed and a cancellation requested if it was not done; an unknown or missing id changes nothing |
| MmmCoreBot.BotControlEventHandler.ClearBotTask | mmm/core/strategy/bot.py:137-139 | what `_clear_bot_task(bot_id)` does when called with the bot id alone: Stopped is recorded for the bot in every case, and its task entry is removed or KeyError is raised when there is none; the done callback never reaches it |
| MmmCoreBot.BotControlEventHandler.ClearPersistentTask | mmm/core/strategy/bot.py:141-142 | what `_clear_persistent_task(bot_id)` does when called with the bot id alone: the watchdog entry is removed, or KeyError is raised when there is none; the done callback never reaches it |
| MmmCoreBot.StartBotCallbacksRaise | mmm/core/strategy/bot.py:162-166 | the contract of `DoneCallback`, the done callback: a partial that binds `bot_id` to a one-argument method raises TypeError when asyncio adds the task as a second argument, and would only complete with no extra argument |
| MmmCoreBot.BotControlEventHandler.OnTaskDone | mmm/core/strategy/bot.py:162 | the done callback of a bot's task raises TypeError |
| MmmCoreBot.BotControlEventHandler.FinishThenStart | mmm/core/strategy/bot.py:157-166 | after a started bot's task finishes, its callback raises TypeError, storage, the task map and the watchdog map are unchanged, and starting the bot again does nothing since its id is still in the map |
| MmmCoreBot.BotControlEventHandler.StartAllBot | mmm/core/strategy/bot.py:174-178 | every registered bot without a task gains a fresh running task and watchdog, new ids are appended in registry order, and existing tasks and unrelated watchdogs are kept |
| MmmCoreBot.BotControlEventHandler.StartBot | mmm/core/strategy/bot.py:180-184 | an id that is missing or not registered raises AttributeError with nothing changed; otherwise the bot is started as by `_start_bot` |
| MmmCoreBot.BotControlEventHandler.StopAllBots | mmm/core/strategy/bot.py:190-193 | with no tasks nothing happens; otherwise the first bot is stopped and then RuntimeError is raised, because the dict changes size while being iterated |
| MmmCoreBot.StartTasks | mmm/core/strategy/bot.py:157-166 | `_start_bot` on the two task dicts: an id already there changes nothing; a new id gains a fresh running task in both dicts, appended to the bot tasks, and appended to the watchdogs unless it replaces one in place |
| MmmCoreBot.StartAll | mmm/core/strategy/bot.py:174-178 | after starting each bot in turn, exactly the ids not started before were added, in order of first occurrence, each with fresh running tasks |
| MmmCoreBot.StartStep | mmm/core/strategy/bot.py:176-178 | one more bot started keeps the relation between the task dicts and the ids started so far |
| MmmCoreBot.ExtendsKept | mmm/core/strategy/bot.py:159 | a bot that already has a task extends the started ids without changing the dicts |
| MmmCoreBot.ExtendsPut | mmm/core/strategy/bot.py:159-165 | a bot without a task extends the started ids by adding its bot task and watchdog |
| MmmCoreBot.Unstarted | mmm/core/strategy/bot.py:176-178 | an id is in the result exactly when it is among the ids and was not started before |
| MmmCoreBot.NextUnstarted | mmm/core/strategy/bot.py:176-178 | the next id adds itself to the unstarted ids exactly when it had no task yet |
| MmmCoreBot.HandelRoutes | mmm/core/strategy/bot.py:129-135 | the contract of `Bind`, the call of a table function: with the class table, STOP_BOT finds no function, START_ALL, START_BOT and STOP_ALL find theirs, and calling any of them with only the event raises TypeError |
| MmmCoreOkexWs.ToDispatch | mmm/core/datasource/okex/ws.py:71-75 | a single event is dispatched alone, a list element by element, anything else not at all |
| MmmCoreOkexWs.FrameAction | mmm/core/datasource/okex/ws.py:58-75 | a pong text marks the pong, a subscribe or error event is only logged, and otherwise the parser of the channel is applied and its events dispatched; a missing key or a failed parse is an error |
| MmmCoreOkexWs.FrameTurn | mmm/core/datasource/okex/ws.py:58-77 | a turn sees a pong exactly for a pong text; a failed frame raises; dispatching stops at the first event without a source and raises RuntimeError there |
| MmmCoreOkexWs.Turns | mmm/core/datasource/okex/ws.py:56-80 | one turn per frame, each the turn of that frame |
| MmmCoreOkexWs.Attempt | mmm/core/datasource/okex/ws.py:49-55 | an attempt fails its acknowledgement exactly when there is no first reply or it is not a subscribe event |
| MmmCoreOkexWs.OkexWsDatasource.constructor | mmm/core/datasource/okex/ws.py:22-25 | a new datasource has not received a pong |
| MmmCoreOkexWs.OkexWsDatasource.SendPing | mmm/core/datasource/okex/ws.py:27-31 | `ping` is sent and the pong flag cleared |
| MmmCoreOkexWs.OkexWsDatasource.CheckPong | mmm/core/datasource/okex/ws.py:32-34 | the check passes exactly when a pong arrived, and raises CollectionError otherwise |
| MmmCoreOkexWs.OkexWsDatasource.DispatchEach | mmm/core/datasource/okex/ws.py:73-75 | the events are dispatched in order up to the first without a source, which raises RuntimeError; the queues receive exactly the dispatched events |
| MmmCoreOkexWs.OkexWsDatasource.HandleTurn | mmm/core/datasource/okex/ws.py:57-77 | handling a frame does what its turn says: the pong flag is set by a pong and the queues receive the turn's events |
| MmmCoreOkexWs.OkexWsDatasource.ReceiveLoop | mmm/core/datasource/okex/ws.py:56-80 | given the frames' turns, the loop handles frames until the first failure and ends as the session of those turns: how many were handled, the exception, the pong flag and the events the queues received |
| MmmCoreOkexWs.OkexWsDatasource.ReceiveTurn | mmm/core/datasource/okex/ws.py:56-80 | one turn of the loop either ends the session there with its exception or lets it resume at the next frame; the pong flag and the queues take the turn's effect |
| MmmCoreOkexWs.OkexWsDatasource.DoSubscribe | mmm/core/datasource/okex/ws.py:49-80 | one connection: a missing or wrong acknowledgement fails the attempt, otherwise the receive loop runs; the pong flag and the queues follow the attempt's session |
| MmmCoreOkexWs.OkexWsDatasource.SubscribeAttempt | mmm/core/datasource/okex/ws.py:38-45 | one pass of the retry loop ends as its attempt, and the queues have then received everything the attempts so far sent, in order |
| MmmCoreOkexWs.OkexWsDatasource.SubscribeTask | mmm/core/datasource/okex/ws.py:36-47 | the task retries `_do_subscribe` for every connection, each ending as its attempt; the queues receive everything sent across the attempts, in order |
| MmmCoreOkexWs.DispatchStopsAtFirstFailure | mmm/core/datasource/okex/ws.py:56-80 | every frame handled before the stop parsed and had sources for all its events; the frame at the stop failed to parse or lacked a source (RuntimeError); running out of frames ends with ConnectionClosed |
| MmmCoreOkexWs.PongAfterPing | mmm/core/datasource/okex/ws.py:27-34 | a pong handled after the ping was sent lets the pong check pass |
| MmmCoreDispatcher.Fill | mmm/core/events/dispatcher.py:19-22 | offering events one by one to a queue that nothing drains: an unbounded queue takes all of them, a full one takes none, otherwise the events that fit are taken in order and the rest dropped |
| MmmCoreDispatcher.FillConcat | mmm/core/events/dispatcher.py:19-22 | offering `a` and then `b` leaves a queue as offering `a + b` does |
| MmmCoreDispatcher.Routed | mmm/core/events/dispatcher.py:16 | the events routed to a queue come from the input, and each is of a configured class whose source is that queue |
| MmmCoreDispatcher.RoutedConcat | mmm/core/events/dispatcher.py:16 | routing distributes over concatenation of the events |
| MmmCoreDispatcher.Accepted | mmm/core/events/dispatcher.py:15-18 | dispatching a sequence accepts the longest prefix whose classes all have a source; the next event, if any, has none |
| MmmCoreDispatcher.FilledByTrans | mmm/core/events/dispatcher.py:15-22 | two rounds of dispatching fill the queues as dispatching both event sequences in one round does |
| MmmCoreDispatcher.Dispatcher.constructor | mmm/core/events/dispatcher.py:12-13 | the dispatcher holds the configured sources |
| MmmCoreDispatcher.Dispatcher.Contents | mmm/core/events/dispatcher.py:13 | there is one queue content per configured source queue |
| MmmCoreDispatcher.Dispatcher.Dispatch | mmm/core/events/dispatcher.py:15-22 | an event whose class has no source raises RuntimeError; otherwise it completes, and it is appended to its source unless that queue is full, in which case it is dropped; every other queue is unchanged |
| MmmCoreDispatcher.Dispatcher.DispatchOffers | mmm/core/events/dispatcher.py:15-22 | the same dispatch stated as a fill: an accepted event is offered to exactly its class's queue, a refused one to none |
| MmmCoreDispatcher.OfferOne | mmm/core/events/dispatcher.py:19-22 | offering a single event is one `put_nowait`, and a single event is routed to a queue exactly when its class is configured with that queue |
| MmmDispatcher.Dispatcher.constructor | mmm/events/dispatcher.py:9-10 | the dispatcher holds the configured sources |
| MmmDispatcher.Dispatcher.Dispatch | mmm/events/dispatcher.py:12-19 | an event whose class has no source raises RuntimeError; otherwise it is appended to its source unless that queue is full, and every other queue is unchanged |
| SrcDsMsgHub.Delivered | src/mmm/core/hub/datasource_msg_hub/hub.py:19-22 | what a subscription's queue receives from a run of publications: exactly the messages that answer it, in order |
| SrcDsMsgHub.DeliveredConcat | src/mmm/core/hub/datasource_msg_hub/hub.py:19-22 | publishing `a` then `b` delivers what publishing `a + b` does |
| SrcDsMsgHub.GrewByTrans | src/mmm/core/hub/datasource_msg_hub/hub.py:19-22 | two rounds of publishing grow the queues as publishing both rounds' messages in one does |
| SrcDsMsgHub.AsyncioQueueDsMsgHub.constructor | src/mmm/core/hub/datasource_msg_hub/hub.py:15-17 | a new hub has no subscriptions |
| SrcDsMsgHub.AsyncioQueueDsMsgHub.Contents | src/mmm/core/hub/datasource_msg_hub/hub.py:17 | one queue content per subscription held |
| SrcDsMsgHub.AsyncioQueueDsMsgHub.Subscribe | src/mmm/core/hub/datasource_msg_hub/hub.py:24-27 | an object already subscribed gets its queue back with nothing changed; a new one gets a fresh empty queue stored under it |
| SrcDsMsgHub.AsyncioQueueDsMsgHub.Unsubscribe | src/mmm/core/hub/datasource_msg_hub/hub.py:29-31 | the entry is removed when present, and nothing changes otherwise |
| SrcDsMsgHub.AsyncioQueueDsMsgHub.Publish | src/mmm/core/hub/datasource_msg_hub/hub.py:19-22 | every queue whose subscription the message answers receives it once at its end; every other queue is unchanged |
| SrcDsMsgHub.SeparateQueuesForEqualSubscriptions | src/mmm/core/hub/datasource_msg_hub/hub.py:24-27 | two distinct subscription objects with equal fields get two different queues, and one message answering them lands in both |
| EventData.CommandValue | mmm/core/events/event.py:88-92 | every command has a value between 1 and 4 |
| EventData.CommandOf | mmm/core/events/event.py:88-92 | looking a command up by value succeeds exactly for 1 to 4, and then yields the member with that value |
| EventData.CommandRoundTrip | mmm/core/events/event.py:88-92 | every member is found again from its value, so no two members share a value |
| EventData.NameInjective | mmm/core/events/event.py:77-79 | no two constructor parameters share a spelling as keys of `locals()` |
| EventData.Clear | mmm/core/events/event.py:13-17 | the copy lacks the key, holds every other key of the data with its value, and equals the data when the key was absent |
| EventData.ClearIdempotent | mmm/core/events/event.py:13-17 | clearing a key twice is clearing it once |
| EventData.WithoutAbsent | mmm/core/events/event.py:15-16 | removing a key the dict does not hold leaves its key order unchanged |
| EventData.ClearFirst | mmm/core/events/event.py:13-17 | clearing the first key leaves the remaining keys in order |
| EventData.Locals | mmm/core/events/event.py:79 | `locals()` at the top of a constructor: `self` first, then each parameter with its argument, in parameter order |
| EventData.Arguments | mmm/core/events/event.py:79 | `clear(locals(), 'self')` holds exactly the parameters, in order, each with its argument |
| EventData.NewEvent | mmm/core/events/event.py:20-26 | `raw_data` reads back the data the event was built with |
| EventData.EventDataDefaultsToNone | mmm/core/events/event.py:21-22 | an event built without data has `raw_data` None |
| MmmCoreEvents.NewOrderEvent | mmm/core/events/event.py:76-85 | the attributes are the arguments, and `raw_data` maps the six parameter names, in order, to the arguments and then holds the `__class__` cell, which the call of `super` puts into `locals()` |
| MmmCoreEvents.NewBotControlEvent | mmm/core/events/event.py:95-100 | the command and bot id are the arguments, and `raw_data` maps `command` and `bot_id` to them and then holds `__class__` |
| MmmCoreEvents.BotIdDefaultsToNone | mmm/core/events/event.py:97 | a control event built without a bot id has bot id None, in its attribute and in `raw_data` |
| SrcInnerEvents.NewOrderCreationEvent | src/mmm/core/hub/inner_event_hub/event.py:37-46 | the attributes are the arguments, and because `super()` is called without arguments `raw_data` also holds the `__class__` cell after the six parameters |
| SrcInnerEvents.NewBotControlEvent | src/mmm/core/hub/inner_event_hub/event.py:56-61 | the command and bot id are the arguments, and `raw_data` maps `command`, `bot_id` and `__class__` |
| SrcInnerEvents.BotIdDefaultsToNone | src/mmm/core/hub/inner_event_hub/event.py:58 | a control event built without a bot id has bot id None, in its attribute and in `raw_data` |
| MmmEvents.NewOrderEvent | mmm/events/event.py:75-84 | the attributes are the arguments, and `raw_data` maps the five parameter names, in order, to the arguments and then holds `__class__` |
| OrderExecution.Screen | mmm/core/order/executor.py:42-46 | the chain passes exactly when every filter returns an allowing pair; a denial is Ok(false) at some denying filter; a verdict that does not unpack raises TypeError |
| OrderExecution.ResolveSticks | mmm/core/order/executor.py:27-35 | once a lookup produced a handler and wrote it back, every later lookup for that exchange returns the same handler, whatever credential it is given |
| MmmCoreOrderExecutor.Build | mmm/core/order/executor.py:29-33 | a handler is built exactly for OKEX or BINANCE, with the event's credential and of the exchange's kind |
| MmmCoreOrderExecutor.LookupKeepsMatching | mmm/core/order/executor.py:27-35 | a lookup keeps every cached handler of its exchange's kind, and yields a handler exactly for a listed exchange, an OKX handler exactly for OKEX |
| MmmCoreOrderExecutor.HandleSavesOnce | mmm/core/order/executor.py:40-49 | the contract of `Handle`, one `on_order_event`: one event saves one result or nothing, saves exactly when the filters allow it and the call completes, leaves the store untouched when a filter stops it, and otherwise writes the lookup back to the cache |
| MmmCoreOrderExecutor.NoFiltersReachHandler | mmm/core/order/executor.py:40-49 | with no filters the lookup always happens; a completed OKX event saves the OKX handler's result for it, which is SUCCESS exactly when the placement was confirmed |
| MmmCoreOrderExecutor.RunSpec | mmm/core/order/executor.py:51-56 | the contract of `Run`, the consumer task: the consumer stops early exactly when an event raised, and then at that event; it only appends to storage, at most once per completed event |
| MmmCoreOrderExecutor.SavedForEvent | mmm/core/order/executor.py:47-49 | with no filters and a matching cache, a completed call appends exactly one entry, which belongs to the event, and keeps the cache matching |
| MmmCoreOrderExecutor.RunWithoutFilters | mmm/core/order/executor.py:51-56 | with no filters and a matching cache, storage grows by one entry per completed event, in queue order, each belonging to its event |
| MmmCoreOrderExecutor.RunKeepsMatching | mmm/core/order/executor.py:51-56 | with no filters, the consumer keeps every cached handler of its exchange's kind |
| MmmCoreOrderExecutor.RaisedKeepsStore | mmm/core/order/executor.py:47-49 | with no filters and a matching cache, a call that raises saves nothing and keeps the cache matching |
| MmmCoreOrderExecutor.SavedChain | mmm/core/order/executor.py:54-56 | an entry for the first event followed by entries for the next `k` events, in order, are entries for the first `k + 1` events |
| MmmCoreOrderExecutor.BelongsShift | mmm/core/order/executor.py:54-56 | entries that belong to the first event and then to the rest belong to the events position by position |
| MmmCoreOrderExecutor.OrderExecutor.constructor | mmm/core/order/executor.py:19-25 | a new executor has the configured source (possibly none), an empty handler cache, no filters and nothing saved |
| MmmCoreOrderExecutor.OrderExecutor.GetOrderHandler | mmm/core/order/executor.py:27-35 | the cached handler if there is one, else the one built for the exchange; the result, None included, is written back to the cache |
| MmmCoreOrderExecutor.OrderExecutor.SetHandler | mmm/core/order/executor.py:37-38 | the cache maps the exchange to the handler and nothing else changes |
| MmmCoreOrderExecutor.OrderExecutor.Permits | mmm/core/order/executor.py:41-46 | the filter loop answers as the filter chain does |
| MmmCoreOrderExecutor.OrderExecutor.OnOrderEvent | mmm/core/order/executor.py:40-49 | the outcome and the new cache and storage are one step of handling the event |
| MmmCoreOrderExecutor.OrderExecutor.Consume | mmm/core/order/executor.py:51-56 | with no source the task raises AttributeError at once and changes nothing; otherwise it runs the consumer over the arrivals |
| SrcOrderExecutor.Build | src/mmm/core/order/executor.py:26-30 | a handler is built exactly for OKEX or BINANCE, with the event's credential and of the exchange's kind |
| SrcOrderExecutor.HandleSavesOnce | src/mmm/core/order/executor.py:37-46 | the contract of `Handle`, one `on_order_event`: one event saves one result or nothing, exactly when the filters allow it and the call completes; a stopped event changes nothing; a saved OKX result is never CREATED and carries the event's id |
| SrcOrderExecutor.RunSpec | src/mmm/core/order/executor.py:48-53 | the contract of `Run`, the consumer task: the consumer stops early exactly when a real event raised, and saves only by appending, at most once per real event consumed |
| SrcOrderExecutor.SkipsOnlyNone | src/mmm/core/order/executor.py:51-53 | falsy items are taken and skipped without touching the cache or storage |
| SrcOrderExecutor.OrderExecutor.constructor | src/mmm/core/order/executor.py:18-22 | a new executor has an empty handler cache, no filters and nothing saved |
| SrcOrderExecutor.OrderExecutor.GetOrderHandler | src/mmm/core/order/executor.py:24-32 | the cached handler if there is one, else the one built for the exchange; the result, None included, is written back to the cache |
| SrcOrderExecutor.OrderExecutor.SetHandler | src/mmm/core/order/executor.py:34-35 | the cache maps the exchange to the handler and nothing else changes |
| SrcOrderExecutor.OrderExecutor.Permits | src/mmm/core/order/executor.py:38-43 | the filter loop answers as the filter chain does |
| SrcOrderExecutor.OrderExecutor.OnOrderEvent | src/mmm/core/order/executor.py:37-46 | the outcome and the new cache and storage are one step of handling the event |
| SrcOrderExecutor.OrderExecutor.RunExecutor | src/mmm/core/order/executor.py:48-53 | the executor subscribes to the hub under the type `OrderCreationEvent`, returns that queue, and runs the consumer over the items it hands out |
| SrcOrderExecutor.OrderExecutor.Consume | src/mmm/core/order/executor.py:50-53 | the `while True` loop takes the items in order, skips a falsy one, hands the rest to `on_order_event`, and stops at the first exception, leaving the store as the consumer `Run` says |
| MmmOrderExecutor.Build | mmm/order/executor.py:26-34 | a handler is built exactly for OKEX or BINANCE, with the event's credential and of the exchange's kind |
| MmmOrderExecutor.HandleSavesIfFound | mmm/order/executor.py:55-71 | the contract of `Handle`, one `on_order_event`: a call saves at most one row, saves exactly when the checks pass, a handler exists, creation succeeds and the query finds the order, and the row is the found order under the event's `uniq_id` |
| MmmOrderExecutor.Found | mmm/order/executor.py:66-71 | completed events add at most one row each |
| MmmOrderExecutor.RunSavesFound | mmm/order/executor.py:73-78 | the contract of `Run`, the consumer task: with no middlewares and only listed exchanges, the task stops early exactly when an event raised, and the rows saved are exactly the found orders of the completed events, in arrival order |
| MmmOrderExecutor.FoundPrefix | mmm/order/executor.py:73-78 | the rows of a non-empty prefix of arrivals are those of its first event followed by those of the rest |
| MmmOrderExecutor.HandleUnscreened | mmm/order/executor.py:63-71 | with no middlewares and a listed exchange, a completed call saves exactly the event's found order, if any |
| MmmOrderExecutor.OrderExecutor.constructor | mmm/order/executor.py:19-24 | a new executor has the configured source (possibly none), an empty handler cache, no middlewares and nothing saved |
| MmmOrderExecutor.OrderExecutor.GetOrderHandler | mmm/order/executor.py:26-34 | the cached handler if there is one, else the one built for the exchange; the result, None included, is written back to the cache |
| MmmOrderExecutor.OrderExecutor.SetHandler | mmm/order/executor.py:36-37 | the cache maps the exchange to the handler and nothing else changes |
| MmmOrderExecutor.OrderExecutor.Permits | mmm/order/executor.py:56-61 | the `check` loop answers as the filter chain does |
| MmmOrderExecutor.OrderExecutor.OnOrderEvent | mmm/order/executor.py:55-71 | the outcome and the new cache and rows are one step of handling the event |
| MmmOrderExecutor.OrderExecutor.Consume | mmm/order/executor.py:73-80 | with no source the task raises AttributeError at once and changes nothing; otherwise it runs the consumer over the arrivals |
| Frames.Decode | mmm/core/datasource/okex/ws.py:63 | `json.loads` succeeds exactly on a JSON frame and yields its document; any other text raises JSONDecodeError |
| Frames.Acknowledged | mmm/core/datasource/okex/ws.py:52-54 | the first reply passes exactly when it is JSON whose `event` is `subscribe` |
| MmmCoreInnerEventHub.AsyncioQueueEventHub.constructor | mmm/core/hub/inner_event_hub/hub.py:8-10 | a new hub has no subscriptions |
| MmmCoreInnerEventHub.AsyncioQueueEventHub.Subscribe | mmm/core/hub/inner_event_hub/hub.py:12-15 | a type already subscribed gets its queue back with nothing changed; a new type gets a fresh empty queue stored under it |
| MmmCoreInnerEventHub.AsyncioQueueEventHub.Unsubscribe | mmm/core/hub/inner_event_hub/hub.py:17-19 | the entry is removed when present, and nothing changes otherwise |
| MmmCoreInnerEventHub.AsyncioQueueEventHub.Publish | mmm/core/hub/inner_event_hub/hub.py:21-23 | only the queue of the message's exact class receives it, once at its end; every other queue is unchanged, and with no such queue the message is discarded |
| MmmCoreInnerEventHub.SubscribeIsIdempotent | mmm/core/hub/inner_event_hub/hub.py:12-15 | subscribing twice to one type hands out the same queue, and a type already present leaves the hub unchanged |
| MmmStrategyBase.Visit | mmm/strategy/core/base.py:19-24 | one namespace entry keeps both registries well formed |
| MmmStrategyBase.Collect | mmm/strategy/core/base.py:16-24 | the loop over the class namespace never fails and keeps both registries well formed |
| MmmStrategyBase.CollectEvents | mmm/strategy/core/base.py:18-21 | the event registry holds exactly the events subscribed to; an event the body does not give keeps its entry; each event maps to the method subscribing to it last, with no repeat rejected |
| MmmStrategyBase.CollectTimers | mmm/strategy/core/base.py:18-24 | the timer registry holds exactly the intervals given; an interval the body does not give keeps its entry; each interval maps to the method giving it last |
| MmmStrategyBase.EventInCons | mmm/strategy/core/base.py:18-21 | an event is given by the entries exactly when the first entry or one of the rest gives it |
| MmmStrategyBase.LastEventAtCons | mmm/strategy/core/base.py:18-21 | the last place giving an event is, past the first entry, the last such place of the rest |
| MmmStrategyBase.TimerInCons | mmm/strategy/core/base.py:22-24 | an interval is given by the entries exactly when the first entry or one of the rest gives it |
| MmmStrategyBase.LastTimerAtCons | mmm/strategy/core/base.py:22-24 | the last place giving an interval is, past the first entry, the last such place of the rest |
| MmmStrategyBase.NewStrategyClass | mmm/strategy/core/base.py:14-28 | creating a strategy class never fails, and its registries come from the class body alone, whatever the bases |
| MmmStrategyBase.Strategy.constructor | mmm/strategy/core/base.py:35-37 | the strategy keeps its class, its unique id and its credential |
| MmmStrategyBase.ReprDeterminesId | mmm/strategy/core/base.py:40-44 | `get_id` (`Strategy.GetId`) returns the id the strategy was made with; two strategies have the same `repr` exactly when they have the same id |
| MmmStrategyBase.Strategy.Repr | mmm/strategy/core/base.py:43-44 | `repr` is "strategy." followed by the id the strategy was made with |
| MmmStrategyBase.StrategyRunner.constructor | mmm/strategy/core/base.py:48-51 | a new runner has no tasks |
| MmmStrategyBase.StrategyRunner.CreateListeningTasks | mmm/strategy/core/base.py:88-105 | one fresh running task is appended per event registry entry, in registry order, also for an event without a source; earlier tasks are kept |
| MmmStrategyBase.StrategyRunner.CreateScheduleTask | mmm/strategy/core/base.py:71-86 | one fresh running task is appended per timer registry entry, in registry order; earlier tasks are kept |
| MmmStrategyBase.StrategyRunner.CreateMonitorTask | mmm/strategy/core/base.py:61-69 | one fresh monitor task is created outside the task list, which is unchanged |
| MmmStrategyBase.StrategyRunner.CreateTasks | mmm/strategy/core/base.py:107-110 | the list grows by the listening tasks then the schedule tasks, all fresh and running, and one monitor is added |
| SrcOkexParser.TradeItem | src/mmm/core/datasource/okex/parser.py:15-16 | an element builds a trades response exactly when it has the five fields, `px` and `sz` convert to `Decimal` and `ts` converts with `int`; the response carries its instrument, side, price, size and timestamp and the given origin; a malformed `px` raises its conversion error before `sz` is looked at |
| SrcOkexParser.TradeItems | src/mmm/core/datasource/okex/parser.py:14-18 | the loop succeeds exactly when every element does, giving one response per element in order; otherwise it raises the error of the first failing element |
| SrcOkexParser.CandleBar | src/mmm/core/datasource/okex/parser.py:26-37 | a bar is built exactly when `arg` has channel and instrument, row position 0 converts with `int` and positions 1 to 6 convert to `Decimal`; it takes channel and instrument from `arg`, the seven values from positions 0 to 6 and the whole frame as origin; a row shorter than seven raises |
| SrcOkexParser.CandleBars | src/mmm/core/datasource/okex/parser.py:24-39 | the loop succeeds exactly when every row does, giving one bar per row in order; otherwise it raises the error of the first failing row |
| SrcOkexParser.TradesParsePerElement | src/mmm/core/datasource/okex/parser.py:11-18 | a trades frame whose elements all have the five fields, with convertible price, size and timestamp, parses to one response per element, each with its own instrument and side and the data list, not the frame, as origin |
| SrcOkexParser.ParseTrades | src/mmm/core/datasource/okex/parser.py:11-18 | `TradesParser.parse`: a parsed frame has a data list that can be iterated, and yields one trades response per element, each with that data list, not the frame, as origin |
| SrcOkexParser.MalformedPriceFailsParse | src/mmm/core/datasource/okex/parser.py:14-16 | when every earlier element converts and an element's `px` is text `Decimal` rejects, the whole parse raises InvalidOperation and publishes nothing |
| Conversions.ToDecimal | src/mmm/core/datasource/okex/parser.py:15-16 | `Decimal(x)` of a JSON number or boolean succeeds; of a string it succeeds exactly when the text, stripped of surrounding whitespace and underscores, is a signed finite decimal or Infinity/NaN, and raises InvalidOperation otherwise; of a list it succeeds exactly when the list has the `(sign, digits, exponent)` form, and otherwise raises the ValueError or OverflowError `TupleFault` names; None and dicts raise TypeError; a result remembers its input |
| Conversions.TupleFault | src/mmm/core/datasource/okex/parser.py:15-16 | a list raises nothing exactly when it has the `(sign, digits, exponent)` form: three items, a sign 0 or 1, a list of digits 0 to 9, and an exponent that is an int within a C `long` or one of "F", "n", "N"; otherwise it raises ValueError or OverflowError |
| Conversions.DigitsFault | src/mmm/core/datasource/okex/parser.py:15-16 | the coefficient raises nothing exactly when every item is an int from 0 to 9, and otherwise ValueError or OverflowError |
| Conversions.DigitsFaultAt | src/mmm/core/datasource/okex/parser.py:15-16 | the first coefficient item that is not a digit decides the error: OverflowError for an int too wide for a C `long`, ValueError for anything else; later items are not looked at |
| Conversions.AsTupleConverts | src/mmm/core/datasource/okex/parser.py:15-16 | every list `[sign, [digits], exponent]` with sign 0 or 1, digits 0 to 9 and an exponent within a C `long`, such as `[0, [4, 2], -1]`, converts |
| Conversions.MalformedTupleRaises | src/mmm/core/datasource/okex/parser.py:15-16 | a list of another length than three raises ValueError; a sign that is an int other than 0 or 1 raises ValueError, or OverflowError when it is too wide for a C `long`, whatever follows it |
| Conversions.ToTimestamp | src/mmm/core/datasource/okex/parser.py:15-16 | `int(x)` of a JSON number or boolean succeeds; of a string it succeeds exactly when the stripped, optionally signed text is digits with single underscores between them, and raises ValueError otherwise; any other value raises TypeError |
| Conversions.IntTextIsDecimalText | src/mmm/core/datasource/okex/parser.py:15-16 | every text `int` accepts, `Decimal` accepts too |
| Conversions.OkxTextConverts | src/mmm/core/datasource/okex/parser.py:15-16 | every OKX-style price `a.b` of digits, such as "42.1", converts to `Decimal`, and every millisecond timestamp of digits, such as "1597026383085", converts with `int` |
| Conversions.FractionFinite | src/mmm/core/datasource/okex/parser.py:15-16 | digits, a point and digits, with at least one digit, form a finite number with no sign, no underscore and nothing to strip |
| Conversions.FractionIsDecimalText | src/mmm/core/datasource/okex/parser.py:15-16 | every text `a.b` of digits with at least one digit is accepted by `Decimal` |
| Conversions.SignedFractionIsDecimalText | src/mmm/core/datasource/okex/parser.py:15-16 | the same text after a `+` or `-` sign is accepted too |
| Conversions.DigitsAreIntText | src/mmm/core/datasource/okex/parser.py:15-16 | every non-empty text of digits is accepted by `int` |
| Conversions.DecimalTextChars | src/mmm/core/datasource/okex/parser.py:15-16 | every character of a text `Decimal` accepts is a digit, point, sign, underscore, whitespace or a letter of `e`, `infinity`, `nan`, `snan` |
| Conversions.DecimalRejectsStrayChar | src/mmm/core/datasource/okex/parser.py:15-16 | any text holding another character makes `Decimal` raise InvalidOperation |
| Conversions.IntTextChars | src/mmm/core/datasource/okex/parser.py:15-16 | every character of a text `int` accepts is a digit, sign, underscore or whitespace |
| Conversions.TimestampRejectsStrayChar | src/mmm/core/datasource/okex/parser.py:15-16 | any text holding another character, such as a decimal point, makes `int` raise ValueError |
| Conversions.MalformedTextRaises | src/mmm/core/datasource/okex/parser.py:15-16 | "abc" and the empty string raise InvalidOperation, "1.5" raises ValueError in `int`, and null raises TypeError in both |
| SrcOkexParser.CandleParsePerRow | src/mmm/core/datasource/okex/parser.py:23-39 | every bar of a parsed candle frame has the frame's channel and instrument and the whole frame as origin, one bar per row |
| SrcOkexParser.ParseCandles | src/mmm/core/datasource/okex/parser.py:23-39 | `CandleParser.parse`: a parsed frame has a data list that can be iterated, and yields one candle response per row, each with the whole frame as origin |
| SrcOkexParser.Parse | src/mmm/core/datasource/okex/ws.py:88 | `parse` of the looked-up parser: every response is a trades response exactly when the parser is the trades parser |
| SrcOkexParser.EmptyDataParsesToNothing | src/mmm/core/datasource/okex/parser.py:11-39 | a frame with an empty data list parses to no responses with either parser |
| SrcOkexParser.ModuleFactory | src/mmm/core/datasource/okex/parser.py:42-43 | the module factory registers only the trades parser, under "trades" |
| SrcOkexParser.ModuleFactoryLookup | src/mmm/core/datasource/okex/parser.py:42-43 | with the module factory a channel gets the trades parser exactly when it starts with "trades"; candle channels raise RuntimeError |
| MmmCoreOkexSubscription.SubscriptionRef.constructor | mmm/core/datasource/okex/subscription.py:29-30 | a subscription object keeps the fields it was made with |
| MmmCoreOkexSubscription.EqualToIsValueEquality | mmm/core/datasource/okex/subscription.py:32-33 | `equal_to` holds exactly between subscriptions of the same class with the same fields, so it is reflexive and symmetric |
| MmmCoreOkexSubscription.EqualTo | mmm/core/datasource/okex/subscription.py:32-33 | `equal_to` of `OKEXTrades`, and of `OKEXCandle` at lines 63-64, holds exactly when the two subscription values are equal |
| MmmCoreOkexSubscription.ResponseForIsAnswers | mmm/core/datasource/okex/subscription.py:56-57 | a response answers a subscription exactly when that subscription is the one value it names, so it answers at most one value |
| MmmCoreOkexSubscription.ResponseFor | mmm/core/datasource/okex/subscription.py:56-57 | `response_for` of a trades response, and of a candle response at lines 98-99, holds exactly for the one subscription value the response names |
| MmmCoreOkexSubscription.ResponseForRespectsEqualTo | mmm/core/datasource/okex/subscription.py:98-99 | a response cannot tell `equal_to` subscriptions apart |
| MmmCoreOkexSubscription.NoCrossChannelMatch | mmm/core/datasource/okex/subscription.py:56-57 | a trades response never answers a candle subscription, nor a candle response a trades subscription |
| MmmCoreOkexSubscription.MatchedResponseCarriesTopic | mmm/core/datasource/okex/subscription.py:35-42 | a matched response is from OKX like its subscription and carries the instrument, and for candles the channel, of the subscription's single-argument subscribe topic |
| MmmCoreOkexSubscription.CandleNamedTradesSharesTopic | mmm/core/datasource/okex/subscription.py:63-79 | a candle subscription whose candle type is "trades" sends the same topic as a trades subscription, yet the two are not `equal_to` |
| Orders.Created | mmm/core/order/handler.py:42-50 | the fresh result is CREATED, carries the event's identifiers, client order id and params, and has no message, order id or reply yet |
| Orders.FirstDataField | mmm/core/order/handler.py:66 | reading `data[0][key]` succeeds only when the reply has a `data` list with a first element |
| Types.Field | src/mmm/core/datasource/okex/parser.py:13 | `j[key]` succeeds exactly on a dict holding the key, with its first value; a missing key raises KeyError and a non-dict TypeError |
| Types.GetKey | src/mmm/core/order/handler.py:61 | `j.get(key)` succeeds exactly on a dict; on anything else it raises AttributeError |
| Types.GetKeyAgreesWithField | src/mmm/core/order/handler.py:61 | on a dict, `j.get(key)` gives the value `j[key]` would, and None exactly when `j[key]` raises |
| Types.Index | src/mmm/core/datasource/okex/parser.py:29-35 | `j[k]` of a list within bounds is that item; a successful read is of a list or a string within bounds |
| MmmCoreOrderHandler.OkexResult | mmm/core/order/handler.py:38-77 | a returned result carries the event's `uniq_id` |
| MmmCoreOrderHandler.Settled | mmm/core/order/handler.py:51-77 | the `try`/`except` ends with SUCCESS exactly when the order was confirmed and FAILED otherwise, and changes only the status, message, order id and raw reply |
| MmmCoreOrderHandler.OkexResultSpec | mmm/core/order/handler.py:38-77 | only a missing `clOrdId` or `instId` raises, with that lookup's error; a returned result carries the event's identifiers and params, is SUCCESS exactly when placement and query both read code '0' (then holding the placement's order id and reply) and FAILED otherwise with a message naming the crash or the rejection |
| MmmCoreOrderHandler.OkexCreateOrder | mmm/core/order/handler.py:38-77 | the handler returns or raises what the result function says, and issues the query exactly when the placement read code '0' |
| MmmCoreOrderHandler.CreateOrder | mmm/core/order/handler.py:93-94 | the Binance stub returns None; the OKX handler's result carries the event's id and is SUCCESS exactly when the order was confirmed |
| SrcOrderHandler.OkexResult | src/mmm/core/order/handler.py:37-69 | a returned result carries the event's `uniq_id` |
| SrcOrderHandler.Placed | src/mmm/core/order/handler.py:50-58 | the `try` changes only the status and message, and only to FAILED with the dumped reply; a placement exception or a reply without `code` changes nothing |
| SrcOrderHandler.Confirm | src/mmm/core/order/handler.py:59-69 | the `finally` raises exactly the query stage's exception; otherwise the result is never CREATED, is SUCCESS exactly when the reply reads code '0', and differs only in status, message, order id and reply |
| SrcOrderHandler.OkexResultSpec | src/mmm/core/order/handler.py:37-69 | a missing `clOrdId` or `instId` raises first; after them only the query stage raises; a returned result is never CREATED, is SUCCESS exactly when the query reads code '0', whatever the placement did, and then holds the query's order id and reply |
| SrcOrderHandler.PlacementDoesNotDecide | src/mmm/core/order/handler.py:50-69 | two calls differing only in the placement reply both raise or both return, and then agree on everything but the message |
| SrcOrderHandler.OkexCreateOrder | src/mmm/core/order/handler.py:37-69 | the handler returns or raises what the result function says |
| SrcOrderHandler.CreateOrder | src/mmm/core/order/handler.py:83-84 | the Binance stub returns None; the OKX handler's result carries the event's id and is never CREATED |
| MmmCoreParserFactory.FirstPrefixIsFirstMatch | mmm/core/datasource/parser.py:17-22 | the contract of `FirstPrefix`, the for-else of `get`: the lookup fails with RuntimeError exactly when no key is a prefix of the channel; otherwise it returns the parser of the earliest matching key in insertion order |
| MmmCoreParserFactory.EmptyKeyMatchesEverything | mmm/core/datasource/parser.py:17-22 | an empty-string key makes every channel found |
| MmmCoreParserFactory.FirstMatchNotLongest | mmm/core/datasource/parser.py:18-20 | with "t" registered before "trades", the channel "trades" gets the parser of "t", not of the longer key |
| MmmCoreParserFactory.ParserFactory.constructor | mmm/core/datasource/parser.py:14-15 | a new factory has an empty registry |
| MmmCoreParserFactory.ParserFactory.Register | mmm/core/datasource/parser.py:24-25 | the channel is mapped to the parser; a new channel is appended to the key order, an existing one keeps its place |
| MmmCoreParserFactory.ParserFactory.Get | mmm/core/datasource/parser.py:17-22 | the lookup scans the keys in insertion order and returns the first prefix match, or RuntimeError |
| MmmPosition.Asset.constructor | mmm/position/manager.py:5 | an asset keeps its instrument id and amount |
| MmmPosition.FirstIndex | mmm/position/manager.py:24-27 | the position of the first holding of the id: no earlier holding has it, and the result is the length when none does |
| MmmPosition.Ids | mmm/position/manager.py:24-25 | the instrument ids of the holdings, position by position |
| MmmPosition.CreditedShape | mmm/position/manager.py:23-29 | the contract of `Credited`, the holdings after `add`: `add` keeps the ids unique and their order, changes only the holding of the id, grows the list exactly when the id was not held, and then appends the new holding |
| MmmPosition.DebitedShape | mmm/position/manager.py:31-37 | the contract of `Debited`, the holdings after `cost`: `cost` never changes which ids are held or their order, changes only the holding of the id, and changes nothing for an id not held |
| MmmPosition.DebitUndoesCredit | mmm/position/manager.py:23-37 | for a held instrument, costing what was just added, or adding what was just costed, restores the holdings |
| MmmPosition.IdsKept | mmm/position/manager.py:26 | a new amount for one holding keeps the ids |
| MmmPosition.StrategyPosition.constructor | mmm/position/manager.py:10-11 | the position holds the given assets, in order, as the same asset objects |
| MmmPosition.StrategyPosition.InstIds | mmm/position/manager.py:24-25 | the ids of the assets, in list order |
| MmmPosition.StrategyPosition.Holdings | mmm/position/manager.py:10-11 | each asset's id and amount, in list order |
| MmmPosition.StrategyPosition.Add | mmm/position/manager.py:23-29 | the first asset with the id grows in place by the amount and no other amount changes; with none the asset object itself is appended; for a list of distinct objects the holdings become the credited holdings |
| MmmPosition.StrategyPosition.Cost | mmm/position/manager.py:31-37 | the first asset with the id shrinks in place by the amount, with no lower bound, and nothing else changes; for a list of distinct objects the holdings become the debited holdings |
| MmmPosition.StrategyPosition.Find | mmm/position/manager.py:24-25 | the loop finds the position of the first asset with the id, or the length of the list |
| MmmPosition.StrategyPosition.GetAsset | mmm/position/manager.py:39-43 | the first asset with the id, or None when there is none |
| Sessions.SessionStopsAtFirstFailure | mmm/core/datasource/okex/ws.py:56-80 | the receive loop stops at the first frame that raises, with its exception, and only there; running out of frames is ConnectionClosed; what was sent on is what the handled frames and the failing one sent |
| Sessions.SessionPong | mmm/core/datasource/okex/ws.py:59-61 | the loop has seen a pong exactly when one of the frames handled before the stop was a pong |
| Sessions.ResumesStart | mmm/core/datasource/okex/ws.py:56 | the loop starts with no frame handled, no pong seen and nothing sent |
| Sessions.ResumesStep | mmm/core/datasource/okex/ws.py:57-80 | a raising frame ends the loop there with what was sent so far; a completed frame continues it with the frame's pong and events added |
| Sessions.ResumesEnd | mmm/core/datasource/okex/ws.py:56-80 | handling every frame ends the loop with ConnectionClosed and the accumulated pong flag and events |
| SrcOkexWs.BatchArgs | src/mmm/core/datasource/okex/ws.py:45-47 | the collected args are each subscription's topic args, one per subscription, in input order |
| SrcOkexWs.BatchRequest | src/mmm/core/datasource/okex/ws.py:41-47 | one subscribe request whose args are the subscriptions' topic args, in order |
| SrcOkexWs.BatchArgsConcat | src/mmm/core/datasource/okex/ws.py:45-47 | batching two lists one after the other gives the concatenation of their args |
| SrcOkexWs.ChannelParser | src/mmm/core/datasource/okex/ws.py:87-88 | a string channel gets the parser of the first registered prefix; with no parser registered any channel raises RuntimeError, because the loop body never runs; a non-string channel with some parser registered raises AttributeError from `startswith` |
| SrcOkexWs.NonStringChannelRaises | src/mmm/core/datasource/okex/ws.py:86-88 | a data frame whose `arg.channel` is not a string fails with RuntimeError when no parser is registered and with AttributeError otherwise |
| SrcOkexWs.FrameAction | src/mmm/core/datasource/okex/ws.py:76-90 | a pong text marks the pong, a subscribe or error event is only logged, and any other document is parsed by its channel's parser and every response published |
| SrcOkexWs.FrameTurn | src/mmm/core/datasource/okex/ws.py:76-92 | a turn sees a pong exactly for the pong text |
| SrcOkexWs.Turns | src/mmm/core/datasource/okex/ws.py:74-95 | one turn per frame, each the turn of that frame |
| SrcOkexWs.ReceiveStopsAtFirstFailure | src/mmm/core/datasource/okex/ws.py:74-95 | the loop stops at the first frame whose handling raises, with that frame's exception, and only then; running out of frames is ConnectionClosed; it saw a pong exactly when a handled frame was `pong` |
| SrcOkexWs.LoginAccepted | src/mmm/core/datasource/okex/ws.py:65-68 | the login passes exactly when the reply is JSON whose code is '0' |
| SrcOkexWs.Shake | src/mmm/core/datasource/okex/ws.py:57-72 | the stream starts after the login reply and the acknowledgement (after the acknowledgement alone without a credential), and the login is rejected exactly when there is a credential and the first reply's code is not '0' |
| SrcOkexWs.OkexWsDatasource.constructor | src/mmm/core/datasource/okex/ws.py:24-29 | a new datasource keeps its credential, factory and hub and has not received a pong |
| SrcOkexWs.OkexWsDatasource.SendPing | src/mmm/core/datasource/okex/ws.py:31-35 | `ping` is sent and the pong flag cleared |
| SrcOkexWs.OkexWsDatasource.CheckPong | src/mmm/core/datasource/okex/ws.py:36-38 | the check passes exactly when a pong arrived, and raises CollectionError otherwise |
| SrcOkexWs.OkexWsDatasource.PublishEach | src/mmm/core/datasource/okex/ws.py:89-90 | each queue grows by exactly the published responses that answer its subscription, in order |
| SrcOkexWs.OkexWsDatasource.HandleFrame | src/mmm/core/datasource/okex/ws.py:76-90 | handling a frame yields its action, sets the pong flag on a pong, publishes the parsed responses, and publishes nothing on failure, a non-string channel included |
| SrcOkexWs.OkexWsDatasource.HandleTurn | src/mmm/core/datasource/okex/ws.py:75-95 | handling a frame does what its turn says to the pong flag and the hub's queues |
| SrcOkexWs.OkexWsDatasource.ReceiveLoop | src/mmm/core/datasource/okex/ws.py:74-95 | the loop ends as the session of the frames' turns: how many were handled, the exception, the pong flag and what the hub's queues received |
| SrcOkexWs.OkexWsDatasource.ReceiveTurn | src/mmm/core/datasource/okex/ws.py:75-95 | one turn of the loop either ends the session there with its exception or lets it resume at the next frame, with the pong flag and queues updated by the turn |
| SrcOkexWs.OkexWsDatasource.Subscribe | src/mmm/core/datasource/okex/ws.py:40-95 | the login is sent with a credential, the batched topics unless the login failed or was rejected; a failed handshake changes no queue or flag; otherwise the call ends with the receive loop's session |
| SrcOkexWs.LoginGate | src/mmm/core/datasource/okex/ws.py:65-68 | with a credential, a login reply whose code is not '0' means the topics are never sent, and a reply without code fails the attempt |
| SrcOkexWs.PongAfterPing | src/mmm/core/datasource/okex/ws.py:31-38 | a pong handled after the ping was sent lets the pong check pass |
| MmmCoreStrategy.FirstEqual | mmm/core/strategy/strategy.py:23-26 | over subscription keys only, the answer is whether some key is `equal_to` the subscription; an error is AttributeError and needs a key that is not a subscription |
| MmmCoreStrategy.SubRegistry.constructor | mmm/core/strategy/strategy.py:17-18 | a new subscription registry is empty |
| MmmCoreStrategy.SubRegistry.Exists | mmm/core/strategy/strategy.py:20-26 | False for anything that is not a subscription; otherwise the scan of the keys for one `equal_to` it |
| MmmCoreStrategy.SubRegistry.Register | mmm/core/strategy/strategy.py:28-29 | the subscription object is mapped to the method name, inserted or overwritten in place |
| MmmCoreStrategy.TimerRegistry.constructor | mmm/core/strategy/strategy.py:42-43 | a new timer registry is empty |
| MmmCoreStrategy.TimerRegistry.Exists | mmm/core/strategy/strategy.py:45-48 | the answer compares the interval with the first registered key only, and is False when there is none |
| MmmCoreStrategy.TimerRegistry.Register | mmm/core/strategy/strategy.py:50-51 | the interval is mapped to the method name, inserted or overwritten in place |
| MmmCoreStrategy.Visit | mmm/core/strategy/strategy.py:67-78 | one namespace entry keeps both registries well formed |
| MmmCoreStrategy.Fold | mmm/core/strategy/strategy.py:67-78 | the loop over the namespace keeps both registries well formed, whether or not it fails |
| MmmCoreStrategy.VisitAppendsNew | mmm/core/strategy/strategy.py:68-72 | an entry that passes adds its subscription object, `equal_to` no earlier key, at the end of the registry, and an entry without one adds nothing |
| MmmCoreStrategy.FoldRejectsRepeats | mmm/core/strategy/strategy.py:67-72 | a class creation that succeeds has subscribed no object `equal_to` one registered before, by this class or through the shared registry, nor two `equal_to` each other |
| MmmCoreStrategy.ZeroIntervalSkipped | mmm/core/strategy/strategy.py:74-78 | a zero interval is falsy and never registered |
| MmmCoreStrategy.FirstTimerRepeatRejected | mmm/core/strategy/strategy.py:74-76 | a second method with the first registered interval fails class creation with TimerError |
| MmmCoreStrategy.LaterTimerRepeatOverwrites | mmm/core/strategy/strategy.py:74-78 | a repeat of an interval registered later is not detected, and its new method silently replaces the earlier one |
| MmmCoreStrategy.EqualToReflexive | mmm/core/strategy/strategy.py:23-25 | every subscription is `equal_to` itself, so a subscription registered twice is found |
| MmmCoreStrategy.StrategyName | mmm/core/strategy/strategy.py:124-126 | the strategy name is the module name, a dot, then the class name |
| MmmCoreStrategy.StrategyNamesDistinguishClasses | mmm/core/strategy/strategy.py:124-126 | two classes of one module have the same strategy name exactly when they have the same name |
| MmmCoreStrategy.StrategyClass.GetStrategyName | mmm/core/strategy/strategy.py:124-126 | a class's `get_strategy_name()` is its module, a dot, then its name |
| MmmCoreStrategy.StrategyClass.constructor | mmm/core/strategy/strategy.py:80-82 | the class keeps its module, name and the two registry objects |
| MmmCoreStrategy.StrategyClass.GetSubscriptions | mmm/core/strategy/strategy.py:136-140 | the subscriptions are the registry's keys in registration order |
| MmmCoreStrategy.VisitEntry | mmm/core/strategy/strategy.py:67-78 | one turn of the loop on the registries in place leaves them, and fails, as one namespace entry says |
| MmmCoreStrategy.VisitAll | mmm/core/strategy/strategy.py:67-78 | the loop on the registries in place leaves them, and fails, as the fold over the namespace says |
| MmmCoreStrategy.NewStrategyClass | mmm/core/strategy/strategy.py:57-87 | a first base without registries raises AttributeError; a strategy base's registries are shared and filled in place, whether or not creation fails; with no bases fresh registries are filled; creation fails exactly when the fold does, with its exception |
| MmmCoreStrategyBase.OrderManager.constructor | mmm/core/order/manager.py:26-30 | the manager keeps the configured order event source |
| MmmCoreStrategyBase.OrderManager.CreateOrder | mmm/core/order/manager.py:32-34 | the event is appended to the source's queue, or QueueFull is raised and the queue is unchanged when it is full |
| MmmCoreStrategyBase.NewDefaultOrderManager | mmm/core/order/manager.py:26-30 | construction fails with RuntimeError exactly when no source is configured for `OrderEvent`, and otherwise uses that source |
| MmmCoreStrategyBase.Strategy.constructor | mmm/core/strategy/core/base.py:39-42 | the instance keeps its class, bot id, credential and order manager |
| MmmCoreStrategyBase.Strategy.GetStrategyName | mmm/core/strategy/core/base.py:44-46 | the classmethod called on an instance gives its class's module, a dot, then its class's name |
| MmmCoreStrategyBase.Strategy.CreateOrder | mmm/core/strategy/core/base.py:48-64 | exactly one order event, with the given id, exchange and params and the strategy's name, bot id and credential, reaches the manager's queue, unless that is full |
| MmmCoreStrategyBase.NewStrategy | mmm/core/strategy/core/base.py:39-42 | a given order manager is kept; without one a default manager is built on the configured source, and the instance fails with RuntimeError exactly when there is none |
| MmmCoreStrategyBase.StrategyRunner.constructor | mmm/core/strategy/core/base.py:74-77 | a new runner has no tasks |
| MmmCoreStrategyBase.StrategyRunner.CreateListeningTasks | mmm/core/strategy/core/base.py:114-131 | one fresh running task per event registry entry, in registry order, is appended, also for an event without a configured source; earlier tasks are kept |
| MmmCoreStrategyBase.StrategyRunner.CreateScheduleTask | mmm/core/strategy/core/base.py:97-112 | one fresh running task per timer registry entry, in registry order, is appended; earlier tasks are kept |
| MmmCoreStrategyBase.StrategyRunner.CreateMonitorTask | mmm/core/strategy/core/base.py:87-95 | one fresh monitor task is started and the task list is untouched |
| MmmCoreStrategyBase.StrategyRunner.CreateTasks | mmm/core/strategy/core/base.py:133-136 | the list grows by the listening tasks, then the timer tasks, all fresh and running, and one monitor is started |
| MmmCoreStrategyCore.Collect | mmm/core/strategy/core.py:20-31 | the namespace loop keeps both registries well formed and can only fail with RuntimeError |
| MmmCoreStrategyCore.CollectFailsOnRepeat | mmm/core/strategy/core.py:22-27 | class creation succeeds exactly when no event type is subscribed by two methods |
| MmmCoreStrategyCore.CollectEvents | mmm/core/strategy/core.py:22-27 | after a successful loop the event registry lists the subscribed event types in namespace order, each mapped to the method that subscribed it |
| MmmCoreStrategyCore.CollectTimerKeys | mmm/core/strategy/core.py:28-30 | the timer registry holds exactly the intervals some method declares, zero included |
| MmmCoreStrategyCore.CollectTimerMethods | mmm/core/strategy/core.py:28-30 | a repeated interval is not an error: the last method declaring it wins |
| MmmCoreStrategyCore.VisitEntry | mmm/core/strategy/core.py:22-30 | one turn of the namespace loop computes what one namespace entry says |
| MmmCoreStrategyCore.NewStrategyClass | mmm/core/strategy/core.py:18-34 | the new class carries the registries the namespace loop builds from fresh ones, whatever its bases, or creation fails with the loop's exception |
| MmmCoreStrategyCore.Touched | mmm/core/strategy/core.py:105-111 | indexing the `defaultdict` inserts an empty entry for a missing bot id at the end and leaves a present one alone |
| MmmCoreStrategyCore.StrategyTaskRegistry.constructor | mmm/core/strategy/core.py:92-93 | a new task registry is empty |
| MmmCoreStrategyCore.StrategyTaskRegistry.AddTask | mmm/core/strategy/core.py:95-100 | the bot id is mapped to its schedule and event-consuming tasks, overwriting any earlier entry |
| MmmCoreStrategyCore.StrategyTaskRegistry.GetTasks | mmm/core/strategy/core.py:105-111 | 'all' gives the schedule tasks then the event-consuming tasks, another type its list or None; a missing bot id gives the empty list or None and is inserted |
| MmmCoreStrategyCore.StrategyTaskRegistry.GetAllTasks | mmm/core/strategy/core.py:113-114 | every registered bot id, in registration order, is mapped to all its tasks |
| MmmCoreStrategyCore.Grouped | mmm/core/strategy/core.py:120-123 | the strategy-to-bot configuration stays a well formed dictionary as bot ids are appended |
| MmmCoreStrategyCore.GroupedByName | mmm/core/strategy/core.py:120-123 | a strategy name is configured exactly when some strategy has it, and its list is the bot ids of those strategies in order |
| MmmCoreStrategyCore.NewTasks | mmm/core/strategy/core.py:191-198 | the requested number of fresh tasks, none done or cancelled |
| MmmCoreStrategyCore.StrategyRunner.constructor | mmm/core/strategy/core.py:119-121 | a new runner starts with an empty configuration and a fresh, empty task registry |
| MmmCoreStrategyCore.StrategyRunner.CreateScheduleTask | mmm/core/strategy/core.py:179-198 | one fresh running task per timer registry entry |
| MmmCoreStrategyCore.StrategyRunner.CreateEventConsumingTasks | mmm/core/strategy/core.py:200-222 | one fresh running task per event registry entry, also for an event without a configured source |
| MmmCoreStrategyCore.StrategyRunner.Admit | mmm/core/strategy/core.py:122-128 | the bot id is appended under its strategy name first; the strategy is admitted exactly when its bot id is new, and then its fresh tasks are added at the end and no other entry changes |
| MmmCoreStrategyCore.StrategyRunner.AddTasks | mmm/core/strategy/core.py:126-128 | a new bot id gets one fresh running task per timer and per event, and every other entry is kept |
| MmmCoreStrategyCore.StrategyRunner.StartStrategy | mmm/core/strategy/core.py:137-146 | the strategy is started exactly when the bot is registered and every one of its tasks is done; the registry is unchanged |
| MmmCoreStrategyCore.StrategyRunner.StopBot | mmm/core/strategy/core.py:169-174 | cancellation is requested for every unfinished task of the bot and nothing else about them changes; a missing bot id is inserted with no tasks |
| MmmCoreStrategyCore.StrategyRunner.OnControl | mmm/core/strategy/core.py:161-165 | 'stop' stops the named bot; any other command, 'stopall' included, changes nothing, as `stop_all` is empty |
| MmmCoreStrategyCore.RepeatedId | mmm/core/strategy/core.py:124-125 | a bot id already registered before its strategy means the ids of the list are not distinct |
| MmmCoreStrategyCore.AdmitAt | mmm/core/strategy/core.py:122-128 | one turn of the constructor's loop either meets a repeated bot id or extends the configuration and the registry by this strategy |
| MmmCoreStrategyCore.NewStrategyRunner | mmm/core/strategy/core.py:118-128 | construction fails with RuntimeError exactly when two strategies share a bot id; otherwise bot ids are grouped by strategy name and each bot is registered, in order, with a task per timer and per event |
| Tasks.Task.constructor | mmm/core/strategy/core.py:196 | a task that has just been created is neither done nor cancelled |
| Tasks.Task.Cancel | mmm/core/strategy/core.py:173-174 | cancelling is accepted exactly when the task is unfinished, and then records the request; a finished task is left as it was |
| Tasks.Queue.constructor | mmm/config/default_config.py:8-12 | a new queue is empty and keeps its bound |
| Tasks.Queue.PutNowait | mmm/core/order/manager.py:34 | with `Full` the bound check of `asyncio.Queue`: the item is appended, or QueueFull is raised and the queue is unchanged when it is bounded and full |

## Left out

- Network: websocket connect, send and receive are not modelled. Each connection is the sequence of frames it would deliver, and each send is a recorded value.
- Network: the TCP controller server of mmm/core/strategy/strategy_runner.py, the dashboard and the OKX REST client are not modelled. Exchange calls are input outcomes: the response code, or the exception raised.
- Endless loops: `while True` receive, retry and consumer loops run over a finite input sequence. This covers the frames received, the attempts made or the events taken. What happens after that input runs out is not modelled.
- Concurrency: the scheduling of asyncio tasks is not modelled. This covers `asyncio.wait`, `gather_task`, and timer and monitor loops sleeping between callbacks. The ping task racing the receive loop is not modelled either. Tasks are handles with a done flag and a cancellation request, and `ping` is modelled as its two halves.
- Concurrency: the job creators and `gather_tasks` of mmm/core/strategy/bot.py (lines 34-86) and the 15-second `persistent_bot` watchdog (lines 144-155) are asyncio scheduling. They are not modelled.
- Time: `asyncio.wait_for` time-outs are exceptions given as input, like any other.
- Threads: thread-based polling in `query_order_async` uses threads and time. It is not modelled.
- Storage: SQLAlchemy storage is an append-only log of saved results, and a bot's stored status is a map.
- MmmCoreOrderExecutor.Handle: storage is the injected `Storage`, modelled as a log that accepts any result, `None` included. Its default storage comes from mmm/core/schema/impl.py, which is not part of this model. Its `SQLStorage.save_order` has the shape of mmm/schema/impl.py:17-19, which reads `order_result.order_id` first, so saving the `None` that `BinanceOrderHandler.create_order` returns raises AttributeError and ends the consumer task. With that storage, `RunSpec` and `RunWithoutFilters` hold only for queues without Binance events.
- SrcOrderExecutor.Handle: the same holds for the src snapshot, whose default storage is the `SQLStorage` of mmm/core/storage.py, which reads `order_result.order_id` first (lines 27-29).
- Event type keys: the dispatcher and the strategy registries of mmm/core/strategy/core.py key event types by class name. Python keys them by the class object, so two classes of the same name from different modules collide in the model and not in Python.
- Configuration: settings and `EVENT_SOURCE_CONF` are parameters of the operations that read them. Strategy loading, project templating and the settings-driven hub factory are not modelled.
- Decorators: the decorators that attach `__sub_event__`, `__timer_interval__` and `__command__` depend on Python function attributes. A class body is given instead as a list of (name, annotations) entries.
- Serialisation: pickle encoding and decoding in the event modules and `str(raw_data)` are opaque. Their inputs are kept as source text or as values. A converted `Decimal` or timestamp keeps the JSON value it was built from, not a number.
- Conversions: only ASCII digits and whitespace are recognised, not other Unicode digits or spaces. `fromtimestamp` rejecting an out-of-range timestamp with OverflowError or OSError is not modelled.
- Conversions.ToDecimal: a `(sign, digits, exponent)` list is converted exactly, so an exponent that puts the number outside mpdecimal's exponent range (about 10^18 either way) raises InvalidOperation; the model accepts such a list. JSON floats, and so float items in a list, are not modelled.
- MmmPosition.StrategyPosition: `self._assets = assets` shares the caller's list, so an append in `add` also grows the caller's list. The model copies the list into a `seq`, and only the asset objects are shared.
- Positions: position amounts are real numbers, not `Decimal`.
- Prices: `StrategyPosition.get_worth` and `get_current_profit` need external prices. They are not modelled.
- Thin wrappers: order managers that only enqueue or delegate, and `AsyncioQueueEventSource`, which wraps `asyncio.Queue`, are modelled only as far as Tasks.Queue covers them.
- Stubs: RabbitMQ hubs, mmm/order/handler.py (a placeholder), the analyzers and the example strategies are not modelled.
- Stubs: the always-allow `CoinFilter`s are covered only as filter verdicts.
- mmm/core/datasource/okex/parser.py and mmm/project_types.py are not part of this model. The parse function and the order result record stand for them.
- JSON duplicate keys: a JSON object keeps its entries in text order, and a lookup takes the first. `json.loads` would keep the last of two duplicate keys.
- JSON numbers: numbers are integers only, and floats are not modelled.
- MmmCoreBot.Bind: the coroutine that `handel` returns raises TypeError on a wrong binding. Its effect when the binding succeeds is not modelled.
- MmmStrategyBase: `Strategy.order_manager` of the mmm snapshot is not modelled.
- In mmm/core/strategy/strategy.py, `Strategy.__init__`, `create_order` and `__repr__` are not modelled. They build and submit order events as mmm/core/strategy/core/base.py does, and that file is modelled by MmmCoreStrategyBase.Strategy. All three strategy snapshots leave `create_batch_order` empty.
- MmmCoreStrategyCore.NewStrategyRunner: states how many tasks each bot gets, not that they are new. Freshness is stated per call by `StrategyRunner.Admit` and `StrategyRunner.AddTasks`.
- MmmCoreStrategyCore.StrategyRunner.StartStrategy: states when the gathering task is started, but that task is not modelled.
- `start_all_strategy`, `load_last_state`, `save_state`, `start_bot` and `stop_all` have empty bodies or are scheduling only. Only `stop_all` is reached, as the no-op it is.
