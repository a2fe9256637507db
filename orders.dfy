/** The order result both OKX order handlers fill in. mmm/project_types.py
    defines neither `OrderResult` nor `OrderStatus`, so the handler modules
    that import them fail to import; the result here is the record the
    handlers fill in, whose optional attributes start as None, and the status
    takes the three values the handlers use. */
module Orders {
  import opened Types

  datatype OrderStatus = CREATED | SUCCESS | FAILED

  /** The text put in `result.msg`, kept as what it was formatted from. */
  datatype Note =
    | PlaceRejected(params: Json, code: Json, message: Json)   // "create order error, ... error code ..., error msg ..."
    | QueryRejected(params: Json, response: Json)               // "query order error, params ..., response ..."
    | Crashed(params: Json, exc: Exc)                            // "create order error, ... exception ..., traceback ..."
    | Dumped(doc: Json)                                          // json.dumps(response)

  datatype OrderResult = OrderResult(
    uniqId: string, exchange: ExchangeId, strategyName: string, strategyBotId: string,
    clientOrderId: Json, orderParams: Json, status: OrderStatus,
    msg: Option<Note>, orderId: Option<Json>, rawData: Option<Json>, exchangeResp: Option<Json>)

  /** `OrderResult(..., status=CREATED)` before any exchange call. */
  function Created(uniqId: string, exchange: ExchangeId, strategyName: string, botId: string,
                   clientOrderId: Json, params: Json): (r: OrderResult)
    ensures r.status == CREATED && r.msg == None && r.orderId == None
    ensures r.rawData == None && r.exchangeResp == None
    ensures r.uniqId == uniqId && r.exchange == exchange && r.strategyName == strategyName
    ensures r.strategyBotId == botId && r.clientOrderId == clientOrderId && r.orderParams == params
  {
    OrderResult(uniqId, exchange, strategyName, botId, clientOrderId, params, CREATED, None, None, None, None)
  }

  /** `resp['code'] == '0'` for a decoded exchange reply. */
  predicate CodeIsZero(code: Json)
  {
    code == JStr("0")
  }

  /** `resp['data'][0][key]`. */
  function FirstDataField(resp: Json, key: string): (r: Result<Json>)
    ensures r.Ok? ==> Field(resp, "data").Ok? && Index(Field(resp, "data").value, 0).Ok?
  {
    var data :- Field(resp, "data");
    var first :- Index(data, 0);
    Field(first, key)
  }
}

/** The OKX order handler of the mmm/core snapshot (mmm/core/order/handler.py):
    the order is confirmed by a query only after the exchange accepted it.
    The exchange calls are inputs: `place` is what `place_order` returned or
    raised (a timeout is TimeoutError), `query` the same for `get_orders`. */
module MmmCoreOrderHandler {
  import opened Types
  import opened Orders
  import opened MmmCoreEvents

  datatype Handler = OkexOrderHandler(credential: Credential) | BinanceOrderHandler(credential: Credential)

  /** Whether `get_orders` is called at all: only once the placement reply
      reads code '0'. */
  predicate QueryIssued(place: Result<Json>)
  {
    place.Ok? && Field(place.value, "code") == Ok(JStr("0"))
  }

  /** The exchange accepted the order, the query confirmed it and the order
      id could be read from the placement reply. */
  predicate Confirmed(place: Result<Json>, query: Result<Json>)
  {
    && QueryIssued(place)
    && query.Ok? && GetKey(query.value, "code") == Ok(Some(JStr("0")))
    && FirstDataField(place.value, "orderId").Ok?
  }

  /** The `except` clause: any exception, a timeout included, fails the order
      with a message naming it. */
  function Crash(result: OrderResult, params: Json, e: Exc): OrderResult
  {
    result.(status := FAILED, msg := Some(Crashed(params, e)))
  }

  /** What the `try`/`except` leaves in the freshly created `result`: SUCCESS
      exactly when the order was confirmed, FAILED otherwise, with only the
      status, the message, the order id and the raw reply changed. */
  function Settled(result: OrderResult, params: Json, place: Result<Json>, query: Result<Json>): (r: OrderResult)
    ensures r.status == SUCCESS || r.status == FAILED
    ensures r.status == SUCCESS <==> Confirmed(place, query)
    ensures r.(status := result.status, msg := result.msg, orderId := result.orderId, rawData := result.rawData) == result
  {
    if place.Err? then Crash(result, params, place.exc)
    else
      var resp := place.value;
      var code := Field(resp, "code");
      if code.Err? then Crash(result, params, code.exc)
      else if code.value != JStr("0") then
        var message := Field(resp, "msg");
        if message.Err? then Crash(result, params, message.exc)
        else result.(status := FAILED, msg := Some(PlaceRejected(params, code.value, message.value)))
      else if query.Err? then Crash(result, params, query.exc)
      else
        var confirmation := GetKey(query.value, "code");
        if confirmation.Err? then Crash(result, params, confirmation.exc)
        else if confirmation.value != Some(JStr("0")) then
          result.(status := FAILED, msg := Some(QueryRejected(params, query.value)))
        else
          var orderId := FirstDataField(resp, "orderId");
          if orderId.Err? then Crash(result, params, orderId.exc)
          else result.(orderId := Some(orderId.value), status := SUCCESS, rawData := Some(resp))
  }

  /** The value `create_order(order_event)` returns or raises. */
  function OkexResult(event: OrderEvent, place: Result<Json>, query: Result<Json>): (r: Result<OrderResult>)
    ensures r.Ok? ==> r.value.uniqId == event.uniqId
  {
    var clientOrderId :- Field(event.params, "clOrdId");
    var instId :- Field(event.params, "instId");
    var created := Created(event.uniqId, event.exchange, event.strategyName, event.botId, clientOrderId, event.params);
    Ok(Settled(created, event.params, place, query))
  }

  /** Only a missing `clOrdId` or `instId` raises, before the `try`; every
      returned result carries the event's identifiers and is SUCCESS or
      FAILED, SUCCESS exactly when both the placement and the query read code
      '0', and then it holds the placement's order id and reply. */
  lemma OkexResultSpec(event: OrderEvent, place: Result<Json>, query: Result<Json>)
    ensures var r := OkexResult(event, place, query);
            r.Err? <==> Field(event.params, "clOrdId").Err? || Field(event.params, "instId").Err?
    ensures var r := OkexResult(event, place, query);
            r.Err? ==> r.exc == (if Field(event.params, "clOrdId").Err? then Field(event.params, "clOrdId").exc
                             else Field(event.params, "instId").exc)
    ensures var r := OkexResult(event, place, query);
            r.Ok? ==>
              var o := r.value;
              && o.uniqId == event.uniqId && o.exchange == event.exchange
              && o.strategyName == event.strategyName && o.strategyBotId == event.botId
              && o.clientOrderId == Field(event.params, "clOrdId").value && o.orderParams == event.params
              && o.exchangeResp == None
              && (o.status == SUCCESS || o.status == FAILED)
              && (o.status == SUCCESS <==> Confirmed(place, query))
              && (o.status == SUCCESS ==>
                    && o.orderId == Some(FirstDataField(place.value, "orderId").value)
                    && o.rawData == Some(place.value) && o.msg == None)
              && (o.status == FAILED ==> o.orderId == None && o.rawData == None && o.msg.Some?)
              && (place.Err? ==> o.msg == Some(Crashed(event.params, place.exc)))
              && (!QueryIssued(place) && place.Ok? && Field(place.value, "code").Ok? && Field(place.value, "msg").Ok? ==>
                    o.msg == Some(PlaceRejected(event.params, Field(place.value, "code").value, Field(place.value, "msg").value)))
  {
  }

  /** `OkexOrderHandler.create_order(order_event)`, step by step; `queried`
      says whether the confirming query was issued. The `return` in `finally`
      hands back the result whatever the `try` raised. */
  method OkexCreateOrder(event: OrderEvent, place: Result<Json>, query: Result<Json>)
    returns (r: Result<OrderResult>, queried: bool)
    ensures r == OkexResult(event, place, query)
    ensures queried <==> r.Ok? && QueryIssued(place)
  {
    queried := false;
    var params := event.params;
    var clientOrderId := Field(params, "clOrdId");
    if clientOrderId.Err? {
      return Err(clientOrderId.exc), false;
    }
    var instId := Field(params, "instId");
    if instId.Err? {
      return Err(instId.exc), false;
    }
    var result := Created(event.uniqId, event.exchange, event.strategyName, event.botId, clientOrderId.value, params);
    // The body of the `try`: `raised` is the exception it ends with, if any.
    var raised: Option<Exc> := None;
    if place.Err? {
      raised := Some(place.exc);
    } else {
      var resp := place.value;
      var code := Field(resp, "code");
      if code.Err? {
        raised := Some(code.exc);
      } else if code.value != JStr("0") {
        result := result.(status := FAILED);
        var message := Field(resp, "msg");
        if message.Err? {
          raised := Some(message.exc);
        } else {
          result := result.(msg := Some(PlaceRejected(params, code.value, message.value)));
        }
      } else {
        queried := true;
        if query.Err? {
          raised := Some(query.exc);
        } else {
          var rv := query.value;
          var confirmation := GetKey(rv, "code");
          if confirmation.Err? {
            raised := Some(confirmation.exc);
          } else if confirmation.value != Some(JStr("0")) {
            result := result.(status := FAILED, msg := Some(QueryRejected(params, rv)));
          } else {
            var orderId := FirstDataField(resp, "orderId");
            if orderId.Err? {
              raised := Some(orderId.exc);
            } else {
              result := result.(orderId := Some(orderId.value), status := SUCCESS, rawData := Some(resp));
            }
          }
        }
      }
    }
    if raised.Some? {
      result := Crash(result, params, raised.value);
    }
    r := Ok(result);
  }

  /** What `handler.create_order(order_event)` returns or raises: the Binance
      handler's is a stub that returns None. */
  function HandlerResult(h: Handler, event: OrderEvent, place: Result<Json>, query: Result<Json>): Result<Option<OrderResult>>
  {
    match h
    case BinanceOrderHandler(_) => Ok(None)
    case OkexOrderHandler(_) =>
      var o :- OkexResult(event, place, query);
      Ok(Some(o))
  }

  method CreateOrder(h: Handler, event: OrderEvent, place: Result<Json>, query: Result<Json>)
    returns (r: Result<Option<OrderResult>>)
    ensures r == HandlerResult(h, event, place, query)
    ensures h.BinanceOrderHandler? ==> r == Ok(None)
    ensures h.OkexOrderHandler? && r.Ok? ==>
              r.value.Some? && r.value.value.uniqId == event.uniqId
              && (r.value.value.status == SUCCESS <==> Confirmed(place, query))
  {
    if h.BinanceOrderHandler? {
      return Ok(None);
    }
    var result, _ := OkexCreateOrder(event, place, query);
    r := if result.Ok? then Ok(Some(result.value)) else Err(result.exc);
  }
}

/** The OKX order handler of the src snapshot (src/mmm/core/order/handler.py):
    the confirming query runs in `finally` whatever the placement did, and its
    reply alone decides the status. */
module SrcOrderHandler {
  import opened Types
  import opened Orders
  import opened SrcInnerEvents

  datatype Handler = OkexOrderHandler(credential: Credential) | BinanceOrderHandler(credential: Credential)

  /** What the `try` leaves in `result`: a placement reply reading a code
      other than '0' fails the order with the reply dumped as its message; a
      placement exception, or a reply without `code`, is only logged. */
  function Placed(result: OrderResult, place: Result<Json>): (r: OrderResult)
    ensures r.(status := result.status, msg := result.msg) == result
    ensures r != result ==> place.Ok? && r.status == FAILED && r.msg == Some(Dumped(place.value))
    ensures place.Err? || Field(place.value, "code").Err? ==> r == result
  {
    if place.Ok? && Field(place.value, "code").Ok? && Field(place.value, "code").value != JStr("0")
    then result.(status := FAILED, msg := Some(Dumped(place.value)))
    else result
  }

  /** What the `finally` block makes of `result`, or the exception it raises:
      from the query itself, from a reply that is not a dict, or from a
      confirming reply without `data[0].ordId`. A returned result is never
      CREATED, is SUCCESS exactly when the reply reads code '0', and differs
      from `result` only in its status, message, order id and reply. */
  function Confirm(result: OrderResult, query: Result<Json>): (r: Result<OrderResult>)
    ensures r.Err? <==> QueryFailure(query).Some?
    ensures r.Err? ==> r.exc == QueryFailure(query).value
    ensures r.Ok? ==> r.value.status != CREATED && (r.value.status == SUCCESS <==> GetKey(query.value, "code") == Ok(Some(JStr("0"))))
    ensures r.Ok? ==>
              r.value.(status := result.status, msg := result.msg, orderId := result.orderId, exchangeResp := result.exchangeResp) == result
  {
    var rv :- query;
    var confirmation :- GetKey(rv, "code");
    if confirmation != Some(JStr("0")) then Ok(result.(status := FAILED, msg := Some(Dumped(rv))))
    else
      var orderId :- FirstDataField(rv, "ordId");
      Ok(result.(exchangeResp := Some(rv), orderId := Some(orderId), status := SUCCESS))
  }

  /** The value `create_order(order_event)` returns or raises. */
  function OkexResult(event: OrderCreationEvent, place: Result<Json>, query: Result<Json>): (r: Result<OrderResult>)
    ensures r.Ok? ==> r.value.uniqId == event.uniqId
  {
    var clientOrderId :- Field(event.params, "clOrdId");
    var instId :- Field(event.params, "instId");
    var created := Created(event.uniqId, event.exchange, event.strategyName, event.botId, clientOrderId, event.params);
    Confirm(Placed(created, place), query)
  }

  /** The identifiers are checked first; after them only the query stage
      can raise; a returned result is never CREATED, is SUCCESS exactly when
      the query reads code '0' whatever the placement did, and then holds the
      query's order id and reply, while the message a rejected placement left
      stays. */
  lemma OkexResultSpec(event: OrderCreationEvent, place: Result<Json>, query: Result<Json>)
    ensures var r := OkexResult(event, place, query);
            Field(event.params, "clOrdId").Err? ==> r == Err(Field(event.params, "clOrdId").exc)
    ensures var r := OkexResult(event, place, query);
            Field(event.params, "clOrdId").Ok? && Field(event.params, "instId").Err? ==>
              r == Err(Field(event.params, "instId").exc)
    ensures var r := OkexResult(event, place, query);
            Field(event.params, "clOrdId").Ok? && Field(event.params, "instId").Ok? ==>
              (r.Err? <==> QueryFailure(query).Some?) && (r.Err? ==> r.exc == QueryFailure(query).value)
    ensures var r := OkexResult(event, place, query);
            r.Ok? ==>
              var o := r.value;
              && o.uniqId == event.uniqId && o.exchange == event.exchange
              && o.strategyName == event.strategyName && o.strategyBotId == event.botId
              && o.clientOrderId == Field(event.params, "clOrdId").value && o.orderParams == event.params
              && o.rawData == None
              && o.status != CREATED
              && (o.status == SUCCESS <==> GetKey(query.value, "code") == Ok(Some(JStr("0"))))
              && (o.status == SUCCESS ==>
                    && o.orderId == Some(FirstDataField(query.value, "ordId").value)
                    && o.exchangeResp == Some(query.value)
                    && o.msg == (if place.Ok? && Field(place.value, "code").Ok? && Field(place.value, "code").value != JStr("0")
                                 then Some(Dumped(place.value)) else None))
              && (o.status == FAILED ==>
                    o.msg == Some(Dumped(query.value)) && o.orderId == None && o.exchangeResp == None)
  {
  }

  /** The exception the query stage raises, if any. */
  function QueryFailure(query: Result<Json>): Option<Exc>
  {
    if query.Err? then Some(query.exc)
    else if GetKey(query.value, "code").Err? then Some(GetKey(query.value, "code").exc)
    else if GetKey(query.value, "code").value != Some(JStr("0")) then None
    else if FirstDataField(query.value, "ordId").Err? then Some(FirstDataField(query.value, "ordId").exc)
    else None
  }

  /** The placement reply never decides the outcome: two calls that differ
      only in it both raise or both return, and then agree on everything but
      the message. */
  lemma PlacementDoesNotDecide(event: OrderCreationEvent, place1: Result<Json>, place2: Result<Json>, query: Result<Json>)
    ensures OkexResult(event, place1, query).Ok? <==> OkexResult(event, place2, query).Ok?
    ensures OkexResult(event, place1, query).Ok? ==>
              OkexResult(event, place1, query).value.(msg := None) == OkexResult(event, place2, query).value.(msg := None)
  {
  }

  /** `OkexOrderHandler.create_order(order_event)`, step by step. */
  method OkexCreateOrder(event: OrderCreationEvent, place: Result<Json>, query: Result<Json>)
    returns (r: Result<OrderResult>)
    ensures r == OkexResult(event, place, query)
  {
    var params := event.params;
    var clientOrderId := Field(params, "clOrdId");
    if clientOrderId.Err? {
      return Err(clientOrderId.exc);
    }
    var instId := Field(params, "instId");
    if instId.Err? {
      return Err(instId.exc);
    }
    var result := Created(event.uniqId, event.exchange, event.strategyName, event.botId, clientOrderId.value, params);
    // try
    if place.Ok? {
      var resp := place.value;
      var code := Field(resp, "code");
      if code.Ok? && code.value != JStr("0") {
        result := result.(status := FAILED, msg := Some(Dumped(resp)));
      }
    }
    // finally
    if query.Err? {
      return Err(query.exc);
    }
    var rv := query.value;
    var confirmation := GetKey(rv, "code");
    if confirmation.Err? {
      return Err(confirmation.exc);
    }
    if confirmation.value != Some(JStr("0")) {
      result := result.(status := FAILED, msg := Some(Dumped(rv)));
    } else {
      result := result.(exchangeResp := Some(rv));
      var orderId := FirstDataField(rv, "ordId");
      if orderId.Err? {
        return Err(orderId.exc);
      }
      result := result.(orderId := Some(orderId.value), status := SUCCESS);
    }
    r := Ok(result);
  }

  function HandlerResult(h: Handler, event: OrderCreationEvent, place: Result<Json>, query: Result<Json>): Result<Option<OrderResult>>
  {
    match h
    case BinanceOrderHandler(_) => Ok(None)
    case OkexOrderHandler(_) =>
      var o :- OkexResult(event, place, query);
      Ok(Some(o))
  }

  /** `handler.create_order(order_event)`: the Binance handler's is a stub
      that returns None. */
  method CreateOrder(h: Handler, event: OrderCreationEvent, place: Result<Json>, query: Result<Json>)
    returns (r: Result<Option<OrderResult>>)
    ensures r == HandlerResult(h, event, place, query)
    ensures h.BinanceOrderHandler? ==> r == Ok(None)
    ensures h.OkexOrderHandler? && r.Ok? ==>
              r.value.Some? && r.value.value.uniqId == event.uniqId && r.value.value.status != CREATED
  {
    if h.BinanceOrderHandler? {
      return Ok(None);
    }
    var result := OkexCreateOrder(event, place, query);
    r := if result.Ok? then Ok(Some(result.value)) else Err(result.exc);
  }
}
