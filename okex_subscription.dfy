/** OKX market-data subscriptions and the responses that answer them
    (mmm/core/datasource/okex/subscription.py). */
module MmmCoreOkexSubscription {
  import opened Types

  /** `OKEXTrades(inst_id)` and `OKEXCandle(candle_type, inst_id)`. */
  datatype Subscription = Trades(instId: string) | Candle(candleType: string, instId: string)

  /** A subscription object. Hubs and registries key their dicts by the
      object, and these classes define no `__eq__` or `__hash__`, so two
      objects with the same fields are two keys. The fields never change. */
  class SubscriptionRef {
    const value: Subscription

    constructor (value: Subscription)
      ensures this.value == value
    {
      this.value := value;
    }
  }

  /** One element of the `args` list of an OKX subscribe request. */
  datatype TopicArg = TopicArg(channel: string, instId: string)

  /** `{"op": op, "args": args}`. */
  datatype Request = Request(op: string, args: seq<TopicArg>)

  /** `OKEXTradesResp` and `OKEXCandleResp`: the fields hold whatever the
      parser passed in, so identifiers are decoded JSON values. */
  datatype Response =
    | TradesResp(instId: Json, price: Decimal, volume: Decimal, side: Json, ts: Timestamp, origin: Json)
    | CandleResp(candleType: Json, instId: Json, ts: Timestamp, openPrice: Decimal, highPrice: Decimal,
                 lowPrice: Decimal, closePrice: Decimal, volume: Decimal, volumeCcy: Decimal, origin: Json)

  /** `get_exchange()` of every OKX subscription. */
  function SubscriptionExchange(s: Subscription): ExchangeId
  {
    OKEX
  }

  /** `get_exchange()` of every OKX response. */
  function ResponseExchange(r: Response): ExchangeId
  {
    OKEX
  }

  /** `a.equal_to(b)`: same class and same fields, which is equality of the
      subscription values. */
  function EqualTo(a: Subscription, b: Subscription): (same: bool)
    ensures same <==> a == b
  {
    match a
    case Trades(i) => b.Trades? && i == b.instId
    case Candle(c, i) => b.Candle? && b.candleType == c && b.instId == i
  }

  /** `s.get_topic()`. */
  function Topic(s: Subscription): Request
  {
    match s
    case Trades(i) => Request("subscribe", [TopicArg("trades", i)])
    case Candle(c, i) => Request("subscribe", [TopicArg(c, i)])
  }

  /** `r.response_for(s)`: the subscription is the one value the response
      names. */
  function ResponseFor(r: Response, s: Subscription): (answers: bool)
    ensures answers <==> Answers(r) == Some(s)
  {
    match r
    case TradesResp(i, _, _, _, _, _) => s.Trades? && JStr(s.instId) == i
    case CandleResp(c, i, _, _, _, _, _, _, _, _) => s.Candle? && JStr(s.candleType) == c && JStr(s.instId) == i
  }

  /** The one subscription value a response answers, if any: a response whose
      identifiers are not strings answers none. */
  function Answers(r: Response): Option<Subscription>
  {
    match r
    case TradesResp(i, _, _, _, _, _) =>
      if i.JStr? then Some(Trades(i.s)) else None
    case CandleResp(c, i, _, _, _, _, _, _, _, _) =>
      if c.JStr? && i.JStr? then Some(Candle(c.s, i.s)) else None
  }

  /** `equal_to` is exactly equality of the subscription values, hence an
      equivalence relation. */
  lemma EqualToIsValueEquality(a: Subscription, b: Subscription)
    ensures EqualTo(a, b) <==> a == b
    ensures EqualTo(a, a)
    ensures EqualTo(a, b) ==> EqualTo(b, a)
  {
  }

  /** `response_for` holds for one subscription value at most: the one
      `Answers` names. */
  lemma ResponseForIsAnswers(r: Response, s: Subscription)
    ensures ResponseFor(r, s) <==> Answers(r) == Some(s)
  {
  }

  /** Matching cannot tell `equal_to` subscriptions apart. */
  lemma ResponseForRespectsEqualTo(r: Response, a: Subscription, b: Subscription)
    requires EqualTo(a, b)
    ensures ResponseFor(r, a) <==> ResponseFor(r, b)
  {
  }

  /** A trades response never answers a candle subscription, nor a candle
      response a trades subscription. */
  lemma NoCrossChannelMatch(r: Response, s: Subscription)
    requires r.TradesResp? != s.Trades?
    ensures !ResponseFor(r, s)
  {
  }

  /** A matched response comes from the same exchange as its subscription,
      and carries the channel and instrument of the subscription's topic. */
  lemma MatchedResponseCarriesTopic(r: Response, s: Subscription)
    requires ResponseFor(r, s)
    ensures ResponseExchange(r) == SubscriptionExchange(s) == OKEX
    ensures Topic(s).op == "subscribe" && |Topic(s).args| == 1
    ensures r.instId == JStr(Topic(s).args[0].instId)
    ensures r.CandleResp? ==> r.candleType == JStr(Topic(s).args[0].channel)
    ensures r.TradesResp? ==> Topic(s).args[0].channel == "trades"
  {
  }

  /** A candle subscription whose candle type is "trades" sends the same topic
      as a trades subscription, although the two are not `equal_to`. */
  lemma CandleNamedTradesSharesTopic(i: string)
    ensures Topic(Candle("trades", i)) == Topic(Trades(i))
    ensures !EqualTo(Candle("trades", i), Trades(i))
  {
  }
}
