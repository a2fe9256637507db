/** The OKX frame parsers and the module's parser factory
    (src/mmm/core/datasource/okex/parser.py). */
module SrcOkexParser {
  import opened Types
  import opened Dicts
  import opened MmmCoreOkexSubscription
  import opened MmmCoreParserFactory
  import opened Conversions

  datatype Parser = TradesParser | CandleParser

  /** Whether one element of the trades data list builds a response: the
      five fields exist and the price, the size and the timestamp convert. */
  predicate TradeConverts(each: Json)
  {
    && Field(each, "instId").Ok?
    && Field(each, "px").Ok? && ToDecimal(Field(each, "px").value).Ok?
    && Field(each, "sz").Ok? && ToDecimal(Field(each, "sz").value).Ok?
    && Field(each, "side").Ok?
    && Field(each, "ts").Ok? && ToTimestamp(Field(each, "ts").value).Ok?
  }

  /** One trades response built from one element of the frame's data list,
      the fields read and converted in the order the constructor call
      evaluates them: `instId`, `Decimal(px)`, `Decimal(sz)`, `side`, then
      the timestamp. */
  function TradeItem(each: Json, origin: Json): (r: Result<Response>)
    ensures r.Ok? <==> TradeConverts(each)
    ensures r.Ok? ==>
              && r.value.TradesResp?
              && Ok(r.value.instId) == Field(each, "instId")
              && Ok(r.value.side) == Field(each, "side")
              && Ok(r.value.price.source) == Field(each, "px")
              && Ok(r.value.volume.source) == Field(each, "sz")
              && Ok(r.value.ts.source) == Field(each, "ts")
              && r.value.origin == origin
    ensures Field(each, "instId").Ok? && Field(each, "px").Ok? && ToDecimal(Field(each, "px").value).Err? ==>
              r == Err(ToDecimal(Field(each, "px").value).exc)
  {
    var instId :- Field(each, "instId");
    var px :- Field(each, "px");
    var price :- ToDecimal(px);
    var sz :- Field(each, "sz");
    var volume :- ToDecimal(sz);
    var side :- Field(each, "side");
    var ts :- Field(each, "ts");
    var time :- ToTimestamp(ts);
    Ok(TradesResp(instId, price, volume, side, time, origin))
  }

  /** A loop that appends one result per step and stops at the first
      exception: all values in order, or the first error. */
  function Collected(rs: seq<Result<Response>>): (r: Result<seq<Response>>)
    ensures r.Ok? <==> forall i :: 0 <= i < |rs| ==> rs[i].Ok?
    ensures r.Ok? ==> |r.value| == |rs| && forall i :: 0 <= i < |rs| ==> rs[i] == Ok(r.value[i])
    ensures r.Err? ==> exists i :: 0 <= i < |rs| && rs[i] == Err(r.exc) && forall j :: 0 <= j < i ==> rs[j].Ok?
  {
    if |rs| == 0 then Ok([])
    else
      var head :- rs[0];
      var tail :- Collected(rs[1..]);
      assert forall i :: 1 <= i < |rs| ==> rs[1..][i - 1] == rs[i];
      Ok([head] + tail)
  }

  /** The result list of the trades loop: one response per element, in order;
      the first element that fails raises. */
  function TradeItems(items: seq<Json>, origin: Json): (r: Result<seq<Response>>)
    ensures r.Ok? <==> forall i :: 0 <= i < |items| ==> TradeItem(items[i], origin).Ok?
    ensures r.Ok? ==> |r.value| == |items| && forall i :: 0 <= i < |items| ==> TradeItem(items[i], origin) == Ok(r.value[i])
    ensures r.Err? ==> exists i :: 0 <= i < |items| && TradeItem(items[i], origin) == Err(r.exc)
                                   && forall j :: 0 <= j < i ==> TradeItem(items[j], origin).Ok?
  {
    var trades := seq(|items|, i requires 0 <= i < |items| => TradeItem(items[i], origin));
    assert forall i :: 0 <= i < |items| ==> trades[i] == TradeItem(items[i], origin);
    Collected(trades)
  }

  /** `TradesParser.parse(data)`: `data` is rebound to the frame's data list
      before the loop, so every response's origin is that list. */
  function ParseTrades(frame: Json): (r: Result<seq<Response>>)
    ensures r.Ok? ==> Field(frame, "data").Ok? && Iterate(Field(frame, "data").value).Ok?
    ensures r.Ok? ==> |r.value| == |Iterate(Field(frame, "data").value).value|
    ensures r.Ok? ==> forall i :: 0 <= i < |r.value| ==>
              r.value[i].TradesResp? && r.value[i].origin == Field(frame, "data").value
  {
    var data :- Field(frame, "data");
    var items :- Iterate(data);
    TradeItems(items, data)
  }

  /** `Decimal(each[k])`: the position is read, then converted. */
  function DecimalAt(each: Json, k: nat): (r: Result<Decimal>)
    ensures r.Ok? <==> Index(each, k).Ok? && ToDecimal(Index(each, k).value).Ok?
    ensures r.Ok? ==> Index(each, k) == Ok(r.value.source)
  {
    var e :- Index(each, k);
    ToDecimal(e)
  }

  /** `datetime.fromtimestamp(int(each[k]) / 1000)`: the position is read,
      then converted; a failed conversion raises its own error. */
  function TimestampAt(each: Json, k: nat): (r: Result<Timestamp>)
    ensures r.Ok? <==> Index(each, k).Ok? && ToTimestamp(Index(each, k).value).Ok?
    ensures r.Ok? ==> Index(each, k) == Ok(r.value.source)
    ensures Index(each, k).Ok? && ToTimestamp(Index(each, k).value).Err? ==>
              r == Err(ToTimestamp(Index(each, k).value).exc)
  {
    var e :- Index(each, k);
    ToTimestamp(e)
  }

  /** Whether one row of a candle frame builds a bar: the frame's `arg` has
      a channel and an instrument, the row has positions 0 to 6, position 0
      converts to a timestamp and the other six to decimals. */
  predicate BarConverts(frame: Json, each: Json)
  {
    && Field(frame, "arg").Ok?
    && Field(Field(frame, "arg").value, "channel").Ok?
    && Field(Field(frame, "arg").value, "instId").Ok?
    && TimestampAt(each, 0).Ok?
    && DecimalAt(each, 1).Ok? && DecimalAt(each, 2).Ok? && DecimalAt(each, 3).Ok?
    && DecimalAt(each, 4).Ok? && DecimalAt(each, 5).Ok? && DecimalAt(each, 6).Ok?
  }

  /** One bar built from one row: channel and instrument come from the frame's
      `arg` (looked up again for every row), the values from row positions
      0..6, each read and converted before the next is read. */
  function CandleBar(frame: Json, each: Json): (r: Result<Response>)
    ensures r.Ok? <==> BarConverts(frame, each)
    ensures r.Ok? ==>
              && r.value.CandleResp?
              && Field(Field(frame, "arg").value, "channel") == Ok(r.value.candleType)
              && Field(Field(frame, "arg").value, "instId") == Ok(r.value.instId)
              && Index(each, 0) == Ok(r.value.ts.source)
              && Index(each, 1) == Ok(r.value.openPrice.source)
              && Index(each, 2) == Ok(r.value.highPrice.source)
              && Index(each, 3) == Ok(r.value.lowPrice.source)
              && Index(each, 4) == Ok(r.value.closePrice.source)
              && Index(each, 5) == Ok(r.value.volume.source)
              && Index(each, 6) == Ok(r.value.volumeCcy.source)
              && r.value.origin == frame
    ensures each.JArr? && |each.items| < 7 ==> r.Err?
    ensures Field(frame, "arg").Ok? && Field(Field(frame, "arg").value, "channel").Ok?
            && Field(Field(frame, "arg").value, "instId").Ok?
            && TimestampAt(each, 0).Err? ==>
              r == Err(TimestampAt(each, 0).exc)
  {
    var arg :- Field(frame, "arg");
    var channel :- Field(arg, "channel");
    var instId :- Field(arg, "instId");
    var ts :- TimestampAt(each, 0);
    var openPrice :- DecimalAt(each, 1);
    var highPrice :- DecimalAt(each, 2);
    var lowPrice :- DecimalAt(each, 3);
    var closePrice :- DecimalAt(each, 4);
    var volume :- DecimalAt(each, 5);
    var volumeCcy :- DecimalAt(each, 6);
    Ok(CandleResp(channel, instId, ts, openPrice, highPrice, lowPrice, closePrice, volume, volumeCcy, frame))
  }

  /** The result list of the candle loop: one bar per row, in order. */
  function CandleBars(frame: Json, rows: seq<Json>): (r: Result<seq<Response>>)
    ensures r.Ok? <==> forall i :: 0 <= i < |rows| ==> CandleBar(frame, rows[i]).Ok?
    ensures r.Ok? ==> |r.value| == |rows| && forall i :: 0 <= i < |rows| ==> CandleBar(frame, rows[i]) == Ok(r.value[i])
    ensures r.Err? ==> exists i :: 0 <= i < |rows| && CandleBar(frame, rows[i]) == Err(r.exc)
                                   && forall j :: 0 <= j < i ==> CandleBar(frame, rows[j]).Ok?
  {
    var bars := seq(|rows|, i requires 0 <= i < |rows| => CandleBar(frame, rows[i]));
    assert forall i :: 0 <= i < |rows| ==> bars[i] == CandleBar(frame, rows[i]);
    Collected(bars)
  }

  /** `CandleParser.parse(data)`: one bar per element of the data list,
      each with the whole frame as origin. */
  function ParseCandles(frame: Json): (r: Result<seq<Response>>)
    ensures r.Ok? ==> Field(frame, "data").Ok? && Iterate(Field(frame, "data").value).Ok?
    ensures r.Ok? ==> |r.value| == |Iterate(Field(frame, "data").value).value|
    ensures r.Ok? ==> forall i :: 0 <= i < |r.value| ==> r.value[i].CandleResp? && r.value[i].origin == frame
  {
    var data :- Field(frame, "data");
    var rows :- Iterate(data);
    CandleBars(frame, rows)
  }

  /** `parser.parse(frame)`: the parser decides the kind of every
      response. */
  function Parse(p: Parser, frame: Json): (r: Result<seq<Response>>)
    ensures r.Ok? ==> forall i :: 0 <= i < |r.value| ==> (r.value[i].TradesResp? <==> p.TradesParser?)
  {
    match p
    case TradesParser => ParseTrades(frame)
    case CandleParser => ParseCandles(frame)
  }

  /** A trades frame whose every element has the five fields, with a price,
      size and timestamp that convert, parses to one response per element,
      in order, each carrying its own element's instrument and side and the
      data list as origin. */
  lemma TradesParsePerElement(frame: Json, items: seq<Json>)
    requires Field(frame, "data") == Ok(JArr(items))
    requires forall i :: 0 <= i < |items| ==> TradeConverts(items[i])
    ensures ParseTrades(frame).Ok?
    ensures |ParseTrades(frame).value| == |items|
    ensures forall i :: 0 <= i < |items| ==>
              && Ok(ParseTrades(frame).value[i].instId) == Field(items[i], "instId")
              && Ok(ParseTrades(frame).value[i].side) == Field(items[i], "side")
              && ParseTrades(frame).value[i].origin == JArr(items)
  {
    var r := TradeItems(items, JArr(items));
    assert r.Ok?;
    forall i | 0 <= i < |items|
      ensures Ok(r.value[i].instId) == Field(items[i], "instId") && Ok(r.value[i].side) == Field(items[i], "side")
      ensures r.value[i].origin == JArr(items)
    {
      assert TradeItem(items[i], JArr(items)) == Ok(r.value[i]);
    }
  }

  /** A price that is not numeric text makes the whole frame raise
      InvalidOperation, once every earlier element converts: no response of
      the frame is produced. */
  lemma MalformedPriceFailsParse(frame: Json, items: seq<Json>, i: nat, px: string)
    requires Field(frame, "data") == Ok(JArr(items)) && i < |items|
    requires forall j :: 0 <= j < i ==> TradeConverts(items[j])
    requires Field(items[i], "instId").Ok? && Field(items[i], "px") == Ok(JStr(px)) && !DecimalText(px)
    ensures ParseTrades(frame) == Err(InvalidOperation)
  {
    var r := TradeItems(items, JArr(items));
    assert TradeItem(items[i], JArr(items)) == Err(InvalidOperation);
    var k :| 0 <= k < |items| && TradeItem(items[k], JArr(items)) == Err(r.exc)
             && forall j :: 0 <= j < k ==> TradeItem(items[j], JArr(items)).Ok?;
    assert k == i;
  }

  /** Every bar of a parsed candle frame takes channel and instrument from the
      frame's `arg` and has the whole frame as origin; there is one bar per row. */
  lemma CandleParsePerRow(frame: Json, rows: seq<Json>)
    requires Field(frame, "data") == Ok(JArr(rows))
    requires ParseCandles(frame).Ok?
    ensures |ParseCandles(frame).value| == |rows|
    ensures forall i :: 0 <= i < |rows| ==>
              && Field(Field(frame, "arg").value, "channel") == Ok(ParseCandles(frame).value[i].candleType)
              && Field(Field(frame, "arg").value, "instId") == Ok(ParseCandles(frame).value[i].instId)
              && ParseCandles(frame).value[i].origin == frame
  {
    var r := CandleBars(frame, rows);
    forall i | 0 <= i < |rows|
      ensures Field(Field(frame, "arg").value, "channel") == Ok(r.value[i].candleType)
      ensures Field(Field(frame, "arg").value, "instId") == Ok(r.value[i].instId)
      ensures r.value[i].origin == frame
    {
      assert CandleBar(frame, rows[i]) == Ok(r.value[i]);
    }
  }

  /** An empty data list parses to no responses, whatever else the frame holds. */
  lemma EmptyDataParsesToNothing(p: Parser, frame: Json)
    requires Field(frame, "data") == Ok(JArr([]))
    ensures Parse(p, frame) == Ok([])
  {
  }

  /** The module-level `parser_factory`: only "trades" is registered. */
  method ModuleFactory() returns (f: ParserFactory<Parser>)
    ensures fresh(f) && f.Valid()
    ensures f.registry.keys == ["trades"] && f.registry.items == map["trades" := TradesParser]
  {
    f := new ParserFactory<Parser>();
    f.Register("trades", TradesParser);
  }

  /** With the module factory, a channel gets the trades parser exactly when
      it starts with "trades", so candle channels ("candle1m", ...) have no
      parser and raise RuntimeError. */
  lemma ModuleFactoryLookup(channel: string)
    ensures FirstPrefix(["trades"], map["trades" := TradesParser], channel)
            == if "trades" <= channel then Ok(TradesParser) else Err(RuntimeError)
  {
    assert ["trades"][1..] == [];
  }
}
