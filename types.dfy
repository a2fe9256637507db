/** Values shared by every snapshot of the trading-bot runtime: Python's
    None-or-value, exceptions as results, decoded JSON, exchanges and
    credentials. */
module Types {

  datatype Option<+T> = None | Some(value: T)

  /** The Python exception classes the modelled code raises or catches. */
  datatype Exc =
    | KeyError
    | ValueError
    | TypeError
    | IndexError
    | AttributeError
    | RuntimeError
    | AssertionError
    | JsonDecodeError
    | InvalidOperation   // `decimal.InvalidOperation`, raised by `Decimal` on malformed text
    | OverflowError      // an int too wide for a C `long`, as `Decimal` reads a tuple's parts
    | SubscriptionError
    | TimerError
    | HandlerRegisterError
    | QueueFull
    | CollectionError
    | ConnectionClosed
    | TimeoutError
    | GatewayError   // any other exception raised inside an exchange call

  /** A Python expression that either produces a value or raises. */
  datatype Result<+T> = Ok(value: T) | Err(exc: Exc) {
    predicate IsFailure() { Err? }
    function PropagateFailure<U>(): Result<U> requires Err? { Err(exc) }
    function Extract(): T requires Ok? { value }
  }

  /** A Python statement that either completes or raises. */
  datatype Outcome = Completed | Raised(exc: Exc)

  /** `Exchange` of mmm/project_types.py (BINANCE = 1, OKEX = 2), plus any
      other value a caller may put in an event's `exchange` field. */
  datatype ExchangeId = BINANCE | OKEX | Unlisted(name: string)

  datatype Credential = Credential(apiKey: string, secretKey: string, phrase: string)

  /** A value produced by `json.loads`. Objects keep their entries in text
      order; floats are not modelled. */
  datatype Json =
    | JNull
    | JBool(b: bool)
    | JNum(n: int)
    | JStr(s: string)
    | JArr(items: seq<Json>)
    | JObj(entries: seq<(string, Json)>)

  /** The first entry of `entries` named `key`. */
  function Lookup(entries: seq<(string, Json)>, key: string): (r: Option<Json>)
    ensures r.Some? <==> exists i :: 0 <= i < |entries| && entries[i].0 == key
  {
    if |entries| == 0 then None
    else if entries[0].0 == key then Some(entries[0].1)
    else Lookup(entries[1..], key)
  }

  /** `j[key]` for a string key. */
  function Field(j: Json, key: string): (r: Result<Json>)
    ensures r.Ok? <==> j.JObj? && Lookup(j.entries, key).Some?
    ensures r.Ok? ==> r.value == Lookup(j.entries, key).value
    ensures r.Err? ==> r.exc == (if j.JObj? then KeyError else TypeError)
  {
    match j
    case JObj(entries) =>
      (match Lookup(entries, key)
       case Some(v) => Ok(v)
       case None => Err(KeyError))
    case _ => Err(TypeError)
  }

  /** `j.get(key)`: None for a missing key, AttributeError on a non-dict. */
  function GetKey(j: Json, key: string): (r: Result<Option<Json>>)
    ensures r.Ok? <==> j.JObj?
    ensures r.Err? ==> r.exc == AttributeError
  {
    if j.JObj? then Ok(Lookup(j.entries, key)) else Err(AttributeError)
  }

  /** On a dict, `j.get(key)` finds a value exactly when `j[key]` does, and
      the same one. */
  lemma GetKeyAgreesWithField(j: Json, key: string)
    requires j.JObj?
    ensures GetKey(j, key).Ok?
    ensures GetKey(j, key).value.Some? <==> Field(j, key).Ok?
    ensures GetKey(j, key).value.Some? ==> Field(j, key) == Ok(GetKey(j, key).value.value)
  {
  }

  /** `j[i]` for an integer index: lists and strings are indexed, a dict never
      has an integer key, anything else is not subscriptable. */
  function Index(j: Json, i: nat): (r: Result<Json>)
    ensures j.JArr? && i < |j.items| ==> r == Ok(j.items[i])
    ensures r.Ok? ==> (j.JArr? && i < |j.items|) || (j.JStr? && i < |j.s|)
  {
    match j
    case JArr(items) => if i < |items| then Ok(items[i]) else Err(IndexError)
    case JStr(s) => if i < |s| then Ok(JStr([s[i]])) else Err(IndexError)
    case JObj(_) => Err(KeyError)
    case _ => Err(TypeError)
  }

  /** The elements a Python `for` loop visits: a list's items, a string's
      characters, a dict's keys; other values are not iterable. */
  function Iterate(j: Json): (r: Result<seq<Json>>)
    ensures j.JArr? ==> r == Ok(j.items)
    ensures r.Ok? <==> j.JArr? || j.JStr? || j.JObj?
  {
    match j
    case JArr(items) => Ok(items)
    case JStr(s) => Ok(seq(|s|, i requires 0 <= i < |s| => JStr([s[i]])))
    case JObj(entries) => Ok(seq(|entries|, i requires 0 <= i < |entries| => JStr(entries[i].0)))
    case _ => Err(TypeError)
  }

  /** The values `Decimal(x)` and `datetime.fromtimestamp(int(x) / 1000)`
      produce, kept opaque: the converted value remembers what it was built
      from. When the conversions succeed is stated by module Conversions. */
  datatype Decimal = Decimal(source: Json)
  datatype Timestamp = Timestamp(source: Json)

  /** Concatenation is associative. */
  lemma ConcatAssoc<T>(a: seq<T>, b: seq<T>, c: seq<T>)
    ensures a + (b + c) == (a + b) + c
  {
  }

  /** The suffix from `i` starts with `s[i]` and continues with the suffix
      from `i + 1`. */
  lemma SuffixStep<T>(s: seq<T>, i: nat)
    requires i < |s|
    ensures s[i..][0] == s[i] && s[i..][1..] == s[i + 1..]
  {
  }
}
