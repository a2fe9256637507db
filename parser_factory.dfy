/** The channel-to-parser registry (mmm/core/datasource/parser.py). */
module MmmCoreParserFactory {
  import opened Types
  import opened Dicts

  /** The parser of the first key, in `keys` order, that is a prefix of
      `channel`; RuntimeError when there is none. */
  function FirstPrefix<P>(keys: seq<string>, registry: map<string, P>, channel: string): Result<P>
    requires forall i :: 0 <= i < |keys| ==> keys[i] in registry
  {
    if |keys| == 0 then Err(RuntimeError)
    else if keys[0] <= channel then Ok(registry[keys[0]])
    else FirstPrefix(keys[1..], registry, channel)
  }

  /** `FirstPrefix` finds the earliest matching key, not the longest, and
      fails exactly when no key is a prefix of the channel. */
  lemma {:induction false} FirstPrefixIsFirstMatch<P>(keys: seq<string>, registry: map<string, P>, channel: string)
    requires forall i :: 0 <= i < |keys| ==> keys[i] in registry
    ensures FirstPrefix(keys, registry, channel).Err? <==> forall i :: 0 <= i < |keys| ==> !(keys[i] <= channel)
    ensures FirstPrefix(keys, registry, channel).Err? ==> FirstPrefix(keys, registry, channel).exc == RuntimeError
    ensures FirstPrefix(keys, registry, channel).Ok? ==>
              exists i :: 0 <= i < |keys| && keys[i] <= channel
                          && (forall j :: 0 <= j < i ==> !(keys[j] <= channel))
                          && FirstPrefix(keys, registry, channel).value == registry[keys[i]]
  {
    if |keys| > 0 && !(keys[0] <= channel) {
      FirstPrefixIsFirstMatch(keys[1..], registry, channel);
      var r := FirstPrefix(keys, registry, channel);
      if r.Ok? {
        var i :| 0 <= i < |keys| - 1 && keys[1..][i] <= channel
                 && (forall j :: 0 <= j < i ==> !(keys[1..][j] <= channel))
                 && r.value == registry[keys[1..][i]];
        assert keys[i + 1] <= channel && r.value == registry[keys[i + 1]];
        assert forall j :: 0 <= j < i + 1 ==> !(keys[j] <= channel) by {
          forall j | 0 <= j < i + 1 ensures !(keys[j] <= channel) {
            if j > 0 { assert keys[j] == keys[1..][j - 1]; }
          }
        }
      } else {
        forall i | 0 <= i < |keys| ensures !(keys[i] <= channel) {
          if i > 0 { assert keys[i] == keys[1..][i - 1]; }
        }
      }
    }
  }

  /** An empty-string key matches every channel. */
  lemma {:induction false} EmptyKeyMatchesEverything<P>(keys: seq<string>, registry: map<string, P>, channel: string)
    requires forall i :: 0 <= i < |keys| ==> keys[i] in registry
    requires "" in keys
    ensures FirstPrefix(keys, registry, channel).Ok?
  {
    FirstPrefixIsFirstMatch(keys, registry, channel);
    var i :| 0 <= i < |keys| && keys[i] == "";
    assert keys[i] <= channel;
  }

  /** With "t" registered before "trades", the channel "trades" gets the
      parser of "t". */
  lemma FirstMatchNotLongest<P>(short: P, long: P)
    ensures FirstPrefix(["t", "trades"], map["t" := short, "trades" := long], "trades") == Ok(short)
  {
  }

  /** `ParserFactory`: `__registry__` is a dict from channel prefix to parser. */
  class ParserFactory<P> {
    var registry: Dict<string, P>

    ghost predicate Valid()
      reads this
    {
      registry.Valid()
    }

    constructor ()
      ensures Valid() && registry == Empty()
    {
      registry := Empty();
    }

    /** `register(channel, parser)`: inserts, or overwrites keeping the key's
        original iteration position. */
    method Register(channel: string, parser: P)
      requires Valid()
      modifies this
      ensures Valid()
      ensures registry.items == old(registry.items)[channel := parser]
      ensures registry.keys == if channel in old(registry.items) then old(registry.keys) else old(registry.keys) + [channel]
    {
      registry := Put(registry, channel, parser);
    }

    /** `get(channel)`: scans the keys in insertion order and returns the
        parser of the first one that is a prefix of the channel. */
    method Get(channel: string) returns (r: Result<P>)
      requires Valid()
      ensures r == FirstPrefix(registry.keys, registry.items, channel)
    {
      var keys := registry.keys;
      var i := 0;
      while i < |keys|
        invariant 0 <= i <= |keys|
        invariant FirstPrefix(keys[i..], registry.items, channel) == FirstPrefix(keys, registry.items, channel)
      {
        if keys[i] <= channel {
          return Ok(registry.items[keys[i]]);
        }
        assert keys[i..][1..] == keys[i + 1..];
        i := i + 1;
      }
      r := Err(RuntimeError);
    }
  }
}
