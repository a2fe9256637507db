/** The datasource message hub of the src snapshot
    (src/mmm/core/hub/datasource_msg_hub/hub.py): one asyncio queue per
    subscription object, and fan-out of each response to every queue whose
    subscription it answers. */
module SrcDsMsgHub {
  import opened Types
  import opened Dicts
  import opened Tasks
  import opened MmmCoreOkexSubscription

  /** The messages of `msgs`, in order, that answer a subscription with
      value `s`: what its queue receives when `msgs` are published in turn. */
  function Delivered(msgs: seq<Response>, s: Subscription): (r: seq<Response>)
    ensures |r| <= |msgs|
    ensures forall m :: m in r <==> m in msgs && ResponseFor(m, s)
    decreases |msgs|
  {
    if |msgs| == 0 then []
    else
      var last := msgs[|msgs| - 1];
      assert forall m :: m in msgs <==> m in msgs[..|msgs| - 1] || m == last;
      Delivered(msgs[..|msgs| - 1], s) + (if ResponseFor(last, s) then [last] else [])
  }

  /** Publishing `a` and then `b` delivers what publishing `a + b` does. */
  lemma {:induction false} DeliveredConcat(a: seq<Response>, b: seq<Response>, s: Subscription)
    ensures Delivered(a + b, s) == Delivered(a, s) + Delivered(b, s)
    decreases |b|
  {
    if |b| == 0 {
      assert a + b == a;
    } else {
      var b' := b[..|b| - 1];
      assert (a + b)[..|a + b| - 1] == a + b';
      DeliveredConcat(a, b', s);
    }
  }

  /** Between two snapshots of the hub's queues, each queue has received
      exactly what publishing `published` in turn delivers to it. */
  ghost predicate GrewBy(before: map<SubscriptionRef, seq<Response>>, after: map<SubscriptionRef, seq<Response>>,
                         published: seq<Response>)
  {
    && after.Keys == before.Keys
    && forall k :: k in after ==> after[k] == before[k] + Delivered(published, k.value)
  }

  lemma GrewByTrans(a: map<SubscriptionRef, seq<Response>>, b: map<SubscriptionRef, seq<Response>>,
                    c: map<SubscriptionRef, seq<Response>>, p: seq<Response>, q: seq<Response>)
    requires GrewBy(a, b, p) && GrewBy(b, c, q)
    ensures GrewBy(a, c, p + q)
  {
    forall k | k in c
      ensures c[k] == a[k] + Delivered(p + q, k.value)
    {
      DeliveredConcat(p, q, k.value);
    }
  }

  /** `AsyncioQueueDsMsgHub`: `_subscriptions` maps subscription objects (by
      identity) to the queue handed out for them. */
  class AsyncioQueueDsMsgHub {
    var subscriptions: Dict<SubscriptionRef, Queue<Response>>

    /** The queues are `Queue()` (unbounded) and no two keys share one. */
    ghost predicate Valid()
      reads this
    {
      && subscriptions.Valid()
      && (forall k :: k in subscriptions.items ==> subscriptions.items[k].maxsize <= 0)
      && (forall a, b :: a in subscriptions.items && b in subscriptions.items && a != b ==>
                           subscriptions.items[a] != subscriptions.items[b])
    }

    ghost function Queues(): set<Queue<Response>>
      reads this
    {
      set k | k in subscriptions.items :: subscriptions.items[k]
    }

    /** What each queue holds, by subscription. */
    ghost function Contents(): (m: map<SubscriptionRef, seq<Response>>)
      reads this, Queues()
      ensures m.Keys == subscriptions.items.Keys
    {
      map k | k in subscriptions.items :: subscriptions.items[k].items
    }

    constructor ()
      ensures Valid() && subscriptions == Empty()
    {
      subscriptions := Empty();
    }

    /** `subscribe(subscription)`: the queue already held for this object, or
        a new empty one stored under it. */
    method Subscribe(s: SubscriptionRef) returns (q: Queue<Response>)
      requires Valid()
      modifies this
      ensures Valid()
      ensures s in subscriptions.items && q == subscriptions.items[s]
      ensures s in old(subscriptions.items) ==> subscriptions == old(subscriptions)
      ensures s !in old(subscriptions.items) ==>
                && fresh(q) && q.items == []
                && subscriptions == Put(old(subscriptions), s, q)
    {
      if s !in subscriptions.items {
        var created := new Queue<Response>(0);
        subscriptions := Put(subscriptions, s, created);
      }
      q := subscriptions.items[s];
    }

    /** `unsubscribe(subscription)`: drops the entry if there is one. */
    method Unsubscribe(s: SubscriptionRef)
      requires Valid()
      modifies this
      ensures Valid()
      ensures subscriptions == if s in old(subscriptions.items) then Remove(old(subscriptions), s) else old(subscriptions)
    {
      if s in subscriptions.items {
        subscriptions := Remove(subscriptions, s);
      }
    }

    /** `publish(msg)`: walks the entries in insertion order and appends the
        message to each queue whose subscription it answers. */
    method Publish(msg: Response)
      requires Valid()
      modifies Queues()
      ensures forall k :: k in subscriptions.items ==>
                subscriptions.items[k].items
                == old(subscriptions.items[k].items) + (if ResponseFor(msg, k.value) then [msg] else [])
    {
      var keys := subscriptions.keys;
      var i := 0;
      while i < |keys|
        invariant 0 <= i <= |keys|
        invariant forall j :: 0 <= j < |keys| ==>
                    subscriptions.items[keys[j]].items
                    == old(subscriptions.items[keys[j]].items)
                       + (if j < i && ResponseFor(msg, keys[j].value) then [msg] else [])
      {
        var q := subscriptions.items[keys[i]];
        if ResponseFor(msg, keys[i].value) {
          var outcome := q.PutNowait(msg);
        }
        i := i + 1;
      }
      forall k | k in subscriptions.items
        ensures subscriptions.items[k].items
                == old(subscriptions.items[k].items) + (if ResponseFor(msg, k.value) then [msg] else [])
      {
        assert k in set x | x in keys;
        var j :| 0 <= j < |keys| && keys[j] == k;
      }
    }
  }

  /** Two distinct subscription objects with equal fields get two queues,
      and one published message answering that value lands in both. */
  method SeparateQueuesForEqualSubscriptions(v: Subscription, msg: Response)
    returns (a: Queue<Response>, b: Queue<Response>)
    requires ResponseFor(msg, v)
    ensures a != b && a.items == [msg] && b.items == [msg]
  {
    var hub := new AsyncioQueueDsMsgHub();
    var s1 := new SubscriptionRef(v);
    var s2 := new SubscriptionRef(v);
    a := hub.Subscribe(s1);
    b := hub.Subscribe(s2);
    hub.Publish(msg);
  }
}
