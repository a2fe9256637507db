/** The type-keyed inner event hub (mmm/core/hub/inner_event_hub/hub.py):
    one asyncio queue per event class. A message's class is given by
    `typeOf`, the name of `type(msg)`: its exact class, never a base class. */
module MmmCoreInnerEventHub {
  import opened Types
  import opened Dicts
  import opened Tasks

  class AsyncioQueueEventHub<M> {
    const typeOf: M -> string
    var subscriptions: Dict<string, Queue<M>>

    /** The queues are `Queue()` (unbounded) and no two types share one. */
    ghost predicate Valid()
      reads this
    {
      && subscriptions.Valid()
      && (forall t :: t in subscriptions.items ==> subscriptions.items[t].maxsize <= 0)
      && (forall t, u :: t in subscriptions.items && u in subscriptions.items && t != u ==>
                           subscriptions.items[t] != subscriptions.items[u])
    }

    ghost function Queues(): set<Queue<M>>
      reads this
    {
      set t | t in subscriptions.items :: subscriptions.items[t]
    }

    constructor (typeOf: M -> string)
      ensures Valid() && this.typeOf == typeOf && subscriptions == Empty()
    {
      this.typeOf := typeOf;
      subscriptions := Empty();
    }

    /** `subscribe(event_type)`: the queue already held for the type, or a new
        empty one. */
    method Subscribe(t: string) returns (q: Queue<M>)
      requires Valid()
      modifies this
      ensures Valid()
      ensures t in subscriptions.items && q == subscriptions.items[t]
      ensures t in old(subscriptions.items) ==> subscriptions == old(subscriptions)
      ensures t !in old(subscriptions.items) ==>
                && fresh(q) && q.items == []
                && subscriptions == Put(old(subscriptions), t, q)
    {
      if t !in subscriptions.items {
        var created := new Queue<M>(0);
        subscriptions := Put(subscriptions, t, created);
      }
      q := subscriptions.items[t];
    }

    /** `unsubscribe(event_type)`: drops the entry if there is one. */
    method Unsubscribe(t: string)
      requires Valid()
      modifies this
      ensures Valid()
      ensures subscriptions == if t in old(subscriptions.items) then Remove(old(subscriptions), t) else old(subscriptions)
    {
      if t in subscriptions.items {
        subscriptions := Remove(subscriptions, t);
      }
    }

    /** `publish(msg)`: only the queue of the message's exact class receives
        it; with no such queue the message is discarded. */
    method Publish(msg: M)
      requires Valid()
      modifies Queues()
      ensures forall t :: t in subscriptions.items ==>
                subscriptions.items[t].items
                == old(subscriptions.items[t].items) + (if t == typeOf(msg) then [msg] else [])
    {
      if typeOf(msg) in subscriptions.items {
        var outcome := subscriptions.items[typeOf(msg)].PutNowait(msg);
      }
    }
  }

  /** Subscribing twice to one type hands out the same queue and leaves the
      hub as the first call left it. */
  method SubscribeIsIdempotent<M>(hub: AsyncioQueueEventHub<M>, t: string) returns (q1: Queue<M>, q2: Queue<M>)
    requires hub.Valid()
    modifies hub
    ensures hub.Valid() && q1 == q2
    ensures t in old(hub.subscriptions.items) ==> hub.subscriptions == old(hub.subscriptions)
  {
    q1 := hub.Subscribe(t);
    ghost var after := hub.subscriptions;
    q2 := hub.Subscribe(t);
    assert hub.subscriptions == after;
  }
}
