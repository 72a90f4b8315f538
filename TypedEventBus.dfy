/** The strongly typed event bus: handlers registered per event type, a
    publish that dispatches over a copy of the list taken when it starts, and
    no empty list ever kept. */
module TypedBus {
  import opened Subscribers

  /** The event types of the game, the key typeof(T) of the registry. */
  datatype EventType =
    | ResourceChangedEvent
    | GathererChangedEvent
    | TimePeriodChangedEvent
    | TurnChangedEvent
    | GameStateChangedEvent
    | GameEventStartedEvent
    | GameEventCompletedEvent
    | RaidEvent
    | AllResourcesUpdatedEvent

  /** What a handler may do to the bus while it runs. */
  datatype BusCall =
    | Subscribe(eventType: EventType, handler: Handler)
    | Unsubscribe(eventType: EventType, handler: Handler)
    | ClearAll

  /** The list registered for t, empty when t has none. */
  function Registered(m: map<EventType, seq<Handler>>, t: EventType): seq<Handler>
  {
    if t in m then m[t] else []
  }

  /** The invariant of this bus: a type is a key only while it has handlers. */
  ghost predicate NoEmptyLists(m: map<EventType, seq<Handler>>)
  {
    forall t :: t in m ==> |m[t]| > 0
  }

  /** The registry after Subscribe(t, h). */
  function Subscribed(m: map<EventType, seq<Handler>>, t: EventType, h: Handler): (r: map<EventType, seq<Handler>>)
    ensures NoEmptyLists(m) ==> NoEmptyLists(r)
    ensures Registered(r, t) == Registered(m, t) + [h]
    ensures forall u :: u != t ==> Registered(r, u) == Registered(m, u)
  {
    m[t := Registered(m, t) + [h]]
  }

  /** The registry after Unsubscribe(t, h): one occurrence gone, and the key
      dropped once its list is empty. */
  function Unsubscribed(m: map<EventType, seq<Handler>>, t: EventType, h: Handler): (r: map<EventType, seq<Handler>>)
    ensures NoEmptyLists(m) ==> NoEmptyLists(r)
    ensures Registered(r, t) == RemoveFirst(Registered(m, t), h)
    ensures t in r <==> |RemoveFirst(Registered(m, t), h)| > 0
    ensures forall u :: u != t ==> Registered(r, u) == Registered(m, u) && (u in r <==> u in m)
  {
    if t !in m then m
    else
      var rest := RemoveFirst(m[t], h);
      if |rest| == 0 then m - {t} else m[t := rest]
  }

  /** The registry after one call made by a handler. */
  function Applied(m: map<EventType, seq<Handler>>, c: BusCall): (r: map<EventType, seq<Handler>>)
    ensures NoEmptyLists(m) ==> NoEmptyLists(r)
  {
    match c
    case Subscribe(t, h) => Subscribed(m, t, h)
    case Unsubscribe(t, h) => Unsubscribed(m, t, h)
    case ClearAll => map[]
  }

  /** The registry after a handler's calls, in order. */
  function AppliedAll(m: map<EventType, seq<Handler>>, cs: seq<BusCall>): (r: map<EventType, seq<Handler>>)
    ensures NoEmptyLists(m) ==> NoEmptyLists(r)
  {
    if |cs| == 0 then m else Applied(AppliedAll(m, cs[..|cs| - 1]), cs[|cs| - 1])
  }

  /** The calls the handler at position i makes while it runs. */
  function CallsAt(calls: seq<seq<BusCall>>, i: nat): seq<BusCall>
  {
    if i < |calls| then calls[i] else []
  }

  /** The registry after the first n entries of the copied list have run,
      each non-null one making its calls. */
  function Reacted(m: map<EventType, seq<Handler>>, hs: seq<Handler>, calls: seq<seq<BusCall>>, n: nat)
    : (r: map<EventType, seq<Handler>>)
    requires n <= |hs|
    ensures NoEmptyLists(m) ==> NoEmptyLists(r)
  {
    if n == 0 then m
    else
      var p := Reacted(m, hs, calls, n - 1);
      if hs[n - 1].Handler? then AppliedAll(p, CallsAt(calls, n - 1)) else p
  }

  /** Subscribing raises that type's count by one and no other. */
  lemma SubscribeCounts(m: map<EventType, seq<Handler>>, t: EventType, h: Handler, u: EventType)
    ensures |Registered(Subscribed(m, t, h), u)| == |Registered(m, u)| + if u == t then 1 else 0
  {
  }

  /** Unsubscribing a registered handler lowers that type's count by one; an
      unregistered one, or an unknown type, changes nothing. */
  lemma UnsubscribeCounts(m: map<EventType, seq<Handler>>, t: EventType, h: Handler)
    requires NoEmptyLists(m)
    ensures h in Registered(m, t) ==> |Registered(Unsubscribed(m, t, h), t)| == |Registered(m, t)| - 1
    ensures h !in Registered(m, t) ==> Unsubscribed(m, t, h) == m
  {
  }

  /** Subscribing and then unsubscribing the same handler restores the count. */
  lemma SubscribeUnsubscribeCount(m: map<EventType, seq<Handler>>, t: EventType, h: Handler)
    ensures |Registered(Unsubscribed(Subscribed(m, t, h), t, h), t)| == |Registered(m, t)|
  {
    assert h in Registered(m, t) + [h];
  }

  /** When the handler was not registered before, subscribing and then
      unsubscribing it gives the whole registry back. */
  lemma SubscribeUnsubscribeRestores(m: map<EventType, seq<Handler>>, t: EventType, h: Handler)
    requires NoEmptyLists(m) && h !in Registered(m, t)
    ensures Unsubscribed(Subscribed(m, t, h), t, h) == m
  {
    var s := Registered(m, t);
    RemoveAppended(s, h);
    var r := Unsubscribed(Subscribed(m, t, h), t, h);
    if |s| == 0 {
      assert r == m;
    } else {
      assert r == m[t := s];
    }
  }

  class TypedEventBus {
    var handlers: map<EventType, seq<Handler>>

    ghost predicate Valid()
      reads this
    {
      NoEmptyLists(handlers)
    }

    constructor ()
      ensures Valid() && handlers == map[]
    {
      handlers := map[];
    }

    /** Appends the handler to its type's list, creating the list if needed;
        duplicates are kept. */
    method Subscribe(t: EventType, h: Handler)
      requires Valid()
      modifies this
      ensures Valid()
      ensures handlers == Subscribed(old(handlers), t, h)
      ensures GetSubscriberCount(t) == old(GetSubscriberCount(t)) + 1
    {
      if t !in handlers {
        handlers := handlers[t := []];
      }
      handlers := handlers[t := handlers[t] + [h]];
    }

    /** Invokes every handler registered for t when the call starts, in
        registration order, over a copy of the list: what the handlers
        subscribe or unsubscribe while running changes the registry but not
        who is invoked. A handler that throws is caught and the rest still
        run. calls[i] are the bus calls made by the handler at position i. */
    method Publish(t: EventType, faults: set<nat>, calls: seq<seq<BusCall>>) returns (dispatched: seq<Delivery>)
      requires Valid()
      modifies this
      ensures Valid()
      ensures dispatched == Dispatched(Registered(old(handlers), t), faults)
      ensures handlers == Reacted(old(handlers), Registered(old(handlers), t), calls, |Registered(old(handlers), t)|)
    {
      if t !in handlers {
        return [];
      }
      var snapshot := handlers[t];
      dispatched := [];
      for i := 0 to |snapshot|
        invariant Valid()
        invariant dispatched == Dispatched(snapshot[..i], faults)
        invariant handlers == Reacted(old(handlers), snapshot, calls, i)
      {
        DispatchedSnoc(snapshot, i, faults);
        dispatched := dispatched + Deliver(snapshot[i], faults);
        Notify(snapshot[i], CallsAt(calls, i));
      }
      assert snapshot[..|snapshot|] == snapshot;
    }

    /** One entry of the copied list: a handler runs and makes its calls; a
        null entry, or one of another delegate type, does nothing. */
    method Notify(h: Handler, cs: seq<BusCall>)
      requires Valid()
      modifies this
      ensures Valid()
      ensures handlers == if h.Handler? then AppliedAll(old(handlers), cs) else old(handlers)
    {
      if h.Handler? {
        React(cs);
      }
    }

    /** A handler's calls into the bus, made one after the other. */
    method React(cs: seq<BusCall>)
      requires Valid()
      modifies this
      ensures Valid()
      ensures handlers == AppliedAll(old(handlers), cs)
    {
      for j := 0 to |cs|
        invariant Valid()
        invariant handlers == AppliedAll(old(handlers), cs[..j])
      {
        assert cs[..j + 1][..j] == cs[..j];
        match cs[j]
        case Subscribe(t, h) => Subscribe(t, h);
        case Unsubscribe(t, h) => Unsubscribe(t, h);
        case ClearAll => ClearAllHandlers();
      }
      assert cs[..|cs|] == cs;
    }

    /** Removes one occurrence of the handler and drops the type once its list
        is empty; an unknown type is left alone. */
    method Unsubscribe(t: EventType, h: Handler)
      requires Valid()
      modifies this
      ensures Valid()
      ensures handlers == Unsubscribed(old(handlers), t, h)
    {
      if t !in handlers {
        return;
      }
      handlers := handlers[t := RemoveFirst(handlers[t], h)];
      if |handlers[t]| == 0 {
        handlers := handlers - {t};
      }
    }

    /** Forgets every registration. */
    method ClearAllHandlers()
      modifies this
      ensures Valid()
      ensures handlers == map[]
      ensures forall t :: GetSubscriberCount(t) == 0
    {
      handlers := map[];
    }

    /** The number of handlers registered for t; 0 for a type never
        subscribed or whose last handler left. */
    function GetSubscriberCount(t: EventType): (n: nat)
      reads this
      ensures n == |Registered(handlers, t)|
      ensures Valid() ==> (n > 0 <==> t in handlers)
    {
      if t !in handlers then 0 else |handlers[t]|
    }
  }
}
