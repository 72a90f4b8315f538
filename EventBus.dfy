/** The string-keyed event bus. Unlike the typed bus it keeps a name whose
    list has emptied, and it dispatches over the live list: a listener that
    changes that very list makes the enumeration throw once it returns, and
    the exception leaves the bus. */
module StringBus {
  import opened Subscribers

  /** What a listener may do to the bus while it runs. */
  datatype BusCall =
    | AddListener(name: string, listener: Handler)
    | RemoveListener(name: string, listener: Handler)
    | ClearAllListeners

  /** The list registered under a name, empty when there is none. */
  function Registered(m: map<string, seq<Handler>>, name: string): seq<Handler>
  {
    if name in m then m[name] else []
  }

  /** The registry after AddListener(name, h). */
  function Added(m: map<string, seq<Handler>>, name: string, h: Handler): (r: map<string, seq<Handler>>)
    ensures r.Keys == m.Keys + {name}
    ensures r[name] == Registered(m, name) + [h]
    ensures forall n :: n in m && n != name ==> r[n] == m[n]
  {
    m[name := Registered(m, name) + [h]]
  }

  /** The registry after RemoveListener(name, h): one occurrence gone, the
      name kept even when its list is now empty. */
  function Removed(m: map<string, seq<Handler>>, name: string, h: Handler): (r: map<string, seq<Handler>>)
    ensures r.Keys == m.Keys
    ensures name in m ==> r[name] == RemoveFirst(m[name], h)
    ensures forall n :: n in m && n != name ==> r[n] == m[n]
  {
    if name in m then m[name := RemoveFirst(m[name], h)] else m
  }

  /** Where a listener's calls leave things during a dispatch of one name: the
      registry, whether the list being enumerated has been changed, and whether
      that list is still the one registered under the name (a clear detaches
      it; a list made afterwards is a new one). */
  datatype Live = Live(listeners: map<string, seq<Handler>>, changed: bool, attached: bool)

  /** One call during the dispatch of name. Adding under that name changes the
      enumerated list while it is attached; removing changes it only when the
      listener was there. */
  function Step(s: Live, name: string, c: BusCall): (r: Live)
    ensures s.changed ==> r.changed
    ensures r.attached ==> s.attached
  {
    match c
    case AddListener(n, h) =>
      Live(Added(s.listeners, n, h), s.changed || (n == name && s.attached), s.attached)
    case RemoveListener(n, h) =>
      Live(Removed(s.listeners, n, h),
           s.changed || (n == name && s.attached && h in Registered(s.listeners, n)), s.attached)
    case ClearAllListeners =>
      Live(map[], s.changed, false)
  }

  /** A listener's calls, in order. */
  function Steps(s: Live, name: string, cs: seq<BusCall>): Live
  {
    if |cs| == 0 then s else Step(Steps(s, name, cs[..|cs| - 1]), name, cs[|cs| - 1])
  }

  /** The calls the listener at position i makes while it runs. */
  function CallsAt(calls: seq<seq<BusCall>>, i: nat): seq<BusCall>
  {
    if i < |calls| then calls[i] else []
  }

  /** The outcome of a dispatch: the invocations made, whether it ran to the
      end (false: the enumeration threw out of TriggerEvent), and the registry
      left behind. */
  datatype Outcome = Outcome(dispatched: seq<Delivery>, completed: bool, listeners: map<string, seq<Handler>>)

  /** The rest of a dispatch of name over the list live, from position i, with
      the invocations so far in acc. A null entry is skipped; after a listener
      that changed the enumerated list the dispatch stops. */
  function LiveRun(s: Live, name: string, live: seq<Handler>, i: nat, faults: set<nat>,
                   calls: seq<seq<BusCall>>, acc: seq<Delivery>): Outcome
    requires i <= |live|
    decreases |live| - i
  {
    if i == |live| then Outcome(acc, true, s.listeners)
    else if live[i].Null? then LiveRun(s, name, live, i + 1, faults, calls, acc)
    else
      var s1 := Steps(s, name, CallsAt(calls, i));
      var acc1 := acc + Deliver(live[i], faults);
      if s1.changed then Outcome(acc1, false, s1.listeners)
      else LiveRun(s1, name, live, i + 1, faults, calls, acc1)
  }

  /** The whole of TriggerEvent(name): nothing for an unknown name. */
  function Triggered(m: map<string, seq<Handler>>, name: string, faults: set<nat>, calls: seq<seq<BusCall>>)
    : Outcome
  {
    if name !in m then Outcome([], true, m)
    else LiveRun(Live(m, false, true), name, m[name], 0, faults, calls, [])
  }

  /** Listeners that leave the bus alone are all invoked, in order, whichever
      of them throw, and the registry is unchanged. */
  lemma {:induction false} QuietRun(m: map<string, seq<Handler>>, name: string, live: seq<Handler>, i: nat,
                                    faults: set<nat>, calls: seq<seq<BusCall>>)
    requires i <= |live|
    requires forall j :: 0 <= j < |calls| ==> calls[j] == []
    ensures LiveRun(Live(m, false, true), name, live, i, faults, calls, Dispatched(live[..i], faults))
            == Outcome(Dispatched(live, faults), true, m)
    decreases |live| - i
  {
    if i == |live| {
      assert live[..i] == live;
    } else {
      var s := Live(m, false, true);
      DispatchedSnoc(live, i, faults);
      assert CallsAt(calls, i) == [];
      assert Steps(s, name, []) == s;
      assert Dispatched(live[..i], faults) + Deliver(live[i], faults) == Dispatched(live[..i + 1], faults);
      QuietRun(m, name, live, i + 1, faults, calls);
      if live[i].Null? {
        assert Dispatched(live[..i + 1], faults) == Dispatched(live[..i], faults);
      }
    }
  }

  /** A dispatch whose listeners leave the bus alone completes, reaches every
      listener of the name, and changes nothing. */
  lemma QuietTrigger(m: map<string, seq<Handler>>, name: string, faults: set<nat>, calls: seq<seq<BusCall>>)
    requires forall j :: 0 <= j < |calls| ==> calls[j] == []
    ensures Triggered(m, name, faults, calls) == Outcome(Dispatched(Registered(m, name), faults), true, m)
  {
    if name in m {
      QuietRun(m, name, m[name], 0, faults, calls);
    }
  }

  /** Dispatching a longer prefix of a list extends the outcomes. */
  lemma {:induction false} DispatchedPrefix(hs: seq<Handler>, i: nat, j: nat, faults: set<nat>)
    requires i <= j <= |hs|
    ensures Dispatched(hs[..i], faults) <= Dispatched(hs[..j], faults)
    decreases j - i
  {
    if i < j {
      DispatchedSnoc(hs, i, faults);
      DispatchedPrefix(hs, i + 1, j, faults);
    }
  }

  /** Whatever the listeners do to the bus, the invocations of a dispatch are
      the first ones of the list it started with, and all of them when it
      completes. */
  lemma {:induction false} RunPrefix(s: Live, name: string, live: seq<Handler>, i: nat,
                                     faults: set<nat>, calls: seq<seq<BusCall>>)
    requires i <= |live|
    ensures var o := LiveRun(s, name, live, i, faults, calls, Dispatched(live[..i], faults));
            o.dispatched <= Dispatched(live, faults)
            && (o.completed ==> o.dispatched == Dispatched(live, faults))
    decreases |live| - i
  {
    if i == |live| {
      assert live[..i] == live;
    } else {
      DispatchedSnoc(live, i, faults);
      DispatchedPrefix(live, i + 1, |live|, faults);
      assert live[..|live|] == live;
      RunPrefix(Steps(s, name, CallsAt(calls, i)), name, live, i + 1, faults, calls);
      RunPrefix(s, name, live, i + 1, faults, calls);
      if live[i].Null? {
        assert Dispatched(live[..i + 1], faults) == Dispatched(live[..i], faults);
      }
    }
  }

  /** TriggerEvent invokes at most the listeners registered when it starts, in
      their order, and exactly those when it completes. */
  lemma TriggerPrefix(m: map<string, seq<Handler>>, name: string, faults: set<nat>, calls: seq<seq<BusCall>>)
    ensures Triggered(m, name, faults, calls).dispatched <= Dispatched(Registered(m, name), faults)
    ensures Triggered(m, name, faults, calls).completed
            ==> Triggered(m, name, faults, calls).dispatched == Dispatched(Registered(m, name), faults)
  {
    if name in m {
      RunPrefix(Live(m, false, true), name, m[name], 0, faults, calls);
    }
  }

  /** A listener adding to the list being dispatched stops the dispatch right
      after it: the listeners registered behind it are not invoked. */
  lemma SelfAddStops(m: map<string, seq<Handler>>, name: string, faults: set<nat>, x: Handler, rest: seq<seq<BusCall>>)
    requires name in m && |m[name]| > 0 && m[name][0].Handler?
    ensures Triggered(m, name, faults, [[AddListener(name, x)]] + rest)
            == Outcome(Deliver(m[name][0], faults), false, m[name := m[name] + [x]])
  {
    var calls := [[AddListener(name, x)]] + rest;
    assert CallsAt(calls, 0) == [AddListener(name, x)];
    var s0 := Live(m, false, true);
    assert Steps(s0, name, [AddListener(name, x)]) == Step(s0, name, AddListener(name, x));
  }

  /** After a clear the enumerated list is detached: a listener that clears
      the bus and registers under the same name again does not stop the
      dispatch, and the listeners behind it still run. */
  lemma ClearDetaches(m: map<string, seq<Handler>>, name: string, faults: set<nat>, x: Handler)
    requires name in m && |m[name]| > 0 && m[name][0].Handler?
    ensures var o := Triggered(m, name, faults, [[ClearAllListeners, AddListener(name, x)]]);
            o.completed && o.listeners == map[name := [x]]
            && DeliveryIds(o.dispatched) == Ids(m[name])
  {
    var live := m[name];
    var calls := [[ClearAllListeners, AddListener(name, x)]];
    var cs := calls[0];
    var s0 := Live(m, false, true);
    assert cs[..1] == [ClearAllListeners];
    assert Steps(s0, name, cs[..1]) == Live(map[], false, false);
    assert cs[..|cs| - 1] == cs[..1];
    assert [] + [x] == [x];
    var s1 := Live(map[name := [x]], false, false);
    assert Steps(s0, name, cs) == s1;
    var acc1 := Deliver(live[0], faults);
    assert live[..1] == [live[0]];
    assert Dispatched(live[..1], faults) == acc1;
    DetachedRun(s1, name, live, 1, faults, calls);
    DispatchReachesAll(live, faults);
  }

  /** Once detached, with no more calls, the dispatch runs on to the end over
      the list it started with and leaves the registry as it is. */
  lemma {:induction false} DetachedRun(s: Live, name: string, live: seq<Handler>, i: nat,
                                       faults: set<nat>, calls: seq<seq<BusCall>>)
    requires 1 <= i <= |live| && |calls| == 1 && !s.changed
    ensures LiveRun(s, name, live, i, faults, calls, Dispatched(live[..i], faults))
            == Outcome(Dispatched(live, faults), true, s.listeners)
    decreases |live| - i
  {
    if i == |live| {
      assert live[..i] == live;
    } else {
      DispatchedSnoc(live, i, faults);
      assert CallsAt(calls, i) == [];
      assert Steps(s, name, []) == s;
      DetachedRun(s, name, live, i + 1, faults, calls);
      if live[i].Null? {
        assert Dispatched(live[..i + 1], faults) == Dispatched(live[..i], faults);
      }
    }
  }

  class EventBus {
    var listeners: map<string, seq<Handler>>

    constructor ()
      ensures listeners == map[]
    {
      listeners := map[];
    }

    /** Appends the listener under the name, making the list if needed;
        duplicates are kept. */
    method AddListener(name: string, h: Handler)
      modifies this
      ensures listeners == Added(old(listeners), name, h)
    {
      if name !in listeners {
        listeners := listeners[name := []];
      }
      listeners := listeners[name := listeners[name] + [h]];
    }

    /** Removes one occurrence of the listener; the name stays registered even
        when its list empties, and an unknown name is left alone. */
    method RemoveListener(name: string, h: Handler)
      modifies this
      ensures listeners == Removed(old(listeners), name, h)
    {
      if name in listeners {
        listeners := listeners[name := RemoveFirst(listeners[name], h)];
      }
    }

    /** Forgets every name. */
    method ClearAllListeners()
      modifies this
      ensures listeners == map[]
    {
      listeners := map[];
    }

    /** Invokes the listeners of the name over the live list, skipping null
        entries and catching what a listener throws. calls[i] are the bus
        calls made by the listener at position i; when they change the list
        being enumerated the dispatch stops there with completed false, the
        enumeration's exception leaving the bus. */
    method TriggerEvent(name: string, faults: set<nat>, calls: seq<seq<BusCall>>)
      returns (dispatched: seq<Delivery>, completed: bool)
      modifies this
      ensures Outcome(dispatched, completed, listeners) == Triggered(old(listeners), name, faults, calls)
    {
      dispatched := [];
      completed := true;
      if name !in listeners {
        return;
      }
      var live := listeners[name];
      var attached := true;
      var i := 0;
      while i < |live|
        invariant 0 <= i <= |live|
        invariant LiveRun(Live(listeners, false, attached), name, live, i, faults, calls, dispatched)
                  == Triggered(old(listeners), name, faults, calls)
        decreases |live| - i
      {
        if live[i].Handler? {
          dispatched := dispatched + Deliver(live[i], faults);
          var changed;
          changed, attached := React(name, attached, CallsAt(calls, i));
          if changed {
            completed := false;
            return;
          }
        }
        i := i + 1;
      }
    }

    /** A listener's calls into the bus, made one after the other, tracking
        whether they changed the list under dispatch. */
    method React(name: string, attached: bool, cs: seq<BusCall>) returns (changed: bool, stillAttached: bool)
      modifies this
      ensures Live(listeners, changed, stillAttached) == Steps(Live(old(listeners), false, attached), name, cs)
    {
      changed, stillAttached := false, attached;
      for j := 0 to |cs|
        invariant Live(listeners, changed, stillAttached) == Steps(Live(old(listeners), false, attached), name, cs[..j])
      {
        assert cs[..j + 1][..j] == cs[..j];
        match cs[j]
        case AddListener(n, h) =>
          changed := changed || (n == name && stillAttached);
          AddListener(n, h);
        case RemoveListener(n, h) =>
          changed := changed || (n == name && stillAttached && h in Registered(listeners, n));
          RemoveListener(n, h);
        case ClearAllListeners =>
          stillAttached := false;
          ClearAllListeners();
      }
      assert cs[..|cs|] == cs;
    }
  }
}
