/** The adapter in front of the game loop: it forwards each state, turn and
    period notification, then publishes a typed event pairing the new value
    with the last one it saw, then remembers the new value. Commands and
    current-value reads pass straight to the game loop. */
module StateAdapter {
  import GameLoop

  /** What the adapter emits, in order: a forwarded C# event, or a typed event
      handed to the typed bus as (new value, previous value). */
  datatype Relay =
    | Forwarded(notice: GameLoop.Notice)
    | StatePublished(newState: GameLoop.GameStateType, previousState: GameLoop.GameStateType)
    | TurnPublished(newTurn: int, previousTurn: int)
    | PeriodPublished(newPeriod: GameLoop.TimePeriod, previousPeriod: GameLoop.TimePeriod)

  /** The adapter's own state: the three remembered values and what it has
      emitted so far. */
  datatype Tracker = Tracker(
    previousState: GameLoop.GameStateType,
    previousTurn: int,
    previousPeriod: GameLoop.TimePeriod,
    relays: seq<Relay>)

  /** The typed event a notification becomes, given what was last seen. */
  function Published(t: Tracker, n: GameLoop.Notice): Relay
  {
    match n
    case StateChanged(s) => StatePublished(s, t.previousState)
    case TurnChanged(v) => TurnPublished(v, t.previousTurn)
    case TimePeriodChanged(p) => PeriodPublished(p, t.previousPeriod)
  }

  /** One handler run: forward, publish, then remember the new value of that
      kind only. */
  function Handled(t: Tracker, n: GameLoop.Notice): Tracker
  {
    var r := t.relays + [Forwarded(n), Published(t, n)];
    match n
    case StateChanged(s) => t.(previousState := s, relays := r)
    case TurnChanged(v) => t.(previousTurn := v, relays := r)
    case TimePeriodChanged(p) => t.(previousPeriod := p, relays := r)
  }

  /** The handlers run for each notification of ns, in order. */
  function Relayed(t: Tracker, ns: seq<GameLoop.Notice>): Tracker
  {
    if |ns| == 0 then t else Handled(Relayed(t, ns[..|ns| - 1]), ns[|ns| - 1])
  }

  /** The pairs (new, previous) of a chain of values starting after p: each
      previous value is the new value before it, the first one p. */
  function Chain<T>(p: T, vs: seq<T>): (r: seq<(T, T)>)
    ensures |r| == |vs|
    ensures forall i :: 0 <= i < |vs| ==> r[i].0 == vs[i]
    ensures |vs| > 0 ==> r[0].1 == p
    ensures forall i :: 0 < i < |vs| ==> r[i].1 == vs[i - 1]
  {
    if |vs| == 0 then []
    else Chain(p, vs[..|vs| - 1]) + [(vs[|vs| - 1], if |vs| == 1 then p else vs[|vs| - 2])]
  }

  /** The last value of a chain that started after p. */
  function Latest<T>(p: T, vs: seq<T>): T
  {
    if |vs| == 0 then p else vs[|vs| - 1]
  }

  /** The states, turns and periods announced by ns, in order. */
  function States(ns: seq<GameLoop.Notice>): seq<GameLoop.GameStateType>
  {
    if |ns| == 0 then []
    else States(ns[..|ns| - 1]) + if ns[|ns| - 1].StateChanged? then [ns[|ns| - 1].state] else []
  }

  function Turns(ns: seq<GameLoop.Notice>): seq<int>
  {
    if |ns| == 0 then []
    else Turns(ns[..|ns| - 1]) + if ns[|ns| - 1].TurnChanged? then [ns[|ns| - 1].turn] else []
  }

  function Periods(ns: seq<GameLoop.Notice>): seq<GameLoop.TimePeriod>
  {
    if |ns| == 0 then []
    else Periods(ns[..|ns| - 1]) + if ns[|ns| - 1].TimePeriodChanged? then [ns[|ns| - 1].period] else []
  }

  /** The (new, previous) pairs of the typed state, turn and period events
      among the relays, in order. */
  function StatePairs(rs: seq<Relay>): seq<(GameLoop.GameStateType, GameLoop.GameStateType)>
  {
    if |rs| == 0 then []
    else
      var last := rs[|rs| - 1];
      StatePairs(rs[..|rs| - 1]) + if last.StatePublished? then [(last.newState, last.previousState)] else []
  }

  function TurnPairs(rs: seq<Relay>): seq<(int, int)>
  {
    if |rs| == 0 then []
    else
      var last := rs[|rs| - 1];
      TurnPairs(rs[..|rs| - 1]) + if last.TurnPublished? then [(last.newTurn, last.previousTurn)] else []
  }

  function PeriodPairs(rs: seq<Relay>): seq<(GameLoop.TimePeriod, GameLoop.TimePeriod)>
  {
    if |rs| == 0 then []
    else
      var last := rs[|rs| - 1];
      PeriodPairs(rs[..|rs| - 1]) + if last.PeriodPublished? then [(last.newPeriod, last.previousPeriod)] else []
  }

  /** Every notification is forwarded and then published, in the order
      received, two relays each, the typed event carrying the new value of the
      notification. */
  lemma {:induction false} RelayedInterleaves(t: Tracker, ns: seq<GameLoop.Notice>)
    ensures var r := Relayed(t, ns).relays;
            |r| == |t.relays| + 2 * |ns|
            && r[..|t.relays|] == t.relays
            && forall i :: 0 <= i < |ns| ==>
                 r[|t.relays| + 2 * i] == Forwarded(ns[i])
                 && r[|t.relays| + 2 * i + 1] == Published(Relayed(t, ns[..i]), ns[i])
  {
    if |ns| > 0 {
      var k := |ns| - 1;
      var init := ns[..k];
      RelayedInterleaves(t, init);
      var r0 := Relayed(t, init).relays;
      var r := Relayed(t, ns).relays;
      assert r == r0 + [Forwarded(ns[k]), Published(Relayed(t, init), ns[k])];
      forall i | 0 <= i < |ns|
        ensures r[|t.relays| + 2 * i] == Forwarded(ns[i])
        ensures r[|t.relays| + 2 * i + 1] == Published(Relayed(t, ns[..i]), ns[i])
      {
        if i < k {
          assert init[i] == ns[i];
          assert init[..i] == ns[..i];
        } else {
          assert ns[..i] == init;
        }
      }
    }
  }

  /** A chain grows by a pair whose previous value is the chain's latest. */
  lemma ChainSnoc<T>(p: T, vs: seq<T>, v: T)
    ensures Chain(p, vs + [v]) == Chain(p, vs) + [(v, Latest(p, vs))]
  {
    assert (vs + [v])[..|vs|] == vs;
  }

  /** A forwarded notice adds no typed pair; the typed event after it adds its
      own pair, of its kind only. */
  lemma PairsAfterRelay(rs: seq<Relay>, n: GameLoop.Notice, b: Relay)
    ensures StatePairs(rs + [Forwarded(n), b])
            == StatePairs(rs) + if b.StatePublished? then [(b.newState, b.previousState)] else []
    ensures TurnPairs(rs + [Forwarded(n), b])
            == TurnPairs(rs) + if b.TurnPublished? then [(b.newTurn, b.previousTurn)] else []
    ensures PeriodPairs(rs + [Forwarded(n), b])
            == PeriodPairs(rs) + if b.PeriodPublished? then [(b.newPeriod, b.previousPeriod)] else []
  {
    assert (rs + [Forwarded(n), b])[..|rs| + 1] == rs + [Forwarded(n)];
    assert (rs + [Forwarded(n)])[..|rs|] == rs;
  }

  /** The typed state events chain: each carries as previous the new state of
      the one before it, the first one the state remembered at the start, and
      the adapter ends up remembering the last state announced. */
  lemma {:induction false} StateChain(t: Tracker, ns: seq<GameLoop.Notice>)
    ensures StatePairs(Relayed(t, ns).relays) == StatePairs(t.relays) + Chain(t.previousState, States(ns))
    ensures Relayed(t, ns).previousState == Latest(t.previousState, States(ns))
  {
    if |ns| > 0 {
      var k := |ns| - 1;
      var n := ns[k];
      StateChain(t, ns[..k]);
      var u := Relayed(t, ns[..k]);
      var vs := States(ns[..k]);
      PairsAfterRelay(u.relays, n, Published(u, n));
      if n.StateChanged? {
        assert States(ns) == vs + [n.state];
        ChainSnoc(t.previousState, vs, n.state);
      } else {
        assert States(ns) == vs;
      }
    }
  }

  /** The same chaining for turns. */
  lemma {:induction false} TurnChain(t: Tracker, ns: seq<GameLoop.Notice>)
    ensures TurnPairs(Relayed(t, ns).relays) == TurnPairs(t.relays) + Chain(t.previousTurn, Turns(ns))
    ensures Relayed(t, ns).previousTurn == Latest(t.previousTurn, Turns(ns))
  {
    if |ns| > 0 {
      var k := |ns| - 1;
      var n := ns[k];
      TurnChain(t, ns[..k]);
      var u := Relayed(t, ns[..k]);
      var vs := Turns(ns[..k]);
      PairsAfterRelay(u.relays, n, Published(u, n));
      if n.TurnChanged? {
        assert Turns(ns) == vs + [n.turn];
        ChainSnoc(t.previousTurn, vs, n.turn);
      } else {
        assert Turns(ns) == vs;
      }
    }
  }

  /** The same chaining for time periods. */
  lemma {:induction false} PeriodChain(t: Tracker, ns: seq<GameLoop.Notice>)
    ensures PeriodPairs(Relayed(t, ns).relays) == PeriodPairs(t.relays) + Chain(t.previousPeriod, Periods(ns))
    ensures Relayed(t, ns).previousPeriod == Latest(t.previousPeriod, Periods(ns))
  {
    if |ns| > 0 {
      var k := |ns| - 1;
      var n := ns[k];
      PeriodChain(t, ns[..k]);
      var u := Relayed(t, ns[..k]);
      var vs := Periods(ns[..k]);
      PairsAfterRelay(u.relays, n, Published(u, n));
      if n.TimePeriodChanged? {
        assert Periods(ns) == vs + [n.period];
        ChainSnoc(t.previousPeriod, vs, n.period);
      } else {
        assert Periods(ns) == vs;
      }
    }
  }

  class GameLoopManagerAdapter {
    const loop: GameLoop.GameLoopManager
    var previousState: GameLoop.GameStateType
    var previousTurn: int
    var previousPeriod: GameLoop.TimePeriod
    var relays: seq<Relay>

    function Snapshot(): (t: Tracker)
      reads this`previousState, this`previousTurn, this`previousPeriod, this`relays
      ensures t.previousState == previousState && t.previousTurn == previousTurn
      ensures t.previousPeriod == previousPeriod && t.relays == relays
    {
      Tracker(previousState, previousTurn, previousPeriod, relays)
    }

    /** Awake: bound to the game loop, remembering its current state, turn and
        period as the previous values. */
    constructor (loop: GameLoop.GameLoopManager)
      ensures this.loop == loop
      ensures Snapshot() == Tracker(loop.state, loop.turn, loop.period, [])
    {
      this.loop := loop;
      previousState := loop.state;
      previousTurn := loop.turn;
      previousPeriod := loop.period;
      relays := [];
    }

    /** The subscriber to OnStateChanged. */
    method HandleStateChanged(s: GameLoop.GameStateType)
      modifies this`previousState, this`relays
      ensures Snapshot() == Handled(old(Snapshot()), GameLoop.StateChanged(s))
    {
      relays := relays + [Forwarded(GameLoop.StateChanged(s))];
      relays := relays + [StatePublished(s, previousState)];
      previousState := s;
    }

    /** The subscriber to OnTurnChanged. */
    method HandleTurnChanged(v: int)
      modifies this`previousTurn, this`relays
      ensures Snapshot() == Handled(old(Snapshot()), GameLoop.TurnChanged(v))
    {
      relays := relays + [Forwarded(GameLoop.TurnChanged(v))];
      relays := relays + [TurnPublished(v, previousTurn)];
      previousTurn := v;
    }

    /** The subscriber to OnTimePeriodChanged. */
    method HandleTimePeriodChanged(p: GameLoop.TimePeriod)
      modifies this`previousPeriod, this`relays
      ensures Snapshot() == Handled(old(Snapshot()), GameLoop.TimePeriodChanged(p))
    {
      relays := relays + [Forwarded(GameLoop.TimePeriodChanged(p))];
      relays := relays + [PeriodPublished(p, previousPeriod)];
      previousPeriod := p;
    }

    /** The notifications raised by one game-loop command, each delivered to the
        subscribed handler of its kind as it is raised. */
    method Receive(ns: seq<GameLoop.Notice>)
      modifies this`previousState, this`previousTurn, this`previousPeriod, this`relays
      ensures Snapshot() == Relayed(old(Snapshot()), ns)
    {
      for i := 0 to |ns|
        invariant Snapshot() == Relayed(old(Snapshot()), ns[..i])
      {
        assert ns[..i + 1][..i] == ns[..i];
        match ns[i]
        case StateChanged(s) => HandleStateChanged(s);
        case TurnChanged(v) => HandleTurnChanged(v);
        case TimePeriodChanged(p) => HandleTimePeriodChanged(p);
      }
      assert ns[..|ns|] == ns;
    }

    /** The current state, turn and period are the game loop's. */
    function CurrentStateType(): (s: GameLoop.GameStateType)
      reads loop
      ensures s == loop.Snapshot().state
    {
      loop.state
    }

    function CurrentTurn(): (v: int)
      reads loop
      ensures v == loop.Snapshot().turn
    {
      loop.turn
    }

    function CurrentTimePeriod(): (p: GameLoop.TimePeriod)
      reads loop
      ensures p == loop.Snapshot().period
    {
      loop.period
    }

    /** A command passed to the game loop, whose notifications reach the
        adapter's handlers. */
    method ChangeState(s: GameLoop.GameStateType, roll: bool)
      requires s != GameLoop.None
      modifies loop, this`previousState, this`previousTurn, this`previousPeriod, this`relays
      ensures loop.Snapshot() == GameLoop.Entered(old(loop.Snapshot()), s, roll)
      ensures old(loop.notices) <= loop.notices
      ensures Snapshot() == Relayed(old(Snapshot()), loop.notices[|old(loop.notices)|..])
    {
      var before := |loop.notices|;
      ghost var m0 := loop.Snapshot();
      loop.ChangeState(s, roll);
      GameLoop.AnnouncedLast(m0, s, roll);
      Pass(before);
    }

    method AdvanceTimePeriod()
      modifies loop, this`previousState, this`previousTurn, this`previousPeriod, this`relays
      ensures loop.Snapshot() == GameLoop.PeriodAdvanced(old(loop.Snapshot()))
      ensures old(loop.notices) <= loop.notices
      ensures Snapshot() == Relayed(old(Snapshot()), loop.notices[|old(loop.notices)|..])
    {
      var before := |loop.notices|;
      ghost var m0 := loop.Snapshot();
      loop.AdvanceTimePeriod();
      GameLoop.PeriodAdvancedSpec(m0);
      Pass(before);
    }

    method AdvanceToNextTurn()
      modifies loop, this`previousState, this`previousTurn, this`previousPeriod, this`relays
      ensures loop.Snapshot() == GameLoop.TurnAdvanced(old(loop.Snapshot()))
      ensures old(loop.notices) <= loop.notices
      ensures Snapshot() == Relayed(old(Snapshot()), loop.notices[|old(loop.notices)|..])
    {
      var before := |loop.notices|;
      ghost var m0 := loop.Snapshot();
      loop.AdvanceToNextTurn();
      GameLoop.TurnAdvancedSpec(m0);
      Pass(before);
    }

    method CompleteActionAndReturnToSelection()
      modifies loop, this`previousState, this`previousTurn, this`previousPeriod, this`relays
      ensures loop.Snapshot() == GameLoop.Entered(old(loop.Snapshot()), GameLoop.PlayerActionSelection, false)
      ensures old(loop.notices) <= loop.notices
      ensures Snapshot() == Relayed(old(Snapshot()), loop.notices[|old(loop.notices)|..])
    {
      var before := |loop.notices|;
      ghost var m0 := loop.Snapshot();
      loop.CompleteActionAndReturnToSelection();
      GameLoop.AnnouncedLast(m0, GameLoop.PlayerActionSelection, false);
      Pass(before);
    }

    /** The raid check of the game loop; it raises no notification. */
    method ShouldRaidOccur() returns (raid: bool)
      modifies loop`sinceRaid
      ensures (raid, loop.sinceRaid) == GameLoop.RaidCheck(old(loop.sinceRaid))
    {
      raid := loop.ShouldRaidOccur();
    }

    /** Delivers what the game loop raised since position before of its log. */
    method Pass(before: nat)
      requires before <= |loop.notices|
      modifies this`previousState, this`previousTurn, this`previousPeriod, this`relays
      ensures Snapshot() == Relayed(old(Snapshot()), loop.notices[before..])
    {
      Receive(loop.notices[before..]);
    }
  }
}
