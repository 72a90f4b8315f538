/** The turn and time-of-day state machine. Entering a state runs its OnEnter
    before the change is announced, and the OnEnter of TurnStart, AdvanceTime
    and TurnEnd change state again from inside, so the announcements of a
    chain come out innermost first. The one random draw of the machine, the
    event roll of AdvanceTime, is an input. */
module GameLoop {

  datatype GameStateType =
    | None
    | TurnStart
    | PlayerActionSelection
    | DungeonManagement
    | FactionNegotiation
    | BuildingConstruction
    | ResourceGathering
    | EventInteraction
    | AdvanceTime
    | CombatDefense
    | TurnEnd

  datatype TimePeriod = Morning | Afternoon | Evening | Night

  /** OnStateChanged, OnTurnChanged and OnTimePeriodChanged, in the order raised. */
  datatype Notice =
    | StateChanged(state: GameStateType)
    | TurnChanged(turn: int)
    | TimePeriodChanged(period: TimePeriod)

  /** A raid every fifth check. */
  const RaidInterval: int := 5

  /** The whole observable state of the machine: current state, turn, period,
      raid counter and every notification raised so far. */
  datatype Machine = Machine(state: GameStateType, turn: int, period: TimePeriod, sinceRaid: int,
                             log: seq<Notice>)

  /** The period after p; Night wraps to Morning. */
  function NextPeriod(p: TimePeriod): (q: TimePeriod)
    ensures q != p
    ensures p == Night <==> q == Morning
  {
    match p
    case Morning => Afternoon
    case Afternoon => Evening
    case Evening => Night
    case Night => Morning
  }

  /** The position of a period in the day, Morning first. */
  function PeriodIndex(p: TimePeriod): (i: nat)
    ensures i < 4
  {
    match p
    case Morning => 0
    case Afternoon => 1
    case Evening => 2
    case Night => 3
  }

  /** How deep a chain entered in s can go: AdvanceTime may run into TurnEnd,
      which runs into TurnStart; every other state enters nothing. */
  function Rank(s: GameStateType): nat
  {
    match s
    case AdvanceTime => 3
    case TurnEnd => 2
    case TurnStart => 1
    case _ => 0
  }

  /** ShouldRaidOccur on the counter: count one more check, and on reaching
      the interval reset the counter and report a raid. */
  function RaidCheck(sinceRaid: int): (r: (bool, int))
  {
    if sinceRaid + 1 >= RaidInterval then (true, 0) else (false, sinceRaid + 1)
  }

  /** ChangeState(s): the state becomes s, its OnEnter runs, then the change is
      announced. */
  function Entered(m: Machine, s: GameStateType, roll: bool): Machine
    requires s != None
    decreases Rank(s), 2
  {
    var n := StateEntered(m.(state := s), s, roll);
    n.(log := n.log + [StateChanged(s)])
  }

  /** The OnEnter of each state; only three of them do anything. */
  function StateEntered(m: Machine, s: GameStateType, roll: bool): Machine
    requires s != None
    decreases Rank(s), 1
  {
    match s
    case TurnStart => Entered(m, PlayerActionSelection, roll)
    case AdvanceTime => TimeAdvanced(m, roll)
    case TurnEnd => TurnAdvanced(m)
    case _ => m
  }

  /** The OnEnter of AdvanceTime: an event if the roll fires, else a raid if the
      raid check says so, else the next period. */
  function TimeAdvanced(m: Machine, roll: bool): Machine
    decreases 3, 0
  {
    if roll then Entered(m, EventInteraction, roll)
    else
      var (raid, counter) := RaidCheck(m.sinceRaid);
      var m1 := m.(sinceRaid := counter);
      if raid then Entered(m1, CombatDefense, roll)
      else PeriodRouted(m1, roll)
  }

  /** AdvanceToNextTimePeriod: Morning, Afternoon and Evening step to the next
      period and back to action selection; Night goes to TurnEnd instead. */
  function PeriodRouted(m: Machine, roll: bool): Machine
    decreases 2, 5
  {
    if m.period == Night then Entered(m, TurnEnd, roll)
    else Entered(PeriodAdvanced(m), PlayerActionSelection, roll)
  }

  /** AdvanceTimePeriod: the next period is announced, and on wrapping to
      Morning the next turn starts. */
  function PeriodAdvanced(m: Machine): Machine
    decreases 1, 4
  {
    var q := NextPeriod(m.period);
    var m1 := m.(period := q, log := m.log + [TimePeriodChanged(q)]);
    if q == Morning then TurnAdvanced(m1) else m1
  }

  /** AdvanceToNextTurn: one more turn, back to Morning, both announced, then
      TurnStart is entered. */
  function TurnAdvanced(m: Machine): Machine
    decreases 1, 3
  {
    var t := m.turn + 1;
    Entered(m.(turn := t, period := Morning, log := m.log + [TurnChanged(t), TimePeriodChanged(Morning)]),
            TurnStart, false)
  }

  /** Start: turn 1 in the Morning, TurnStart entered, then turn and period
      announced. */
  function Started(m: Machine): Machine
  {
    var n := Entered(m.(turn := 1, period := Morning), TurnStart, false);
    n.(log := n.log + [TurnChanged(1), TimePeriodChanged(Morning)])
  }

  /** The raid counter stays in [0, RaidInterval). */
  ghost predicate Counted(m: Machine)
  {
    0 <= m.sinceRaid < RaidInterval
  }

  /** A state the machine can rest in: a chain never stops in None, TurnStart,
      AdvanceTime or TurnEnd. */
  predicate Resting(s: GameStateType)
  {
    s !in {None, TurnStart, AdvanceTime, TurnEnd}
  }

  // ---------------------------------------------------------------------
  // Properties of the transition functions
  // ---------------------------------------------------------------------

  /** Four periods make a day: the successor walks the day in order and comes
      back to where it started. */
  lemma PeriodCycle(p: TimePeriod)
    ensures PeriodIndex(NextPeriod(p)) == (PeriodIndex(p) + 1) % 4
    ensures NextPeriod(NextPeriod(NextPeriod(NextPeriod(p)))) == p
  {
  }

  /** ShouldRaidOccur reports a raid exactly when the counter reaches the
      interval; the counter then restarts, and otherwise grows by one. */
  lemma RaidCheckSpec(sinceRaid: int)
    requires 0 <= sinceRaid < RaidInterval
    ensures RaidCheck(sinceRaid).0 <==> sinceRaid == RaidInterval - 1
    ensures RaidCheck(sinceRaid).1 == if RaidCheck(sinceRaid).0 then 0 else sinceRaid + 1
    ensures 0 <= RaidCheck(sinceRaid).1 < RaidInterval
  {
  }

  /** From a fresh counter the checks answer false four times, then true,
      and the counter is back at 0. */
  lemma RaidEveryFifthCheck()
    ensures RaidCheck(0) == (false, 1)
    ensures RaidCheck(1) == (false, 2)
    ensures RaidCheck(2) == (false, 3)
    ensures RaidCheck(3) == (false, 4)
    ensures RaidCheck(4) == (true, 0)
  {
  }

  /** Entering TurnStart moves straight on to action selection; its own
      announcement comes after the inner one, so the last notice says
      TurnStart while the machine is in PlayerActionSelection. */
  lemma TurnStartChains(m: Machine, roll: bool)
    ensures Entered(m, TurnStart, roll)
            == m.(state := PlayerActionSelection,
                  log := m.log + [StateChanged(PlayerActionSelection), StateChanged(TurnStart)])
  {
  }

  /** AdvanceToNextTurn: exactly one more turn, Morning, and action selection,
      after the turn, the period and the two state notices. */
  lemma TurnAdvancedSpec(m: Machine)
    ensures TurnAdvanced(m)
            == m.(state := PlayerActionSelection, turn := m.turn + 1, period := Morning,
                  log := m.log + [TurnChanged(m.turn + 1), TimePeriodChanged(Morning),
                                  StateChanged(PlayerActionSelection), StateChanged(TurnStart)])
  {
    TurnStartChains(m.(turn := m.turn + 1, period := Morning,
                       log := m.log + [TurnChanged(m.turn + 1), TimePeriodChanged(Morning)]), false);
  }

  /** AdvanceTimePeriod: a step within the day announces the new period and
      nothing else; from Night it wraps to Morning and starts the next turn. */
  lemma PeriodAdvancedSpec(m: Machine)
    ensures m.period != Night ==>
              PeriodAdvanced(m) == m.(period := NextPeriod(m.period),
                                      log := m.log + [TimePeriodChanged(NextPeriod(m.period))])
    ensures m.period == Night ==>
              PeriodAdvanced(m) == m.(state := PlayerActionSelection, turn := m.turn + 1, period := Morning,
                                      log := m.log + [TimePeriodChanged(Morning), TurnChanged(m.turn + 1),
                                                      TimePeriodChanged(Morning),
                                                      StateChanged(PlayerActionSelection), StateChanged(TurnStart)])
  {
    if m.period == Night {
      TurnAdvancedSpec(m.(period := Morning, log := m.log + [TimePeriodChanged(Morning)]));
    }
  }

  /** Entering AdvanceTime with the event roll firing: EventInteraction, with
      the turn, the period and the raid counter untouched. */
  lemma EventBranch(m: Machine)
    ensures Entered(m, AdvanceTime, true)
            == m.(state := EventInteraction,
                  log := m.log + [StateChanged(EventInteraction), StateChanged(AdvanceTime)])
  {
  }

  /** No event but a raid: CombatDefense, the counter reset, the period and
      the turn untouched. */
  lemma RaidBranch(m: Machine)
    requires RaidCheck(m.sinceRaid).0
    ensures Entered(m, AdvanceTime, false)
            == m.(state := CombatDefense, sinceRaid := 0,
                  log := m.log + [StateChanged(CombatDefense), StateChanged(AdvanceTime)])
  {
  }

  /** No event, no raid, Morning to Evening: the next period, back to action
      selection, the same turn. */
  lemma DaytimeBranch(m: Machine)
    requires !RaidCheck(m.sinceRaid).0 && m.period != Night
    ensures Entered(m, AdvanceTime, false)
            == m.(state := PlayerActionSelection, period := NextPeriod(m.period), sinceRaid := m.sinceRaid + 1,
                  log := m.log + [TimePeriodChanged(NextPeriod(m.period)),
                                  StateChanged(PlayerActionSelection), StateChanged(AdvanceTime)])
  {
    var m1 := m.(state := AdvanceTime, sinceRaid := m.sinceRaid + 1);
    assert TimeAdvanced(m.(state := AdvanceTime), false) == PeriodRouted(m1, false);
    PeriodAdvancedSpec(m1);
    var q := NextPeriod(m.period);
    var m2 := m1.(period := q, log := m.log + [TimePeriodChanged(q)]);
    assert PeriodRouted(m1, false) == Entered(m2, PlayerActionSelection, false);
    assert m.log + [TimePeriodChanged(q)] + [StateChanged(PlayerActionSelection)] + [StateChanged(AdvanceTime)]
           == m.log + [TimePeriodChanged(q), StateChanged(PlayerActionSelection), StateChanged(AdvanceTime)];
  }

  /** No event, no raid, at Night: TurnEnd without any period step of its own,
      then the next turn, ending in Morning at action selection. */
  lemma NightBranch(m: Machine)
    requires !RaidCheck(m.sinceRaid).0 && m.period == Night
    ensures Entered(m, AdvanceTime, false)
            == m.(state := PlayerActionSelection, turn := m.turn + 1, period := Morning,
                  sinceRaid := m.sinceRaid + 1,
                  log := m.log + [TurnChanged(m.turn + 1), TimePeriodChanged(Morning),
                                  StateChanged(PlayerActionSelection), StateChanged(TurnStart),
                                  StateChanged(TurnEnd), StateChanged(AdvanceTime)])
  {
    var m1 := m.(state := AdvanceTime, sinceRaid := m.sinceRaid + 1);
    assert TimeAdvanced(m.(state := AdvanceTime), false) == Entered(m1, TurnEnd, false);
    TurnAdvancedSpec(m1.(state := TurnEnd));
  }

  /** A chain started by entering AdvanceTime rests in EventInteraction
      exactly when the event roll fires: the raid and the period branches
      end elsewhere. */
  lemma EventExactlyOnRoll(m: Machine, roll: bool)
    ensures Entered(m, AdvanceTime, roll).state == EventInteraction <==> roll
  {
    if roll {
      EventBranch(m);
    } else if RaidCheck(m.sinceRaid).0 {
      RaidBranch(m);
    } else if m.period != Night {
      DaytimeBranch(m);
    } else {
      NightBranch(m);
    }
  }

  /** Entering any state runs its OnEnter first and announces the state last:
      the log only grows, and its final notice names the state entered. */
  lemma {:induction false} AnnouncedLast(m: Machine, s: GameStateType, roll: bool)
    requires s != None
    ensures var n := Entered(m, s, roll);
            |n.log| > |m.log| && n.log[..|m.log|] == m.log && n.log[|n.log| - 1] == StateChanged(s)
  {
    match s
    case TurnStart => TurnStartChains(m, roll);
    case AdvanceTime =>
      if roll {
        EventBranch(m);
      } else if RaidCheck(m.sinceRaid).0 {
        RaidBranch(m);
      } else if m.period == Night {
        NightBranch(m);
      } else {
        DaytimeBranch(m);
      }
    case TurnEnd => TurnAdvancedSpec(m.(state := s));
    case _ =>
  }

  /** However a state is entered, the chain ends in a state the machine can
      rest in, the turn never goes back, and the raid counter stays in range. */
  lemma {:induction false} EnteredRests(m: Machine, s: GameStateType, roll: bool)
    requires s != None && Counted(m)
    ensures var n := Entered(m, s, roll);
            Resting(n.state) && Counted(n) && m.turn <= n.turn <= m.turn + 1
  {
    match s
    case TurnStart => TurnStartChains(m.(state := s), roll);
    case AdvanceTime =>
      if roll {
        EventBranch(m);
      } else if RaidCheck(m.sinceRaid).0 {
        RaidBranch(m);
      } else if m.period == Night {
        NightBranch(m);
      } else {
        DaytimeBranch(m);
      }
    case TurnEnd => TurnAdvancedSpec(m.(state := s));
    case _ =>
  }

  /** Start ends at turn 1, Morning, action selection, with the turn and the
      period announced after the two state notices. */
  lemma StartedSpec(m: Machine)
    ensures Started(m)
            == m.(state := PlayerActionSelection, turn := 1, period := Morning,
                  log := m.log + [StateChanged(PlayerActionSelection), StateChanged(TurnStart),
                                  TurnChanged(1), TimePeriodChanged(Morning)])
  {
    TurnStartChains(m.(turn := 1, period := Morning), false);
  }

  // ---------------------------------------------------------------------
  // The manager
  // ---------------------------------------------------------------------

  class GameLoopManager {
    var state: GameStateType
    var turn: int
    var period: TimePeriod
    var sinceRaid: int
    var notices: seq<Notice>

    /** Everything the machine shows, as one value. */
    function Snapshot(): (m: Machine)
      reads this
      ensures m.state == state && m.turn == turn && m.period == period
      ensures m.sinceRaid == sinceRaid && m.log == notices
    {
      Machine(state, turn, period, sinceRaid, notices)
    }

    /** The field initialisers: no state yet, turn 0, Morning, no raid checks. */
    constructor ()
      ensures Snapshot() == Machine(None, 0, Morning, 0, [])
    {
      state := None;
      turn := 0;
      period := Morning;
      sinceRaid := 0;
      notices := [];
    }

    /** Start: turn 1, Morning, TurnStart entered, then turn and period announced. */
    method Start()
      modifies this
      ensures Snapshot() == Started(old(Snapshot()))
    {
      turn := 1;
      period := Morning;
      ChangeState(TurnStart, false);
      notices := notices + [TurnChanged(turn), TimePeriodChanged(period)];
    }

    /** Enters s, runs its OnEnter, then announces s. None has no state object
        and is refused by the source with an exception. roll is the AdvanceTime
        event roll, read only when s is AdvanceTime. */
    method ChangeState(s: GameStateType, roll: bool)
      requires s != None
      modifies this
      ensures Snapshot() == Entered(old(Snapshot()), s, roll)
      decreases Rank(s), 2
    {
      state := s;
      OnEnter(s, roll);
      notices := notices + [StateChanged(s)];
    }

    /** The OnEnter of the state objects. */
    method OnEnter(s: GameStateType, roll: bool)
      requires s != None
      modifies this
      ensures Snapshot() == StateEntered(old(Snapshot()), s, roll)
      decreases Rank(s), 1
    {
      match s
      case TurnStart => ChangeState(PlayerActionSelection, roll);
      case AdvanceTime => EnterAdvanceTime(roll);
      case TurnEnd => AdvanceToNextTurn();
      case _ =>
    }

    /** The OnEnter of AdvanceTime: event, raid or next period, in that order. */
    method EnterAdvanceTime(roll: bool)
      modifies this
      ensures Snapshot() == TimeAdvanced(old(Snapshot()), roll)
      decreases 3, 0
    {
      if roll {
        ChangeState(EventInteraction, roll);
        return;
      }
      var raid := ShouldRaidOccur();
      if raid {
        ChangeState(CombatDefense, roll);
        return;
      }
      AdvanceToNextTimePeriod(roll);
    }

    /** The period switch of AdvanceTime. */
    method AdvanceToNextTimePeriod(roll: bool)
      modifies this
      ensures Snapshot() == PeriodRouted(old(Snapshot()), roll)
      decreases 2, 5
    {
      match period
      case Night =>
        ChangeState(TurnEnd, roll);
      case _ =>
        AdvanceTimePeriod();
        ChangeState(PlayerActionSelection, roll);
    }

    /** The next period, announced; on wrapping to Morning the next turn starts. */
    method AdvanceTimePeriod()
      modifies this
      ensures Snapshot() == PeriodAdvanced(old(Snapshot()))
      decreases 1, 4
    {
      period := NextPeriod(period);
      notices := notices + [TimePeriodChanged(period)];
      if period == Morning {
        AdvanceToNextTurn();
      }
    }

    /** One more raid check; true, with the counter reset, on reaching the interval. */
    method ShouldRaidOccur() returns (raid: bool)
      modifies this`sinceRaid
      ensures (raid, sinceRaid) == RaidCheck(old(sinceRaid))
    {
      sinceRaid := sinceRaid + 1;
      if sinceRaid >= RaidInterval {
        sinceRaid := 0;
        return true;
      }
      return false;
    }

    /** One more turn, Morning, both announced, then TurnStart. */
    method AdvanceToNextTurn()
      modifies this
      ensures Snapshot() == TurnAdvanced(old(Snapshot()))
      decreases 1, 3
    {
      turn := turn + 1;
      period := Morning;
      notices := notices + [TurnChanged(turn), TimePeriodChanged(period)];
      ChangeState(TurnStart, false);
    }

    /** Back to action selection after a free action. */
    method CompleteActionAndReturnToSelection()
      modifies this
      ensures Snapshot() == Entered(old(Snapshot()), PlayerActionSelection, false)
    {
      ChangeState(PlayerActionSelection, false);
    }
  }
}
