/** Random events: picked from a designer list on entering EventInteraction,
    resolved by the player's choice, after which time advances again. The
    random index is an input. */
module Events {
  import GameLoop

  datatype Option<T> = None | Some(value: T)

  /** One answer to an event. */
  datatype EventChoice = EventChoice(text: string, effectDescription: string)

  /** An event: its texts, its choices and the periods it may occur in. */
  datatype GameEvent = GameEvent(
    id: string,
    title: string,
    description: string,
    choices: seq<EventChoice>,
    canOccurInMorning: bool,
    canOccurInAfternoon: bool,
    canOccurInEvening: bool,
    canOccurInNight: bool)

  /** OnEventStarted and OnEventCompleted, in the order raised. */
  datatype EventNotice = EventStarted(event: GameEvent) | EventCompleted(event: GameEvent)

  /** An event as the field initialisers leave it: no choices, possible in
      every period. */
  function NewEvent(id: string, title: string, description: string): (e: GameEvent)
    ensures e.id == id && e.title == title && e.description == description
    ensures e.choices == []
    ensures forall p :: CanOccurDuring(e, p)
  {
    GameEvent(id, title, description, [], true, true, true, true)
  }

  /** The period flags in the order of the day. */
  function PeriodFlags(e: GameEvent): (f: seq<bool>)
    ensures |f| == 4
  {
    [e.canOccurInMorning, e.canOccurInAfternoon, e.canOccurInEvening, e.canOccurInNight]
  }

  /** Whether the event may occur in period p: the flag of that period. */
  function CanOccurDuring(e: GameEvent, p: GameLoop.TimePeriod): (b: bool)
    ensures b == PeriodFlags(e)[GameLoop.PeriodIndex(p)]
  {
    match p
    case Morning => e.canOccurInMorning
    case Afternoon => e.canOccurInAfternoon
    case Evening => e.canOccurInEvening
    case Night => e.canOccurInNight
  }

  /** An event with every flag cleared may occur in no period, and one with
      every flag set in every period. */
  lemma CanOccurDuringAll(e: GameEvent)
    ensures (forall p :: CanOccurDuring(e, p)) <==> (forall i :: 0 <= i < 4 ==> PeriodFlags(e)[i])
    ensures (forall p :: !CanOccurDuring(e, p)) <==> (forall i :: 0 <= i < 4 ==> !PeriodFlags(e)[i])
  {
    assert CanOccurDuring(e, GameLoop.Morning) == PeriodFlags(e)[0];
    assert CanOccurDuring(e, GameLoop.Afternoon) == PeriodFlags(e)[1];
    assert CanOccurDuring(e, GameLoop.Evening) == PeriodFlags(e)[2];
    assert CanOccurDuring(e, GameLoop.Night) == PeriodFlags(e)[3];
  }

  /** A random index is one in [0, |pool|). */
  ghost predicate PickFits(pool: seq<GameEvent>, pick: nat)
  {
    |pool| > 0 ==> pick < |pool|
  }

  /** Nothing for an empty list; otherwise the event at the random index,
      whatever the period. */
  function GetRandomEvent(pool: seq<GameEvent>, pick: nat): (r: Option<GameEvent>)
    requires PickFits(pool, pick)
    ensures r.None? <==> |pool| == 0
    ensures r.Some? ==> r.value in pool && r.value == pool[pick]
  {
    if |pool| == 0 then None else Some(pool[pick])
  }

  class EventManager {
    const game: GameLoop.GameLoopManager
    const potentialEvents: seq<GameEvent>
    var currentEvent: Option<GameEvent>
    var isEventActive: bool
    var notices: seq<EventNotice>

    /** Start: bound to the game loop, with the designer's list, no event. */
    constructor (game: GameLoop.GameLoopManager, potentialEvents: seq<GameEvent>)
      ensures this.game == game && this.potentialEvents == potentialEvents
      ensures currentEvent == None && !isEventActive && notices == []
    {
      this.game := game;
      this.potentialEvents := potentialEvents;
      currentEvent := None;
      isEventActive := false;
      notices := [];
    }

    /** The subscriber to OnStateChanged: entering EventInteraction, and no
        other state, triggers an event. */
    method HandleStateChange(newState: GameLoop.GameStateType, pick: nat, roll: bool)
      requires PickFits(potentialEvents, pick)
      modifies this`currentEvent, this`isEventActive, this`notices, game
      ensures newState != GameLoop.EventInteraction ==>
                currentEvent == old(currentEvent) && isEventActive == old(isEventActive)
                && notices == old(notices) && game.Snapshot() == old(game.Snapshot())
      ensures newState == GameLoop.EventInteraction ==> Triggered(old(game.Snapshot()), old(isEventActive), old(notices), pick, roll)
    {
      if newState == GameLoop.EventInteraction {
        TriggerRandomEvent(pick, roll);
      }
    }

    /** The outcome of TriggerRandomEvent: the drawn event becomes current;
        without one the game goes back to AdvanceTime and the flag keeps its
        old value; with one the flag is set and OnEventStarted raised. */
    ghost predicate Triggered(wasGame: GameLoop.Machine, wasActive: bool, wasNotices: seq<EventNotice>, pick: nat, roll: bool)
      requires PickFits(potentialEvents, pick)
      reads this`currentEvent, this`isEventActive, this`notices, game
    {
      && currentEvent == GetRandomEvent(potentialEvents, pick)
      && (currentEvent.None? ==>
            isEventActive == wasActive && notices == wasNotices
            && game.Snapshot() == GameLoop.Entered(wasGame, GameLoop.AdvanceTime, roll))
      && (currentEvent.Some? ==>
            isEventActive && notices == wasNotices + [EventStarted(currentEvent.value)]
            && game.Snapshot() == wasGame)
    }

    /** Draws an event, overwriting any current one without a check. */
    method TriggerRandomEvent(pick: nat, roll: bool)
      requires PickFits(potentialEvents, pick)
      modifies this`currentEvent, this`isEventActive, this`notices, game
      ensures Triggered(old(game.Snapshot()), old(isEventActive), old(notices), pick, roll)
    {
      currentEvent := GetRandomEvent(potentialEvents, pick);
      if currentEvent.None? {
        game.ChangeState(GameLoop.AdvanceTime, roll);
        return;
      }
      isEventActive := true;
      notices := notices + [EventStarted(currentEvent.value)];
    }

    /** Whether SelectEventChoice(choiceIndex) is accepted: an active event
        and an index among its choices. */
    predicate Accepts(choiceIndex: int)
      reads this`currentEvent, this`isEventActive
    {
      isEventActive && currentEvent.Some? && 0 <= choiceIndex < |currentEvent.value.choices|
    }

    /** Resolves the active event with one of its choices: the flag is cleared,
        OnEventCompleted raised and time advances again. Without an active
        event, or with an index outside the choices, nothing happens. The
        manager hears the states the game loop then enters: when the event
        roll fires the chain rests in EventInteraction, and HandleStateChange
        draws the next event (pick) before this call returns, nextRoll being
        the roll of the AdvanceTime an empty list goes back to. */
    method SelectEventChoice(choiceIndex: int, roll: bool, pick: nat, nextRoll: bool)
      requires PickFits(potentialEvents, pick)
      modifies this`currentEvent, this`isEventActive, this`notices, game
      ensures !old(Accepts(choiceIndex)) ==>
                currentEvent == old(currentEvent) && isEventActive == old(isEventActive)
                && notices == old(notices) && game.Snapshot() == old(game.Snapshot())
      ensures old(Accepts(choiceIndex)) && !roll ==>
                currentEvent == old(currentEvent) && !isEventActive
                && notices == old(notices) + [EventCompleted(old(currentEvent).value)]
                && game.Snapshot() == GameLoop.Entered(old(game.Snapshot()), GameLoop.AdvanceTime, false)
      ensures old(Accepts(choiceIndex)) && roll ==>
                Triggered(GameLoop.Entered(old(game.Snapshot()), GameLoop.AdvanceTime, true), false,
                          old(notices) + [EventCompleted(old(currentEvent).value)], pick, nextRoll)
      ensures old(Accepts(choiceIndex)) && !roll ==> forall j :: !Accepts(j)
      ensures old(Accepts(choiceIndex)) && roll && |potentialEvents| > 0 ==>
                isEventActive && currentEvent == Some(potentialEvents[pick])
    {
      if !isEventActive || currentEvent.None? {
        return;
      }
      if choiceIndex < 0 || choiceIndex >= |currentEvent.value.choices| {
        return;
      }
      isEventActive := false;
      notices := notices + [EventCompleted(currentEvent.value)];
      game.ChangeState(GameLoop.AdvanceTime, roll);
      GameLoop.EventExactlyOnRoll(old(game.Snapshot()), roll);
      if game.state == GameLoop.EventInteraction {
        HandleStateChange(game.state, pick, nextRoll);
      }
    }
  }
}
