# Isekai Dungeon Overlord: the economy, the turn loop and the event buses

This project models the core of the game's turn-based economy. It proves
properties of that model in Dafny.

- **Resource ledger** (`Ledger`). It keeps per-kind quantities, capacities,
  gatherer counts and production modifiers.
  - Additions are clamped to the capacity.
  - A single spend is guarded; a multi-cost spend is all or nothing.
  - Production accrues once per time period; DungeonPoints accrue once per turn.
  - The class invariant is `0 <= quantity <= capacity` for every kind. Every
    operation keeps it; the constructor establishes it for the code's default
    designer values (see "## Left out").
- **Gatherer pool** (`Gatherers`). It holds the unassigned workers and the
  per-kind assignments, and pushes every change into the ledger. The proofs show:
  - `available + Σ assigned` is kept by `AssignGatherers`;
  - `ResetAssignments` does not keep it;
  - the ledger's gatherer counts and modifiers agree with the pool (`InSync`).
- **Turn and time state machine** (`GameLoop`). It has ten states, a cyclic
  time period, a turn counter and a raid counter.
  - The auto-transitions of TurnStart, AdvanceTime and TurnEnd are re-entrant.
  - They are specified by recursive functions over the machine's value whose
    termination is proved.
  - Imperative methods with the same recursion are proved against them.
  - The notification log records that `OnEnter` runs before `OnStateChanged`,
    so a chain announces its innermost state first.
- **Random events** (`Events`). An event becomes active on entering
  EventInteraction; a choice that is bounds-checked resolves it, and time then
  advances again.
- **Cost records** (`Requirements`, `Costs`). A requirement list becomes a
  map of positive costs, paid through the ledger's all-or-nothing path.
- **Event buses** (`Subscribers`, `TypedBus`, `StringBus`).
  - The typed bus dispatches over a copy of the list and drops empty lists.
  - The string bus dispatches over the live list and keeps empty lists.
  - A listener that changes the list being dispatched ends the dispatch, as
    the list enumeration throws.
  - Handlers are ids, a handler failure is an input set of ids, and what
    handlers do to the bus while they run is an input sequence of calls.
- **Previous-value tracker** (`StateAdapter`). It forwards each state, turn and
  period notification, then publishes it paired with the last value seen. The
  proofs show that each published "previous" is the prior published "new".

Random draws are inputs: the 20% event roll is a `bool`, and the random event
index is a `nat` below the list length. Float modifiers and multipliers are
integer percentages (100 is 1.0). One file per source class, one module each.

## Model

| member | source | states |
|---|---|---|
| ResourceTypes.KindAt | Assets/Scripts/Economy/ResourceType.cs:6-14 | the kind at enumeration position i has ordinal i, so a loop over positions visits each kind once, in declaration order |
| ResourceTypes.InAllKinds | Assets/Scripts/Economy/ResourceType.cs:6-14 | every kind is among the six enumerated ones |
| Ledger.RoundHalfEven | Assets/Scripts/Economy/ResourceManager.cs:251 | the result is within one half of n/d, and an exact half goes to the even neighbour |
| Ledger.Accrue | Assets/Scripts/Economy/ResourceManager.cs:136-148 | AddResource's new quantity stays between the old one and the capacity; for a non-negative amount it is min(old + amount, capacity); it differs from the old one exactly when amount > 0 and the store is not full |
| Ledger.ProductionRate | Assets/Scripts/Economy/ResourceManager.cs:245-252 | 0 for DungeonPoints; otherwise non-negative and within a half of gatherers × 5 × modifier; exactly gatherers × 5 at the default modifier 1.0 |
| Ledger.DeductedAt | Assets/Scripts/Economy/ResourceManager.cs:191-195 | after the spend loop each costed kind has dropped by its cost exactly once and every other kind is unchanged |
| Ledger.ProducedAt | Assets/Scripts/Economy/ResourceManager.cs:283-294 | after the production loop each kind but DungeonPoints is min(old + rate, capacity) and DungeonPoints is unchanged |
| Ledger.StartingQuantity | Assets/Scripts/Economy/ResourceManager.cs:68-83 | with the code's default designer values, every starting quantity lies between 0 and its starting capacity |
| Ledger.ResourceManager.constructor | Assets/Scripts/Economy/ResourceManager.cs:57-87 | with the code's default designer values, every kind has its starting quantity and capacity, DungeonPoints the unlimited int.MaxValue, no gatherers, modifier 1.0, the invariant holds, and one ResourcesUpdated is raised |
| Ledger.ResourceManager.GetResource | Assets/Scripts/Economy/ResourceManager.cs:120-123 | the quantity read lies between 0 and the kind's capacity |
| Ledger.ResourceManager.AddResource | Assets/Scripts/Economy/ResourceManager.cs:136-148 | succeeds if and only if amount > 0 and the store is below capacity; then the kind becomes min(old + amount, capacity) and one ResourceChanged is raised; otherwise nothing changes; no other kind changes; the invariant is kept |
| Ledger.ResourceManager.SpendResource | Assets/Scripts/Economy/ResourceManager.cs:153-160 | succeeds if and only if 0 < amount <= quantity, that is, the amount is positive and HasEnoughResource holds; then exactly that kind drops by amount and one ResourceChanged is raised; otherwise nothing changes |
| Ledger.ResourceManager.HasEnoughResource | Assets/Scripts/Economy/ResourceManager.cs:165-168 | always true for an amount of at most 0, never for one above the capacity |
| Ledger.ResourceManager.HasEnoughResources | Assets/Scripts/Economy/ResourceManager.cs:173-181 | true exactly when HasEnoughResource holds for every entry of the cost map; true for an empty map |
| Ledger.EnoughExactlyWhenNoDeficit | Assets/Scripts/Economy/ResourceManager.cs:173-195 | HasEnoughResources holds exactly when deducting every cost would leave no quantity below 0, so the guard is what keeps the invariant |
| Ledger.EnoughForSingleCost | Assets/Scripts/Economy/ResourceManager.cs:165-181 | a one-entry cost map is covered exactly when HasEnoughResource holds for that entry |
| Ledger.ResourceManager.SpendResources | Assets/Scripts/Economy/ResourceManager.cs:173-199 | all or nothing: the result is HasEnoughResources on the old quantities; on success each costed kind drops by its cost and the others are untouched, with one notice per costed kind and then ResourcesUpdated; on failure nothing changes |
| Ledger.ResourceManager.DeductAllKinds | Assets/Scripts/Economy/ResourceManager.cs:191-195 | the spend loop leaves the quantities and the log that the per-kind fold specifies |
| Ledger.ResourceManager.SetGatherers | Assets/Scripts/Economy/ResourceManager.cs:204-216 | a no-op for DungeonPoints; otherwise stores max(0, count) for that kind only and raises GathererChanged |
| Ledger.ResourceManager.GetGatherers | Assets/Scripts/Economy/ResourceManager.cs:221-224 | never negative, and 0 for DungeonPoints |
| Ledger.ResourceManager.SetProductionModifier | Assets/Scripts/Economy/ResourceManager.cs:237-240 | stores max(0, modifier) for that kind only |
| Ledger.ResourceManager.GetProductionRate | Assets/Scripts/Economy/ResourceManager.cs:245-252 | equals ProductionRate of the kind's gatherers and modifier |
| Ledger.ResourceManager.GetResourceCapacity | Assets/Scripts/Economy/ResourceManager.cs:257-260 | at least 1 and at least the stored quantity |
| Ledger.ResourceManager.SetResourceCapacity | Assets/Scripts/Economy/ResourceManager.cs:265-275 | stores max(1, cap); lowers the quantity to it, with a notice, only when the quantity exceeded it; the invariant is kept |
| Ledger.ResourceManager.AccrueKind | Assets/Scripts/Economy/ResourceManager.cs:286-293 | one kind's turn of the production loop: skips DungeonPoints and a zero rate, otherwise AddResource with the rate |
| Ledger.ResourceManager.AccrueAllKinds | Assets/Scripts/Economy/ResourceManager.cs:283-294 | the production loop leaves the quantities and the log that the per-kind fold specifies |
| Ledger.ResourceManager.ProcessTimeAdvancement | Assets/Scripts/Economy/ResourceManager.cs:280-298 | every kind but DungeonPoints becomes min(old + rate, capacity), DungeonPoints is unchanged, and ResourcesUpdated comes last |
| Ledger.ResourceManager.ProcessTurnCompletion | Assets/Scripts/Economy/ResourceManager.cs:303-310 | only DungeonPoints changes, by +15 clamped to its capacity, and ResourcesUpdated comes last |
| Gatherers.AssignedSumUpdate | Assets/Scripts/Economy/GathererSystem.cs:130-138 | changing one assignment changes the partial sum by exactly the difference, when that kind is among those summed |
| Gatherers.TotalAssignedUpdate | Assets/Scripts/Economy/GathererSystem.cs:130-138 | changing one assignment changes the total by exactly the difference |
| Gatherers.AssignedSumNonNegative | Assets/Scripts/Economy/GathererSystem.cs:130-138 | non-negative assignments sum to a non-negative total |
| Gatherers.AssignedSumZero | Assets/Scripts/Economy/GathererSystem.cs:130-138 | all-zero assignments sum to 0 |
| Gatherers.PushedAt | Assets/Scripts/Economy/GathererSystem.cs:212-215 | the sync loop sets the ledger count of each assigned kind but DungeonPoints to max(0, assignment) and leaves the others |
| Gatherers.ModifiedAt | Assets/Scripts/Economy/GathererSystem.cs:227-233 | the efficiency loop gives every kind but DungeonPoints the modifier and leaves DungeonPoints alone |
| Gatherers.ClearedAt | Assets/Scripts/Economy/GathererSystem.cs:190-199 | the reset loop zeroes each kind it visits, except DungeonPoints, and leaves the rest |
| Gatherers.AgreesAfterAssign | Assets/Scripts/Economy/GathererSystem.cs:97-111 | giving one kind the same count in the pool and in the ledger keeps them in agreement |
| Gatherers.ModifiedAgrees | Assets/Scripts/Economy/GathererSystem.cs:222-234 | writing the efficiency into the modifiers brings the ledger into agreement and leaves the DungeonPoints modifier alone |
| Gatherers.ClearedZeroed | Assets/Scripts/Economy/GathererSystem.cs:190-192 | clearing every key of the assignments zeroes all of them |
| Gatherers.ClearedAgrees | Assets/Scripts/Economy/GathererSystem.cs:190-199 | zeroing the assignments and the same ledger counts keeps pool and ledger in agreement |
| Gatherers.GathererSystem.constructor | Assets/Scripts/Economy/GathererSystem.cs:45-74 | with the code's default designer values: every kind but DungeonPoints is assigned 0, five workers are available, the maximum is 20, the efficiency is 1.0, two notices are raised, and the ledger is in agreement |
| Gatherers.GathererSystem.AssignGatherers | Assets/Scripts/Economy/GathererSystem.cs:79-114 | accepted if and only if the kind is not DungeonPoints, count >= 0 and the rise fits the pool; when refused nothing changes; when accepted only that kind becomes count, the pool pays the difference, the ledger takes the count, and available + Σ assigned is unchanged |
| Gatherers.GathererSystem.Reassign | Assets/Scripts/Economy/GathererSystem.cs:97-111 | the accepted branch: new assignment, pool reduced by the difference, the two notices, the ledger's SetGatherers, and available + Σ assigned kept |
| Gatherers.GathererSystem.GetAssignedGatherers | Assets/Scripts/Economy/GathererSystem.cs:119-125 | 0 for DungeonPoints and for a kind without an entry, the assignment otherwise |
| Gatherers.GathererSystem.GetTotalAssignedGatherers | Assets/Scripts/Economy/GathererSystem.cs:130-138 | the loop returns the sum of all assignments, which is non-negative |
| Gatherers.GathererSystem.GetAvailableGatherers | Assets/Scripts/Economy/GathererSystem.cs:143-146 | the pool is never negative |
| Gatherers.GathererSystem.AddGatherers | Assets/Scripts/Economy/GathererSystem.cs:151-160 | a no-op for count <= 0; otherwise raises both available and the maximum by count, with one notice, and leaves assignments alone |
| Gatherers.GathererSystem.SetEfficiencyMultiplier | Assets/Scripts/Economy/GathererSystem.cs:165-171 | stores max(0.1, m) and leaves the ledger in agreement, with the DungeonPoints modifier untouched |
| Gatherers.GathererSystem.GetEfficiencyMultiplier | Assets/Scripts/Economy/GathererSystem.cs:176-179 | never below 0.1 |
| Gatherers.GathererSystem.ResetAssignments | Assets/Scripts/Economy/GathererSystem.cs:184-204 | every assignment becomes 0 in the pool and in the ledger, and available becomes the starting count, so available + Σ assigned is the starting count whatever was added before |
| Gatherers.GathererSystem.ClearAssignments | Assets/Scripts/Economy/GathererSystem.cs:190-199 | the reset loop zeroes the assignments and clears the same kinds in the ledger, with one GathererChanged each |
| Gatherers.GathererSystem.ClearKind | Assets/Scripts/Economy/GathererSystem.cs:192-198 | one kind's turn of the reset loop |
| Gatherers.GathererSystem.SyncAssignmentsToResourceManager | Assets/Scripts/Economy/GathererSystem.cs:207-219 | afterwards the ledger's counts and modifiers agree with the pool |
| Gatherers.GathererSystem.PushAssignments | Assets/Scripts/Economy/GathererSystem.cs:212-215 | the sync loop leaves the ledger counts and log that the per-kind fold specifies |
| Gatherers.GathererSystem.PushKind | Assets/Scripts/Economy/GathererSystem.cs:214 | one kind's SetGatherers in the sync loop |
| Gatherers.GathererSystem.SyncEfficiencyToResourceManager | Assets/Scripts/Economy/GathererSystem.cs:222-234 | every modifier but DungeonPoints' becomes the efficiency, which brings the ledger into agreement |
| Gatherers.GathererSystem.WriteModifiers | Assets/Scripts/Economy/GathererSystem.cs:227-233 | the efficiency loop leaves the modifiers that the per-kind fold specifies |
| GameLoop.NextPeriod | Assets/Scripts/Core/GameLoopManager.cs:147-154 | the successor always differs from the period, and it is Morning exactly when the period is Night |
| GameLoop.PeriodIndex | Assets/Scripts/Core/GameLoopManager.cs:232-238 | a period's position in the day is below 4 |
| GameLoop.PeriodCycle | Assets/Scripts/Core/GameLoopManager.cs:147-154 | the successor steps the position in the day by one modulo 4, and four steps come back to the start |
| GameLoop.RaidCheckSpec | Assets/Scripts/Core/GameLoopManager.cs:170-183 | a raid exactly when the counter reaches the interval; the counter then restarts at 0, otherwise grows by one, and stays in range |
| GameLoop.RaidEveryFifthCheck | Assets/Scripts/Core/GameLoopManager.cs:170-183 | from 0 with interval 5 the checks answer false four times, then true, back at 0 |
| GameLoop.TurnStartChains | Assets/Scripts/Core/GameLoopManager.cs:266-275 | entering TurnStart ends in PlayerActionSelection while the last notice says TurnStart |
| GameLoop.TurnAdvancedSpec | Assets/Scripts/Core/GameLoopManager.cs:188-200 | exactly one more turn, Morning, PlayerActionSelection, with the turn, period and two state notices in that order |
| GameLoop.PeriodAdvancedSpec | Assets/Scripts/Core/GameLoopManager.cs:144-165 | within the day one step and one notice; from Night, Morning and the next turn |
| GameLoop.EventBranch | Assets/Scripts/Core/GameLoopManager.cs:382-386 | with the event roll firing, AdvanceTime ends in EventInteraction with period, turn and raid counter untouched |
| GameLoop.RaidBranch | Assets/Scripts/Core/GameLoopManager.cs:388-393 | with no event and a raid, AdvanceTime ends in CombatDefense with the counter reset and the period untouched |
| GameLoop.DaytimeBranch | Assets/Scripts/Core/GameLoopManager.cs:395-432 | with no event and no raid before Night, the period advances one step, the state ends in PlayerActionSelection and the turn is unchanged |
| GameLoop.NightBranch | Assets/Scripts/Core/GameLoopManager.cs:415-474 | with no event and no raid at Night, TurnEnd is entered without a period step and the machine ends at turn + 1, Morning, PlayerActionSelection |
| GameLoop.EventExactlyOnRoll | Assets/Scripts/Core/GameLoopManager.cs:374-397 | a chain started by entering AdvanceTime rests in EventInteraction exactly when the event roll fires |
| GameLoop.AnnouncedLast | Assets/Scripts/Core/GameLoopManager.cs:133-136 | entering any state only extends the log, and its last notice names the state entered |
| GameLoop.EnteredRests | Assets/Scripts/Core/GameLoopManager.cs:111-139 | every chain ends in a state other than None, TurnStart, AdvanceTime and TurnEnd, the turn rises by at most one, and the raid counter stays in range |
| GameLoop.StartedSpec | Assets/Scripts/Core/GameLoopManager.cs:77-89 | Start ends at turn 1, Morning, PlayerActionSelection, announcing the turn and the period after the two state notices |
| GameLoop.GameLoopManager.constructor | Assets/Scripts/Core/GameLoopManager.cs:50-54 | no state, turn 0, Morning, raid counter 0 |
| GameLoop.GameLoopManager.Start | Assets/Scripts/Core/GameLoopManager.cs:77-89 | ends at turn 1, Morning, PlayerActionSelection, with the turn and the period announced after the two state notices (the Started function, whose outcome StartedSpec proves) |
| GameLoop.GameLoopManager.ChangeState | Assets/Scripts/Core/GameLoopManager.cs:111-139 | the state becomes the request, its OnEnter runs, then the change is announced; None is refused |
| GameLoop.GameLoopManager.OnEnter | Assets/Scripts/Core/GameLoopManager.cs:254-474 | only TurnStart, AdvanceTime and TurnEnd change state from inside |
| GameLoop.GameLoopManager.EnterAdvanceTime | Assets/Scripts/Core/GameLoopManager.cs:374-397 | event, else raid, else the next period, in that order |
| GameLoop.GameLoopManager.AdvanceToNextTimePeriod | Assets/Scripts/Core/GameLoopManager.cs:415-438 | Morning to Evening step the period and return to PlayerActionSelection; Night enters TurnEnd |
| GameLoop.GameLoopManager.AdvanceTimePeriod | Assets/Scripts/Core/GameLoopManager.cs:144-165 | the next period, announced; wrapping to Morning starts the next turn |
| GameLoop.GameLoopManager.ShouldRaidOccur | Assets/Scripts/Core/GameLoopManager.cs:170-183 | the answer and the new counter are those of the raid check |
| GameLoop.GameLoopManager.AdvanceToNextTurn | Assets/Scripts/Core/GameLoopManager.cs:188-200 | one more turn, Morning, both announced, then TurnStart |
| GameLoop.GameLoopManager.CompleteActionAndReturnToSelection | Assets/Scripts/Core/GameLoopManager.cs:205-208 | PlayerActionSelection entered |
| Events.NewEvent | Assets/Scripts/Events/EventManager.cs:169-181 | a new event has no choices and may occur in every period |
| Events.CanOccurDuring | Assets/Scripts/Events/EventManager.cs:191-201 | the answer is the flag of that period, in the order of the day |
| Events.CanOccurDuringAll | Assets/Scripts/Events/EventManager.cs:191-201 | an event may occur in every period exactly when all four flags are set, and in none exactly when all are clear |
| Events.GetRandomEvent | Assets/Scripts/Events/EventManager.cs:83-96 | nothing exactly when the list is empty; otherwise the list element at the drawn index, with no period filtering |
| Events.EventManager.constructor | Assets/Scripts/Events/EventManager.cs:35-44 | no current event and the flag clear |
| Events.EventManager.HandleStateChange | Assets/Scripts/Events/EventManager.cs:71-78 | entering EventInteraction, and no other state, triggers an event; for any other state nothing changes |
| Events.EventManager.TriggerRandomEvent | Assets/Scripts/Events/EventManager.cs:101-117 | the drawn event becomes current, overwriting any; without one the game goes back to AdvanceTime; with one the flag is set and OnEventStarted raised once |
| Events.EventManager.SelectEventChoice | Assets/Scripts/Events/EventManager.cs:122-151 | without an active event or with an index outside the choices nothing changes; otherwise the flag clears, OnEventCompleted is raised once and AdvanceTime is entered; when the event roll fires, the chain rests in EventInteraction and the manager's subscription draws the next event before the call returns, so a non-empty list leaves a new event active; without the roll a second selection is refused |
| Requirements.NewRequirement | Assets/Scripts/Economy/ResourceRequirement.cs:16-20 | the kind is kept; the amount is max(0, amount): kept when non-negative, 0 when negative |
| Costs.CostMapPositive | Assets/Scripts/Economy/ResourceCost.cs:22-28 | every cost in the map is positive |
| Costs.CostMapKeys | Assets/Scripts/Economy/ResourceCost.cs:22-28 | a kind has a cost exactly when some requirement for it has a positive amount |
| Costs.CostMapLastWins | Assets/Scripts/Economy/ResourceCost.cs:26 | the cost of a kind is the amount of its last positive requirement |
| Costs.ResourceCost.constructor | Assets/Scripts/Economy/ResourceCost.cs:19-29 | the loop builds exactly the cost map of the requirement list |
| Costs.ResourceCost.GetRequirements | Assets/Scripts/Economy/ResourceCost.cs:34-37 | the cost map, every entry positive |
| Costs.ResourceCost.CanAfford | Assets/Scripts/Economy/ResourceCost.cs:42-45 | true exactly when the ledger covers every cost |
| Costs.ResourceCost.TrySpendResources | Assets/Scripts/Economy/ResourceCost.cs:50-53 | the ledger's all-or-nothing spend of the cost map: success exactly when affordable, each costed kind lowered by its cost, nothing changed otherwise |
| Costs.ResourceCost.GetCost | Assets/Scripts/Economy/ResourceCost.cs:58-63 | the mapped cost, 0 exactly when the kind has none |
| Subscribers.Deliver | Assets/Scripts/Core/Architecture/TypedEventBus.cs:74-84 | a null entry yields nothing; a handler yields one outcome for its id, a failure exactly when it throws |
| Subscribers.DispatchReachesAll | Assets/Scripts/Core/Architecture/TypedEventBus.cs:72-85 | a dispatch reaches every non-null handler once, in registration order, whichever of them throw |
| Subscribers.DispatchFailsExactly | Assets/Scripts/Core/Architecture/TypedEventBus.cs:72-85 | an outcome is a failure exactly when its handler throws |
| Subscribers.RemoveFirst | Assets/Scripts/Core/Architecture/TypedEventBus.cs:96 | List.Remove: an absent value leaves the list; otherwise one element fewer, split at the first occurrence |
| Subscribers.RemoveFirstMultiset | Assets/Scripts/Core/Architecture/TypedEventBus.cs:96 | removal takes exactly one copy of the value out of the list's contents |
| Subscribers.RemoveAppended | Assets/Scripts/Core/Architecture/TypedEventBus.cs:91-103 | removing a handler just appended to a list without it gives the list back |
| TypedBus.Subscribed | Assets/Scripts/Core/Architecture/TypedEventBus.cs:49-59 | the type's list gains the handler at its end, the others are unchanged, and no empty list appears |
| TypedBus.Unsubscribed | Assets/Scripts/Core/Architecture/TypedEventBus.cs:91-103 | one occurrence removed; the type stays a key exactly when its list is not empty; other types are unchanged |
| TypedBus.SubscribeCounts | Assets/Scripts/Core/Architecture/TypedEventBus.cs:49-59 | subscribing raises that type's count by exactly 1 and no other |
| TypedBus.UnsubscribeCounts | Assets/Scripts/Core/Architecture/TypedEventBus.cs:91-103 | unsubscribing a registered handler lowers the count by 1; an unregistered one changes nothing |
| TypedBus.SubscribeUnsubscribeCount | Assets/Scripts/Core/Architecture/TypedEventBus.cs:49-103 | subscribe then unsubscribe restores the count |
| TypedBus.SubscribeUnsubscribeRestores | Assets/Scripts/Core/Architecture/TypedEventBus.cs:49-103 | for a handler not yet registered, subscribe then unsubscribe restores the whole registry |
| TypedBus.TypedEventBus.constructor | Assets/Scripts/Core/Architecture/TypedEventBus.cs:43-44 | the registry starts empty |
| TypedBus.TypedEventBus.Subscribe | Assets/Scripts/Core/Architecture/TypedEventBus.cs:49-59 | the registry becomes Subscribed, the count rises by 1, and there is still no empty list |
| TypedBus.TypedEventBus.Publish | Assets/Scripts/Core/Architecture/TypedEventBus.cs:64-86 | an unknown type does nothing; otherwise exactly the handlers registered at the start are invoked, in order, whatever they subscribe or unsubscribe meanwhile and whichever throw, and their calls reach the registry in order |
| TypedBus.TypedEventBus.Notify | Assets/Scripts/Core/Architecture/TypedEventBus.cs:76-79 | a null entry does nothing; a handler's calls are applied in order |
| TypedBus.TypedEventBus.React | Assets/Scripts/Core/Architecture/TypedEventBus.cs:76-79 | one handler's run, split out of Publish: its calls into the bus reach the registry in order, with the invariant kept |
| TypedBus.TypedEventBus.Unsubscribe | Assets/Scripts/Core/Architecture/TypedEventBus.cs:91-103 | the registry becomes Unsubscribed and there is still no empty list |
| TypedBus.TypedEventBus.ClearAllHandlers | Assets/Scripts/Core/Architecture/TypedEventBus.cs:108-112 | the registry is emptied, and every count is then 0 |
| TypedBus.TypedEventBus.GetSubscriberCount | Assets/Scripts/Core/Architecture/TypedEventBus.cs:117-123 | 0 for an unknown type, the list length otherwise, and positive exactly for a registered type |
| StringBus.Added | Assets/Scripts/Core/EventBus.cs:48-56 | the name's list gains the listener at its end, the name becomes a key, and the other names are unchanged |
| StringBus.Removed | Assets/Scripts/Core/EventBus.cs:61-67 | one occurrence removed; the names stay exactly the same, an emptied list included; the others are unchanged |
| StringBus.Step | Assets/Scripts/Core/EventBus.cs:76-80 | a change to the dispatched list is never undone, and a list once detached stays detached |
| StringBus.QuietTrigger | Assets/Scripts/Core/EventBus.cs:72-88 | when the listeners leave the bus alone, TriggerEvent invokes every listener of the name in order, whichever throw, and completes; an unknown name invokes nothing |
| StringBus.TriggerPrefix | Assets/Scripts/Core/EventBus.cs:72-88 | whatever the listeners do, the invocations are a prefix of those of the list at the start, and all of them when the dispatch completes |
| StringBus.SelfAddStops | Assets/Scripts/Core/EventBus.cs:72-88 | a listener adding to the name being dispatched ends the dispatch after itself, with the exception leaving TriggerEvent |
| StringBus.ClearDetaches | Assets/Scripts/Core/EventBus.cs:72-96 | a listener that clears the bus and subscribes to the same name again does not end the dispatch, and all the original listeners run |
| StringBus.EventBus.constructor | Assets/Scripts/Core/EventBus.cs:42-43 | no names registered |
| StringBus.EventBus.AddListener | Assets/Scripts/Core/EventBus.cs:48-56 | the registry becomes Added |
| StringBus.EventBus.RemoveListener | Assets/Scripts/Core/EventBus.cs:61-67 | the registry becomes Removed |
| StringBus.EventBus.ClearAllListeners | Assets/Scripts/Core/EventBus.cs:93-96 | every name is forgotten |
| StringBus.EventBus.TriggerEvent | Assets/Scripts/Core/EventBus.cs:72-88 | the invocations, the completion and the registry left are those of the live-list dispatch that Triggered specifies |
| StringBus.EventBus.React | Assets/Scripts/Core/EventBus.cs:76-80 | one listener's run, split out of TriggerEvent: its calls reach the registry in order, and whether they changed the dispatched list or detached it follows Steps |
| StateAdapter.Chain | Assets/Scripts/Core/Adapters/GameLoopManagerAdapter.cs:78-82 | each pair's previous value is the new value of the pair before it, the first one the starting value |
| StateAdapter.RelayedInterleaves | Assets/Scripts/Core/Adapters/GameLoopManagerAdapter.cs:72-109 | each notification adds its forwarded event and then its typed event, in the order received |
| StateAdapter.StateChain | Assets/Scripts/Core/Adapters/GameLoopManagerAdapter.cs:72-83 | the typed state events chain: each previous state is the prior published new state, and the adapter remembers the last one |
| StateAdapter.TurnChain | Assets/Scripts/Core/Adapters/GameLoopManagerAdapter.cs:85-96 | the same chaining for turns |
| StateAdapter.PeriodChain | Assets/Scripts/Core/Adapters/GameLoopManagerAdapter.cs:98-109 | the same chaining for time periods |
| StateAdapter.GameLoopManagerAdapter.constructor | Assets/Scripts/Core/Adapters/GameLoopManagerAdapter.cs:30-43 | the game loop's current state, turn and period become the previous values |
| StateAdapter.GameLoopManagerAdapter.HandleStateChanged | Assets/Scripts/Core/Adapters/GameLoopManagerAdapter.cs:72-83 | forwards, publishes (new, previous), then remembers the new state |
| StateAdapter.GameLoopManagerAdapter.HandleTurnChanged | Assets/Scripts/Core/Adapters/GameLoopManagerAdapter.cs:85-96 | forwards, publishes (new, previous), then remembers the new turn |
| StateAdapter.GameLoopManagerAdapter.HandleTimePeriodChanged | Assets/Scripts/Core/Adapters/GameLoopManagerAdapter.cs:98-109 | forwards, publishes (new, previous), then remembers the new period |
| StateAdapter.GameLoopManagerAdapter.Receive | Assets/Scripts/Core/Adapters/GameLoopManagerAdapter.cs:49-58 | each notification reaches the handler subscribed to its kind, in order |
| StateAdapter.GameLoopManagerAdapter.Pass | Assets/Scripts/Core/Adapters/GameLoopManagerAdapter.cs:49-58 | split out of the command wrappers: the notifications the game loop raised since position before are received, in order |
| StateAdapter.GameLoopManagerAdapter.CurrentStateType | Assets/Scripts/Core/Adapters/GameLoopManagerAdapter.cs:21 | the game loop's current state |
| StateAdapter.GameLoopManagerAdapter.CurrentTurn | Assets/Scripts/Core/Adapters/GameLoopManagerAdapter.cs:22 | the game loop's current turn |
| StateAdapter.GameLoopManagerAdapter.CurrentTimePeriod | Assets/Scripts/Core/Adapters/GameLoopManagerAdapter.cs:23 | the game loop's current period |
| StateAdapter.GameLoopManagerAdapter.ChangeState | Assets/Scripts/Core/Adapters/GameLoopManagerAdapter.cs:112-115 | the game loop's ChangeState, and the adapter relays exactly the notifications that call raised |
| StateAdapter.GameLoopManagerAdapter.AdvanceTimePeriod | Assets/Scripts/Core/Adapters/GameLoopManagerAdapter.cs:117-120 | the game loop's AdvanceTimePeriod, and the adapter relays exactly its notifications |
| StateAdapter.GameLoopManagerAdapter.AdvanceToNextTurn | Assets/Scripts/Core/Adapters/GameLoopManagerAdapter.cs:122-125 | the game loop's AdvanceToNextTurn, and the adapter relays exactly its notifications |
| StateAdapter.GameLoopManagerAdapter.CompleteActionAndReturnToSelection | Assets/Scripts/Core/Adapters/GameLoopManagerAdapter.cs:127-130 | the game loop's CompleteActionAndReturnToSelection, and the adapter relays exactly its notifications |
| StateAdapter.GameLoopManagerAdapter.ShouldRaidOccur | Assets/Scripts/Core/Adapters/GameLoopManagerAdapter.cs:132-135 | the game loop's raid check |

## Left out

- User interface (ResourceUIManager, GameLoopUI): text and widgets only. The
  UI's gatherer control calls the ledger's SetGatherers directly, which
  bypasses the pool. Such a call can break the pool–ledger agreement
  (`InSync`), which the model proves only for calls through the pool.
- Gatherers.GathererSystem.AssignGatherers,
  Gatherers.GathererSystem.SetEfficiencyMultiplier,
  Gatherers.GathererSystem.ResetAssignments and
  Gatherers.GathererSystem.SyncEfficiencyToResourceManager require the pool
  and the ledger to agree (`InSync`), so they are modelled only from an
  agreeing state. The source never checks for this, and the UI bypass above
  can break it.
- Unity lifecycle and singletons: `Instance` getters, `FindFirstObjectByType`,
  `Destroy`/`DontDestroyOnLoad`, and the ServiceLocator registration in the
  adapter's Awake. Each component is one object owned by its caller. The
  pool's ledger and the adapter's game loop are plain references that are
  never null, so the "ledger not found" branches are not modelled.
- Event subscriptions: the C# `event` fields and their `+=`/`-=` in
  Start/OnEnable/OnDestroy are not modelled. Every notification goes to a
  log (`notices`, `relays`) in the order raised.
  - EventManager.HandleStateChange is called with a state; it is not wired
    into the game loop's chained ChangeState in general. SelectEventChoice
    alone calls it on the state its own chain rests in (see below).
  - The adapter receives a command's notifications once the command returns,
    rather than while it runs. Its handlers touch only its own fields, so the
    result is the same.
- StateAdapter.GameLoopManagerAdapter.HandleStateChanged: the typed event is
  recorded as a relay rather than published into a TypedBus instance. Publish
  itself is modelled in `TypedBus`.
- Floating point: modifiers and the efficiency multiplier are integer
  percentages. `Mathf.RoundToInt` is modelled as rounding half to even on
  exact percentages. Float rounding of the product is not captured.
- C# `int` overflow: quantities, turns and counters are unbounded integers.
  DungeonPoints' unlimited capacity is the constant int.MaxValue.
- Ledger.ResourceManager.SpendResources: the source walks the cost dictionary
  in insertion order. The model walks the kinds in enumeration order. The
  final quantities are the same, but the order of the ResourceChanged notices
  can differ. The model also requires every cost to be non-negative. The public
  method accepts any map, and a negative cost would raise a quantity past its
  capacity; the only caller in the core, ResourceCost, passes positive costs.
- Events.EventManager.SelectEventChoice: the re-entrant event start is
  modelled one level deep. When the list is empty, the drawn nothing sends the
  game back to AdvanceTime with nextRoll. In the source a firing nextRoll would
  enter EventInteraction and trigger again, cycling until a roll fails; the
  model stops after that one re-entry. In the source the nested chain's
  notices also come before the outer AdvanceTime notice; the model appends
  them after it.
- Events.EventManager.TriggerRandomEvent: the same applies to its empty-list
  path. It enters AdvanceTime once, and a chain that rests in
  EventInteraction again does not trigger another draw in the model.
- Gatherers.GathererSystem.GetTotalAssignedGatherers: the same substitution
  applies. The model sums the dictionary in enumeration order, which gives
  the same total.
- Gatherers.GathererSystem.SyncAssignmentsToResourceManager and
  Gatherers.GathererSystem.ResetAssignments also visit the kinds in
  enumeration order.
- Gatherers.GathererSystem.ResetAssignments: the source writes into the
  dictionary while enumerating its keys. The model gives the intended effect,
  every assignment zero. Runtime-dependent enumeration failures are not
  modelled.
- Ledger.ResourceManager.constructor: the starting quantities, the base
  yield per gatherer and the per-turn DungeonPoints gain are inspector-editable
  fields in the source (ResourceManager.cs:36-42). The model fixes them at the
  code's default values. The constructor's invariant `0 <= quantity <=
  capacity` is proved for those values only. A designer value such as a
  starting Wood above its capacity of 100 gives a state the model cannot reach.
- Gatherers.GathererSystem.constructor: the maximum, the starting workers and
  the efficiency multiplier are inspector-editable too (GathererSystem.cs:31-33).
  The model fixes them at 20, 5 and 1.0. `available >= 0` and `efficiency >=
  0.1` are proved at the start for those values only; a negative starting
  count, for instance, is not covered.
- Ledger.ResourceManager: a ResourcesUpdated notice records a copy of the
  quantities when it fires. The source hands its subscribers the live
  dictionary, so a subscriber that keeps it sees later changes. That aliasing
  is not modelled.
- Gatherers.GathererSystem: the pool's notices and the ledger's notices go to
  two separate logs. Within one AssignGatherers or ResetAssignments, the
  order of OnAvailableGatherersChanged and OnAssignmentsChanged relative to
  the ledger's OnGathererChanged is not recorded.
- Event buses: `faults` is one set of ids for a whole dispatch. A handler
  registered twice therefore throws on both of its invocations or on neither;
  a handler that throws only on some of its invocations is not modelled.
- Randomness: the event roll and the random event index are inputs.
  `Random.Range(0, Count)` becomes an index below the list length, a
  precondition only on a non-empty list.
- Event buses: handlers are ids, an exception is "the handler's id is in
  `faults`", and what a handler does to the bus is an input list of calls per
  position. On the string bus, the exception thrown by the list enumeration
  after a change to that list is `completed == false`. The data argument of
  TriggerEvent and of Publish is not modelled.
- Logging, `ProcessOngoingActivities`, `SaveGameState` and
  `ApplyEventChoiceEffects`: log only.
- The optional rebroadcast of the game loop's notifications to the ledger
  (GameLoopManagerExtensions) is not part of this model. The ledger's
  ProcessTimeAdvancement and ProcessTurnCompletion are called directly.
- GetAllResources and GetAllGatherers are dictionary copies of the ledger's
  fields, which the model reads directly.
- Three behaviours of the code differ from what the game's design
  describes; the model follows the code.
  - The pool does not keep `available + Σ assigned == maximum`: it starts
    with 5 available out of a maximum of 20. The model proves instead that
    AssignGatherers keeps `available + Σ assigned`.
  - AddResource returns a bool, not the amount added.
  - TriggerRandomEvent with an empty list leaves the active flag as it was;
    it does not clear it.
