/** The resource ledger: per kind a quantity, a capacity, a gatherer count and a
    production modifier, with capacity-clamped accrual and guarded spending.
    Every operation keeps 0 <= quantity <= capacity for every kind. */
module Ledger {
  import opened ResourceTypes

  // The code's default values of the ledger's inspector-editable fields; the
  // model starts from these values only.
  const StartingDungeonPoints: int := 100
  const StartingWood: int := 30
  const StartingStone: int := 20
  const StartingMetal: int := 10
  const StartingFood: int := 50
  const BaseResourcePerGatherer: int := 5
  const DpGainPerTurn: int := 15

  /** Production modifiers are integer percentages: 100 stands for the factor 1.0. */
  const DefaultModifier: int := 100

  /** The ledger's notifications: OnResourceChanged, OnGathererChanged and
      OnResourcesUpdated (the latter with the quantities at the time it fires). */
  datatype Notice =
    | ResourceChanged(kind: ResourceType, value: int)
    | GathererChanged(kind: ResourceType, count: int)
    | ResourcesUpdated(snapshot: map<ResourceType, int>)

  /** The map has an entry for every kind. */
  ghost predicate Total(m: map<ResourceType, int>)
  {
    forall k :: k in m
  }

  function Min(a: int, b: int): int { if a <= b then a else b }
  function Max(a: int, b: int): int { if a <= b then b else a }

  /** n / d rounded to the nearest integer, a half going to the even neighbour
      (the rounding of Mathf.RoundToInt). */
  function RoundHalfEven(n: int, d: int): (r: int)
    requires n >= 0 && d > 0
    ensures r >= 0
    ensures -d <= 2 * (r * d - n) <= d
    ensures (2 * (r * d - n) == d || 2 * (n - r * d) == d) ==> r % 2 == 0
  {
    var q, rem := n / d, n % d;
    assert n == q * d + rem;
    assert (q + 1) * d == q * d + d;
    if 2 * rem < d then q
    else if 2 * rem > d then q + 1
    else if q % 2 == 0 then q else q + 1
  }

  /** The quantity AddResource leaves: the amount added and clamped to the
      capacity; a non-positive amount, or a store already full, changes nothing. */
  function Accrue(q: int, cap: int, amount: int): (r: int)
    ensures q <= cap ==> q <= r <= cap
    ensures 0 <= amount && q <= cap ==> r == Min(q + amount, cap)
    ensures r != q <==> amount > 0 && q < cap
  {
    if amount <= 0 then q
    else
      var newValue := Min(q + amount, cap);
      if newValue - q <= 0 then q else newValue
  }

  /** Production of one kind per time period: none for DungeonPoints; otherwise
      gatherers times the base yield times the modifier (a percentage),
      rounded to the nearest integer. */
  function ProductionRate(kind: ResourceType, gatherers: int, modifier: int): (r: int)
    requires gatherers >= 0 && modifier >= 0
    ensures r >= 0
    ensures kind == DungeonPoints ==> r == 0
    ensures kind != DungeonPoints ==>
      -100 <= 2 * (100 * r - gatherers * BaseResourcePerGatherer * modifier) <= 100
    ensures kind != DungeonPoints && modifier == DefaultModifier ==>
      r == gatherers * BaseResourcePerGatherer
  {
    if kind == DungeonPoints then 0
    else RoundHalfEven(gatherers * BaseResourcePerGatherer * modifier, 100)
  }

  /** The quantities after SpendResources has deducted, in enumeration order,
      the costs of the first n kinds. */
  function Deducted(before: map<ResourceType, int>, costs: map<ResourceType, int>, n: nat)
    : (after: map<ResourceType, int>)
    requires n <= KindCount
    ensures after.Keys == before.Keys
  {
    if n == 0 then before
    else
      var m := Deducted(before, costs, n - 1);
      var k := KindAt(n - 1);
      if k in costs && k in m then m[k := m[k] - costs[k]] else m
  }

  /** Deducting over the first n kinds lowers each costed kind among them by its
      cost, once, and leaves every other kind alone. */
  lemma {:induction false} DeductedAt(before: map<ResourceType, int>, costs: map<ResourceType, int>,
                                      n: nat, k: ResourceType)
    requires n <= KindCount && k in before
    ensures Deducted(before, costs, n)[k]
            == if Ordinal(k) < n && k in costs then before[k] - costs[k] else before[k]
  {
    if n > 0 {
      DeductedAt(before, costs, n - 1, k);
    }
  }

  /** The log after SpendResources has fired its ResourceChanged notices for
      the first n kinds: one per costed kind, with its quantity after the
      deduction, appended to log. */
  function SpendNotices(log: seq<Notice>, before: map<ResourceType, int>,
                        costs: map<ResourceType, int>, n: nat): seq<Notice>
    requires n <= KindCount && Total(before)
  {
    if n == 0 then log
    else
      var k := KindAt(n - 1);
      SpendNotices(log, before, costs, n - 1)
        + (if k in costs then [ResourceChanged(k, before[k] - costs[k])] else [])
  }

  /** The production rate of kind k under the gatherer counts and modifiers
      of the maps (0 where an entry is missing or negative). */
  function RateIn(gatherers: map<ResourceType, int>, modifiers: map<ResourceType, int>,
                  k: ResourceType): (r: int)
    ensures r >= 0
  {
    if k in gatherers && k in modifiers && gatherers[k] >= 0 && modifiers[k] >= 0
    then ProductionRate(k, gatherers[k], modifiers[k]) else 0
  }

  /** What one kind's turn in a time period does to the quantities: AddResource
      with the kind's production rate, skipped for DungeonPoints and a rate of 0. */
  function AccrualStep(m: map<ResourceType, int>, capacity: map<ResourceType, int>,
                       gatherers: map<ResourceType, int>, modifiers: map<ResourceType, int>,
                       k: ResourceType): (r: map<ResourceType, int>)
    ensures r.Keys == m.Keys
  {
    var rate := RateIn(gatherers, modifiers, k);
    if k != DungeonPoints && rate > 0 && k in m && k in capacity
    then m[k := Accrue(m[k], capacity[k], rate)] else m
  }

  /** The ResourceChanged notice one kind's turn fires: only when AddResource
      raises the quantity. */
  function AccrualNotice(m: map<ResourceType, int>, capacity: map<ResourceType, int>,
                         gatherers: map<ResourceType, int>, modifiers: map<ResourceType, int>,
                         k: ResourceType): seq<Notice>
  {
    var rate := RateIn(gatherers, modifiers, k);
    if k != DungeonPoints && rate > 0 && k in m && k in capacity && m[k] < capacity[k]
    then [ResourceChanged(k, Min(m[k] + rate, capacity[k]))] else []
  }

  /** The quantities after a time period's production has been added to the
      first n kinds, in enumeration order. */
  function Produced(before: map<ResourceType, int>, capacity: map<ResourceType, int>,
                    gatherers: map<ResourceType, int>, modifiers: map<ResourceType, int>,
                    n: nat): (after: map<ResourceType, int>)
    requires n <= KindCount
    ensures after.Keys == before.Keys
  {
    if n == 0 then before
    else AccrualStep(Produced(before, capacity, gatherers, modifiers, n - 1),
                     capacity, gatherers, modifiers, KindAt(n - 1))
  }

  /** The log after a time period's production has fired its notices for the
      first n kinds, appended to log. */
  function AccrualNotices(log: seq<Notice>, before: map<ResourceType, int>,
                          capacity: map<ResourceType, int>, gatherers: map<ResourceType, int>,
                          modifiers: map<ResourceType, int>, n: nat): seq<Notice>
    requires n <= KindCount
  {
    if n == 0 then log
    else
      AccrualNotices(log, before, capacity, gatherers, modifiers, n - 1)
        + AccrualNotice(Produced(before, capacity, gatherers, modifiers, n - 1),
                        capacity, gatherers, modifiers, KindAt(n - 1))
  }

  /** Production over the first n kinds adds each one's rate once, clamped to
      its capacity, and leaves DungeonPoints and the other kinds alone. */
  lemma {:induction false} ProducedAt(before: map<ResourceType, int>, capacity: map<ResourceType, int>,
                                      gatherers: map<ResourceType, int>, modifiers: map<ResourceType, int>,
                                      n: nat, k: ResourceType)
    requires n <= KindCount
    requires k in before && k in capacity && before[k] <= capacity[k]
    ensures Produced(before, capacity, gatherers, modifiers, n)[k]
            == if Ordinal(k) < n && k != DungeonPoints
               then Min(before[k] + RateIn(gatherers, modifiers, k), capacity[k])
               else before[k]
  {
    if n > 0 {
      ProducedAt(before, capacity, gatherers, modifiers, n - 1, k);
    }
  }

  /** The designer's starting quantity of each kind. */
  function StartingQuantity(k: ResourceType): (q: int)
    ensures 0 <= q <= StartingCapacity(k)
  {
    match k
    case DungeonPoints => StartingDungeonPoints
    case Wood => StartingWood
    case Stone => StartingStone
    case Metal => StartingMetal
    case Food => StartingFood
    case Knowledge => 0
  }

  /** The designer's starting capacity of each kind; DungeonPoints is unlimited. */
  function StartingCapacity(k: ResourceType): int
  {
    match k
    case DungeonPoints => Unlimited
    case Wood => 100
    case Stone => 100
    case Metal => 50
    case Food => 200
    case Knowledge => 100
  }

  class ResourceManager {
    var resources: map<ResourceType, int>
    var gatherers: map<ResourceType, int>
    var capacity: map<ResourceType, int>
    var modifiers: map<ResourceType, int>
    var notices: seq<Notice>

    /** Every kind has an entry in the four maps, and 0 <= quantity <= capacity. */
    ghost predicate Valid()
      reads this`resources, this`gatherers, this`capacity, this`modifiers
    {
      && (forall k :: k in resources && k in gatherers && k in capacity && k in modifiers
                      && 0 <= resources[k] <= capacity[k] && 1 <= capacity[k]
                      && 0 <= gatherers[k] && 0 <= modifiers[k])
      && gatherers[DungeonPoints] == 0
    }

    /** InitializeResources: every kind at 0 with unlimited capacity, no gatherers
        and modifier 1.0, then the designer's starting quantities and capacities. */
    constructor ()
      ensures Valid()
      ensures forall k :: resources[k] == StartingQuantity(k) && capacity[k] == StartingCapacity(k)
      ensures forall k :: gatherers[k] == 0 && modifiers[k] == DefaultModifier
      ensures notices == [ResourcesUpdated(resources)]
    {
      resources := map k | k in AllKinds :: StartingQuantity(k);
      capacity := map k | k in AllKinds :: StartingCapacity(k);
      gatherers := map k | k in AllKinds :: 0;
      modifiers := map k | k in AllKinds :: DefaultModifier;
      notices := [ResourcesUpdated(resources)];
      new;
      forall k: ResourceType
        ensures k in resources && k in capacity && k in gatherers && k in modifiers
      {
        InAllKinds(k);
      }
      assert Total(resources) && Total(capacity) && Total(gatherers) && Total(modifiers);
    }

    function GetResource(kind: ResourceType): (r: int)
      requires Valid()
      reads this`resources, this`gatherers, this`capacity, this`modifiers
      ensures 0 <= r <= capacity[kind]
    {
      resources[kind]
    }

    method AddResource(kind: ResourceType, amount: int) returns (ok: bool)
      requires Valid()
      modifies this`resources, this`notices
      ensures Valid()
      ensures ok <==> amount > 0 && old(resources[kind]) < capacity[kind]
      ensures resources == old(resources)[kind := Accrue(old(resources[kind]), capacity[kind], amount)]
      ensures ok ==> resources[kind] == Min(old(resources[kind]) + amount, capacity[kind])
      ensures notices == old(notices) + if ok then [ResourceChanged(kind, resources[kind])] else []
    {
      if amount <= 0 { return false; }
      var newValue := Min(resources[kind] + amount, capacity[kind]);
      var actualAmountAdded := newValue - resources[kind];
      if actualAmountAdded <= 0 { return false; }
      resources := resources[kind := newValue];
      notices := notices + [ResourceChanged(kind, resources[kind])];
      return true;
    }

    method SpendResource(kind: ResourceType, amount: int) returns (ok: bool)
      requires Valid()
      modifies this`resources, this`notices
      ensures Valid()
      ensures ok <==> amount > 0 && old(resources[kind]) >= amount
      ensures ok <==> amount > 0 && old(HasEnoughResource(kind, amount))
      ensures resources == if ok then old(resources)[kind := old(resources[kind]) - amount]
                           else old(resources)
      ensures notices == old(notices) + if ok then [ResourceChanged(kind, resources[kind])] else []
    {
      if amount <= 0 || resources[kind] < amount { return false; }
      resources := resources[kind := resources[kind] - amount];
      notices := notices + [ResourceChanged(kind, resources[kind])];
      return true;
    }

    /** True when the stored quantity of the kind covers the amount: always
        for an amount of at most 0, never for one above the capacity. */
    predicate HasEnoughResource(kind: ResourceType, amount: int)
      requires Valid()
      reads this`resources, this`gatherers, this`capacity, this`modifiers
      ensures amount <= 0 ==> HasEnoughResource(kind, amount)
      ensures amount > capacity[kind] ==> !HasEnoughResource(kind, amount)
    {
      resources[kind] >= amount
    }

    /** True when every cost of the map is covered by the stored quantity,
        that is, when HasEnoughResource holds for each entry in turn. */
    predicate HasEnoughResources(costs: map<ResourceType, int>)
      requires Valid()
      reads this`resources, this`gatherers, this`capacity, this`modifiers
      ensures HasEnoughResources(costs) <==> forall k :: k in costs ==> HasEnoughResource(k, costs[k])
      ensures costs == map[] ==> HasEnoughResources(costs)
    {
      forall k :: k in costs ==> resources[k] >= costs[k]
    }

    /** All or nothing: when every cost is covered each costed kind drops by its
        cost, otherwise nothing changes. Costs must not be negative: the ledger
        does not reject them, and a negative cost would raise a quantity past its
        capacity. */
    method SpendResources(costs: map<ResourceType, int>) returns (ok: bool)
      requires Valid()
      requires forall k :: k in costs ==> costs[k] >= 0
      modifies this`resources, this`notices
      ensures Valid()
      ensures ok == old(HasEnoughResources(costs))
      ensures forall k :: resources[k] == if ok && k in costs then old(resources[k]) - costs[k]
                                          else old(resources[k])
      ensures notices == if ok then SpendNotices(old(notices), old(resources), costs, KindCount) + [ResourcesUpdated(resources)]
                         else old(notices)
    {
      if !HasEnoughResources(costs) { return false; }
      DeductAllKinds(costs);
      forall k ensures resources[k] == if k in costs then old(resources[k]) - costs[k] else old(resources[k]) {
        DeductedAt(old(resources), costs, KindCount, k);
      }
      notices := notices + [ResourcesUpdated(resources)];
      return true;
    }

    /** The `foreach` of SpendResources: each costed kind drops by its cost, in
        enumeration order. */
    method DeductAllKinds(costs: map<ResourceType, int>)
      requires Total(resources)
      modifies this`resources, this`notices
      ensures resources == Deducted(old(resources), costs, KindCount)
      ensures notices == SpendNotices(old(notices), old(resources), costs, KindCount)
    {
      ghost var start := resources;
      for i := 0 to KindCount
        invariant resources == Deducted(start, costs, i)
        invariant notices == SpendNotices(old(notices), start, costs, i)
      {
        var kind := KindAt(i);
        DeductedAt(start, costs, i, kind);
        if kind in costs {
          resources := resources[kind := resources[kind] - costs[kind]];
          notices := notices + [ResourceChanged(kind, resources[kind])];
        }
      }
    }

    /** Gatherers cannot be set for DungeonPoints; other counts are floored at 0. */
    method SetGatherers(kind: ResourceType, count: int)
      requires Valid()
      modifies this`gatherers, this`notices
      ensures Valid()
      ensures gatherers == if kind == DungeonPoints then old(gatherers)
                           else old(gatherers)[kind := Max(0, count)]
      ensures notices == old(notices)
        + if kind == DungeonPoints then [] else [GathererChanged(kind, Max(0, count))]
    {
      if kind == DungeonPoints { return; }
      var c := Max(0, count);
      gatherers := gatherers[kind := c];
      notices := notices + [GathererChanged(kind, c)];
    }

    function GetGatherers(kind: ResourceType): (r: int)
      requires Valid()
      reads this`resources, this`gatherers, this`capacity, this`modifiers
      ensures r >= 0 && (kind == DungeonPoints ==> r == 0)
    {
      gatherers[kind]
    }

    /** Stores the modifier (a percentage), floored at 0. */
    method SetProductionModifier(kind: ResourceType, modifier: int)
      requires Valid()
      modifies this`modifiers
      ensures Valid()
      ensures modifiers == old(modifiers)[kind := Max(0, modifier)]
    {
      modifiers := modifiers[kind := Max(0, modifier)];
    }

    /** Production per time period of a kind (see ProductionRate). */
    function GetProductionRate(kind: ResourceType): (r: int)
      requires Valid()
      reads this`resources, this`gatherers, this`capacity, this`modifiers
      ensures r == ProductionRate(kind, gatherers[kind], modifiers[kind]) == RateIn(gatherers, modifiers, kind)
    {
      if kind == DungeonPoints then 0
      else RoundHalfEven(gatherers[kind] * BaseResourcePerGatherer * modifiers[kind], 100)
    }

    function GetResourceCapacity(kind: ResourceType): (r: int)
      requires Valid()
      reads this`resources, this`gatherers, this`capacity, this`modifiers
      ensures r >= 1 && r >= resources[kind]
    {
      capacity[kind]
    }

    /** Stores the capacity floored at 1 and clamps the quantity down to it when
        the quantity exceeds it. */
    method SetResourceCapacity(kind: ResourceType, cap: int)
      requires Valid()
      modifies this`capacity, this`resources, this`notices
      ensures Valid()
      ensures capacity == old(capacity)[kind := Max(1, cap)]
      ensures resources == if old(resources[kind]) > Max(1, cap)
                           then old(resources)[kind := Max(1, cap)] else old(resources)
      ensures notices == old(notices)
        + if old(resources[kind]) > Max(1, cap) then [ResourceChanged(kind, Max(1, cap))] else []
    {
      capacity := capacity[kind := Max(1, cap)];
      if resources[kind] > capacity[kind] {
        resources := resources[kind := capacity[kind]];
        notices := notices + [ResourceChanged(kind, resources[kind])];
      }
    }

    /** One kind's turn in ProcessTimeAdvancement. */
    method AccrueKind(kind: ResourceType)
      requires Valid()
      modifies this`resources, this`notices
      ensures Valid()
      ensures resources == AccrualStep(old(resources), capacity, gatherers, modifiers, kind)
      ensures notices == old(notices) + AccrualNotice(old(resources), capacity, gatherers, modifiers, kind)
    {
      if kind == DungeonPoints { return; }
      var amountToAdd := GetProductionRate(kind);
      if amountToAdd > 0 {
        var _ := AddResource(kind, amountToAdd);
      }
    }

    /** The `foreach` of ProcessTimeAdvancement: each kind's turn, in
        enumeration order. */
    method AccrueAllKinds()
      requires Valid()
      modifies this`resources, this`notices
      ensures Valid()
      ensures resources == Produced(old(resources), capacity, gatherers, modifiers, KindCount)
      ensures notices == AccrualNotices(old(notices), old(resources), capacity, gatherers, modifiers, KindCount)
    {
      for i := 0 to KindCount
        invariant Valid()
        invariant resources == Produced(old(resources), capacity, gatherers, modifiers, i)
        invariant notices == AccrualNotices(old(notices), old(resources), capacity, gatherers, modifiers, i)
      {
        AccrueKind(KindAt(i));
      }
    }

    /** One time period of production: every kind but DungeonPoints gains its
        production rate, clamped to its capacity. */
    method ProcessTimeAdvancement()
      requires Valid()
      modifies this`resources, this`notices
      ensures Valid()
      ensures forall k :: resources[k] == if k == DungeonPoints then old(resources[k])
                                          else Min(old(resources[k]) + RateIn(gatherers, modifiers, k), capacity[k])
      ensures notices == AccrualNotices(old(notices), old(resources), capacity, gatherers, modifiers, KindCount)
                         + [ResourcesUpdated(resources)]
    {
      AccrueAllKinds();
      notices := notices + [ResourcesUpdated(resources)];
      forall k ensures resources[k] == if k == DungeonPoints then old(resources[k])
                                       else Min(old(resources[k]) + RateIn(gatherers, modifiers, k), capacity[k])
      {
        ProducedAt(old(resources), capacity, gatherers, modifiers, KindCount, k);
      }
    }

    /** End of a turn: DungeonPoints gains the per-turn grant, clamped to its
        capacity; nothing else changes. */
    method ProcessTurnCompletion()
      requires Valid()
      modifies this`resources, this`notices
      ensures Valid()
      ensures resources == old(resources)[DungeonPoints :=
        Min(old(resources[DungeonPoints]) + DpGainPerTurn, capacity[DungeonPoints])]
      ensures notices == old(notices)
        + (if old(resources[DungeonPoints]) < capacity[DungeonPoints]
           then [ResourceChanged(DungeonPoints, resources[DungeonPoints])] else [])
        + [ResourcesUpdated(resources)]
    {
      var _ := AddResource(DungeonPoints, DpGainPerTurn);
      notices := notices + [ResourcesUpdated(resources)];
    }
  }

  /** HasEnoughResources is exactly the condition under which SpendResources'
      deduction leaves no quantity below 0, so the all-or-nothing guard is
      what keeps the ledger's invariant. */
  lemma {:induction false} EnoughExactlyWhenNoDeficit(rm: ResourceManager, costs: map<ResourceType, int>)
    requires rm.Valid()
    ensures rm.HasEnoughResources(costs) ==> forall k :: Deducted(rm.resources, costs, KindCount)[k] >= 0
    ensures !rm.HasEnoughResources(costs) ==> exists k :: Deducted(rm.resources, costs, KindCount)[k] < 0
  {
    var after := Deducted(rm.resources, costs, KindCount);
    forall k: ResourceType
      ensures after[k] == if k in costs then rm.resources[k] - costs[k] else rm.resources[k]
    {
      DeductedAt(rm.resources, costs, KindCount, k);
    }
    if rm.HasEnoughResources(costs) {
      forall k: ResourceType
        ensures after[k] >= 0
      {
        assert rm.resources[k] >= 0;
      }
    } else {
      var k :| k in costs && rm.resources[k] < costs[k];
      assert after[k] < 0;
    }
  }

  /** A single cost is covered exactly when HasEnoughResource says so. */
  lemma EnoughForSingleCost(rm: ResourceManager, kind: ResourceType, amount: int)
    requires rm.Valid()
    ensures rm.HasEnoughResources(map[kind := amount]) <==> rm.HasEnoughResource(kind, amount)
  {
  }
}
