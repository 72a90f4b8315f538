/** The gatherer pool: unassigned workers plus a per-kind assignment, every
    change of which is pushed into the ledger's gatherer counts. */
module Gatherers {
  import opened ResourceTypes
  import Ledger

  // The code's default values of the pool's inspector-editable fields; the
  // model starts from these values only.
  const DefaultMaxGatherers: int := 20
  const DefaultStartingGatherers: int := 5

  /** The efficiency multiplier is an integer percentage: 100 stands for 1.0,
      and it is never below 10 (the factor 0.1). */
  const DefaultEfficiency: int := 100
  const MinEfficiency: int := 10

  /** The pool's notifications: OnAvailableGatherersChanged and
      OnAssignmentsChanged (the latter with the assignments at the time). */
  datatype PoolNotice =
    | AvailableChanged(available: int)
    | AssignmentsChanged(assignments: map<ResourceType, int>)

  /** The assignment of kind k in a, 0 when k has no entry. */
  function AssignedIn(a: map<ResourceType, int>, k: ResourceType): int
  {
    if k in a then a[k] else 0
  }

  /** The sum of the assignments of the first n kinds. */
  function AssignedSum(a: map<ResourceType, int>, n: nat): int
    requires n <= KindCount
  {
    if n == 0 then 0 else AssignedSum(a, n - 1) + AssignedIn(a, KindAt(n - 1))
  }

  /** The total of all assignments. */
  function TotalAssigned(a: map<ResourceType, int>): int
  {
    AssignedSum(a, KindCount)
  }

  /** Changing one assignment changes the sum by exactly the difference, when
      that kind is among the first n. */
  lemma {:induction false} AssignedSumUpdate(a: map<ResourceType, int>, k: ResourceType, v: int, n: nat)
    requires n <= KindCount && k in a
    ensures AssignedSum(a[k := v], n) == AssignedSum(a, n) + if Ordinal(k) < n then v - a[k] else 0
  {
    if n > 0 {
      AssignedSumUpdate(a, k, v, n - 1);
    }
  }

  /** The total changes by exactly the difference of the one assignment changed. */
  lemma TotalAssignedUpdate(a: map<ResourceType, int>, k: ResourceType, v: int)
    requires k in a
    ensures TotalAssigned(a[k := v]) == TotalAssigned(a) + v - a[k]
  {
    AssignedSumUpdate(a, k, v, KindCount);
  }

  /** Non-negative assignments have a non-negative sum. */
  lemma {:induction false} AssignedSumNonNegative(a: map<ResourceType, int>, n: nat)
    requires n <= KindCount
    requires forall k :: k in a ==> a[k] >= 0
    ensures AssignedSum(a, n) >= 0
  {
    if n > 0 {
      AssignedSumNonNegative(a, n - 1);
    }
  }

  /** All-zero assignments sum to 0. */
  lemma {:induction false} AssignedSumZero(a: map<ResourceType, int>, n: nat)
    requires n <= KindCount
    requires forall k :: k in a ==> a[k] == 0
    ensures AssignedSum(a, n) == 0
  {
    if n > 0 {
      AssignedSumZero(a, n - 1);
    }
  }

  /** The ledger log after SetGatherers has been called, in enumeration order,
      for every assigned kind among the first n. */
  function GathererNotices(log: seq<Ledger.Notice>, a: map<ResourceType, int>, n: nat): seq<Ledger.Notice>
    requires n <= KindCount
  {
    if n == 0 then log else GathererNotices(log, a, n - 1) + PushNotice(a, KindAt(n - 1))
  }

  /** The notice one kind's push fires. */
  function PushNotice(a: map<ResourceType, int>, k: ResourceType): seq<Ledger.Notice>
  {
    if k in a && k != DungeonPoints then [Ledger.GathererChanged(k, Ledger.Max(0, a[k]))] else []
  }

  /** The ledger's gatherer counts after SetGatherers(k, src[k]) has been
      called, in enumeration order, for every kind k of src among the first n
      (DungeonPoints is ignored, and a count is floored at 0, as SetGatherers does). */
  function Pushed(m: map<ResourceType, int>, src: map<ResourceType, int>, n: nat): (r: map<ResourceType, int>)
    requires n <= KindCount
    ensures r.Keys == m.Keys
  {
    if n == 0 then m else PushStep(Pushed(m, src, n - 1), src, KindAt(n - 1))
  }

  /** One kind's push: SetGatherers(k, src[k]) when src holds k. */
  function PushStep(p: map<ResourceType, int>, src: map<ResourceType, int>, k: ResourceType): (r: map<ResourceType, int>)
    ensures r.Keys == p.Keys
  {
    if k in src && k != DungeonPoints && k in p then p[k := Ledger.Max(0, src[k])] else p
  }

  /** Pushing the first n kinds sets each of them that src holds and leaves
      the rest alone. */
  lemma {:induction false} PushedAt(m: map<ResourceType, int>, src: map<ResourceType, int>, n: nat, k: ResourceType)
    requires n <= KindCount && k in m
    ensures Pushed(m, src, n)[k]
            == if Ordinal(k) < n && k in src && k != DungeonPoints then Ledger.Max(0, src[k]) else m[k]
  {
    if n > 0 {
      PushedAt(m, src, n - 1, k);
    }
  }

  /** The ledger's modifiers after SetProductionModifier(k, v) has been called,
      in enumeration order, for every kind but DungeonPoints among the first n. */
  function Modified(m: map<ResourceType, int>, v: int, n: nat): (r: map<ResourceType, int>)
    requires n <= KindCount
    ensures r.Keys == m.Keys
  {
    if n == 0 then m
    else
      var p := Modified(m, v, n - 1);
      var k := KindAt(n - 1);
      if k != DungeonPoints && k in p then p[k := Ledger.Max(0, v)] else p
  }

  /** Over the first n kinds every kind but DungeonPoints gets the modifier. */
  lemma {:induction false} ModifiedAt(m: map<ResourceType, int>, v: int, n: nat, k: ResourceType)
    requires n <= KindCount && k in m
    ensures Modified(m, v, n)[k] == if Ordinal(k) < n && k != DungeonPoints then Ledger.Max(0, v) else m[k]
  {
    if n > 0 {
      ModifiedAt(m, v, n - 1, k);
    }
  }

  /** The counts after the kinds of keys among the first n have been set to 0
      one by one, in enumeration order (DungeonPoints is ignored, as
      SetGatherers does). */
  function Cleared(m: map<ResourceType, int>, keys: set<ResourceType>, n: nat): (r: map<ResourceType, int>)
    requires n <= KindCount
    ensures r.Keys == m.Keys
  {
    if n == 0 then m else ClearStep(Cleared(m, keys, n - 1), keys, KindAt(n - 1))
  }

  /** One kind's turn of the clearing: zeroed when it is among keys. */
  function ClearStep(p: map<ResourceType, int>, keys: set<ResourceType>, k: ResourceType): (r: map<ResourceType, int>)
    ensures r.Keys == p.Keys
  {
    if k in keys && k != DungeonPoints && k in p then p[k := 0] else p
  }

  /** Clearing the first n kinds zeroes each of them in keys and leaves the rest alone. */
  lemma {:induction false} ClearedAt(m: map<ResourceType, int>, keys: set<ResourceType>, n: nat, k: ResourceType)
    requires n <= KindCount && k in m
    ensures Cleared(m, keys, n)[k] == if Ordinal(k) < n && k in keys && k != DungeonPoints then 0 else m[k]
  {
    if n > 0 {
      ClearedAt(m, keys, n - 1, k);
    }
  }

  /** The ledger log after SetGatherers(k, 0) has been called, in enumeration
      order, for every kind of keys among the first n. */
  function ClearNotices(log: seq<Ledger.Notice>, keys: set<ResourceType>, n: nat): seq<Ledger.Notice>
    requires n <= KindCount
  {
    if n == 0 then log else ClearNotices(log, keys, n - 1) + ClearNotice(keys, KindAt(n - 1))
  }

  /** The notice one kind's turn of the clearing fires. */
  function ClearNotice(keys: set<ResourceType>, k: ResourceType): seq<Ledger.Notice>
  {
    if k in keys && k != DungeonPoints then [Ledger.GathererChanged(k, 0)] else []
  }

  /** The assignments with every value set to 0. */
  function Zeroed(a: map<ResourceType, int>): (z: map<ResourceType, int>)
    ensures z.Keys == a.Keys
    ensures forall k :: k in z ==> z[k] == 0
  {
    map k | k in a :: 0
  }

  /** Gatherer counts g and modifiers mods agree with assignments a and
      efficiency eff for every kind but DungeonPoints. */
  ghost predicate Agrees(a: map<ResourceType, int>, eff: int, g: map<ResourceType, int>, mods: map<ResourceType, int>)
  {
    forall k :: k != DungeonPoints ==>
      k in a && k in g && k in mods && g[k] == a[k] && mods[k] == eff
  }

  /** Giving one kind the same new count on both sides keeps them in agreement. */
  lemma AgreesAfterAssign(a: map<ResourceType, int>, eff: int, g: map<ResourceType, int>,
                          mods: map<ResourceType, int>, kind: ResourceType, count: int)
    requires Agrees(a, eff, g, mods) && kind != DungeonPoints
    ensures Agrees(a[kind := count], eff, g[kind := count], mods)
  {
  }

  /** Writing a non-negative efficiency into every modifier but that of
      DungeonPoints brings the modifiers into agreement and leaves that one alone. */
  lemma ModifiedAgrees(a: map<ResourceType, int>, eff: int, g: map<ResourceType, int>, mods: map<ResourceType, int>)
    requires eff >= 0
    requires forall k :: k != DungeonPoints ==> k in a && k in g && k in mods && g[k] == a[k]
    ensures Agrees(a, eff, g, Modified(mods, eff, KindCount))
    ensures DungeonPoints in mods ==> Modified(mods, eff, KindCount)[DungeonPoints] == mods[DungeonPoints]
  {
    forall k | k in mods {
      ModifiedAt(mods, eff, KindCount, k);
    }
  }

  /** Clearing every kind of an assignment that has no DungeonPoints entry
      zeroes all of it. */
  lemma ClearedZeroed(a: map<ResourceType, int>)
    requires DungeonPoints !in a
    ensures Cleared(a, a.Keys, KindCount) == Zeroed(a)
  {
    forall k | k in a {
      ClearedAt(a, a.Keys, KindCount, k);
    }
  }

  /** Zeroing the assignments and clearing the same kinds in the gatherer
      counts keeps the two in agreement. */
  lemma ClearedAgrees(a: map<ResourceType, int>, eff: int, g: map<ResourceType, int>, mods: map<ResourceType, int>)
    requires Agrees(a, eff, g, mods)
    ensures Agrees(Zeroed(a), eff, Cleared(g, a.Keys, KindCount), mods)
  {
    forall k | k in g {
      ClearedAt(g, a.Keys, KindCount, k);
    }
  }

  class GathererSystem {
    var maxGatherers: int
    var available: int
    var assignments: map<ResourceType, int>
    var efficiency: int
    var notices: seq<PoolNotice>
    const startingGatherers: int := DefaultStartingGatherers
    const ledger: Ledger.ResourceManager

    /** The pool's own invariant: every kind but DungeonPoints has a
        non-negative assignment, the pool is non-negative and the efficiency
        is at least 0.1. */
    ghost predicate Valid()
      reads this`available, this`assignments, this`efficiency
    {
      && (forall k :: k in assignments <==> k != DungeonPoints)
      && (forall k :: k in assignments ==> assignments[k] >= 0)
      && available >= 0
      && efficiency >= MinEfficiency
    }

    /** The ledger agrees with the pool: its gatherer count and production
        modifier of every kind but DungeonPoints are the pool's assignment and
        efficiency. */
    ghost predicate InSync()
      reads this`assignments, this`efficiency, ledger`gatherers, ledger`modifiers
    {
      Agrees(assignments, efficiency, ledger.gatherers, ledger.modifiers)
    }

    /** The field initialisers followed by Start: every kind but DungeonPoints
        assigned 0, the starting workers available, and both pushed into the
        ledger. */
    constructor (ledger: Ledger.ResourceManager)
      requires ledger.Valid()
      modifies ledger`gatherers, ledger`modifiers, ledger`notices
      ensures Valid() && InSync() && ledger.Valid()
      ensures this.ledger == ledger
      ensures maxGatherers == DefaultMaxGatherers
      ensures available == DefaultStartingGatherers && efficiency == DefaultEfficiency
      ensures forall k :: k in assignments ==> assignments[k] == 0
      ensures notices == [AvailableChanged(available), AssignmentsChanged(assignments)]
      ensures ledger.notices == GathererNotices(old(ledger.notices), assignments, KindCount)
    {
      maxGatherers := DefaultMaxGatherers;
      efficiency := DefaultEfficiency;
      this.ledger := ledger;
      var a: map<ResourceType, int> := map[];
      for i := 0 to KindCount
        invariant forall k :: k in a <==> Ordinal(k) < i && k != DungeonPoints
        invariant forall k :: k in a ==> a[k] == 0
      {
        var kind := KindAt(i);
        if kind != DungeonPoints {
          a := a[kind := 0];
        }
      }
      assignments := a;
      available := startingGatherers;
      notices := [AvailableChanged(available), AssignmentsChanged(assignments)];
      new;
      SyncAssignmentsToResourceManager();
    }

    /** Moves the assignment of a kind to count, taking the difference from (or
        returning it to) the pool. Refused for DungeonPoints, a negative count,
        and a rise larger than the pool. */
    method AssignGatherers(kind: ResourceType, count: int) returns (ok: bool)
      requires Valid() && InSync() && ledger.Valid()
      modifies this`available, this`assignments, this`notices, ledger`gatherers, ledger`notices
      ensures Valid() && InSync() && ledger.Valid()
      ensures ok <==> kind != DungeonPoints && count >= 0
                      && count - old(GetAssignedGatherers(kind)) <= old(available)
      ensures !ok ==> available == old(available) && assignments == old(assignments)
                      && notices == old(notices)
                      && ledger.gatherers == old(ledger.gatherers) && ledger.notices == old(ledger.notices)
      ensures ok ==> assignments == old(assignments)[kind := count]
                     && available == old(available) - (count - old(assignments[kind]))
                     && notices == old(notices) + [AvailableChanged(available), AssignmentsChanged(assignments)]
                     && ledger.gatherers == old(ledger.gatherers)[kind := count]
                     && ledger.notices == old(ledger.notices) + [Ledger.GathererChanged(kind, count)]
      ensures available + TotalAssigned(assignments) == old(available + TotalAssigned(assignments))
    {
      if kind == DungeonPoints {
        return false;
      }
      if count < 0 {
        return false;
      }
      var currentAssignment := assignments[kind];
      var delta := count - currentAssignment;
      if delta > 0 && delta > available {
        return false;
      }
      Reassign(kind, count);
      return true;
    }

    /** The accepted branch of AssignGatherers: the pool pays the difference,
        the assignment and the ledger take the new count. */
    method Reassign(kind: ResourceType, count: int)
      requires Valid() && InSync() && ledger.Valid()
      requires kind != DungeonPoints && 0 <= count && count - assignments[kind] <= available
      modifies this`available, this`assignments, this`notices, ledger`gatherers, ledger`notices
      ensures Valid() && InSync() && ledger.Valid()
      ensures assignments == old(assignments)[kind := count]
      ensures available == old(available) - (count - old(assignments[kind]))
      ensures notices == old(notices) + [AvailableChanged(available), AssignmentsChanged(assignments)]
      ensures ledger.gatherers == old(ledger.gatherers)[kind := count]
      ensures ledger.notices == old(ledger.notices) + [Ledger.GathererChanged(kind, count)]
      ensures available + TotalAssigned(assignments) == old(available + TotalAssigned(assignments))
    {
      TotalAssignedUpdate(assignments, kind, count);
      AgreesAfterAssign(assignments, efficiency, ledger.gatherers, ledger.modifiers, kind, count);
      available := available - (count - assignments[kind]);
      assignments := assignments[kind := count];
      notices := notices + [AvailableChanged(available), AssignmentsChanged(assignments)];
      ledger.SetGatherers(kind, count);
    }

    /** The assignment of a kind; 0 for DungeonPoints and for a kind without an
        entry. */
    function GetAssignedGatherers(kind: ResourceType): (r: int)
      reads this`assignments
      ensures kind == DungeonPoints || kind !in assignments ==> r == 0
      ensures kind != DungeonPoints && kind in assignments ==> r == assignments[kind]
    {
      if kind == DungeonPoints || kind !in assignments then 0 else assignments[kind]
    }

    /** The total of the assignments, summed entry by entry. */
    method GetTotalAssignedGatherers() returns (total: int)
      requires Valid()
      ensures total == TotalAssigned(assignments)
      ensures total >= 0
    {
      total := 0;
      for i := 0 to KindCount
        invariant total == AssignedSum(assignments, i)
      {
        var kind := KindAt(i);
        if kind in assignments {
          total := total + assignments[kind];
        }
      }
      AssignedSumNonNegative(assignments, KindCount);
    }

    function GetAvailableGatherers(): (r: int)
      requires Valid()
      reads this`available, this`assignments, this`efficiency
      ensures r >= 0
    {
      available
    }

    /** New workers join the pool and raise the maximum; a non-positive count
        changes nothing. */
    method AddGatherers(count: int)
      requires Valid()
      modifies this`available, this`maxGatherers, this`notices
      ensures Valid()
      ensures available == old(available) + (if count > 0 then count else 0)
      ensures maxGatherers == old(maxGatherers) + (if count > 0 then count else 0)
      ensures notices == old(notices) + if count > 0 then [AvailableChanged(available)] else []
    {
      if count <= 0 {
        return;
      }
      available := available + count;
      maxGatherers := maxGatherers + count;
      notices := notices + [AvailableChanged(available)];
    }

    /** Stores the multiplier, floored at 0.1, and writes it into the ledger as
        the modifier of every kind but DungeonPoints. */
    method SetEfficiencyMultiplier(multiplier: int)
      requires Valid() && InSync() && ledger.Valid()
      modifies this`efficiency, ledger`modifiers
      ensures Valid() && InSync() && ledger.Valid()
      ensures efficiency == Ledger.Max(MinEfficiency, multiplier)
      ensures ledger.modifiers[DungeonPoints] == old(ledger.modifiers[DungeonPoints])
    {
      efficiency := Ledger.Max(MinEfficiency, multiplier);
      SyncEfficiencyToResourceManager();
    }

    function GetEfficiencyMultiplier(): (r: int)
      requires Valid()
      reads this`available, this`assignments, this`efficiency
      ensures r >= MinEfficiency
    {
      efficiency
    }

    /** Every assignment back to 0, in the pool and in the ledger, and the pool
        back to the starting workers: workers added since are not returned. */
    method ResetAssignments()
      requires Valid() && InSync() && ledger.Valid()
      modifies this`available, this`assignments, this`notices, ledger`gatherers, ledger`notices
      ensures Valid() && InSync() && ledger.Valid()
      ensures available == startingGatherers
      ensures assignments == Zeroed(old(assignments))
      ensures available + TotalAssigned(assignments) == startingGatherers
      ensures notices == old(notices) + [AvailableChanged(available), AssignmentsChanged(assignments)]
      ensures ledger.notices == ClearNotices(old(ledger.notices), assignments.Keys, KindCount)
    {
      ClearedAgrees(assignments, efficiency, ledger.gatherers, ledger.modifiers);
      available := startingGatherers;
      ClearAssignments();
      AssignedSumZero(assignments, KindCount);
      notices := notices + [AvailableChanged(available), AssignmentsChanged(assignments)];
    }

    /** The `foreach` of ResetAssignments: each assignment to 0, in the pool
        and in the ledger, in enumeration order. */
    method ClearAssignments()
      requires ledger.Valid() && DungeonPoints !in assignments
      modifies this`assignments, ledger`gatherers, ledger`notices
      ensures ledger.Valid()
      ensures assignments == Zeroed(old(assignments))
      ensures ledger.gatherers == Cleared(old(ledger.gatherers), old(assignments).Keys, KindCount)
      ensures ledger.notices == ClearNotices(old(ledger.notices), old(assignments).Keys, KindCount)
    {
      ghost var keys := assignments.Keys;
      for i := 0 to KindCount
        invariant ledger.Valid() && assignments.Keys == keys
        invariant assignments == Cleared(old(assignments), keys, i)
        invariant ledger.gatherers == Cleared(old(ledger.gatherers), keys, i)
        invariant ledger.notices == ClearNotices(old(ledger.notices), keys, i)
      {
        ClearKind(KindAt(i), keys);
      }
      ClearedZeroed(old(assignments));
    }

    /** One kind's turn of ResetAssignments' loop. */
    method ClearKind(kind: ResourceType, ghost keys: set<ResourceType>)
      requires ledger.Valid() && assignments.Keys == keys && DungeonPoints !in keys
      modifies this`assignments, ledger`gatherers, ledger`notices
      ensures ledger.Valid() && assignments.Keys == keys
      ensures assignments == ClearStep(old(assignments), keys, kind)
      ensures ledger.gatherers == ClearStep(old(ledger.gatherers), keys, kind)
      ensures ledger.notices == old(ledger.notices) + ClearNotice(keys, kind)
    {
      if kind in assignments {
        assignments := assignments[kind := 0];
        ledger.SetGatherers(kind, 0);
      }
    }

    /** Pushes every assignment into the ledger's gatherer counts, then the
        efficiency into its modifiers. */
    method SyncAssignmentsToResourceManager()
      requires Valid() && ledger.Valid()
      modifies ledger`gatherers, ledger`modifiers, ledger`notices
      ensures InSync() && ledger.Valid()
      ensures ledger.notices == GathererNotices(old(ledger.notices), assignments, KindCount)
      ensures ledger.modifiers[DungeonPoints] == old(ledger.modifiers[DungeonPoints])
    {
      PushAssignments();
      forall k | k != DungeonPoints ensures ledger.gatherers[k] == assignments[k] {
        PushedAt(old(ledger.gatherers), assignments, KindCount, k);
      }
      SyncEfficiencyToResourceManager();
    }

    /** The `foreach` of SyncAssignmentsToResourceManager: each assignment
        into the ledger, in enumeration order. */
    method PushAssignments()
      requires ledger.Valid()
      modifies ledger`gatherers, ledger`notices
      ensures ledger.Valid()
      ensures ledger.gatherers == Pushed(old(ledger.gatherers), assignments, KindCount)
      ensures ledger.notices == GathererNotices(old(ledger.notices), assignments, KindCount)
    {
      for i := 0 to KindCount
        invariant ledger.Valid()
        invariant ledger.gatherers == Pushed(old(ledger.gatherers), assignments, i)
        invariant ledger.notices == GathererNotices(old(ledger.notices), assignments, i)
      {
        PushKind(KindAt(i));
      }
    }

    /** One kind's turn of the push. */
    method PushKind(kind: ResourceType)
      requires ledger.Valid()
      modifies ledger`gatherers, ledger`notices
      ensures ledger.Valid()
      ensures ledger.gatherers == PushStep(old(ledger.gatherers), assignments, kind)
      ensures ledger.notices == old(ledger.notices) + PushNotice(assignments, kind)
    {
      if kind in assignments {
        ledger.SetGatherers(kind, assignments[kind]);
      }
    }

    /** Writes the efficiency into the ledger as the modifier of every kind but
        DungeonPoints. */
    method SyncEfficiencyToResourceManager()
      requires Valid() && ledger.Valid()
      requires forall k :: k != DungeonPoints ==> ledger.gatherers[k] == assignments[k]
      modifies ledger`modifiers
      ensures InSync() && ledger.Valid()
      ensures ledger.modifiers[DungeonPoints] == old(ledger.modifiers[DungeonPoints])
    {
      WriteModifiers(efficiency);
      ModifiedAgrees(assignments, efficiency, ledger.gatherers, old(ledger.modifiers));
    }

    /** The `foreach` of SyncEfficiencyToResourceManager: SetProductionModifier
        with v for every kind but DungeonPoints, in enumeration order. */
    method WriteModifiers(v: int)
      requires ledger.Valid() && v >= 0
      modifies ledger`modifiers
      ensures ledger.Valid()
      ensures ledger.modifiers == Modified(old(ledger.modifiers), v, KindCount)
    {
      for i := 0 to KindCount
        invariant ledger.Valid()
        invariant ledger.modifiers == Modified(old(ledger.modifiers), v, i)
      {
        var kind := KindAt(i);
        if kind != DungeonPoints {
          ledger.SetProductionModifier(kind, v);
        }
      }
    }
  }
}
