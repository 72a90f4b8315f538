/** A price tag: a list of requirements turned into a map of positive costs,
    checked and paid through the ledger's all-or-nothing path. */
module Costs {
  import opened ResourceTypes
  import opened Requirements
  import Ledger

  /** The cost map Awake builds from a requirement list: requirements with a
      positive amount only, a later one for the same kind replacing an earlier one. */
  function CostMap(reqs: seq<ResourceRequirement>): map<ResourceType, int>
  {
    if reqs == [] then map[]
    else
      var m := CostMap(reqs[..|reqs| - 1]);
      var r := reqs[|reqs| - 1];
      if r.amount > 0 then m[r.resourceType := r.amount] else m
  }

  /** Every cost in the map is positive. */
  lemma {:induction false} CostMapPositive(reqs: seq<ResourceRequirement>)
    ensures forall k :: k in CostMap(reqs) ==> CostMap(reqs)[k] > 0
  {
    if reqs != [] {
      CostMapPositive(reqs[..|reqs| - 1]);
    }
  }

  /** A kind has a cost exactly when some requirement for it has a positive amount. */
  lemma {:induction false} CostMapKeys(reqs: seq<ResourceRequirement>, k: ResourceType)
    ensures k in CostMap(reqs) <==> exists i :: 0 <= i < |reqs| && reqs[i].resourceType == k && reqs[i].amount > 0
  {
    if reqs != [] {
      var init := reqs[..|reqs| - 1];
      CostMapKeys(init, k);
      if k in CostMap(reqs) && k !in CostMap(init) {
        assert reqs[|reqs| - 1].resourceType == k && reqs[|reqs| - 1].amount > 0;
      }
      if exists i :: 0 <= i < |reqs| && reqs[i].resourceType == k && reqs[i].amount > 0 {
        var i :| 0 <= i < |reqs| && reqs[i].resourceType == k && reqs[i].amount > 0;
        if i < |reqs| - 1 {
          assert init[i] == reqs[i];
        }
      }
    }
  }

  /** The cost of a kind is the amount of the last requirement for it with a
      positive amount. */
  lemma {:induction false} CostMapLastWins(reqs: seq<ResourceRequirement>, j: nat)
    requires j < |reqs| && reqs[j].amount > 0
    requires forall i :: j < i < |reqs| && reqs[i].resourceType == reqs[j].resourceType ==> reqs[i].amount <= 0
    ensures reqs[j].resourceType in CostMap(reqs)
    ensures CostMap(reqs)[reqs[j].resourceType] == reqs[j].amount
  {
    var init := reqs[..|reqs| - 1];
    if j < |reqs| - 1 {
      assert init[j] == reqs[j];
      forall i | j < i < |init| && init[i].resourceType == init[j].resourceType
        ensures init[i].amount <= 0
      {
        assert init[i] == reqs[i];
      }
      CostMapLastWins(init, j);
    }
  }

  class ResourceCost {
    const requirements: seq<ResourceRequirement>
    var costs: map<ResourceType, int>
    const ledger: Ledger.ResourceManager

    /** The cost map is the one built from the requirement list. */
    ghost predicate Valid()
      reads this`costs
    {
      costs == CostMap(requirements)
    }

    /** Awake: the requirement list folded, entry by entry, into the cost map. */
    constructor (requirements: seq<ResourceRequirement>, ledger: Ledger.ResourceManager)
      ensures Valid()
      ensures this.requirements == requirements && this.ledger == ledger
    {
      this.requirements := requirements;
      this.ledger := ledger;
      var m: map<ResourceType, int> := map[];
      for i := 0 to |requirements|
        invariant m == CostMap(requirements[..i])
      {
        assert requirements[..i + 1][..i] == requirements[..i];
        var requirement := requirements[i];
        if requirement.amount > 0 {
          m := m[requirement.resourceType := requirement.amount];
        }
      }
      assert requirements[..|requirements|] == requirements;
      costs := m;
    }

    /** The cost map, every entry positive. */
    function GetRequirements(): (r: map<ResourceType, int>)
      requires Valid()
      reads this`costs
      ensures r == CostMap(requirements)
      ensures forall k :: k in r ==> r[k] > 0
    {
      CostMapPositive(requirements);
      costs
    }

    /** True when the ledger covers every cost. */
    predicate CanAfford()
      requires Valid() && ledger.Valid()
      reads this`costs, ledger`resources, ledger`gatherers, ledger`capacity, ledger`modifiers
      ensures CanAfford() <==> forall k :: k in CostMap(requirements) ==> ledger.resources[k] >= CostMap(requirements)[k]
    {
      ledger.HasEnoughResources(costs)
    }

    /** Pays the costs through the ledger, all or nothing. */
    method TrySpendResources() returns (ok: bool)
      requires Valid() && ledger.Valid()
      modifies ledger`resources, ledger`notices
      ensures ledger.Valid()
      ensures ok == old(CanAfford())
      ensures forall k :: ledger.resources[k] == if ok && k in costs then old(ledger.resources[k]) - costs[k]
                                                 else old(ledger.resources[k])
      ensures ledger.notices
              == if ok then Ledger.SpendNotices(old(ledger.notices), old(ledger.resources), costs, KindCount)
                            + [Ledger.ResourcesUpdated(ledger.resources)]
                 else old(ledger.notices)
    {
      CostMapPositive(requirements);
      ok := ledger.SpendResources(costs);
    }

    /** The cost of a kind, 0 when it has none. */
    function GetCost(kind: ResourceType): (r: int)
      requires Valid()
      reads this`costs
      ensures r >= 0
      ensures r > 0 <==> kind in CostMap(requirements)
      ensures kind in CostMap(requirements) ==> r == CostMap(requirements)[kind]
    {
      CostMapPositive(requirements);
      if kind in costs then costs[kind] else 0
    }
  }
}
