/** A requirement for an amount of one resource kind. */
module Requirements {
  import opened ResourceTypes

  /** The serialized record: both fields are plain data, so a designer can
      store any amount in it; only the constructor clamps. */
  datatype ResourceRequirement = ResourceRequirement(resourceType: ResourceType, amount: int)

  /** The constructor: the kind as given, the amount floored at 0. */
  function NewRequirement(resourceType: ResourceType, amount: int): (r: ResourceRequirement)
    ensures r.resourceType == resourceType
    ensures r.amount >= 0
    ensures amount >= 0 ==> r.amount == amount
    ensures amount < 0 ==> r.amount == 0
  {
    ResourceRequirement(resourceType, if amount < 0 then 0 else amount)
  }
}
