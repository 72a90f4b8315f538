/** The resource kinds of the dungeon economy. */
module ResourceTypes {

  /** The six kinds, in declaration order. DungeonPoints is the currency: it has
      no gatherers and accrues only once per turn. */
  datatype ResourceType = DungeonPoints | Wood | Stone | Metal | Food | Knowledge

  /** Every kind, in the order the enumeration lists them. */
  const AllKinds: seq<ResourceType> := [DungeonPoints, Wood, Stone, Metal, Food, Knowledge]

  /** The 32-bit `int.MaxValue` that stands for "unlimited" capacity. */
  const Unlimited: int := 0x7fff_ffff

  /** The number of kinds. */
  const KindCount: nat := 6

  /** The underlying enumeration value of a kind: its position in AllKinds. */
  function Ordinal(k: ResourceType): (i: nat)
    ensures i < KindCount
  {
    match k
    case DungeonPoints => 0
    case Wood => 1
    case Stone => 2
    case Metal => 3
    case Food => 4
    case Knowledge => 5
  }

  /** The kind whose enumeration value is i; `foreach` over the enumeration
      visits KindAt(0), ..., KindAt(KindCount - 1). */
  function KindAt(i: nat): (k: ResourceType)
    requires i < KindCount
    ensures Ordinal(k) == i
  {
    if i == 0 then DungeonPoints
    else if i == 1 then Wood
    else if i == 2 then Stone
    else if i == 3 then Metal
    else if i == 4 then Food
    else Knowledge
  }

  /** Every kind is in AllKinds. */
  lemma InAllKinds(k: ResourceType)
    ensures k in AllKinds
  {
    assert AllKinds[Ordinal(k)] == k by {
      match k
      case DungeonPoints =>
      case Wood =>
      case Stone =>
      case Metal =>
      case Food =>
      case Knowledge =>
    }
  }
}
