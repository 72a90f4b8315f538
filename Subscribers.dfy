/** What the two event buses share: handlers as abstract ids (or a null
    entry), the outcome of invoking one, list removal by first occurrence, and
    dispatch over a list in registration order. */
module Subscribers {

  /** A registered delegate: a null entry, or a handler known by its id. Two
      entries are equal exactly when the delegates are. */
  datatype Handler = Null | Handler(id: nat)

  /** The outcome of invoking one handler: it returned, or it threw and the
      exception was caught by the bus. */
  datatype Delivery = Delivered(id: nat) | Failed(id: nat)

  /** Invoking one entry: a null entry is skipped; a handler whose id is among
      faults throws. */
  function Deliver(h: Handler, faults: set<nat>): (d: seq<Delivery>)
    ensures h.Null? <==> d == []
    ensures h.Handler? ==> |d| == 1 && d[0].id == h.id && (d[0].Failed? <==> h.id in faults)
  {
    match h
    case Null => []
    case Handler(id) => if id in faults then [Failed(id)] else [Delivered(id)]
  }

  /** The outcomes of invoking every entry of hs in order, a failure not
      stopping the ones after it. */
  function Dispatched(hs: seq<Handler>, faults: set<nat>): seq<Delivery>
  {
    if |hs| == 0 then [] else Dispatched(hs[..|hs| - 1], faults) + Deliver(hs[|hs| - 1], faults)
  }

  /** The ids of the non-null entries, in order. */
  function Ids(hs: seq<Handler>): seq<nat>
  {
    if |hs| == 0 then [] else Ids(hs[..|hs| - 1]) + if hs[|hs| - 1].Handler? then [hs[|hs| - 1].id] else []
  }

  /** The ids of a sequence of outcomes, in order. */
  function DeliveryIds(ds: seq<Delivery>): (r: seq<nat>)
    ensures |r| == |ds|
    ensures forall i :: 0 <= i < |ds| ==> r[i] == ds[i].id
  {
    if |ds| == 0 then [] else DeliveryIds(ds[..|ds| - 1]) + [ds[|ds| - 1].id]
  }

  lemma {:induction false} DeliveryIdsAppend(a: seq<Delivery>, b: seq<Delivery>)
    ensures DeliveryIds(a + b) == DeliveryIds(a) + DeliveryIds(b)
  {
  }

  /** Every non-null handler is invoked exactly once, in registration order,
      whichever of them throw: a caught failure does not stop the others. */
  lemma {:induction false} DispatchReachesAll(hs: seq<Handler>, faults: set<nat>)
    ensures DeliveryIds(Dispatched(hs, faults)) == Ids(hs)
  {
    if |hs| > 0 {
      DispatchReachesAll(hs[..|hs| - 1], faults);
      DeliveryIdsAppend(Dispatched(hs[..|hs| - 1], faults), Deliver(hs[|hs| - 1], faults));
    }
  }

  /** An outcome is a failure exactly when its handler is one that throws. */
  lemma {:induction false} DispatchFailsExactly(hs: seq<Handler>, faults: set<nat>)
    ensures forall d :: d in Dispatched(hs, faults) ==> (d.Failed? <==> d.id in faults)
  {
    if |hs| > 0 {
      DispatchFailsExactly(hs[..|hs| - 1], faults);
    }
  }

  /** Dispatching one more entry adds exactly its outcome. */
  lemma DispatchedSnoc(hs: seq<Handler>, i: nat, faults: set<nat>)
    requires i < |hs|
    ensures Dispatched(hs[..i + 1], faults) == Dispatched(hs[..i], faults) + Deliver(hs[i], faults)
  {
    assert hs[..i + 1][..i] == hs[..i];
  }

  /** The position of the first occurrence of x in s, -1 when there is none. */
  function IndexOf<T(==)>(s: seq<T>, x: T): (i: int)
    ensures -1 <= i < |s|
    ensures i < 0 <==> x !in s
    ensures 0 <= i ==> s[i] == x && x !in s[..i]
  {
    if |s| == 0 then -1
    else if s[0] == x then 0
    else
      var j := IndexOf(s[1..], x);
      if j < 0 then -1 else j + 1
  }

  /** List.Remove: drops the first occurrence of x, if any. */
  function RemoveFirst<T(==)>(s: seq<T>, x: T): (r: seq<T>)
    ensures x !in s ==> r == s
    ensures x in s ==> |r| == |s| - 1
    ensures x in s ==> var i := IndexOf(s, x); r == s[..i] + s[i + 1..]
  {
    var i := IndexOf(s, x);
    if i < 0 then s else s[..i] + s[i + 1..]
  }

  /** Removing one occurrence takes exactly one copy of x out of the bag of
      entries and keeps the order of the rest. */
  lemma RemoveFirstMultiset<T>(s: seq<T>, x: T)
    ensures multiset(RemoveFirst(s, x)) == multiset(s) - multiset{x}
  {
    if x in s {
      var i := IndexOf(s, x);
      SplitAt(s, i);
    }
  }

  /** A list is its part before i, the entry at i and the part after. */
  lemma SplitAt<T>(s: seq<T>, i: nat)
    requires i < |s|
    ensures multiset(s) == multiset(s[..i] + s[i + 1..]) + multiset{s[i]}
  {
    assert s == s[..i] + [s[i]] + s[i + 1..];
  }

  /** Removing a value just appended to a list that did not hold it gives the
      list back. */
  lemma {:induction false} RemoveAppended<T>(s: seq<T>, x: T)
    requires x !in s
    ensures RemoveFirst(s + [x], x) == s
  {
    assert forall j :: 0 <= j < |s| ==> (s + [x])[j] == s[j];
    assert IndexOf(s + [x], x) == |s|;
    assert (s + [x])[..|s|] == s;
  }
}
