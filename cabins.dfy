/**
 * The capacity filter of the cabin list: the `capacity` search parameter picks one of
 * three size buckets, or all cabins; an empty list renders nothing.
 */
module Cabins {
  import opened Common
  import opened Seqs

  datatype Cabin = Cabin(id: nat, name: string, maxCapacity: int)

  predicate IsSmall(c: Cabin) {
    c.maxCapacity <= 2
  }

  predicate IsMedium(c: Cabin) {
    c.maxCapacity >= 3 && c.maxCapacity <= 7
  }

  predicate IsLarge(c: Cabin) {
    c.maxCapacity >= 8
  }

  predicate IsKnownFilter(filter: string) {
    filter == "small" || filter == "medium" || filter == "large" || filter == "all"
  }

  /**
   * `filteredCabins` after the chain of `if`s; `None` is the `undefined` an unknown filter
   * leaves. A bucket keeps each of its cabins as often as the list holds it, in order.
   */
  function FilterCabins(cabins: seq<Cabin>, filter: string): (r: Option<seq<Cabin>>)
    ensures r.Some? <==> IsKnownFilter(filter)
    ensures r.Some? ==> IsSubsequence(r.value, cabins)
    ensures filter == "all" ==> r == Some(cabins)
    ensures filter == "small" ==> forall c :: c in r.value <==> c in cabins && c.maxCapacity <= 2
    ensures filter == "medium" ==> forall c :: c in r.value <==> c in cabins && 3 <= c.maxCapacity <= 7
    ensures filter == "large" ==> forall c :: c in r.value <==> c in cabins && c.maxCapacity >= 8
    ensures r.Some? ==>
              forall c :: multiset(r.value)[c] ==
                            (if (filter == "small" && !IsSmall(c)) || (filter == "medium" && !IsMedium(c))
                                || (filter == "large" && !IsLarge(c)) then 0 else multiset(cabins)[c])
  {
    FilterIsSubsequence(cabins, IsSmall);
    FilterIsSubsequence(cabins, IsMedium);
    FilterIsSubsequence(cabins, IsLarge);
    SubsequenceReflexive(cabins);
    if filter == "small" then Some(Filter(cabins, IsSmall))
    else if filter == "medium" then Some(Filter(cabins, IsMedium))
    else if filter == "large" then Some(Filter(cabins, IsLarge))
    else if filter == "all" then Some(cabins)
    else None
  }

  datatype View = Nothing | Grid(cards: seq<Cabin>)

  /** What `CabinList` produces: a view, or the `TypeError` of calling `.map` on `undefined`. */
  datatype Render = Rendered(view: View) | TypeError

  /**
   * `CabinList({filter})`: the filter runs first, but an empty cabin list returns
   * `null` before the filtered list is used, so no filter value can make it fail.
   */
  function CabinList(cabins: seq<Cabin>, filter: string): (r: Render)
    ensures r == Rendered(Nothing) <==> |cabins| == 0
    ensures r == TypeError <==> |cabins| > 0 && !IsKnownFilter(filter)
    ensures r.Rendered? && r.view.Grid? ==> Some(r.view.cards) == FilterCabins(cabins, filter)
  {
    var filteredCabins := FilterCabins(cabins, filter);
    if |cabins| == 0 then Rendered(Nothing)
    else if filteredCabins.None? then TypeError
    else Rendered(Grid(filteredCabins.value))
  }

  /** Every capacity falls in exactly one bucket. */
  lemma BucketsPartitionCapacities(c: Cabin)
    ensures IsSmall(c) || IsMedium(c) || IsLarge(c)
    ensures !(IsSmall(c) && IsMedium(c)) && !(IsSmall(c) && IsLarge(c)) && !(IsMedium(c) && IsLarge(c))
  {
  }

  /** The three buckets together hold each cabin of the list exactly as often as the list does. */
  lemma BucketsPartitionCabins(cabins: seq<Cabin>)
    ensures multiset(Filter(cabins, IsSmall)) + multiset(Filter(cabins, IsMedium)) + multiset(Filter(cabins, IsLarge))
            == multiset(cabins)
    ensures |Filter(cabins, IsSmall)| + |Filter(cabins, IsMedium)| + |Filter(cabins, IsLarge)| == |cabins|
  {
  }

}
