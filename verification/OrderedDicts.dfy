/** Insertion-ordered dictionaries, first key oldest: what Python's `OrderedDict` keeps. */
module OrderedDicts {
  import opened Sequences

  datatype Dict<K(==,!new), V> = Dict(order: seq<K>, items: map<K, V>) {
    ghost predicate Valid() {
      Distinct(order) && ToSet(order) == items.Keys
    }

    /** `d[k] = v`: a new key goes last, an existing one keeps its place. */
    function Updated(k: K, v: V): (d: Dict<K, V>)
      requires Valid()
      ensures d.Valid() && d.items == items[k := v]
    {
      if k in items then Dict(order, items[k := v])
      else Appended(order, k); Dict(order + [k], items[k := v])
    }

    /** `d.move_to_end(k)`. */
    function Touched(k: K): (d: Dict<K, V>)
      requires Valid() && k in items
      ensures d.Valid() && d.items == items
    {
      WithoutIsDistinct(order, {k});
      Appended(Without(order, {k}), k);
      Dict(Without(order, {k}) + [k], items)
    }

    /** `d[k] = v` followed by `d.move_to_end(k)`. */
    function Stored(k: K, v: V): (d: Dict<K, V>)
      requires Valid()
      ensures d.Valid() && d.items == items[k := v]
    {
      if k !in items then Updated(k, v)
      else Updated(k, v).Touched(k)
    }

    /** `d.pop(k, None)`. */
    function Removed(k: K): (d: Dict<K, V>)
      requires Valid()
      ensures d.Valid() && d.items == items - {k}
    {
      WithoutIsDistinct(order, {k});
      Dict(Without(order, {k}), items - {k})
    }

    /** `d.popitem(last=False)`. */
    function Popped(): (d: Dict<K, V>)
      requires Valid() && order != []
      ensures d.Valid() && d.items == items - {order[0]} && d.order == order[1..]
    {
      WithoutFirst(order);
      Removed(order[0])
    }

    /** Pops from the front until at most `max` keys are left. */
    function Capped(max: nat): (d: Dict<K, V>)
      requires Valid()
      ensures d.Valid() && |d.order| <= max
      decreases |order|
    {
      if |order| <= max then this else Popped().Capped(max)
    }
  }

  /** What is left is the newest `max` keys with what they held. */
  lemma {:induction false} CappedMeaning<K(!new), V>(d: Dict<K, V>, max: nat)
    requires d.Valid()
    ensures d.Capped(max).order == if |d.order| <= max then d.order else d.order[|d.order| - max..]
    ensures forall k :: k in d.Capped(max).items ==> k in d.items && d.Capped(max).items[k] == d.items[k]
    decreases |d.order|
  {
    hide Dict.Valid, Dict.Popped, Dict.Capped;
    CapStep(d, max);
    if |d.order| > max {
      CappedMeaning(d.Popped(), max);
      DropOneMore(d.order, |d.order| - max);
    }
  }

  lemma DropOneMore<K>(s: seq<K>, n: nat)
    requires 0 < n <= |s|
    ensures s[1..][n - 1..] == s[n..]
  {}

  function Empty<K(==,!new), V>(): (d: Dict<K, V>)
    ensures d.Valid()
  {
    Dict([], map[])
  }

  /** A stored key is the newest one, and the others keep their order. */
  lemma StoredLast<K(!new), V>(d: Dict<K, V>, k: K, v: V)
    requires d.Valid()
    ensures d.Stored(k, v).order == Without(d.order, {k}) + [k]
  {
    if k !in d.items {
      assert k !in ToSet(d.order);
      WithoutNothing(d.order, {k});
    }
  }

  /** One round of the eviction loop. */
  lemma CapStep<K(!new), V>(d: Dict<K, V>, max: nat)
    requires d.Valid()
    ensures |d.order| > max ==> d.Capped(max) == d.Popped().Capped(max)
    ensures |d.order| <= max ==> d.Capped(max) == d
  {}

  lemma Appended<K(!new)>(order: seq<K>, k: K)
    requires Distinct(order) && k !in order
    ensures Distinct(order + [k]) && ToSet(order + [k]) == ToSet(order) + {k}
  {
  }

  /** A dictionary has as many keys as its order lists. */
  lemma {:induction false} DistinctSize<K(!new)>(order: seq<K>)
    requires Distinct(order)
    ensures |ToSet(order)| == |order|
  {
    if order != [] {
      DistinctSize(order[1..]);
      DistinctTail(order[0], order[1..]);
      assert [order[0]] + order[1..] == order;
      assert ToSet(order) == ToSet(order[1..]) + {order[0]};
    }
  }
}
