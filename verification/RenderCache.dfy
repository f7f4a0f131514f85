/**
 The warm render cache: what each operation means on one map of entries and one fence of cohort
 epochs. `RenderCacheStore` is the class that keeps it with four secondary indexes.
 */
module RenderCache {
  import opened Sequences
  import opened OrderedDicts
  import opened Namespaces

  datatype Slot<V> = Slot(value: V, computedAt: int)

  /** `entries` and `epochs` run from least to most recently touched. */
  datatype Cache<V> = Cache(entries: Dict<string, Slot<V>>, epochs: Dict<string, nat>, floor: nat) {
    ghost predicate Valid() {
      entries.Valid() && epochs.Valid()
    }

    function EpochOf(cohort: string): nat {
      Max(if cohort in epochs.items then epochs.items[cohort] else floor, floor)
    }

    function Keys(): set<string> {
      entries.items.Keys
    }

    function Members(cohort: string): set<string> {
      set k | k in entries.items && CohortOf(k) == cohort
    }

    function Holders(session: string): set<string> {
      set k | k in entries.items && SessionOf(k) == session
    }
  }

  function New<V>(): Cache<V> {
    Cache(Empty(), Empty(), 0)
  }

  // ---------------------------------------------------------------- the fence

  /** Forgets the oldest cohort counters, folding what they said into the floor. */
  function Pruned<V>(c: Cache<V>, max: nat): (r: Cache<V>)
    requires c.Valid()
    ensures r.Valid() && r.entries == c.entries && |r.epochs.order| <= max
    decreases |c.epochs.order|
  {
    if |c.epochs.order| <= max then c
    else
      var oldest := c.epochs.order[0];
      assert oldest in ToSet(c.epochs.order);
      Pruned(Cache(c.entries, c.epochs.Popped(), Max(c.floor, c.epochs.items[oldest])), max)
  }

  function Bump<V>(c: Cache<V>, cohort: string, max: nat): (r: Cache<V>)
    requires c.Valid()
    ensures r.Valid() && r.entries == c.entries
  {
    Pruned(c.(epochs := c.epochs.Stored(cohort, c.EpochOf(cohort) + 1)), max)
  }

  lemma {:induction false} PruningKeepsEpochs<V>(c: Cache<V>, max: nat, cohort: string)
    requires c.Valid()
    ensures Pruned(c, max).EpochOf(cohort) >= c.EpochOf(cohort)
    decreases |c.epochs.order|
  {
    if |c.epochs.order| > max {
      var oldest := c.epochs.order[0];
      assert oldest in ToSet(c.epochs.order);
      PruningKeepsEpochs(Cache(c.entries, c.epochs.Popped(), Max(c.floor, c.epochs.items[oldest])), max, cohort);
    }
  }

  /** One round of the pruning loop. */
  lemma PruneOnce<V>(c: Cache<V>, max: nat)
    requires c.Valid() && |c.epochs.order| > max
    ensures c.epochs.order[0] in c.epochs.items
    ensures var oldest := c.epochs.order[0];
            Pruned(c, max) == Pruned(Cache(c.entries, c.epochs.Popped(), Max(c.floor, c.epochs.items[oldest])), max)
  {
    assert c.epochs.order[0] in ToSet(c.epochs.order);
  }

  /** The fence: a drop raises its own cohort's epoch and lowers nobody's, however many counters
      pruning forgets on the way. */
  lemma BumpRaisesOnlyUpward<V>(c: Cache<V>, dropped: string, max: nat, cohort: string)
    requires c.Valid()
    ensures Bump(c, dropped, max).EpochOf(cohort) >= c.EpochOf(cohort)
    ensures Bump(c, dropped, max).EpochOf(dropped) > c.EpochOf(dropped)
  {
    var raised := c.(epochs := c.epochs.Stored(dropped, c.EpochOf(dropped) + 1));
    PruningKeepsEpochs(raised, max, cohort);
    PruningKeepsEpochs(raised, max, dropped);
  }

  // ---------------------------------------------------------------- drops

  function Dropped<V>(c: Cache<V>, gone: set<string>): (r: Cache<V>)
    requires c.Valid()
    ensures r.Valid() && r.epochs == c.epochs && r.floor == c.floor
  {
    WithoutIsDistinct(c.entries.order, gone);
    c.(entries := Dict(Without(c.entries.order, gone), c.entries.items - gone))
  }

  lemma DroppedTwice<V>(c: Cache<V>, a: set<string>, b: set<string>)
    requires c.Valid()
    ensures Dropped(Dropped(c, a), b) == Dropped(c, a + b)
  {
    WithoutTwice(c.entries.order, a, b);
    assert (c.entries.items - a) - b == c.entries.items - (a + b);
  }

  /** Drops one key. The epoch moves whether or not the key was held. */
  function Pop<V>(c: Cache<V>, key: string, max: nat): (r: Cache<V>)
    requires c.Valid()
    ensures r.Valid()
  {
    Dropped(Bump(c, CohortOf(key), max), {key})
  }

  /** Drops every key of one cohort. */
  function PopCohort<V>(c: Cache<V>, cohort: string, max: nat): (r: Cache<V>)
    requires c.Valid()
    ensures r.Valid()
  {
    Dropped(Bump(c, cohort, max), c.Members(cohort))
  }

  // ---------------------------------------------------------------- writes and reads

  function Put<V>(c: Cache<V>, key: string, slot: Slot<V>, epoch: nat, max: nat): (r: (Cache<V>, bool))
    requires c.Valid()
    ensures r.0.Valid()
  {
    if c.EpochOf(CohortOf(key)) != epoch then (c, false)
    else (c.(entries := c.entries.Stored(key, slot).Capped(max)), true)
  }

  ghost function Only(s: set<string>): (x: string)
    requires |s| == 1
    ensures s == {x}
  {
    var x :| x in s;
    SingletonOf(s, x);
    x
  }

  lemma SingletonOf(s: set<string>, x: string)
    requires |s| == 1 && x in s
    ensures s == {x}
  {
    assert |s - {x}| == 0;
  }

  /** A full key resolves to itself; a bare session id only when exactly one entry has it. */
  ghost function Resolve<V>(c: Cache<V>, key: string): (r: Option<string>)
    ensures r.Some? ==> r.value in c.Keys()
  {
    if key in c.Keys() then Some(key)
    else if |c.Holders(key)| == 1 then
      assert Only(c.Holders(key)) in c.Holders(key);
      Some(Only(c.Holders(key)))
    else None
  }

  /** The warm read: it retires an entry past the hard limit and touches the entry it serves. */
  ghost function Entry<V>(c: Cache<V>, key: string, now: int, ttl: nat): (r: (Cache<V>, Option<Slot<V>>))
    requires c.Valid()
    ensures r.0.Valid() && r.0.epochs == c.epochs && r.0.floor == c.floor
  {
    var found := Resolve(c, key);
    if found.None? then (c, None)
    else
      var slot := c.entries.items[found.value];
      if now - slot.computedAt > ttl then (Dropped(c, {found.value}), None)
      else (c.(entries := c.entries.Touched(found.value)), Some(slot))
  }

  // ---------------------------------------------------------------- what the operations mean

  /** A cohort drop removes exactly that cohort's entries and keeps the others in order. */
  lemma CohortDropIsExact<V>(c: Cache<V>, cohort: string, max: nat)
    requires c.Valid()
    ensures var r := PopCohort(c, cohort, max);
            && (forall k :: k in r.Keys() <==> k in c.Keys() && CohortOf(k) != cohort)
            && (forall k :: k in r.Keys() ==> r.entries.items[k] == c.entries.items[k])
            && Subsequence(r.entries.order, c.entries.order)
            && r.EpochOf(cohort) > c.EpochOf(cohort)
  {
    BumpRaisesOnlyUpward(c, cohort, max, cohort);
    WithoutKeepsOrder(c.entries.order, c.Members(cohort));
  }

  /** A write is refused exactly when the cohort moved. An accepted one keeps the new entry and the
      most recently touched others, up to the bound. */
  lemma PutMeaning<V>(c: Cache<V>, key: string, slot: Slot<V>, epoch: nat, max: nat)
    requires c.Valid() && max >= 1
    ensures var (r, stored) := Put(c, key, slot, epoch, max);
            && (stored <==> c.EpochOf(CohortOf(key)) == epoch)
            && (!stored ==> r == c)
            && (stored ==> key in r.Keys() && r.entries.items[key] == slot && |r.entries.order| <= max)
            && (stored ==> forall k :: k in r.Keys() && k != key ==>
                k in c.Keys() && r.entries.items[k] == c.entries.items[k])
            && (stored && |c.entries.order| < max ==> r.Keys() == c.Keys() + {key})
            && (stored && key in c.Keys() && |c.entries.order| <= max ==> r.Keys() == c.Keys())
  {
    hide Distinct, CohortOf, Cache.EpochOf, Dict.Stored, Dict.Capped;
    var wide := c.entries.Stored(key, slot);
    StoredSize(c.entries, key, slot);
    NewestKept(wide, key, max);
    CappedMeaning(wide, max);
  }

  /** What an accepted write keeps are the `max` newest keys, its own the newest of all. */
  lemma PutKeepsTheNewest<V>(c: Cache<V>, key: string, slot: Slot<V>, epoch: nat, max: nat)
    requires c.Valid() && c.EpochOf(CohortOf(key)) == epoch
    ensures var touched := Without(c.entries.order, {key}) + [key];
            Put(c, key, slot, epoch, max).0.entries.order
            == if |touched| <= max then touched else touched[|touched| - max..]
  {
    hide Distinct, CohortOf, Cache.EpochOf, Dict.Stored, Dict.Capped;
    CappedMeaning(c.entries.Stored(key, slot), max);
    StoredLast(c.entries, key, slot);
  }

  /** Storing adds the key at the end and grows the dictionary only when the key is new. */
  lemma StoredSize<V>(d: Dict<string, V>, key: string, v: V)
    requires d.Valid()
    ensures var wide := d.Stored(key, v);
            && wide.order != [] && wide.order[|wide.order| - 1] == key
            && |wide.order| == |d.order| + (if key in d.items then 0 else 1)
  {
    StoredLast(d, key, v);
    DistinctSize(d.order);
    DistinctSize(d.Stored(key, v).order);
    if key in d.items { assert d.items[key := v].Keys == d.items.Keys; }
    else { assert d.items[key := v].Keys == d.items.Keys + {key}; }
    hide Dict.Stored, Distinct;
  }

  lemma NewestKept<V>(d: Dict<string, V>, key: string, max: nat)
    requires d.Valid() && d.order != [] && d.order[|d.order| - 1] == key && max >= 1
    ensures key in d.Capped(max).items
    ensures d.Capped(max).order != [] && d.Capped(max).order[|d.Capped(max).order| - 1] == key
    ensures |d.order| <= max ==> d.Capped(max) == d
  {
    hide Distinct, Dict.Capped, Dict.Valid;
    CapStep(d, max);
    CappedMeaning(d, max);
    LastStays(d.order, max);
    ListedIsHeld(d.Capped(max), key);
  }

  lemma LastStays(s: seq<string>, max: nat)
    requires s != [] && max >= 1
    ensures var kept := if |s| <= max then s else s[|s| - max..];
            kept != [] && kept[|kept| - 1] == s[|s| - 1]
  {}

  lemma ListedIsHeld<V>(d: Dict<string, V>, key: string)
    requires d.Valid()
    ensures key in d.order ==> key in d.items
  {
    hide Distinct;
    assert key in d.order ==> key in ToSet(d.order);
  }

  /** The entry a key names: its own, or for a bare session the only one that has it. */
  ghost predicate Names<V>(c: Cache<V>, key: string, k: string) {
    k in c.Keys() && (k == key || (key !in c.Keys() && c.Holders(key) == {k}))
  }

  /** The read serves the entry the key names, as it was stored, exactly when that is young enough, and
      makes it the newest; and it never changes what any other key holds. */
  lemma EntryMeaning<V>(c: Cache<V>, key: string, now: int, ttl: nat)
    requires c.Valid()
    ensures var (r, found) := Entry(c, key, now, ttl);
            && (found.Some? <==> exists k :: Names(c, key, k) && now - c.entries.items[k].computedAt <= ttl)
            && (forall k :: Names(c, key, k) && found.Some? ==>
                  found.value == c.entries.items[k] && r.entries.order == Without(c.entries.order, {k}) + [k])
            && (found.Some? ==> r.Keys() == c.Keys() && r.entries.items == c.entries.items)
            && (forall k :: k in c.Keys() && k !in r.Keys() ==>
                  Names(c, key, k) && now - c.entries.items[k].computedAt > ttl)
            && (forall k :: Names(c, key, k) && now - c.entries.items[k].computedAt > ttl ==> k !in r.Keys())
            && (forall k :: k in r.Keys() ==> k in c.Keys() && r.entries.items[k] == c.entries.items[k])
  {
    hide CohortOf, SessionOf, Distinct;
    ResolveMeaning(c, key);
  }

  lemma ResolveMeaning<V>(c: Cache<V>, key: string)
    ensures forall k :: Names(c, key, k) <==> Resolve(c, key) == Some(k)
  {
    hide CohortOf, SessionOf;
    if key in c.Keys() {
    } else if |c.Holders(key)| == 1 {
      var k := Only(c.Holders(key));
      assert k in c.Holders(key);
    } else {
      forall k
        ensures c.Holders(key) != {k}
      {
        assert |{k}| == 1;
      }
    }
  }
}
