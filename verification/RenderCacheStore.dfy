/** The warm render cache as the program keeps it, index by index. */
module RenderCacheStore {
  import opened Sequences
  import opened OrderedDicts
  import opened Namespaces
  import opened RenderCache

  // ---------------------------------------------------------------- one name-to-keys index

  function Owned(of: map<string, string>, name: string): set<string> {
    set k | k in of && of[k] == name
  }

  /** `index` lists under each name exactly the keys `of` gives that name, and no name without keys. */
  ghost predicate Indexed(index: map<string, set<string>>, of: map<string, string>) {
    && (forall n :: n in index ==> index[n] == Owned(of, n) && index[n] != {})
    && (forall k :: k in of ==> of[k] in index)
  }

  function With(index: map<string, set<string>>, name: string, key: string): map<string, set<string>> {
    index[name := (if name in index then index[name] else {}) + {key}]
  }

  function Sans(index: map<string, set<string>>, name: string, key: string): map<string, set<string>> {
    if name !in index then index
    else if index[name] - {key} == {} then index - {name}
    else index[name := index[name] - {key}]
  }

  lemma IndexedWith(index: map<string, set<string>>, of: map<string, string>, name: string, key: string)
    requires Indexed(index, of) && (key in of ==> of[key] == name)
    ensures Indexed(With(index, name, key), of[key := name])
  {
    var after, owner := With(index, name, key), of[key := name];
    forall n | n in after
      ensures after[n] == Owned(owner, n) && after[n] != {}
    {
      if n == name {
        NobodyOwned(index, of, name);
        assert Owned(owner, name) == Owned(of, name) + {key};
      } else {
        assert Owned(owner, n) == Owned(of, n);
      }
    }
  }

  lemma IndexedSans(index: map<string, set<string>>, of: map<string, string>, key: string)
    requires Indexed(index, of) && key in of
    ensures Indexed(Sans(index, of[key], key), of - {key})
  {
    var name := of[key];
    var after, owner := Sans(index, name, key), of - {key};
    assert Owned(owner, name) == Owned(of, name) - {key};
    forall n | n in after
      ensures after[n] == Owned(owner, n) && after[n] != {}
    {
      if n != name { assert Owned(owner, n) == Owned(of, n); }
    }
    forall k | k in owner
      ensures owner[k] in after
    {
      if owner[k] == name { assert k in index[name] - {key}; }
    }
  }

  /** The two key maps say of every entry's key what the key itself says. */
  ghost predicate Keyed(keys: set<string>, session: map<string, string>, user: map<string, string>) {
    && session.Keys == keys && user.Keys == keys
    && (forall k :: k in keys ==> session[k] == SessionOf(k) && user[k] == CohortOf(k))
  }

  /** The four index tables say what filtering the entries would say. */
  ghost predicate Sound(keys: set<string>, bySession: map<string, set<string>>, byUser: map<string, set<string>>,
                        keySession: map<string, string>, keyUser: map<string, string>)
  {
    Keyed(keys, keySession, keyUser) && Indexed(bySession, keySession) && Indexed(byUser, keyUser)
  }

  lemma SoundWithout(keys: set<string>, bySession: map<string, set<string>>, byUser: map<string, set<string>>,
                     keySession: map<string, string>, keyUser: map<string, string>, key: string)
    requires Sound(keys, bySession, byUser, keySession, keyUser) && key in keys
    ensures key in keySession && key in keyUser
    ensures Sound(keys - {key}, Sans(bySession, keySession[key], key), Sans(byUser, keyUser[key], key),
                  keySession - {key}, keyUser - {key})
  {
    hide Indexed, Sans, CohortOf, SessionOf;
    IndexedSans(bySession, keySession, key);
    IndexedSans(byUser, keyUser, key);
  }

  lemma KeysAreIndexed(keys: set<string>, bySession: map<string, set<string>>, byUser: map<string, set<string>>,
                       keySession: map<string, string>, keyUser: map<string, string>)
    requires Sound(keys, bySession, byUser, keySession, keyUser)
    ensures keySession.Keys == keys && keyUser.Keys == keys
  {
    hide Indexed, CohortOf, SessionOf;
  }

  lemma SoundWith(keys: set<string>, bySession: map<string, set<string>>, byUser: map<string, set<string>>,
                  keySession: map<string, string>, keyUser: map<string, string>, ns: Namespace)
    requires Sound(keys, bySession, byUser, keySession, keyUser)
    ensures var key := ToPrefix(ns);
            Sound(keys + {key}, With(bySession, ns.session, key), With(byUser, UserPrefix(ns), key),
                  keySession[key := ns.session], keyUser[key := UserPrefix(ns)])
  {
    PrefixParts(ns);
    hide ToPrefix, UserPrefix, CohortOf, SessionOf, Indexed, With;
    IndexedWith(bySession, keySession, ns.session, ToPrefix(ns));
    IndexedWith(byUser, keyUser, UserPrefix(ns), ToPrefix(ns));
  }

  lemma SoundStored<V>(d: Dict<string, V>, bySession: map<string, set<string>>, byUser: map<string, set<string>>,
                       keySession: map<string, string>, keyUser: map<string, string>, ns: Namespace, v: V)
    requires d.Valid() && Sound(d.items.Keys, bySession, byUser, keySession, keyUser)
    ensures var key := ToPrefix(ns);
            Sound(d.Stored(key, v).items.Keys, With(bySession, ns.session, key), With(byUser, UserPrefix(ns), key),
                  keySession[key := ns.session], keyUser[key := UserPrefix(ns)])
  {
    hide Sound, With, ToPrefix, UserPrefix, Dict.Valid;
    SoundWith(d.items.Keys, bySession, byUser, keySession, keyUser, ns);
    assert d.Stored(ToPrefix(ns), v).items.Keys == d.items.Keys + {ToPrefix(ns)};
  }

  /** The indexes answer what a scan of the entries would. */
  lemma IndexesAgree<V>(c: Cache<V>, bySession: map<string, set<string>>, byUser: map<string, set<string>>,
                        keySession: map<string, string>, keyUser: map<string, string>, name: string)
    requires Sound(c.Keys(), bySession, byUser, keySession, keyUser)
    ensures c.Members(name) == if name in byUser then byUser[name] else {}
    ensures c.Holders(name) == if name in bySession then bySession[name] else {}
  {
    hide CohortOf, SessionOf, Indexed;
    NobodyOwned(byUser, keyUser, name);
    NobodyOwned(bySession, keySession, name);
    assert c.Members(name) == Owned(keyUser, name);
    assert c.Holders(name) == Owned(keySession, name);
  }

  lemma NobodyOwned(index: map<string, set<string>>, of: map<string, string>, name: string)
    requires Indexed(index, of)
    ensures Owned(of, name) == if name in index then index[name] else {}
  {}

  // ---------------------------------------------------------------- touch order

  /** Every key carries a stamp below `ticks`, and the stamps rise along the order. */
  ghost predicate Stamped(order: seq<string>, touched: map<string, nat>, ticks: nat) {
    && (forall i :: 0 <= i < |order| ==> order[i] in touched && touched[order[i]] < ticks)
    && (forall i, j :: 0 <= i < j < |order| ==> touched[order[i]] < touched[order[j]])
  }

  lemma StampedWithout(order: seq<string>, gone: set<string>, touched: map<string, nat>, ticks: nat)
    requires Stamped(order, touched, ticks)
    ensures Stamped(Without(order, gone), touched, ticks)
  {
    if order != [] {
      StampedWithout(order[1..], gone, touched, ticks);
      if order[0] !in gone { StampedInFront(order, Without(order[1..], gone), touched, ticks); }
    }
  }

  lemma StampedInFront(order: seq<string>, tail: seq<string>, touched: map<string, nat>, ticks: nat)
    requires order != [] && Stamped(order, touched, ticks) && Stamped(tail, touched, ticks)
    requires forall k :: k in tail ==> k in order[1..]
    ensures Stamped([order[0]] + tail, touched, ticks)
  {
    forall i | 0 <= i < |tail|
      ensures touched[order[0]] < touched[tail[i]]
    {
      assert tail[i] in order[1..];
    }
  }

  /** Everything in `gone` was touched longer ago than everything in `kept`. */
  ghost predicate OutlivedBy(gone: set<string>, kept: set<string>, touched: map<string, nat>) {
    forall g, k :: g in gone && k in kept ==> g in touched && k in touched && touched[g] < touched[k]
  }

  lemma OutlivedByFewer(before: set<string>, kept: set<string>, oldest: string, touched: map<string, nat>)
    requires OutlivedBy(before - kept, kept, touched) && OutlivedBy({oldest}, kept - {oldest}, touched)
    ensures OutlivedBy(before - (kept - {oldest}), kept - {oldest}, touched)
  {}

  lemma NothingOutlived(kept: set<string>, touched: map<string, nat>)
    ensures OutlivedBy(kept - kept, kept, touched)
  {}

  lemma StampedNewest(order: seq<string>, key: string, touched: map<string, nat>, ticks: nat)
    requires Stamped(order, touched, ticks)
    ensures Stamped(Without(order, {key}) + [key], touched[key := ticks], ticks + 1)
  {
    StampedWithout(order, {key}, touched, ticks);
    var rest := Without(order, {key});
    forall i | 0 <= i < |rest|
      ensures rest[i] != key
    {
      assert rest[i] in rest;
    }
  }

  lemma StampedStored<V>(d: Dict<string, V>, key: string, v: V, touched: map<string, nat>, ticks: nat)
    requires d.Valid() && Stamped(d.order, touched, ticks)
    ensures Stamped(d.Stored(key, v).order, touched[key := ticks], ticks + 1)
  {
    StoredLast(d, key, v);
    StampedNewest(d.order, key, touched, ticks);
  }

  lemma StampedTouched<V>(d: Dict<string, V>, key: string, touched: map<string, nat>, ticks: nat)
    requires d.Valid() && key in d.items && Stamped(d.order, touched, ticks)
    ensures Stamped(d.Touched(key).order, touched[key := ticks], ticks + 1)
    ensures |d.Touched(key).order| == |d.order|
  {
    StampedNewest(d.order, key, touched, ticks);
    DistinctSize(d.order);
    DistinctSize(d.Touched(key).order);
  }

  lemma StampedRemoved<V>(d: Dict<string, V>, key: string, touched: map<string, nat>, ticks: nat)
    requires d.Valid() && Stamped(d.order, touched, ticks)
    ensures Stamped(d.Removed(key).order, touched, ticks)
    ensures |d.Removed(key).order| <= |d.order|
  {
    StampedWithout(d.order, {key}, touched, ticks);
  }

  lemma StampedPopped<V>(d: Dict<string, V>, touched: map<string, nat>, ticks: nat)
    requires d.Valid() && d.order != [] && Stamped(d.order, touched, ticks)
    ensures Stamped(d.Popped().order, touched, ticks)
    ensures d.order[0] in d.items
    ensures OutlivedBy({d.order[0]}, d.items.Keys - {d.order[0]}, touched)
  {
    assert d.order[0] in ToSet(d.order);
    forall k | k in d.items.Keys - {d.order[0]}
      ensures k in touched && d.order[0] in touched && touched[d.order[0]] < touched[k]
    {
      assert k in ToSet(d.order);
    }
  }

  // ---------------------------------------------------------------- the cache

  class ScopedRenderCache<V> {
    const maxEntries: nat
    const hotSessionTtl: nat
    var entries: Dict<string, Slot<V>>
    var bySession: map<string, set<string>>
    var byUser: map<string, set<string>>
    var keySession: map<string, string>
    var keyUser: map<string, string>
    var epochs: Dict<string, nat>
    var floor: nat
    /** When each key was last stored or served. */
    ghost var touched: map<string, nat>
    ghost var ticks: nat

    ghost predicate Consistent()
      reads this
    {
      && maxEntries >= 1 && entries.Valid() && epochs.Valid()
      && Sound(entries.items.Keys, bySession, byUser, keySession, keyUser)
      && Stamped(entries.order, touched, ticks)
    }

    ghost predicate Valid()
      reads this
    {
      Consistent() && |entries.order| <= maxEntries
    }

    ghost function Model(): Cache<V>
      reads this
    {
      Cache(entries, epochs, floor)
    }

    lemma ModelIsValid()
      requires Valid()
      ensures Model().Valid()
    {}

    constructor (maxEntries: nat, hotSessionTtl: nat)
      requires maxEntries >= 1
      ensures Valid() && Model() == New()
      ensures this.maxEntries == maxEntries && this.hotSessionTtl == hotSessionTtl
    {
      this.maxEntries, this.hotSessionTtl := maxEntries, hotSessionTtl;
      entries, bySession, byUser, keySession, keyUser := Empty(), map[], map[], map[], map[];
      epochs, floor := Empty(), 0;
      touched, ticks := map[], 0;
    }

    /** A bound below one is a configuration error. */
    static method Create(maxEntries: int, hotSessionTtl: nat) returns (cache: Option<ScopedRenderCache<V>>)
      ensures cache.Some? <==> maxEntries >= 1
      ensures cache.Some? ==> fresh(cache.value) && cache.value.Valid() && cache.value.Model() == New()
      ensures cache.Some? ==> cache.value.maxEntries == maxEntries && cache.value.hotSessionTtl == hotSessionTtl
    {
      if maxEntries < 1 { return None; }
      var c := new ScopedRenderCache(maxEntries, hotSessionTtl);
      cache := Some(c);
    }

    // -------------------------------------------------------------- the fence

    method EpochIn(cohort: string) returns (epoch: nat)
      requires Valid()
      ensures epoch == Model().EpochOf(cohort)
    {
      hide CohortOf, SessionOf, Sound, Stamped;
      epoch := Max(if cohort in epochs.items then epochs.items[cohort] else floor, floor);
    }

    method BumpCohort(cohort: string)
      requires Valid()
      modifies this`epochs, this`floor
      ensures Valid() && Model() == Bump(old(Model()), cohort, maxEntries)
    {
      hide CohortOf, SessionOf, Sound, Stamped, Distinct, Pruned, Dict.Stored, Dict.Popped;
      var epoch := EpochIn(cohort);
      epochs := epochs.Stored(cohort, epoch + 1);
      while |epochs.order| > maxEntries
        invariant Valid()
        invariant Pruned(Model(), maxEntries) == Bump(old(Model()), cohort, maxEntries)
        decreases |epochs.order|
      {
        PruneOnce(Model(), maxEntries);
        var oldest := epochs.order[0];
        floor, epochs := Max(floor, epochs.items[oldest]), epochs.Popped();
      }
      PruningDone(Model(), maxEntries);
    }

    // -------------------------------------------------------------- dropping one key

    /** The indexes of the remaining keys say what filtering those keys would, if they did before. */
    method Unindex(key: string)
      requires key in keySession && key in keyUser
      modifies this`bySession, this`byUser, this`keySession, this`keyUser
      ensures forall keys :: key in keys && Sound(keys, old(bySession), old(byUser), old(keySession), old(keyUser)) ==>
                Sound(keys - {key}, bySession, byUser, keySession, keyUser)
      ensures keySession == old(keySession) - {key} && keyUser == old(keyUser) - {key}
      ensures bySession == Sans(old(bySession), old(keySession)[key], key)
      ensures byUser == Sans(old(byUser), old(keyUser)[key], key)
    {
      hide Sound, Sans;
      forall keys | key in keys && Sound(keys, bySession, byUser, keySession, keyUser)
        ensures Sound(keys - {key}, Sans(bySession, keySession[key], key), Sans(byUser, keyUser[key], key),
                      keySession - {key}, keyUser - {key})
      {
        SoundWithout(keys, bySession, byUser, keySession, keyUser, key);
      }
      bySession := Sans(bySession, keySession[key], key);
      byUser := Sans(byUser, keyUser[key], key);
      keySession, keyUser := keySession - {key}, keyUser - {key};
    }

    method Drop(key: string) returns (dropped: bool)
      requires Valid()
      modifies this`entries, this`bySession, this`byUser, this`keySession, this`keyUser
      ensures Valid() && Model() == Dropped(old(Model()), {key})
      ensures dropped <==> key in old(entries).items
    {
      hide CohortOf, SessionOf, Sound, Stamped, Distinct, Dict.Stored, Dict.Popped, Dict.Removed, Dict.Touched,
           Dict.Capped, Sans;
      if key !in entries.items {
        NothingToDrop(Model(), key);
        return false;
      }
      StampedRemoved(entries, key, touched, ticks);
      KeysAreIndexed(entries.items.Keys, bySession, byUser, keySession, keyUser);
      RemovedIsDropped(Model(), key);
      entries := entries.Removed(key);
      Unindex(key);
      return true;
    }

    // -------------------------------------------------------------- the drops

    method PopOne(ns: Namespace) returns (dropped: bool)
      requires Valid()
      modifies this`epochs, this`floor, this`entries, this`bySession, this`byUser, this`keySession, this`keyUser
      ensures Valid() && Model() == Pop(old(Model()), ToPrefix(ns), maxEntries)
      ensures dropped <==> ToPrefix(ns) in old(entries).items
    {
      hide CohortOf, SessionOf, Sound, Stamped, Distinct, Dict.Stored, Dict.Popped, Dict.Removed, Dict.Touched,
           Dict.Capped, ToPrefix, UserPrefix, Bump, Dropped;
      PrefixParts(ns);
      BumpCohort(UserPrefix(ns));
      dropped := Drop(ToPrefix(ns));
    }

    method PopCohortOf(ns: Namespace) returns (dropped: nat)
      requires Valid()
      modifies this`epochs, this`floor, this`entries, this`bySession, this`byUser, this`keySession, this`keyUser
      ensures Valid() && Model() == PopCohort(old(Model()), UserPrefix(ns), maxEntries)
      ensures dropped == |old(Model()).Members(UserPrefix(ns))|
    {
      hide CohortOf, SessionOf, Sound, Stamped, Distinct, UserPrefix, Bump, Dropped, Cache.Members;
      var cohort := UserPrefix(ns);
      MembersAfterBump(Model(), cohort, maxEntries);
      BumpCohort(cohort);
      var members := if cohort in byUser then byUser[cohort] else {};
      IndexesAgree(Model(), bySession, byUser, keySession, keyUser, cohort);
      dropped := DropAll(members);
    }

    method DropAll(keys: set<string>) returns (dropped: nat)
      requires Valid() && keys <= entries.items.Keys
      modifies this`entries, this`bySession, this`byUser, this`keySession, this`keyUser
      ensures Valid() && Model() == Dropped(old(Model()), keys)
      ensures dropped == |keys|
    {
      hide CohortOf, SessionOf, Valid, Consistent, Cache.Valid, Dropped;
      ghost var before := Model();
      ModelIsValid();
      var done: set<string> := {};
      dropped := 0;
      NothingGone(before);
      while done != keys
        invariant Valid() && done <= keys
        invariant Model() == Dropped(before, done)
        invariant dropped == |done|
        decreases keys - done
      {
        var key :| key in keys && key !in done;
        StillMember(before, done, key);
        DroppedTwice(before, done, {key});
        var gone := Drop(key);
        if gone { dropped := dropped + 1; }
        done := done + {key};
      }
    }

    // -------------------------------------------------------------- the reads

    method ResolveKey(key: string) returns (found: Option<string>)
      requires Valid()
      ensures found == Resolve(Model(), key)
    {
      hide CohortOf, SessionOf, Sound, Stamped, Distinct, Dict.Stored, Dict.Popped, Dict.Removed, Dict.Touched,
           Dict.Capped;
      IndexesAgree(Model(), bySession, byUser, keySession, keyUser, key);
      if key in entries.items { return Some(key); }
      if key !in bySession || |bySession[key]| != 1 { return None; }
      var only :| only in bySession[key];
      SingletonOf(bySession[key], only);
      found := Some(only);
    }

    method Read(key: string, now: int) returns (found: Option<Slot<V>>)
      requires Valid()
      modifies this
      ensures Valid() && Model() == Entry(old(Model()), key, now, hotSessionTtl).0
      ensures found == Entry(old(Model()), key, now, hotSessionTtl).1
    {
      hide CohortOf, SessionOf, Sound, Stamped, Distinct, Dict.Stored, Dict.Popped, Dict.Removed, Dict.Touched,
           Dict.Capped, Resolve, Dropped;
      var resolved := ResolveKey(key);
      if resolved.None? { return None; }
      var k := resolved.value;
      StampedTouched(entries, k, touched, ticks);
      var kept := entries.items[k];
      if now - kept.computedAt > hotSessionTtl {
        var _ := Drop(k);
        return None;
      }
      entries := entries.Touched(k);
      touched, ticks := touched[k := ticks], ticks + 1;
      found := Some(kept);
    }

    // -------------------------------------------------------------- the write

    /** Stores an entry unless its cohort moved, and says so. Whatever the bound pushes out was
        touched longer ago than everything that stays. */
    method Store(ns: Namespace, value: V, computedAt: int, epoch: nat) returns (stored: bool)
      requires Valid()
      modifies this
      ensures Valid()
      ensures (Model(), stored) == Put(old(Model()), ToPrefix(ns), Slot(value, computedAt), epoch, maxEntries)
      ensures OutlivedBy(old(entries).items.Keys - entries.items.Keys, entries.items.Keys, touched)
    {
      hide CohortOf, SessionOf, Sound, Stamped, Distinct, ToPrefix, UserPrefix, Dict.Stored, Dict.Capped;
      PrefixParts(ns);
      var current := EpochIn(UserPrefix(ns));
      if current != epoch { return false; }
      Insert(ns, Slot(value, computedAt));
      EvictOverflow();
      stored := true;
    }

    method Insert(ns: Namespace, slot: Slot<V>)
      requires Valid()
      modifies this
      ensures Consistent()
      ensures Model() == old(Model()).(entries := old(Model()).entries.Stored(ToPrefix(ns), slot))
    {
      hide CohortOf, SessionOf, Sound, Stamped, Distinct, ToPrefix, UserPrefix, With, Dict.Stored;
      var cohort, key := UserPrefix(ns), ToPrefix(ns);
      SoundStored(entries, bySession, byUser, keySession, keyUser, ns, slot);
      StampedStored(entries, key, slot, touched, ticks);
      entries := entries.Stored(key, slot);
      touched, ticks := touched[key := ticks], ticks + 1;
      bySession, byUser := With(bySession, ns.session, key), With(byUser, cohort, key);
      keySession, keyUser := keySession[key := ns.session], keyUser[key := cohort];
    }

    method EvictOverflow()
      requires Consistent()
      modifies this`entries, this`bySession, this`byUser, this`keySession, this`keyUser
      ensures Valid() && Model() == old(Model()).(entries := old(Model()).entries.Capped(maxEntries))
      ensures OutlivedBy(old(entries).items.Keys - entries.items.Keys, entries.items.Keys, touched)
    {
      hide CohortOf, SessionOf, Sound, Stamped, Distinct, OutlivedBy, Dict.Popped, Dict.Capped;
      NothingOutlived(entries.items.Keys, touched);
      while |entries.order| > maxEntries
        invariant Consistent()
        invariant Model().entries.Capped(maxEntries) == old(Model()).entries.Capped(maxEntries)
        invariant OutlivedBy(old(entries).items.Keys - entries.items.Keys, entries.items.Keys, touched)
        decreases |entries.order|
      {
        CapStep(entries, maxEntries);
        ghost var had, oldest := entries.items.Keys, entries.order[0];
        EvictOldest();
        OutlivedByFewer(old(entries).items.Keys, had, oldest, touched);
      }
      CapStep(entries, maxEntries);
    }

    /** `popitem(last=False)`: the least recently touched entry goes. */
    method EvictOldest()
      requires Consistent() && entries.order != []
      modifies this`entries, this`bySession, this`byUser, this`keySession, this`keyUser
      ensures Consistent()
      ensures Model() == old(Model()).(entries := old(Model()).entries.Popped())
      ensures entries.items.Keys == old(entries.items.Keys) - {old(entries.order[0])}
      ensures OutlivedBy({old(entries.order[0])}, entries.items.Keys, touched)
    {
      hide CohortOf, SessionOf, Sound, Stamped, Distinct, OutlivedBy, Dict.Stored, Dict.Popped, Dict.Removed,
           Dict.Touched, Dict.Capped, Sans;
      var oldest := entries.order[0];
      StampedPopped(entries, touched, ticks);
      SoundWithout(entries.items.Keys, bySession, byUser, keySession, keyUser, oldest);
      entries := entries.Popped();
      Unindex(oldest);
    }
  }

  lemma PruningDone<V>(c: Cache<V>, max: nat)
    requires c.Valid() && |c.epochs.order| <= max
    ensures Pruned(c, max) == c
  {}

  lemma RemovedIsDropped<V>(c: Cache<V>, key: string)
    requires c.Valid()
    ensures c.(entries := c.entries.Removed(key)) == Dropped(c, {key})
  {}

  lemma StillMember<V>(c: Cache<V>, gone: set<string>, key: string)
    requires c.Valid() && key in c.Keys() && key !in gone
    ensures key in Dropped(c, gone).Keys()
  {}

  lemma MembersAfterBump<V>(c: Cache<V>, cohort: string, max: nat)
    requires c.Valid()
    ensures Bump(c, cohort, max).Members(cohort) == c.Members(cohort) <= c.Keys()
    ensures Bump(c, cohort, max).Keys() == c.Keys()
  {}

  lemma NothingToDrop<V>(c: Cache<V>, key: string)
    requires c.Valid() && key !in c.Keys()
    ensures Dropped(c, {key}) == c
  {
    assert key !in ToSet(c.entries.order);
    WithoutNothing(c.entries.order, {key});
    assert c.entries.items - {key} == c.entries.items;
  }

  lemma NothingGone<V>(c: Cache<V>)
    requires c.Valid()
    ensures Dropped(c, {}) == c
  {
    WithoutNothing(c.entries.order, {});
    assert c.entries.items - {} == c.entries.items;
  }
}
