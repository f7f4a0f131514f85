/**
 The epoch fence as a machine of interleaved steps. A render reads the fence before its recall and
 hands the epoch back with its body; drops of a key or of a whole cohort fall anywhere in between.
 */
module RenderFence {
  import opened Sequences
  import opened OrderedDicts
  import opened Namespaces
  import opened RenderCache

  /** A warm body with the query it was ranked for. `began` is history: when its read started. */
  datatype Warm = Warm(body: string, query: string, began: nat)

  /** A render that is waiting for its recall. `knownEtag` is the block whose etag the caller sent. */
  datatype Render = Render(ns: Namespace, epoch: nat, began: nat, query: string, knownEtag: Option<string>,
                           forHost: bool)

  /** `dropped`, `popped` and `fenced` are history: the last drop of a cohort, the last drop of one
      key, and the last drop of either kind in a cohort. `clock` counts steps. */
  datatype Fence = Fence(
    cache: Cache<Warm>, renders: map<nat, Render>,
    dropped: map<string, nat>, popped: map<string, nat>, fenced: map<string, nat>, clock: nat)

  function Start(): Fence {
    Fence(New(), map[], map[], map[], map[], 1)
  }

  function Last(when: map<string, nat>, name: string): nat {
    if name in when then when[name] else 0
  }

  function KeyOf(r: Render): string {
    ToPrefix(r.ns)
  }

  function CohortOfRender(r: Render): string {
    CohortOf(KeyOf(r))
  }

  // ---------------------------------------------------------------- steps

  /** The prompt, else the query the cached body was ranked for, else the session id. */
  function QueryFor(query: Option<string>, cached: Option<Slot<Warm>>, session: string): string {
    if query.Some? && query.value != "" then query.value
    else if cached.Some? && cached.value.value.query != "" then cached.value.value.query
    else session
  }

  ghost function Begin(f: Fence, id: nat, ns: Namespace, query: Option<string>, knownEtag: Option<string>,
                       forHost: bool,
                       now: int, ttl: nat): Fence
    requires f.cache.Valid()
  {
    var (cache, cached) := Entry(f.cache, ToPrefix(ns), now, ttl);
    var r := Render(ns, cache.EpochOf(CohortOf(ToPrefix(ns))), f.clock, QueryFor(query, cached, ns.session),
                    knownEtag, forHost);
    f.(cache := cache, renders := f.renders[id := r], clock := f.clock + 1)
  }

  /** A render ends without writing: its recall failed, it was cancelled, or its caller went away. */
  function Leave(f: Fence, id: nat): Fence {
    f.(renders := f.renders - {id}, clock := f.clock + 1)
  }

  ghost function Read(f: Fence, key: string, now: int, ttl: nat): Fence
    requires f.cache.Valid()
  {
    f.(cache := Entry(f.cache, key, now, ttl).0, clock := f.clock + 1)
  }

  /** A render hands its body to the cache with the epoch it read at the start. */
  function Finish(f: Fence, id: nat, body: string, now: int, max: nat): Fence
    requires f.cache.Valid() && id in f.renders
  {
    var r := f.renders[id];
    f.(cache := Put(f.cache, KeyOf(r), Slot(Warm(body, r.query, r.began), now), r.epoch, max).0,
       renders := f.renders - {id}, clock := f.clock + 1)
  }

  /** A render that found nothing drops its own key. */
  function FindNothing(f: Fence, id: nat, max: nat): Fence
    requires f.cache.Valid() && id in f.renders
  {
    var key := KeyOf(f.renders[id]);
    f.(cache := Pop(f.cache, key, max), renders := f.renders - {id},
       popped := f.popped[key := f.clock], fenced := f.fenced[CohortOf(key) := f.clock], clock := f.clock + 1)
  }

  /** A mutation drops its whole cohort. */
  function Invalidate(f: Fence, cohort: string, max: nat): Fence
    requires f.cache.Valid()
  {
    f.(cache := PopCohort(f.cache, cohort, max),
       dropped := f.dropped[cohort := f.clock], fenced := f.fenced[cohort := f.clock], clock := f.clock + 1)
  }

  /** Whether the fence lets the render's body into the cache. */
  predicate Passes(f: Fence, id: nat)
    requires id in f.renders
  {
    f.cache.EpochOf(CohortOfRender(f.renders[id])) == f.renders[id].epoch
  }

  // ---------------------------------------------------------------- what every step keeps

  /** The history only names past steps, and a fence is at least as recent as either kind of drop. */
  ghost predicate HistoryInv(f: Fence) {
    && (forall c :: Last(f.fenced, c) < f.clock)
    && (forall c :: Last(f.dropped, c) <= Last(f.fenced, c))
    && (forall k :: Last(f.popped, k) <= Last(f.fenced, CohortOf(k)))
  }

  /** A fence is the last drop of the whole cohort or the last drop of one of its keys. */
  ghost predicate OriginInv(f: Fence) {
    forall c :: Last(f.fenced, c) == Last(f.dropped, c) || PoppedLast(f, c)
  }

  ghost predicate PoppedLast(f: Fence, cohort: string) {
    exists k :: CohortOf(k) == cohort && Last(f.popped, k) == Last(f.fenced, cohort)
  }

  /** Every read began in the past. */
  ghost predicate BegunInv(f: Fence) {
    && (forall id :: id in f.renders ==> f.renders[id].began < f.clock)
    && (forall k :: k in f.cache.Keys() ==> f.cache.entries.items[k].value.began < f.clock)
  }

  ghost predicate Ahead(f: Fence, r: Render) {
    && r.epoch <= f.cache.EpochOf(CohortOfRender(r))
    && (r.epoch == f.cache.EpochOf(CohortOfRender(r)) ==> r.began > Last(f.fenced, CohortOfRender(r)))
  }

  /** A render whose epoch is still current began after the last drop in its cohort. */
  ghost predicate RendersInv(f: Fence) {
    forall id :: id in f.renders ==> Ahead(f, f.renders[id])
  }

  ghost predicate Later(f: Fence, k: string, slot: Slot<Warm>) {
    slot.value.began > Last(f.dropped, CohortOf(k)) && slot.value.began > Last(f.popped, k)
  }

  /** Every cached body was read after its cohort was last dropped and after its own key was. */
  ghost predicate EntriesInv(f: Fence) {
    forall k :: k in f.cache.Keys() ==> Later(f, k, f.cache.entries.items[k])
  }

  ghost predicate FenceInv(f: Fence) {
    f.cache.Valid() && HistoryInv(f) && OriginInv(f) && BegunInv(f) && RendersInv(f) && EntriesInv(f)
  }

  /** Entries only leave and epochs only rise. */
  ghost predicate OnlyShrinks(c: Cache<Warm>, d: Cache<Warm>) {
    && d.Valid()
    && (forall n :: d.EpochOf(n) >= c.EpochOf(n))
    && (forall k :: k in d.Keys() ==> k in c.Keys() && d.entries.items[k] == c.entries.items[k])
  }

  lemma QuietStep(f: Fence, g: Fence)
    requires FenceInv(f) && OnlyShrinks(f.cache, g.cache) && g.clock == f.clock + 1
    requires g.dropped == f.dropped && g.popped == f.popped && g.fenced == f.fenced
    requires g.renders.Keys <= f.renders.Keys && forall id :: id in g.renders ==> g.renders[id] == f.renders[id]
    ensures FenceInv(g)
  {
    hide CohortOf, ToPrefix, Last, Cache.EpochOf, Cache.Valid, HistoryInv, OriginInv;
    SameHistory(f, g);
  }

  lemma SameHistory(f: Fence, g: Fence)
    requires HistoryInv(f) && OriginInv(f) && g.clock >= f.clock
    requires g.dropped == f.dropped && g.popped == f.popped && g.fenced == f.fenced
    ensures HistoryInv(g) && OriginInv(g)
  {
    hide CohortOf, Last;
    forall c
      ensures Last(g.fenced, c) < g.clock
    {
      assert Last(f.fenced, c) < f.clock;
    }
    forall c
      ensures PoppedLast(f, c) ==> PoppedLast(g, c)
    {
      if PoppedLast(f, c) {
        var k :| CohortOf(k) == c && Last(f.popped, k) == Last(f.fenced, c);
        assert Last(g.popped, k) == Last(g.fenced, c);
      }
    }
  }

  lemma ReadShrinks(c: Cache<Warm>, key: string, now: int, ttl: nat)
    requires c.Valid()
    ensures OnlyShrinks(c, Entry(c, key, now, ttl).0)
    ensures forall n :: Entry(c, key, now, ttl).0.EpochOf(n) == c.EpochOf(n)
  {
    hide Entry;
    EntryMeaning(c, key, now, ttl);
  }

  lemma LastAt(when: map<string, nat>, name: string, at: nat, other: string)
    ensures Last(when[name := at], other) == if other == name then at else Last(when, other)
  {}

  lemma BeginFenced(f: Fence, id: nat, ns: Namespace, query: Option<string>, knownEtag: Option<string>, forHost: bool,
                    now: int, ttl: nat)
    requires FenceInv(f) && id !in f.renders
    ensures FenceInv(Begin(f, id, ns, query, knownEtag, forHost, now, ttl))
  {
    hide CohortOf, ToPrefix, Last, Entry, QueryFor, Cache.EpochOf, HistoryInv, OriginInv, EntriesInv;
    ReadShrinks(f.cache, ToPrefix(ns), now, ttl);
    var g := Begin(f, id, ns, query, knownEtag, forHost, now, ttl);
    var quiet := g.(renders := f.renders);
    QuietStep(f, quiet);
    FencedInThePast(f);
    JoinRenders(quiet, id, g.renders[id]);
  }

  lemma FencedInThePast(f: Fence)
    requires FenceInv(f)
    ensures forall c :: Last(f.fenced, c) < f.clock
  {
    hide CohortOf, Last;
  }

  lemma JoinRenders(f: Fence, id: nat, r: Render)
    requires FenceInv(f) && Ahead(f, r) && r.began < f.clock
    ensures FenceInv(f.(renders := f.renders[id := r]))
  {
    hide CohortOf, ToPrefix, Last, Cache.EpochOf, Cache.Valid, HistoryInv, OriginInv;
    var g := f.(renders := f.renders[id := r]);
    SameHistory(f, g);
    forall i | i in g.renders
      ensures Ahead(g, g.renders[i])
    {
      if i != id { assert Ahead(f, f.renders[i]); }
    }
    forall k | k in g.cache.Keys()
      ensures Later(g, k, g.cache.entries.items[k])
    {
      assert Later(f, k, f.cache.entries.items[k]);
    }
  }

  /** A drop in `cohort` raises its epoch past every render that is waiting. */
  lemma DropFenced(f: Fence, g: Fence, cohort: string)
    requires FenceInv(f) && OnlyShrinks(f.cache, g.cache)
    requires g.fenced == f.fenced[cohort := f.clock]
    requires g.renders.Keys <= f.renders.Keys && forall id :: id in g.renders ==> g.renders[id] == f.renders[id]
    requires g.cache.EpochOf(cohort) > f.cache.EpochOf(cohort) && g.clock >= f.clock
    ensures RendersInv(g) && BegunInv(g)
  {
    hide CohortOf, ToPrefix, Last, Cache.EpochOf, Cache.Valid, HistoryInv, EntriesInv, OriginInv;
    forall id | id in g.renders
      ensures Ahead(g, g.renders[id])
    {
      assert Ahead(f, f.renders[id]);
      LastAt(f.fenced, cohort, f.clock, CohortOfRender(g.renders[id]));
    }
  }

  /** The history after a drop of a whole cohort, or of one `key` in it. */
  lemma DropHistory(f: Fence, g: Fence, cohort: string, key: Option<string>)
    requires HistoryInv(f) && OriginInv(f) && g.clock == f.clock + 1 && g.fenced == f.fenced[cohort := f.clock]
    requires key.None? ==> g.dropped == f.dropped[cohort := f.clock] && g.popped == f.popped
    requires key.Some? ==>
             g.dropped == f.dropped && g.popped == f.popped[key.value := f.clock] && CohortOf(key.value) == cohort
    ensures HistoryInv(g) && OriginInv(g)
  {
    hide CohortOf, Last, PoppedLast;
    forall c
      ensures Last(g.fenced, c) == Last(g.dropped, c) || PoppedLast(g, c)
    {
      DropOrigin(f, g, cohort, key, c);
    }
    forall c
      ensures Last(g.fenced, c) < g.clock && Last(g.dropped, c) <= Last(g.fenced, c)
    {
      LastAt(f.fenced, cohort, f.clock, c);
      LastAt(f.dropped, cohort, f.clock, c);
    }
    forall k
      ensures Last(g.popped, k) <= Last(g.fenced, CohortOf(k))
    {
      LastAt(f.fenced, cohort, f.clock, CohortOf(k));
      if key.Some? { LastAt(f.popped, key.value, f.clock, k); }
    }
  }

  lemma DropOrigin(f: Fence, g: Fence, cohort: string, key: Option<string>, c: string)
    requires HistoryInv(f) && OriginInv(f) && g.fenced == f.fenced[cohort := f.clock]
    requires key.None? ==> g.dropped == f.dropped[cohort := f.clock] && g.popped == f.popped
    requires key.Some? ==>
             g.dropped == f.dropped && g.popped == f.popped[key.value := f.clock] && CohortOf(key.value) == cohort
    ensures Last(g.fenced, c) == Last(g.dropped, c) || PoppedLast(g, c)
  {
    hide CohortOf, Last;
    LastAt(f.fenced, cohort, f.clock, c);
    if c == cohort {
      LastAt(f.dropped, cohort, f.clock, cohort);
      if key.Some? { LastAt(f.popped, key.value, f.clock, key.value); }
    } else {
      LastAt(f.dropped, cohort, f.clock, c);
      if PoppedLast(f, c) {
        var k :| CohortOf(k) == c && Last(f.popped, k) == Last(f.fenced, c);
        if key.Some? { LastAt(f.popped, key.value, f.clock, k); }
        assert Last(g.popped, k) == Last(g.fenced, c);
      }
    }
  }

  lemma InvalidateFenced(f: Fence, cohort: string, max: nat)
    requires FenceInv(f)
    ensures FenceInv(Invalidate(f, cohort, max))
  {
    hide CohortOf, ToPrefix, Last, Cache.EpochOf, Bump, Dropped, HistoryInv, OriginInv, RendersInv, BegunInv;
    var g := Invalidate(f, cohort, max);
    DropRaises(f.cache, cohort, max, f.cache.Members(cohort));
    DropFenced(f, g, cohort);
    DropHistory(f, g, cohort, None);
    forall k | k in g.cache.Keys()
      ensures Later(g, k, g.cache.entries.items[k])
    {
      assert Later(f, k, f.cache.entries.items[k]);
      LastAt(f.dropped, cohort, f.clock, CohortOf(k));
    }
  }

  lemma DropRaises(c: Cache<Warm>, cohort: string, max: nat, gone: set<string>)
    requires c.Valid()
    ensures var d := Dropped(Bump(c, cohort, max), gone);
            && OnlyShrinks(c, d) && d.EpochOf(cohort) > c.EpochOf(cohort)
            && (forall k :: k in d.Keys() ==> k !in gone)
  {
    hide Bump, CohortOf;
    forall n
      ensures Bump(c, cohort, max).EpochOf(n) >= c.EpochOf(n)
      ensures Bump(c, cohort, max).EpochOf(cohort) > c.EpochOf(cohort)
    {
      BumpRaisesOnlyUpward(c, cohort, max, n);
    }
  }

  lemma FindNothingFenced(f: Fence, id: nat, max: nat)
    requires FenceInv(f) && id in f.renders
    ensures FenceInv(FindNothing(f, id, max))
  {
    hide CohortOf, ToPrefix, Last, Cache.EpochOf, Bump, Dropped, HistoryInv, OriginInv, RendersInv, BegunInv;
    var g := FindNothing(f, id, max);
    var key := KeyOf(f.renders[id]);
    DropRaises(f.cache, CohortOf(key), max, {key});
    DropFenced(f, g, CohortOf(key));
    DropHistory(f, g, CohortOf(key), Some(key));
    forall k | k in g.cache.Keys()
      ensures Later(g, k, g.cache.entries.items[k])
    {
      assert Later(f, k, f.cache.entries.items[k]);
      LastAt(f.popped, key, f.clock, k);
    }
  }

  /** Whatever a finishing render gets into the cache was read after the last drop in its cohort. */
  lemma FinishFenced(f: Fence, id: nat, body: string, now: int, max: nat)
    requires FenceInv(f) && id in f.renders && max >= 1
    ensures FenceInv(Finish(f, id, body, now, max))
    ensures Passes(f, id) ==> f.renders[id].began > Last(f.fenced, CohortOfRender(f.renders[id]))
  {
    hide CohortOf, ToPrefix, Last, Cache.EpochOf, Put, Cache.Valid, HistoryInv, EntriesInv, OriginInv;
    var r := f.renders[id];
    var slot := Slot(Warm(body, r.query, r.began), now);
    PutMeaning(f.cache, KeyOf(r), slot, r.epoch, max);
    PutKeepsEpochs(f.cache, KeyOf(r), slot, r.epoch, max);
    var g := Finish(f, id, body, now, max);
    assert Ahead(f, r);
    StillAhead(f, g);
    SameHistory(f, g);
    HistoryLater(f, KeyOf(r));
    EntriesAreLater(f);
    StillLater(f, g, KeyOf(r));
  }

  /** A key's own drops are no later than its cohort's fence. */
  lemma HistoryLater(f: Fence, key: string)
    requires HistoryInv(f)
    ensures Last(f.dropped, CohortOf(key)) <= Last(f.fenced, CohortOf(key))
            && Last(f.popped, key) <= Last(f.fenced, CohortOf(key))
  {
    hide CohortOf, Last;
  }

  lemma EntriesAreLater(f: Fence)
    requires EntriesInv(f)
    ensures forall k :: k in f.cache.Keys() ==> Later(f, k, f.cache.entries.items[k])
  {}

  lemma StillAhead(f: Fence, g: Fence)
    requires RendersInv(f) && g.fenced == f.fenced
    requires g.renders.Keys <= f.renders.Keys && forall id :: id in g.renders ==> g.renders[id] == f.renders[id]
    requires forall n :: g.cache.EpochOf(n) == f.cache.EpochOf(n)
    ensures RendersInv(g)
  {
    hide CohortOf, ToPrefix, Last, Cache.EpochOf;
    forall id | id in g.renders
      ensures Ahead(g, g.renders[id])
    {
      assert Ahead(f, f.renders[id]);
    }
  }

  lemma StillLater(f: Fence, g: Fence, key: string)
    requires EntriesInv(f) && g.dropped == f.dropped && g.popped == f.popped
    requires forall k :: k in g.cache.Keys() && k != key ==>
             k in f.cache.Keys() && g.cache.entries.items[k] == f.cache.entries.items[k]
    requires key in g.cache.Keys() ==> Later(f, key, g.cache.entries.items[key])
    ensures EntriesInv(g)
  {
    hide CohortOf, Last;
    forall k | k in g.cache.Keys()
      ensures Later(g, k, g.cache.entries.items[k])
    {
      if k != key { assert Later(f, k, f.cache.entries.items[k]); }
    }
  }

  lemma PutKeepsEpochs(c: Cache<Warm>, key: string, slot: Slot<Warm>, epoch: nat, max: nat)
    requires c.Valid()
    ensures forall n :: Put(c, key, slot, epoch, max).0.EpochOf(n) == c.EpochOf(n)
  {
    hide CohortOf;
  }

  lemma LeaveFenced(f: Fence, id: nat)
    requires FenceInv(f)
    ensures FenceInv(Leave(f, id))
  {
    QuietStep(f, Leave(f, id));
  }

  lemma ReadFenced(f: Fence, key: string, now: int, ttl: nat)
    requires FenceInv(f)
    ensures FenceInv(Read(f, key, now, ttl))
  {
    hide Entry;
    ReadShrinks(f.cache, key, now, ttl);
    QuietStep(f, Read(f, key, now, ttl));
  }

  /** What the cached bodies are fenced by, exactly: one was read after the last drop of either kind in
      its cohort if and only if no sibling's key was dropped since it was read. */
  lemma FencedUnlessSiblingPopped(f: Fence, key: string)
    requires FenceInv(f) && key in f.cache.Keys()
    ensures var began := f.cache.entries.items[key].value.began;
            began > Last(f.fenced, CohortOf(key))
            <==> forall sibling :: sibling != key && CohortOf(sibling) == CohortOf(key) ==>
                began > Last(f.popped, sibling)
  {
    hide CohortOf, Last, FenceInv, Later;
    FencedParts(f, key);
    FencedExactly(f, key, f.cache.entries.items[key].value.began);
  }

  lemma FencedParts(f: Fence, key: string)
    requires FenceInv(f) && key in f.cache.Keys()
    ensures HistoryInv(f) && OriginInv(f)
    ensures f.cache.entries.items[key].value.began > Last(f.dropped, CohortOf(key))
    ensures f.cache.entries.items[key].value.began > Last(f.popped, key)
  {
    hide CohortOf, Last, HistoryInv, OriginInv, BegunInv, RendersInv, Cache.Valid;
    assert Later(f, key, f.cache.entries.items[key]);
  }

  lemma FencedExactly(f: Fence, key: string, began: nat)
    requires HistoryInv(f) && OriginInv(f) && began > Last(f.dropped, CohortOf(key)) && began > Last(f.popped, key)
    ensures began > Last(f.fenced, CohortOf(key))
            <==> forall sibling :: sibling != key && CohortOf(sibling) == CohortOf(key) ==>
                began > Last(f.popped, sibling)
  {
    hide CohortOf, Last, HistoryInv, OriginInv;
    var k := OriginOf(f, CohortOf(key));
    forall sibling | CohortOf(sibling) == CohortOf(key)
      ensures began > Last(f.fenced, CohortOf(key)) ==> began > Last(f.popped, sibling)
    {
      HistoryLater(f, sibling);
    }
  }

  /** The key whose drop moved the fence last, if it was not a drop of the whole cohort. */
  lemma OriginOf(f: Fence, cohort: string) returns (k: string)
    requires OriginInv(f)
    ensures Last(f.fenced, cohort) == Last(f.dropped, cohort)
            || (CohortOf(k) == cohort && Last(f.popped, k) == Last(f.fenced, cohort))
  {
    hide CohortOf, Last;
    k := "";
    if PoppedLast(f, cohort) {
      k :| CohortOf(k) == cohort && Last(f.popped, k) == Last(f.fenced, cohort);
    }
  }

  /** Dropping one session's key leaves its siblings cached: the fence moves for the whole cohort,
      the bodies already stored do not. */
  lemma PopSparesSiblings(c: Cache<Warm>, key: string, sibling: string, max: nat)
    requires c.Valid() && sibling in c.Keys() && sibling != key && CohortOf(sibling) == CohortOf(key)
    ensures sibling in Pop(c, key, max).Keys()
    ensures Pop(c, key, max).entries.items[sibling] == c.entries.items[sibling]
    ensures Pop(c, key, max).EpochOf(CohortOf(sibling)) > c.EpochOf(CohortOf(sibling))
  {
    hide CohortOf, Bump;
    DropRaises(c, CohortOf(key), max, {key});
  }
}
