/**
 A run that leaves a body in the cache although the fence of its cohort has moved since the body was
 read: two sessions of one user are cached, and a later render of one of them finds nothing.
 */
module SiblingBodies {
  import opened Sequences
  import opened OrderedDicts
  import opened Namespaces
  import opened LiveContext
  import opened RenderCache
  import opened RenderFence
  import opened RecallBridge
  import opened RecallBridgeProofs

  /** A full key that is not cached is not resolved to another session's entry either. */
  lemma ColdEntry(c: Cache<Warm>, ns: Namespace, now: int, ttl: nat)
    requires c.Valid() && ToPrefix(ns) !in c.Keys()
    ensures Entry(c, ToPrefix(ns), now, ttl) == (c, None)
  {
    NobodyHasAFullKey(c, ns);
    hide ToPrefix, SessionOf;
  }

  /** A render of a session that is not cached leaves the cache alone and, for now, passes the fence. */
  lemma ColdBegin(f: Fence, id: nat, ns: Namespace, now: int, ttl: nat)
    requires FenceInv(f) && id !in f.renders && ToPrefix(ns) !in f.cache.Keys()
    ensures var g := RenderFence.Begin(f, id, ns, None, None, true, now, ttl);
            && FenceInv(g) && g.cache == f.cache && g.renders.Keys == f.renders.Keys + {id}
               && g.renders - {id} == f.renders
            && g.renders[id].ns == ns && Passes(g, id)
  {
    hide FenceInv, CohortOf, ToPrefix, QueryFor, Entry, Cache.EpochOf;
    FencedIsValid(f);
    ColdEntry(f.cache, ns, now, ttl);
    BeginFenced(f, id, ns, None, None, true, now, ttl);
  }

  lemma FencedIsValid(f: Fence)
    requires FenceInv(f)
    ensures f.cache.Valid()
  {
    hide HistoryInv, OriginInv, BegunInv, RendersInv, EntriesInv, Cache.Valid;
  }

  /** A render that passes the fence caches its body beside what is there, while there is room. */
  lemma PassingFinish(f: Fence, id: nat, body: string, now: int, max: nat)
    requires FenceInv(f) && id in f.renders && Passes(f, id)
    requires KeyOf(f.renders[id]) !in f.cache.Keys() && |f.cache.entries.order| < max
    ensures var t := RenderFence.Finish(f, id, body, now, max);
            && FenceInv(t) && t.renders == f.renders - {id}
            && t.cache.Keys() == f.cache.Keys() + {KeyOf(f.renders[id])}
            && |t.cache.entries.order| == |f.cache.entries.order| + 1
  {
    hide FenceInv, CohortOf, ToPrefix, Put, Cache.EpochOf, Last, Distinct;
    FencedIsValid(f);
    FinishFenced(f, id, body, now, max);
    var r := f.renders[id];
    PutMeaning(f.cache, KeyOf(r), Slot(Warm(body, r.query, r.began), now), r.epoch, max);
    var t := RenderFence.Finish(f, id, body, now, max);
    FencedIsValid(t);
    CountKeys(f.cache.entries);
    CountKeys(t.cache.entries);
  }

  lemma CountKeys<V>(d: Dict<string, V>)
    requires d.Valid()
    ensures |d.items.Keys| == |d.order|
  {
    DistinctSize(d.order);
  }

  /** A render that finds nothing fences the whole cohort and drops no sibling's body. */
  lemma EmptyRender(f: Fence, id: nat, a: Namespace, b: Namespace, query: Option<string>, now: int, ttl: nat, max: nat)
    requires FenceInv(f) && id !in f.renders && ToPrefix(a) in f.cache.Keys()
    requires UserPrefix(a) == UserPrefix(b) && a.session != b.session
    ensures var begun := RenderFence.Begin(f, id, b, query, None, true, now, ttl);
            var t := FindNothing(begun, id, max);
            && FenceInv(begun) && id in begun.renders && FenceInv(t) && ToPrefix(a) in t.cache.Keys()
            && t.cache.entries.items[ToPrefix(a)] == f.cache.entries.items[ToPrefix(a)]
            && t.cache.entries.items[ToPrefix(a)].value.began < Last(t.fenced, CohortOf(ToPrefix(a)))
  {
    PrefixParts(a);
    PrefixParts(b);
    hide CohortOf, SessionOf, ToPrefix, UserPrefix, QueryFor, HistoryInv, OriginInv, RendersInv, EntriesInv, Entry,
         Bump, Dropped, Last;
    var key, sibling := ToPrefix(b), ToPrefix(a);
    SiblingServed(f.cache, a, b, now, ttl);
    BeginFenced(f, id, b, query, None, true, now, ttl);
    var begun := RenderFence.Begin(f, id, b, query, None, true, now, ttl);
    FindNothingFenced(begun, id, max);
    PopSparesSiblings(begun.cache, key, sibling, max);
    LastAt(begun.fenced, CohortOf(key), begun.clock, CohortOf(sibling));
  }

  /** Reading one session leaves another session's entry. */
  lemma SiblingServed(c: Cache<Warm>, a: Namespace, b: Namespace, now: int, ttl: nat)
    requires c.Valid() && ToPrefix(a) in c.Keys() && ToPrefix(a) != ToPrefix(b)
    ensures var r := Entry(c, ToPrefix(b), now, ttl).0;
            ToPrefix(a) in r.Keys() && r.entries.items[ToPrefix(a)] == c.entries.items[ToPrefix(a)]
  {
    hide ToPrefix, Entry;
    if ToPrefix(b) in c.Keys() {
      EntryMeaning(c, ToPrefix(b), now, ttl);
      NobodyHasAFullKey(c, b);
    } else {
      ColdEntry(c, b, now, ttl);
    }
  }

  // ---------------------------------------------------------------- the run

  /** A run can be followed one step further. */
  lemma RunOn(cfg: Config, events: seq<Event>, n: nat, s: Bridge)
    requires n < |events| && Reaches(cfg, events[..n], s) && s.Valid() && Enabled(cfg, s, events[n])
    ensures Reaches(cfg, events[..n + 1], Step(cfg, s, events[n]))
  {
    hide Step, Enabled, Bridge.Valid;
    var longer := events[..n + 1];
    assert longer[..|longer| - 1] == events[..n] && longer[|longer| - 1] == events[n];
  }

  /** Both sessions render, then the second renders again and finds nothing. */
  function SiblingRun(a: Namespace, b: Namespace, recalled: Recalled): seq<Event> {
    [Begin(0, a, None, None, true, recalled.now), Finish(0, recalled, {}),
     Begin(1, b, None, None, true, recalled.now), Finish(1, recalled, {}),
     Begin(2, b, None, None, true, recalled.now), FinishEmpty(2)]
  }

  /** The run ends with the first session's body cached, read before the last drop in its cohort. */
  lemma SiblingBodyOutlivesFence(cfg: Config, a: Namespace, b: Namespace, recalled: Recalled)
    requires cfg.max >= 2 && UserPrefix(a) == UserPrefix(b) && a.session != b.session && recalled.items != []
    ensures exists s: Bridge ::
              && Reaches(cfg, SiblingRun(a, b, recalled), s) && ToPrefix(a) in s.fence.cache.Keys()
              && s.fence.cache.entries.items[ToPrefix(a)].value.began < Last(s.fence.fenced, CohortOf(ToPrefix(a)))
  {
    hide CohortOf, ToPrefix, UserPrefix, Last, FenceInv, Reaches, Step, Enabled;
    var run := SiblingRun(a, b, recalled);
    DifferentKeys(a, b);
    StartReaches(cfg);
    assert run[..0] == [];
    var s := FirstState();
    s := RenderedOnce(cfg, run, 0, s, 0, a, recalled);
    s := RenderedOnce(cfg, run, 2, s, 1, b, recalled);
    s := EmptiedLast(cfg, run, 4, s, 2, a, b, recalled.now);
    assert run[..6] == run;
  }

  lemma DifferentKeys(a: Namespace, b: Namespace)
    ensures a.session != b.session ==> ToPrefix(a) != ToPrefix(b)
  {
    PrefixParts(a);
    PrefixParts(b);
  }

  lemma StartReaches(cfg: Config)
    ensures Reaches(cfg, [], FirstState()) && FenceInv(Start())
  {
    StartIsSound();
  }

  /** Steps `n` and `n + 1` of a run render one session that is not cached yet. */
  lemma RenderedOnce(cfg: Config, run: seq<Event>, n: nat, s: Bridge, id: nat, ns: Namespace, recalled: Recalled)
    returns (t: Bridge)
    requires n + 1 < |run| && Reaches(cfg, run[..n], s) && s.Valid() && FenceInv(s.fence) && recalled.items != []
    requires run[n] == Begin(id, ns, None, None, true, recalled.now) && run[n + 1] == Finish(id, recalled, {})
    requires id !in s.fence.renders && ToPrefix(ns) !in s.fence.cache.Keys() && |s.fence.cache.entries.order| < cfg.max
    ensures Reaches(cfg, run[..n + 2], t) && t.Valid() && FenceInv(t.fence) && t.fence.renders == s.fence.renders
    ensures t.fence.cache.Keys() == s.fence.cache.Keys() + {ToPrefix(ns)}
    ensures |t.fence.cache.entries.order| == |s.fence.cache.entries.order| + 1
  {
    hide FenceInv, ToPrefix, Passes, Reaches, OutcomeOf, RenderFence.Begin, RenderFence.Finish, StatesStep,
         WindowStep, Cache.Valid, Dict.Valid;
    RunOn(cfg, run, n, s);
    t := Step(cfg, s, run[n]);
    ColdBegin(s.fence, id, ns, recalled.now, cfg.ttl);
    FencedIsValid(t.fence);
    var body := OutcomeOf(cfg, t.states, ns, recalled).a.SnapshotBody();
    PassingFinish(t.fence, id, body, recalled.now, cfg.max);
    RunOn(cfg, run, n + 1, t);
    t := Step(cfg, t, run[n + 1]);
    FencedIsValid(t.fence);
  }

  /** Steps `n` and `n + 1` of a run render one session and find nothing, while its sibling is cached. */
  lemma EmptiedLast(cfg: Config, run: seq<Event>, n: nat, s: Bridge, id: nat, a: Namespace, b: Namespace, now: int)
    returns (t: Bridge)
    requires n + 1 < |run| && Reaches(cfg, run[..n], s) && s.Valid() && FenceInv(s.fence)
    requires run[n] == Begin(id, b, None, None, true, now) && run[n + 1] == FinishEmpty(id)
    requires id !in s.fence.renders && ToPrefix(a) in s.fence.cache.Keys() && UserPrefix(a) == UserPrefix(b)
             && a.session != b.session
    ensures Reaches(cfg, run[..n + 2], t) && ToPrefix(a) in t.fence.cache.Keys()
    ensures t.fence.cache.entries.items[ToPrefix(a)].value.began < Last(t.fence.fenced, CohortOf(ToPrefix(a)))
  {
    hide FenceInv, ToPrefix, CohortOf, UserPrefix, Last, Reaches, RenderFence.Begin, FindNothing, StatesStep,
         WindowStep, Cache.Valid, Dict.Valid;
    EmptyRender(s.fence, id, a, b, None, now, cfg.ttl, cfg.max);
    RunOn(cfg, run, n, s);
    t := Step(cfg, s, run[n]);
    FencedIsValid(t.fence);
    RunOn(cfg, run, n + 1, t);
    t := Step(cfg, t, run[n + 1]);
  }
}
