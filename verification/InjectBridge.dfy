/** The bridge as the program runs it: the warm cache and the live-state store, updated in place. */
module InjectBridge {
  import opened Sequences
  import opened OrderedDicts
  import opened Namespaces
  import opened LiveContext
  import opened LiveContextLoops
  import opened RenderCache
  import opened RenderCacheStore
  import opened RenderFence
  import opened RecallBridge
  import RecallBridgeProofs

  // ---------------------------------------------------------------- the live-state store

  class LiveStateStore {
    const maxEntries: nat
    const hotSessionTtl: nat
    var states: Store

    ghost predicate Valid()
      reads this
    {
      states.Valid()
    }

    constructor (maxEntries: nat, hotSessionTtl: nat)
      ensures Valid() && states == Empty()
      ensures this.maxEntries == maxEntries && this.hotSessionTtl == hotSessionTtl
    {
      this.maxEntries, this.hotSessionTtl := maxEntries, hotSessionTtl;
      states := Empty();
    }

    method GetOrCreate(key: string, now: int) returns (state: LiveState)
      requires Valid()
      modifies this
      ensures Valid() && states == Served(old(states), key, now, hotSessionTtl)
      ensures state == StateFor(old(states), key, now, hotSessionTtl)
    {
      hide Distinct, Dict.Touched, Dict.Removed;
      if key in states.items {
        state := states.items[key];
        if now - state.updatedAt <= hotSessionTtl {
          states := states.Touched(key);
          return;
        }
        states := states.Removed(key);
      }
      state := FreshState(now);
    }

    method Put(key: string, state: LiveState)
      requires Valid()
      modifies this
      ensures Valid() && states == PutState(old(states), key, state, maxEntries)
    {
      hide Distinct, Dict.Stored, Dict.Popped, Dict.Capped;
      states := states.Stored(key, state);
      while |states.order| > maxEntries
        invariant Valid()
        invariant states.Capped(maxEntries) == old(states).Stored(key, state).Capped(maxEntries)
        decreases |states.order|
      {
        CapStep(states, maxEntries);
        states := states.Popped();
      }
      CapStep(states, maxEntries);
    }

    method ClearDigestOf(key: string, now: int) returns (cleared: bool)
      requires Valid()
      modifies this
      ensures Valid() && states == ClearDigest(old(states), key, now)
      ensures cleared <==> key in old(states).items && old(states).items[key].slice.injectedDigest != {}
    {
      hide Distinct, Dict.Updated;
      if key !in states.items || states.items[key].slice.injectedDigest == {} { return false; }
      var state := states.items[key];
      states := states.Updated(key, state.(slice := state.slice.(injectedDigest := {}), updatedAt := now));
      cleared := true;
    }

    /** `slice` is what forgetting one memory leaves of the session's slice. No other session changes,
        none comes or goes, and no session is believed to hold more than before. */
    method ForgetMemory(key: string, slice: PrivateSlice, now: int)
      requires Valid()
      modifies this
      ensures Valid() && states == Forget(old(states), key, slice, now)
      ensures states.order == old(states).order && states.items.Keys == old(states).items.Keys
      ensures forall k :: k in states.items && k != key ==> states.items[k] == old(states).items[k]
      ensures key in states.items ==>
              states.items[key].slice == slice && states.items[key].shared == old(states).items[key].shared
      ensures ForgetsOnly(old(states), key, slice) ==> forall k :: k in states.items ==>
                states.items[k].slice.injectedDigest <= old(states).items[k].slice.injectedDigest
    {
      hide Distinct;
      if key in states.items {
        states := states.Updated(key, states.items[key].(slice := slice, updatedAt := now));
      }
    }
  }

  // ---------------------------------------------------------------- the bridge

  class RecallInjectBridge {
    const cfg: Config
    const warm: ScopedRenderCache<Warm>
    const store: LiveStateStore

    ghost predicate Valid()
      reads this, warm, store
    {
      && warm.Valid() && store.Valid()
      && warm.maxEntries == cfg.max && warm.hotSessionTtl == cfg.ttl
      && store.maxEntries == cfg.max && store.hotSessionTtl == cfg.ttl
    }

    constructor (cfg: Config)
      requires cfg.max >= 1
      ensures Valid() && this.cfg == cfg && fresh(warm) && fresh(store)
      ensures warm.Model() == New() && store.states == Empty()
    {
      this.cfg := cfg;
      warm := new ScopedRenderCache(cfg.max, cfg.ttl);
      store := new LiveStateStore(cfg.max, cfg.ttl);
    }

    /** Up to the recall: the fence is read before the I/O. `began` numbers the step. */
    method BeginRender(ns: Namespace, query: Option<string>, knownEtag: Option<string>, forHost: bool, now: int,
                       began: nat)
      returns (r: Render)
      requires Valid()
      modifies warm
      ensures Valid()
      ensures forall f: Fence, id :: f.cache == old(warm.Model()) && f.clock == began ==>
                var g := RenderFence.Begin(f, id, ns, query, knownEtag, forHost, now, cfg.ttl);
                g.cache == warm.Model() && g.renders[id] == r
    {
      hide ScopedRenderCache.Valid, ToPrefix, UserPrefix, CohortOf, SessionOf, Entry, QueryFor, LiveStateStore.Valid;
      PrefixParts(ns);
      var cached := warm.Read(ToPrefix(ns), now);
      var epoch := warm.EpochIn(UserPrefix(ns));
      r := Render(ns, epoch, began, QueryFor(query, cached, ns.session), knownEtag, forHost);
    }

    /** After the recall: one assembly, the state store, and the cache through the fence. */
    method FinishRender(r: Render, recalled: Recalled, injected: set<Hash>) returns (reply: RenderedContext)
      requires Valid() && recalled.items != []
      requires BoundedUnion(OutcomeOf(cfg, store.states, r.ns, recalled), injected)
      modifies warm, store
      ensures Valid()
      ensures var o := OutcomeOf(cfg, old(store.states), r.ns, recalled);
              var (cache, cached) := RenderCache.Put(old(warm.Model()), KeyOf(r),
                                                     Slot(Warm(o.a.SnapshotBody(), r.query, r.began), recalled.now),
                                                         r.epoch, cfg.max);
              && warm.Model() == cache
              && store.states == StatesAfter(cfg, old(store.states), r, recalled, o, injected)
              && reply == ReplyTo(r, o.body, recalled.now, cached)
    {
      hide ScopedRenderCache.Valid, LiveStateStore.Valid, ToPrefix, Assemble, RenderCache.Put, Served, PutState,
           StateFor, SlabsOf,
           UpdateRecalled, SpillNote;
      var key := ToPrefix(r.ns);
      var live := store.GetOrCreate(key, recalled.now);
      var slice := UpdateRecalled(live.slice, SlabsOf(recalled.items));
      var a := AssembleBlock(live.shared, slice, AssemblyBudget(cfg, r.ns), cfg.budgets, recalled.score, recalled.gate);
      var body := if a.trimmed then a.Body() + SpillNote(cfg.spillPath(r.ns)) else a.Body();
      var next := live.(slice := slice, updatedAt := recalled.now, etag := body);
      var entry := Warm(a.SnapshotBody(), r.query, r.began);
      if r.knownEtag == Some(body) {
        var _ := warm.Store(r.ns, entry, recalled.now, r.epoch);
        store.Put(key, next);
        return RenderedContext("", body, recalled.now, FreshBody);
      }
      if body == "" {
        store.Put(key, next);
        var _ := warm.Store(r.ns, entry, recalled.now, r.epoch);
        return RenderedContext(body, body, recalled.now, FreshBody);
      }
      if r.forHost {
        next := next.(slice := slice.(injectedDigest := injected));
      }
      store.Put(key, next);
      var cached := warm.Store(r.ns, entry, recalled.now, r.epoch);
      if cached { return RenderedContext(body, body, recalled.now, FreshBody); }
      reply := RenderedContext(body + RACED_NOTE, body, recalled.now, StaleBody);
    }

    /** A render that found nothing: its own key is dropped and the reply is cold. */
    method FinishEmptyRender(r: Render, now: int) returns (reply: RenderedContext)
      requires Valid()
      modifies warm
      ensures Valid() && warm.Model() == Pop(old(warm.Model()), KeyOf(r), cfg.max)
      ensures reply == RenderedContext("", "", now, ColdBody)
    {
      hide ScopedRenderCache.Valid, ToPrefix, Pop;
      var _ := warm.PopOne(r.ns);
      reply := RenderedContext("", "", now, ColdBody);
    }

    /** The recall failed: the warm body with a note, or a cold reply. Nothing is re-stamped. */
    method FallBack(r: Render, now: int) returns (reply: RenderedContext)
      requires Valid()
      modifies warm
      ensures Valid() && warm.Model() == Entry(old(warm.Model()), KeyOf(r), now, cfg.ttl).0
      ensures reply == FallBackReply(Entry(old(warm.Model()), KeyOf(r), now, cfg.ttl).1, now)
    {
      hide ScopedRenderCache.Valid, ToPrefix, Entry;
      var cached := warm.Read(ToPrefix(r.ns), now);
      if cached.None? { return RenderedContext("", "", now, ColdBody); }
      var body := cached.value.value.body;
      reply := RenderedContext(body + UNREACHABLE_NOTE, body, cached.value.computedAt, StaleBody);
    }

    /** A mutation event: the query is read, the whole cohort goes, and a demoted or collected memory
        is forgotten. The query is what the background re-warm ranks against. */
    method OnMutation(ns: Namespace, forgets: Option<PrivateSlice>, now: int) returns (query: Option<string>)
      requires Valid()
      modifies warm, store
      ensures Valid()
      ensures warm.Model() == PopCohort(Entry(old(warm.Model()), ToPrefix(ns), now, cfg.ttl).0, UserPrefix(ns), cfg.max)
      ensures store.states
              == if forgets.Some? then Forget(old(store.states), ToPrefix(ns), forgets.value, now)
                  else old(store.states)
      ensures query == match Entry(old(warm.Model()), ToPrefix(ns), now, cfg.ttl).1
                       case None => None
                       case Some(slot) => Some(slot.value.query)
    {
      hide ScopedRenderCache.Valid, LiveStateStore.Valid, ToPrefix, UserPrefix, Entry, PopCohort, Forget;
      var cached := warm.Read(ToPrefix(ns), now);
      query := if cached.Some? then Some(cached.value.value.query) else None;
      var _ := warm.PopCohortOf(ns);
      if forgets.Some? { store.ForgetMemory(ToPrefix(ns), forgets.value, now); }
    }

    method OnHostContextReset(ns: Namespace, now: int) returns (cleared: bool)
      requires Valid()
      modifies store
      ensures Valid() && store.states == ClearDigest(old(store.states), ToPrefix(ns), now)
    {
      cleared := store.ClearDigestOf(ToPrefix(ns), now);
    }
  }

  /** A body is handed out as fresh only when it was read after the last drop in its cohort; a render
      that raced one says so. */
  lemma FreshRepliesAreCurrent(cfg: Config, events: seq<Event>, s: RecallBridge.Bridge, id: nat, body: string, now: int)
    requires cfg.max >= 1 && Reaches(cfg, events, s) && id in s.fence.renders
    ensures var r := s.fence.renders[id];
            var reply := ReplyTo(r, body, now, Passes(s.fence, id));
            reply.staleness == FreshBody && reply.body != "" ==> r.began > Last(s.fence.fenced, CohortOfRender(r))
  {
    hide Reaches, Last, CohortOfRender;
    if Passes(s.fence, id) { RecallBridgeProofs.OnlyCurrentBodiesAreCached(cfg, events, s, id); }
  }
}
