/** What the single steps of the recall bridge do to the cache, to the sessions and to what is believed. */
module BridgeSteps {
  import opened Sequences
  import opened OrderedDicts
  import opened Namespaces
  import opened LiveContext
  import opened RenderCache
  import opened RenderFence
  import opened RecallBridge
  import opened RecallBridgeProofs

  /** From `f` to `t` a mutation in `ns` reached `n` when it is of the same user, and left it alone else. */
  ghost predicate ReachesOnlyItsUser(f: Fence, t: Fence, ns: Namespace, n: Namespace) {
    && (SameUser(n, ns) ==> ToPrefix(n) !in t.cache.Keys())
    && (SameUser(n, ns) ==> forall id :: id in t.renders && t.renders[id].ns == n ==> !Passes(t, id))
    && (!SameUser(n, ns) && ToPrefix(n) in f.cache.Keys() ==>
          ToPrefix(n) in t.cache.Keys() && t.cache.entries.items[ToPrefix(n)] == f.cache.entries.items[ToPrefix(n)])
  }

  /** A mutation reaches its user and nobody else: no session of that user is cached any more and no render
      of one that is under way can be, while every other user's body stays as it was. */
  lemma MutationDropsItsUser(cfg: Config, events: seq<Event>, s: Bridge, e: Event, n: Namespace)
    requires cfg.max >= 1 && Reaches(cfg, events, s) && e.Mutation? && Enabled(cfg, s, e)
    ensures ReachesOnlyItsUser(s.fence, FenceStep(cfg, s, e), e.ns, n)
  {
    hide Reaches, FenceInv, Believed, Witnessed, OwnBodies, Invalidate, Read, ReachesOnlyItsUser, ToPrefix, UserPrefix;
    EveryRunIsSound(cfg, events, s);
    DropReachesItsUser(s.fence, e.ns, e.now, cfg.ttl, cfg.max, n);
  }

  lemma DropReachesItsUser(f: Fence, ns: Namespace, now: int, ttl: nat, max: nat, n: Namespace)
    requires FenceInv(f)
    ensures ReachesOnlyItsUser(f, Invalidate(Read(f, ToPrefix(ns), now, ttl), UserPrefix(ns), max), ns, n)
  {
    CohortsSeparateTenants(n, ns);
    PrefixParts(n);
    hide CohortOf, SessionOf, ToPrefix, UserPrefix, FenceInv, Invalidate, Read, Passes, SameUser;
    DropReachesTheCohort(f, ns, now, ttl, max, n);
    DropStopsRenders(f, ns, now, ttl, max);
  }

  lemma DropReachesTheCohort(f: Fence, ns: Namespace, now: int, ttl: nat, max: nat, n: Namespace)
    requires FenceInv(f)
    ensures var t := Invalidate(Read(f, ToPrefix(ns), now, ttl), UserPrefix(ns), max);
            && (CohortOf(ToPrefix(n)) == UserPrefix(ns) ==> ToPrefix(n) !in t.cache.Keys())
            && (CohortOf(ToPrefix(n)) != UserPrefix(ns) && ToPrefix(n) in f.cache.Keys() ==>
                  ToPrefix(n) in t.cache.Keys()
                      && t.cache.entries.items[ToPrefix(n)] == f.cache.entries.items[ToPrefix(n)])
  {
    PrefixParts(ns);
    hide CohortOf, SessionOf, ToPrefix, UserPrefix, Entry, Bump, Dropped, Cache.Members, PopCohort, Distinct,
         HistoryInv, OriginInv, BegunInv, RendersInv, EntriesInv;
    EntryMeaning(f.cache, ToPrefix(ns), now, ttl);
    NobodyHasAFullKey(f.cache, ns);
    CohortDropIsExact(Entry(f.cache, ToPrefix(ns), now, ttl).0, UserPrefix(ns), max);
  }

  lemma DropStopsRenders(f: Fence, ns: Namespace, now: int, ttl: nat, max: nat)
    requires FenceInv(f)
    ensures var t := Invalidate(Read(f, ToPrefix(ns), now, ttl), UserPrefix(ns), max);
            forall id :: id in t.renders && CohortOfRender(t.renders[id]) == UserPrefix(ns) ==> !Passes(t, id)
  {
    hide CohortOf, SessionOf, ToPrefix, UserPrefix, Entry, PopCohort, Distinct, Last, Cache.EpochOf,
         HistoryInv, OriginInv, BegunInv, EntriesInv;
    ReadFenced(f, ToPrefix(ns), now, ttl);
    var read := Read(f, ToPrefix(ns), now, ttl);
    CohortDropIsExact(read.cache, UserPrefix(ns), max);
    var t := Invalidate(read, UserPrefix(ns), max);
    forall id | id in t.renders && CohortOfRender(t.renders[id]) == UserPrefix(ns)
      ensures !Passes(t, id)
    {
      assert Ahead(read, read.renders[id]);
    }
  }

  /** A render whose recall failed reads the cache once more and writes nothing: its session's body becomes
      the newest while it is young enough and goes when it is not. */
  lemma FailedRenderOnlyReads(cfg: Config, s: Bridge, id: nat, now: int)
    requires s.Valid() && id in s.fence.renders
    ensures var f, t, key := s.fence, FenceStep(cfg, s, RecallFails(id, now)), ToPrefix(s.fence.renders[id].ns);
            var young := key in f.cache.Keys() && now - f.cache.entries.items[key].computedAt <= cfg.ttl;
            && t.renders == f.renders - {id} && t.cache.epochs == f.cache.epochs
            && (young ==> t.cache.entries.items == f.cache.entries.items
                          && t.cache.entries.order == Without(f.cache.entries.order, {key}) + [key])
            && (!young ==> t.cache.Keys() == f.cache.Keys() - {key})
            && (forall k :: k in t.cache.Keys() ==> t.cache.entries.items[k] == f.cache.entries.items[k])
  {
    hide ToPrefix, CohortOf, Entry, Distinct;
    FullKeyRead(s.fence.cache, s.fence.renders[id].ns, now, cfg.ttl);
  }

  lemma FullKeyRead(c: Cache<Warm>, ns: Namespace, now: int, ttl: nat)
    requires c.Valid()
    ensures var key, r := ToPrefix(ns), Entry(c, ToPrefix(ns), now, ttl).0;
            var young := key in c.Keys() && now - c.entries.items[key].computedAt <= ttl;
            && (young ==>
                  r.entries.items == c.entries.items && r.entries.order == Without(c.entries.order, {key}) + [key])
            && (!young ==> r.Keys() == c.Keys() - {key})
            && (forall k :: k in r.Keys() ==> r.entries.items[k] == c.entries.items[k])
  {
    hide ToPrefix, CohortOf, SessionOf, Entry, Distinct;
    EntryMeaning(c, ToPrefix(ns), now, ttl);
    NobodyHasAFullKey(c, ns);
    assert ToPrefix(ns) in c.Keys() ==> Names(c, ToPrefix(ns), ToPrefix(ns));
    FullKeyEntry(c, ns, now, ttl);
  }

  /** A render that finds nothing takes its own session's body out. */
  lemma EmptyRenderDropsItsOwn(cfg: Config, s: Bridge, id: nat)
    requires s.Valid() && id in s.fence.renders
    ensures KeyOf(s.fence.renders[id]) !in FenceStep(cfg, s, FinishEmpty(id)).cache.Keys()
  {
    hide CohortOf, ToPrefix, Bump;
  }

  /** What the history says, step by step: a host is handed a body only as the reply to its own render, and a
      line is credited to it only when it stands in the delta of such a render's block. */
  lemma OnlyRepliesAreHanded(cfg: Config, s: Bridge, e: Event, key: string, body: string)
    requires s.Valid() && Enabled(cfg, s, e) && body !in HandedTo(s.handed, key)
    ensures body in HandedTo(HandedStep(cfg, s, e), key) <==>
              && (e.Finish? || e.FinishEmpty? || e.RecallFails?) && s.fence.renders[e.id].forHost
              && ToPrefix(s.fence.renders[e.id].ns) == key && body == ReplyBody(cfg, s, e)
  {
    hide ToPrefix, ReplyBody;
  }

  lemma OnlyDeltasAreCredited(cfg: Config, s: Bridge, e: Event, key: string, l: Line)
    requires s.Valid() && Enabled(cfg, s, e) && l !in WindowOf(s.window, key)
    ensures l in WindowOf(WindowStep(cfg, s, e), key) ==>
              && e.Finish? && s.fence.renders[e.id].forHost && ToPrefix(s.fence.renders[e.id].ns) == key
              && (exists section :: l in At(OutcomeOf(cfg, s.states, s.fence.renders[e.id].ns, e.recalled).a.delta,
                                            section))
              && ReplyBody(cfg, s, e) != ""
  {
    hide ToPrefix, OutcomeOf, Passes;
    if e.Finish? { ReplyShowsTheBlock(cfg, s.states, s.fence.renders[e.id], e.recalled, Passes(s.fence, e.id)); }
  }

  /** A host's reset empties what is believed of that session and keeps its slabs, and touches no other
      session. Its state counts as new from then on when there was anything to forget. */
  lemma ResetForgets(cfg: Config, s: Bridge, ns: Namespace, now: int)
    requires s.Valid()
    ensures var t := StatesStep(cfg, s, HostReset(ns, now));
            && t.items.Keys == s.states.items.Keys
            && (forall k :: k in t.items && k != ToPrefix(ns) ==> t.items[k] == s.states.items[k])
            && (ToPrefix(ns) in t.items ==>
                  var was, state := s.states.items[ToPrefix(ns)], t.items[ToPrefix(ns)];
                  && state.slice == was.slice.(injectedDigest := {}) && state.shared == was.shared
                  && state.updatedAt == if was.slice.injectedDigest == {} then was.updatedAt else now)
    ensures HandedTo(HandedStep(cfg, s, HostReset(ns, now)), ToPrefix(ns)) == []
  {
    hide ToPrefix, Distinct;
  }

  /** A demoted memory's session is left with what forgetting it leaves, as of then; without a memory to
      forget, and in every other session, nothing moves, and no session comes, goes or changes its place. */
  lemma MutationForgets(cfg: Config, s: Bridge, e: Event)
    requires s.Valid() && e.Mutation? && Enabled(cfg, s, e)
    ensures var t := StatesStep(cfg, s, e);
            && t.order == s.states.order && t.items.Keys == s.states.items.Keys
            && var key := ToPrefix(e.ns);
            && (forall k :: k in t.items && (k != key || e.forgets.None?) ==> t.items[k] == s.states.items[k])
            && (key in t.items && e.forgets.Some? ==>
                  t.items[key] == s.states.items[key].(slice := e.forgets.value, updatedAt := e.now))
  {
    hide ToPrefix, Distinct;
  }

  /** Asking for a session's state makes it the newest while it is young enough and removes it when it is
      not; no other session changes. */
  lemma ServedMeaning(states: Store, key: string, now: int, ttl: nat)
    requires states.Valid()
    ensures var t := Served(states, key, now, ttl);
            && (forall k :: k in states.items && k != key ==> k in t.items && t.items[k] == states.items[k])
            && (Continues(states, key, now, ttl) ==>
                  t.items == states.items && t.order == Without(states.order, {key}) + [key])
            && (!Continues(states, key, now, ttl) ==> t.items.Keys == states.items.Keys - {key})
  {
    hide Distinct;
  }

  /** What a session's state is when a render asks for it: the one stored while it is young enough, else
      one that knows nothing. */
  predicate Continues(states: Store, key: string, now: int, ttl: nat) {
    key in states.items && now - states.items[key].updatedAt <= ttl
  }

  /** What a finished render leaves of its session. Everything recall does not write is as it was, or empty
      when there was nothing young enough; the state is the newest of at most `max`; its etag is that of
      the reply; and the digest changes exactly when the host was handed something. */
  lemma RenderKeepsTheRest(cfg: Config, s: Bridge, id: nat, recalled: Recalled, injected: set<Hash>)
    requires s.Valid() && id in s.fence.renders && cfg.max >= 1
    ensures var r := s.fence.renders[id];
            var key, o := KeyOf(r), OutcomeOf(cfg, s.states, r.ns, recalled);
            var reply := ReplyTo(r, o.body, recalled.now, Passes(s.fence, id));
            var t := StatesAfter(cfg, s.states, r, recalled, o, injected);
            && key in t.items && |t.order| <= cfg.max && t.order[|t.order| - 1] == key
            && t.items[key].updatedAt == recalled.now && t.items[key].etag == reply.etag
            && (var slice := t.items[key].slice;
                var was := if Continues(s.states, key, recalled.now, cfg.ttl) then s.states.items[key].slice
                           else PrivateSlice("", [], [], [], [], {});
                && slice.personaBrief == was.personaBrief && slice.reasoning == was.reasoning
                && slice.toolState == was.toolState
                && slice.injectedDigest == if r.forHost && reply.body != "" then injected else was.injectedDigest)
            && (Continues(s.states, key, recalled.now, cfg.ttl) ==> t.items[key].shared == s.states.items[key].shared)
            && (forall k :: k in t.items && k != key ==> k in s.states.items && t.items[k] == s.states.items[k])
  {
    hide ToPrefix, Assemble, SlabsOf, AssemblyBudget, Served, PutState, Dict.Stored, Passes, SpillNote, WhereFloor;
    var r := s.fence.renders[id];
    var key, o := KeyOf(r), OutcomeOf(cfg, s.states, r.ns, recalled);
    ReplyShowsTheBlock(cfg, s.states, r, recalled, Passes(s.fence, id));
    var slice := if Sends(r, o.body) then o.slice.(injectedDigest := injected) else o.slice;
    var state := o.live.(slice := slice, updatedAt := recalled.now, etag := o.body);
    PutStateKeeps(s.states, key, recalled.now, cfg.ttl, state, cfg.max);
    PutStateIsNewest(Served(s.states, key, recalled.now, cfg.ttl), key, state, cfg.max);
  }

  lemma PutStateIsNewest(states: Store, key: string, state: LiveState, max: nat)
    requires states.Valid() && max >= 1
    ensures var t := PutState(states, key, state, max);
            key in t.items && |t.order| <= max && t.order != [] && t.order[|t.order| - 1] == key
  {
    hide Distinct, Dict.Stored, Dict.Capped;
    StoredLast(states, key, state);
    NewestKept(states.Stored(key, state), key, max);
  }

  /** An accepted write caches the snapshot, under the query the render was for and at the render's
      instant. */
  lemma RenderCachesItsSnapshot(cfg: Config, s: Bridge, id: nat, recalled: Recalled, injected: set<Hash>)
    requires s.Valid() && Enabled(cfg, s, Finish(id, recalled, injected)) && cfg.max >= 1
    ensures var r, t := s.fence.renders[id], FenceStep(cfg, s, Finish(id, recalled, injected));
            && (Passes(s.fence, id) ==>
                  KeyOf(r) in t.cache.Keys() &&
                  var slot := t.cache.entries.items[KeyOf(r)];
                  && slot.value.body == OutcomeOf(cfg, s.states, r.ns, recalled).a.SnapshotBody()
                  && slot.value.query == r.query && slot.value.began == r.began && slot.computedAt == recalled.now)
            && (!Passes(s.fence, id) ==> t.cache == s.fence.cache)
  {
    hide ToPrefix, CohortOf, OutcomeOf, BoundedUnion, Cache.EpochOf, Put, Distinct;
    var r := s.fence.renders[id];
    var body := OutcomeOf(cfg, s.states, r.ns, recalled).a.SnapshotBody();
    PutMeaning(s.fence.cache, KeyOf(r), Slot(Warm(body, r.query, r.began), recalled.now), r.epoch, cfg.max);
  }

  /** What a render ranks for: the prompt when there is one, else the query its cached body was ranked for,
      else the session. */
  lemma QueryMeaning(f: Fence, id: nat, ns: Namespace, query: Option<string>, knownEtag: Option<string>, forHost: bool,
                     now: int, ttl: nat)
    requires f.cache.Valid()
    ensures var r := RenderFence.Begin(f, id, ns, query, knownEtag, forHost, now, ttl).renders[id];
            var key := ToPrefix(ns);
            var warm := key in f.cache.Keys() && now - f.cache.entries.items[key].computedAt <= ttl;
            && r.ns == ns && r.knownEtag == knownEtag && r.forHost == forHost
            && (query.Some? && query.value != "" ==> r.query == query.value)
            && (!(query.Some? && query.value != "") && warm && f.cache.entries.items[key].value.query != "" ==>
                  r.query == f.cache.entries.items[key].value.query)
            && (!(query.Some? && query.value != "") && (!warm || f.cache.entries.items[key].value.query == "") ==>
                  r.query == ns.session)
  {
    hide ToPrefix, CohortOf, Entry, Cache.EpochOf, Distinct;
    FullKeyEntry(f.cache, ns, now, ttl);
  }

  lemma FullKeyEntry(c: Cache<Warm>, ns: Namespace, now: int, ttl: nat)
    requires c.Valid()
    ensures var key := ToPrefix(ns);
            Entry(c, key, now, ttl).1
            == if key in c.Keys() && now - c.entries.items[key].computedAt <= ttl then Some(c.entries.items[key])
               else None
  {
    hide ToPrefix, CohortOf, SessionOf, Entry, Distinct;
    EntryMeaning(c, ToPrefix(ns), now, ttl);
    NobodyHasAFullKey(c, ns);
    assert ToPrefix(ns) in c.Keys() ==> Names(c, ToPrefix(ns), ToPrefix(ns));
  }
}
