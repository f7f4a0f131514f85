/** What holds over every run of the recall bridge: the epoch fence, the soundness of its belief
    about what the host already holds, and what that means for the facts it leaves out. */
module RecallBridgeProofs {
  import opened Sequences
  import opened OrderedDicts
  import opened Namespaces
  import opened Text
  import opened LiveContext
  import opened CeilingProofs
  import opened AssemblyProofs
  import opened AccountingProofs
  import opened RenderCache
  import opened RenderFence
  import opened RecallBridge

  // ---------------------------------------------------------------- belief

  ghost predicate Holds(window: set<Line>, h: Hash) {
    exists l :: l in window && l.hash == Some(h)
  }

  ghost predicate AllHeld(window: set<Line>, digest: set<Hash>) {
    forall h :: h in digest ==> Holds(window, h)
  }

  /** Everything a session's host is believed to hold was in a body it was sent since its reset. */
  ghost predicate Believed(states: Store, window: map<string, set<Line>>) {
    forall k :: k in states.items ==> AllHeld(WindowOf(window, k), states.items[k].slice.injectedDigest)
  }

  /** A hash the assembler reports as emitted is on a line of the block. */
  lemma EmittedAreSent(block: Block)
    ensures AllHeld(LinesOf(block), ToSet(Emitted(block)))
  {
    hide Emitted, LinesOf;
    EmittedMeaning(block);
    forall h | h in ToSet(Emitted(block))
      ensures Holds(LinesOf(block), h)
    {
      CarriedIsHeld(block, h);
    }
  }

  lemma CarriedIsHeld(block: Block, h: Hash)
    requires Carries(block, h)
    ensures Holds(LinesOf(block), h)
  {
    var s: Section :| h in LineHashes(At(block, s));
    EverySectionHasAPlace(s);
    var l := LineWith(At(block, s), h);
    assert l in LinesOf(block);
  }

  lemma LineWith(lines: seq<Line>, h: Hash) returns (l: Line)
    requires h in LineHashes(lines)
    ensures l in lines && l.hash == Some(h)
  {
    if lines[0].hash == Some(h) { l := lines[0]; } else { l := LineWith(lines[1..], h); }
  }

  lemma HeldUnion(a: set<Line>, b: set<Line>, x: set<Hash>, y: set<Hash>, digest: set<Hash>)
    requires AllHeld(a, x) && AllHeld(b, y) && digest <= x + y
    ensures AllHeld(a + b, digest)
  {
    forall h | h in digest
      ensures Holds(a + b, h)
    {
      if h in x {
        var l :| l in a && l.hash == Some(h);
        assert l in a + b;
      } else {
        var l :| l in b && l.hash == Some(h);
        assert l in a + b;
      }
    }
  }

  lemma ServedKeeps(states: Store, key: string, now: int, ttl: nat)
    requires states.Valid()
    ensures forall k :: k in Served(states, key, now, ttl).items ==>
              k in states.items && Served(states, key, now, ttl).items[k] == states.items[k]
  {
    hide Dict.Touched, Dict.Removed, Distinct;
  }

  /** Serving, storing and capping only ever keep states the store had, or the one just put. */
  lemma PutStateKeeps(states: Store, key: string, now: int, ttl: nat, state: LiveState, max: nat)
    requires states.Valid()
    ensures var t := PutState(Served(states, key, now, ttl), key, state, max);
            forall k :: k in t.items ==>
                if k == key then t.items[k] == state else k in states.items && t.items[k] == states.items[k]
  {
    hide Served, Dict.Stored, Dict.Capped, Distinct;
    ServedKeeps(states, key, now, ttl);
    CappedMeaning(Served(states, key, now, ttl).Stored(key, state), max);
  }

  lemma ServedIsBelieved(states: Store, window: map<string, set<Line>>, key: string, now: int, ttl: nat)
    requires Believed(states, window)
    ensures AllHeld(WindowOf(window, key), StateFor(states, key, now, ttl).slice.injectedDigest)
  {}

  lemma FinishBelieved(cfg: Config, s: Bridge, id: nat, recalled: Recalled, injected: set<Hash>)
    requires s.states.Valid() && Believed(s.states, s.window) && id in s.fence.renders
    requires BoundedUnion(OutcomeOf(cfg, s.states, s.fence.renders[id].ns, recalled), injected)
    ensures var r := s.fence.renders[id];
            var o := OutcomeOf(cfg, s.states, r.ns, recalled);
            Believed(StatesAfter(cfg, s.states, r, recalled, o, injected), WindowAfter(s.window, r, o))
  {
    hide ToPrefix, Build, Ceiling, Emitted, RenderLines, FullRender, LinesOf, AllHeld, StateFor, Dict.Stored, Served,
         PutState;
    var r := s.fence.renders[id];
    var key := ToPrefix(r.ns);
    var o := OutcomeOf(cfg, s.states, r.ns, recalled);
    var slice := if Sends(r, o.body) then o.slice.(injectedDigest := injected) else o.slice;
    var state := o.live.(slice := slice, updatedAt := recalled.now, etag := o.body);
    PutStateKeeps(s.states, key, recalled.now, cfg.ttl, state, cfg.max);
    ServedIsBelieved(s.states, s.window, key, recalled.now, cfg.ttl);
    EmittedAreSent(o.a.delta);
    var window := WindowAfter(s.window, r, o);
    if Sends(r, o.body) {
      HeldUnion(WindowOf(s.window, key), LinesOf(o.a.delta), o.slice.injectedDigest, ToSet(o.a.emitted), injected);
    }
    assert AllHeld(WindowOf(window, key), state.slice.injectedDigest);
    var t := StatesAfter(cfg, s.states, r, recalled, o, injected);
    forall k | k in t.items
      ensures AllHeld(WindowOf(window, k), t.items[k].slice.injectedDigest)
    {
      assert k != key ==> WindowOf(window, k) == WindowOf(s.window, k);
    }
  }

  lemma StatesStayBelieved(states: Store, t: Store, window: map<string, set<Line>>)
    requires Believed(states, window)
    requires forall k :: k in t.items ==>
               k in states.items && t.items[k].slice.injectedDigest <= states.items[k].slice.injectedDigest
    ensures Believed(t, window)
  {}

  lemma ResetBelieved(states: Store, window: map<string, set<Line>>, key: string, now: int)
    requires states.Valid() && Believed(states, window)
    ensures Believed(ClearDigest(states, key, now), window[key := {}])
  {}

  lemma StepBelieved(cfg: Config, s: Bridge, e: Event)
    requires s.states.Valid() && Believed(s.states, s.window) && Enabled(cfg, s, e)
    ensures Believed(StatesStep(cfg, s, e), WindowStep(cfg, s, e))
  {
    hide ToPrefix, OutcomeOf, BoundedUnion, Believed, StatesAfter, WindowAfter, ClearDigest, Dict.Valid;
    match e
    case Finish(id, recalled, injected) => FinishBelieved(cfg, s, id, recalled, injected);
    case Mutation(ns, forgets, now) =>
      if forgets.Some? { StatesStayBelieved(s.states, Forget(s.states, ToPrefix(ns), forgets.value, now), s.window); }
    case HostReset(ns, now) => ResetBelieved(s.states, s.window, ToPrefix(ns), now);
    case _ =>
  }

  // ---------------------------------------------------------------- the fence

  lemma StepFenced(cfg: Config, s: Bridge, e: Event)
    requires s.Valid() && FenceInv(s.fence) && Enabled(cfg, s, e) && cfg.max >= 1
    ensures FenceInv(FenceStep(cfg, s, e))
  {
    hide ToPrefix, UserPrefix, CohortOf, OutcomeOf, BoundedUnion, FenceInv, Passes, Last,
         RenderFence.Begin, Read, Leave, FindNothing, RenderFence.Finish, Invalidate;
    match e
    case Begin(id, ns, query, knownEtag, forHost, now) =>
      BeginFenced(s.fence, id, ns, query, knownEtag, forHost, now, cfg.ttl);
    case RecallFails(id, now) =>
      ReadFenced(s.fence, KeyOf(s.fence.renders[id]), now, cfg.ttl);
      LeaveFenced(Read(s.fence, KeyOf(s.fence.renders[id]), now, cfg.ttl), id);
    case Abandon(id) => LeaveFenced(s.fence, id);
    case FinishEmpty(id) => FindNothingFenced(s.fence, id, cfg.max);
    case Finish(id, recalled, _) =>
      FinishFenced(s.fence, id, OutcomeOf(cfg, s.states, s.fence.renders[id].ns, recalled).a.SnapshotBody(),
                   recalled.now, cfg.max);
    case Mutation(ns, _, now) =>
      ReadFenced(s.fence, ToPrefix(ns), now, cfg.ttl);
      InvalidateFenced(Read(s.fence, ToPrefix(ns), now, cfg.ttl), UserPrefix(ns), cfg.max);
    case HostReset(_, _) =>
    case WarmRead(key, now) => ReadFenced(s.fence, key, now, cfg.ttl);
  }

  // ---------------------------------------------------------------- what the host is handed

  /** Every credited line stands in the body of a reply the host was handed since its reset. */
  ghost predicate Witnessed(window: map<string, set<Line>>, handed: map<string, seq<string>>) {
    forall k, l :: l in WindowOf(window, k) ==> WasHanded(HandedTo(handed, k), l.text)
  }

  ghost predicate WasHanded(bodies: seq<string>, text: string) {
    exists b :: b in bodies && Occurs(text, b)
  }

  /** Main result on the reply. A host render that has something to add is answered with a body in which
      every line of the block stands, and the path of the spill when something was left out; under the
      digest of the block; as fresh exactly when the fence let the block into the cache. Any other reply
      of a completed render has the same digest and, from a host, an empty body. */
  lemma ReplyShowsTheBlock(cfg: Config, states: Store, r: Render, recalled: Recalled, cached: bool)
    ensures var o := OutcomeOf(cfg, states, r.ns, recalled);
            var reply := ReplyTo(r, o.body, recalled.now, cached);
            && reply.etag == o.body && reply.computedAt == recalled.now
            && (Sends(r, o.body) ==>
                  && (forall s: Section, l :: l in At(o.a.delta, s) ==> Occurs(l.text, reply.body))
                  && (o.a.trimmed ==> Occurs(cfg.spillPath(r.ns), reply.body))
                  && (reply.staleness == FreshBody <==> cached) && reply.staleness != ColdBody)
            && (r.forHost ==> (reply.body == "" <==> !Sends(r, o.body)))
            && (!Sends(r, o.body) && r.forHost ==> reply.staleness == FreshBody)
  {
    hide Assemble, UpdateRecalled, StateFor, AssemblyBudget, SlabsOf, Occurs, RenderLines, At, SpillNote;
    var o := OutcomeOf(cfg, states, r.ns, recalled);
    var reply := ReplyTo(r, o.body, recalled.now, cached);
    if Sends(r, o.body) {
      NoteNamesThePath(cfg.spillPath(r.ns));
      OccursInFront(o.a.Body(), o.a.Body(), SpillNote(cfg.spillPath(r.ns)));
      OccursInBody(cfg.spillPath(r.ns), o.a.Body(), SpillNote(cfg.spillPath(r.ns)));
      OccursInFront(cfg.spillPath(r.ns), o.body, RACED_NOTE);
      forall s: Section, l | l in At(o.a.delta, s)
        ensures Occurs(l.text, reply.body)
      {
        DeltaLineIsInBody(o.a, s, l);
        OccursInFront(l.text, o.a.Body(), SpillNote(cfg.spillPath(r.ns)));
        OccursInFront(l.text, o.body, RACED_NOTE);
      }
    }
  }

  lemma OccursInFront(part: string, whole: string, after: string)
    ensures Occurs(part, whole) ==> Occurs(part, whole + after)
  {
    if Occurs(part, whole) {
      var i :| OccursAt(part, whole, i);
      assert OccursAt(part, whole + after, i);
    }
  }

  lemma OccursInBody(part: string, before: string, whole: string)
    ensures Occurs(part, whole) ==> Occurs(part, before + whole)
  {
    if Occurs(part, whole) { OccursAfter(part, before, whole); }
  }

  lemma NoteNamesThePath(path: string)
    ensures Occurs(path, SpillNote(path))
  {
    var front := "\n\U{2026} (full context spilled to ";
    assert SpillNote(path) == front + path + ")";
    assert OccursAt(path, front + path + ")", |front|);
  }

  /** When the recall failed the host gets the cached body it had, marked stale and with its own instant,
      or a cold, empty reply. */
  lemma FallBackShowsTheWarmBody(cached: Option<Slot<Warm>>, now: int)
    ensures var reply := FallBackReply(cached, now);
            && (cached.None? ==> reply.body == "" && reply.staleness == ColdBody && reply.computedAt == now)
            && (cached.Some? ==> Occurs(cached.value.value.body, reply.body) && reply.staleness == StaleBody
                                 && reply.computedAt == cached.value.computedAt)
  {
    if cached.Some? {
      assert OccursAt(cached.value.value.body, FallBackReply(cached, now).body, 0);
    }
  }

  lemma HandedMore(bodies: seq<string>, body: string, text: string)
    ensures WasHanded(bodies, text) || Occurs(text, body) ==> WasHanded(bodies + [body], text)
  {
    hide Occurs;
    if WasHanded(bodies, text) {
      var b :| b in bodies && Occurs(text, b);
      assert b in bodies + [body];
    }
    assert (bodies + [body])[|bodies|] == body;
  }

  lemma LineIsInASection(block: Block, l: Line)
    requires l in LinesOf(block)
    ensures exists s: Section :: l in At(block, s)
  {}

  lemma FinishWitnessed(cfg: Config, s: Bridge, e: Event)
    requires s.Valid() && Witnessed(s.window, s.handed) && Enabled(cfg, s, e) && e.Finish?
    ensures Witnessed(WindowStep(cfg, s, e), HandedStep(cfg, s, e))
  {
    hide OutcomeOf, ReplyTo, WasHanded, ToPrefix, Passes, LinesOf, BoundedUnion;
    var r := s.fence.renders[e.id];
    var key := KeyOf(r);
    var o := OutcomeOf(cfg, s.states, r.ns, e.recalled);
    var body := ReplyBody(cfg, s, e);
    ReplyShowsTheBlock(cfg, s.states, r, e.recalled, Passes(s.fence, e.id));
    var window, handed := WindowStep(cfg, s, e), HandedStep(cfg, s, e);
    forall k, l | l in WindowOf(window, k)
      ensures WasHanded(HandedTo(handed, k), l.text)
    {
      HandedMore(HandedTo(s.handed, k), body, l.text);
      if l !in WindowOf(s.window, k) { LineIsInASection(o.a.delta, l); }
    }
  }

  lemma StepWitnessed(cfg: Config, s: Bridge, e: Event)
    requires s.Valid() && Witnessed(s.window, s.handed) && Enabled(cfg, s, e)
    ensures Witnessed(WindowStep(cfg, s, e), HandedStep(cfg, s, e))
  {
    hide OutcomeOf, ReplyBody, WasHanded, ToPrefix, Passes, BoundedUnion;
    if e.Finish? {
      FinishWitnessed(cfg, s, e);
    } else {
      var window, handed := WindowStep(cfg, s, e), HandedStep(cfg, s, e);
      forall k, l | l in WindowOf(window, k)
        ensures WasHanded(HandedTo(handed, k), l.text)
      {
        assert WasHanded(HandedTo(s.handed, k), l.text);
        if e.RecallFails? || e.FinishEmpty? { HandedMore(HandedTo(s.handed, k), ReplyBody(cfg, s, e), l.text); }
      }
    }
  }

  // ---------------------------------------------------------------- whose body is cached

  /** Every cached body is a snapshot that was rendered for the namespace its key is of. */
  ghost predicate OwnBodies(s: Bridge) {
    forall k :: k in s.fence.cache.Keys() ==> OwnBody(s.rendered, k, s.fence.cache.entries.items[k].value.body)
  }

  ghost predicate OwnBody(rendered: set<(Namespace, string)>, key: string, body: string) {
    exists ns: Namespace :: (ns, body) in rendered && ToPrefix(ns) == key
  }

  lemma OwnBodyStays(rendered: set<(Namespace, string)>, more: set<(Namespace, string)>, key: string, body: string)
    requires OwnBody(rendered, key, body) && rendered <= more
    ensures OwnBody(more, key, body)
  {
    hide ToPrefix;
    var ns: Namespace :| (ns, body) in rendered && ToPrefix(ns) == key;
    assert (ns, body) in more;
  }

  /** Every step but a finish only takes entries away. */
  lemma OthersShrink(cfg: Config, s: Bridge, e: Event)
    requires s.Valid() && Enabled(cfg, s, e) && !e.Finish?
    ensures OnlyShrinks(s.fence.cache, FenceStep(cfg, s, e).cache)
  {
    hide ToPrefix, UserPrefix, CohortOf, QueryFor, Entry, Cache.EpochOf, BoundedUnion, Bump, Dropped, Cache.Members;
    match e
    case Begin(_, ns, _, _, _, now) => ReadShrinks(s.fence.cache, ToPrefix(ns), now, cfg.ttl);
    case RecallFails(id, now) => ReadShrinks(s.fence.cache, KeyOf(s.fence.renders[id]), now, cfg.ttl);
    case Abandon(_) =>
    case FinishEmpty(id) =>
      var key := KeyOf(s.fence.renders[id]);
      DropRaises(s.fence.cache, CohortOf(key), cfg.max, {key});
      DroppedHolds(Bump(s.fence.cache, CohortOf(key), cfg.max), {key});
    case Finish(_, _, _) =>
    case Mutation(ns, _, now) =>
      ReadShrinks(s.fence.cache, ToPrefix(ns), now, cfg.ttl);
      var read := Entry(s.fence.cache, ToPrefix(ns), now, cfg.ttl).0;
      DropRaises(read, UserPrefix(ns), cfg.max, read.Members(UserPrefix(ns)));
    case HostReset(_, _) =>
    case WarmRead(key, now) => ReadShrinks(s.fence.cache, key, now, cfg.ttl);
  }

  lemma DroppedHolds(c: Cache<Warm>, gone: set<string>)
    requires c.Valid()
    ensures forall k :: k in Dropped(c, gone).Keys() ==>
            k in c.Keys() && Dropped(c, gone).entries.items[k] == c.entries.items[k]
  {}

  lemma StepKeepsOwnBodies(cfg: Config, s: Bridge, e: Event)
    requires s.Valid() && OwnBodies(s) && Enabled(cfg, s, e) && cfg.max >= 1
    ensures OwnBodies(Step(cfg, s, e))
  {
    hide ToPrefix, CohortOf, OutcomeOf, OwnBody, FenceStep, StatesStep, WindowStep, HandedStep, BoundedUnion,
         Cache.EpochOf;
    var t := Step(cfg, s, e);
    if e.Finish? {
      FinishKeepsOwnBodies(cfg, s, e);
    } else {
      OthersShrink(cfg, s, e);
      forall k | k in t.fence.cache.Keys()
        ensures OwnBody(t.rendered, k, t.fence.cache.entries.items[k].value.body)
      {
        OwnBodyStays(s.rendered, t.rendered, k, s.fence.cache.entries.items[k].value.body);
      }
    }
  }

  lemma FinishKeepsOwnBodies(cfg: Config, s: Bridge, e: Event)
    requires s.Valid() && OwnBodies(s) && Enabled(cfg, s, e) && e.Finish? && cfg.max >= 1
    ensures OwnBodies(Step(cfg, s, e))
  {
    hide ToPrefix, CohortOf, OutcomeOf, OwnBody, StatesStep, WindowStep, HandedStep, BoundedUnion, Cache.EpochOf, Put,
         Distinct;
    var t := Step(cfg, s, e);
    var r := s.fence.renders[e.id];
    var body := OutcomeOf(cfg, s.states, r.ns, e.recalled).a.SnapshotBody();
    PutMeaning(s.fence.cache, KeyOf(r), Slot(Warm(body, r.query, r.began), e.recalled.now), r.epoch, cfg.max);
    NowOwn(t.rendered, r.ns, body);
    forall k | k in t.fence.cache.Keys()
      ensures OwnBody(t.rendered, k, t.fence.cache.entries.items[k].value.body)
    {
      if k in s.fence.cache.Keys() {
        OwnBodyStays(s.rendered, t.rendered, k, s.fence.cache.entries.items[k].value.body);
      }
    }
  }

  lemma NowOwn(rendered: set<(Namespace, string)>, ns: Namespace, body: string)
    ensures (ns, body) in rendered ==> OwnBody(rendered, ToPrefix(ns), body)
  {
    hide ToPrefix;
  }

  // ---------------------------------------------------------------- every run

  ghost predicate Sound(s: Bridge) {
    s.Valid() && FenceInv(s.fence) && Believed(s.states, s.window) && Witnessed(s.window, s.handed) && OwnBodies(s)
  }

  lemma {:induction false} EveryRunIsSound(cfg: Config, events: seq<Event>, s: Bridge)
    requires cfg.max >= 1 && Reaches(cfg, events, s)
    ensures Sound(s)
    decreases |events|
  {
    hide FenceStep, StatesStep, WindowStep, HandedStep, RenderedStep, Enabled, Believed, Witnessed, OwnBodies,
         HistoryInv, OriginInv, BegunInv, RendersInv, EntriesInv;
    if events == [] {
      StartIsSound();
    } else {
      var e := events[|events| - 1];
      var before: Bridge :| Reaches(cfg, events[..|events| - 1], before) && before.Valid() && Enabled(cfg, before, e)
                            && s == Step(cfg, before, e);
      EveryRunIsSound(cfg, events[..|events| - 1], before);
      StepFenced(cfg, before, e);
      StepBelieved(cfg, before, e);
      StepWitnessed(cfg, before, e);
      StepKeepsOwnBodies(cfg, before, e);
    }
  }

  lemma StartIsSound()
    ensures Sound(FirstState())
  {
    hide CohortOf;
  }

  /** Main result on the fence, over every interleaving: a cached body was read after its cohort was
      last invalidated and after its own key was last dropped. */
  lemma CachedBodiesAreCurrent(cfg: Config, events: seq<Event>, s: Bridge, key: string)
    requires cfg.max >= 1 && Reaches(cfg, events, s) && key in s.fence.cache.Keys()
    ensures var began := s.fence.cache.entries.items[key].value.began;
            began > Last(s.fence.dropped, CohortOf(key)) && began > Last(s.fence.popped, key)
  {
    hide CohortOf, Last, Reaches, HistoryInv, OriginInv, BegunInv, RendersInv, Believed, Witnessed, OwnBodies;
    EveryRunIsSound(cfg, events, s);
    assert Later(s.fence, key, s.fence.cache.entries.items[key]);
  }

  /** Against the last drop of either kind in its cohort that holds exactly as long as no sibling's key
      was dropped since the body was read. */
  lemma CachedBodiesAreFencedExactly(cfg: Config, events: seq<Event>, s: Bridge, key: string)
    requires cfg.max >= 1 && Reaches(cfg, events, s) && key in s.fence.cache.Keys()
    ensures var began := s.fence.cache.entries.items[key].value.began;
            began > Last(s.fence.fenced, CohortOf(key))
            <==> forall sibling :: sibling != key && CohortOf(sibling) == CohortOf(key) ==>
                began > Last(s.fence.popped, sibling)
  {
    hide CohortOf, Last, Reaches, FenceInv, Believed, Witnessed, OwnBodies;
    EveryRunIsSound(cfg, events, s);
    FencedUnlessSiblingPopped(s.fence, key);
  }

  /** A body the fence lets through was read after the last drop of either kind in its cohort. */
  lemma OnlyCurrentBodiesAreCached(cfg: Config, events: seq<Event>, s: Bridge, id: nat)
    requires cfg.max >= 1 && Reaches(cfg, events, s) && id in s.fence.renders && Passes(s.fence, id)
    ensures s.fence.renders[id].began > Last(s.fence.fenced, CohortOfRender(s.fence.renders[id]))
  {
    hide CohortOf, ToPrefix, Last, Reaches, HistoryInv, OriginInv, BegunInv, EntriesInv, Believed, Witnessed, OwnBodies;
    EveryRunIsSound(cfg, events, s);
    assert Ahead(s.fence, s.fence.renders[id]);
  }

  /** The host was shown a line credited with `h`: the line stands in the body of a reply it was handed. */
  ghost predicate WasShown(window: set<Line>, bodies: seq<string>, h: Hash) {
    exists l :: l in window && l.hash == Some(h) && WasHanded(bodies, l.text)
  }

  /** Over every run, what is recorded as a host's window is what its host was handed: each line stands in
      the body of a reply given to it since its context was last reset. */
  lemma WindowWasHanded(cfg: Config, events: seq<Event>, s: Bridge, key: string, l: Line)
    requires cfg.max >= 1 && Reaches(cfg, events, s) && l in WindowOf(s.window, key)
    ensures exists body :: body in HandedTo(s.handed, key) && Occurs(l.text, body)
  {
    hide Reaches, FenceInv, Believed, OwnBodies, WindowOf, Occurs;
    EveryRunIsSound(cfg, events, s);
    assert WasHanded(HandedTo(s.handed, key), l.text);
  }

  /** Main result on belief, over every run: whatever the digest says a host holds was on a line that
      stands in the body of a reply handed to that host since its context was last reset. */
  lemma BeliefIsSound(cfg: Config, events: seq<Event>, s: Bridge, key: string, h: Hash)
    requires cfg.max >= 1 && Reaches(cfg, events, s)
    requires key in s.states.items && h in s.states.items[key].slice.injectedDigest
    ensures exists l, body :: && l in WindowOf(s.window, key) && l.hash == Some(h)
                              && body in HandedTo(s.handed, key) && Occurs(l.text, body)
  {
    hide Reaches, FenceInv, WindowOf, OwnBodies, Occurs;
    EveryRunIsSound(cfg, events, s);
    assert AllHeld(WindowOf(s.window, key), s.states.items[key].slice.injectedDigest);
    assert Holds(WindowOf(s.window, key), h);
    var l :| l in WindowOf(s.window, key) && l.hash == Some(h);
    assert WasHanded(HandedTo(s.handed, key), l.text);
  }

  /** Main result on tenancy, over every run: a body served for a namespace is a snapshot that was rendered
      for that very tenant, user and session, it is no older than the limit, and it was read after
      the last drop of its cohort. */
  lemma ServedBodyIsTheTenants(cfg: Config, events: seq<Event>, s: Bridge, ns: Namespace, now: int)
    requires cfg.max >= 1 && Reaches(cfg, events, s) && Entry(s.fence.cache, ToPrefix(ns), now, cfg.ttl).1.Some?
    ensures var slot := Entry(s.fence.cache, ToPrefix(ns), now, cfg.ttl).1.value;
            && now - slot.computedAt <= cfg.ttl && slot.value.began > Last(s.fence.dropped, UserPrefix(ns))
            && exists n: Namespace :: (n, slot.value.body) in s.rendered && SameUser(n, ns) && n.session == ns.session
  {
    PrefixParts(ns);
    hide CohortOf, SessionOf, ToPrefix, UserPrefix, Last, Reaches, HistoryInv, OriginInv, BegunInv, RendersInv,
         Believed,
         Witnessed, Entry, Distinct;
    EveryRunIsSound(cfg, events, s);
    var c, key := s.fence.cache, ToPrefix(ns);
    EntryMeaning(c, key, now, cfg.ttl);
    NobodyHasAFullKey(c, ns);
    assert Names(c, key, key);
    assert Later(s.fence, key, c.entries.items[key]) && OwnBody(s.rendered, key, c.entries.items[key].value.body);
    var n: Namespace :| (n, c.entries.items[key].value.body) in s.rendered && ToPrefix(n) == key;
    PrefixParts(n);
    CohortsSeparateTenants(n, ns);
  }

  lemma NobodyHasAFullKey(c: Cache<Warm>, ns: Namespace)
    ensures c.Holders(ToPrefix(ns)) == {}
  {
    assert ToPrefix(ns)[|UserPrefix(ns)|] == '/';
    hide ToPrefix, SessionOf;
    forall k | k in c.Keys()
      ensures SessionOf(k) != ToPrefix(ns)
    {
      SessionHasNoSlash(k);
    }
  }

  lemma SessionHasNoSlash(key: string)
    ensures NoSlash(SessionOf(key))
  {}

  /** What goes to the host fits the configured ceiling, spill note included, unless the ceiling is
      too small to hold the note beside the smallest block. */
  lemma SentBodyFits(cfg: Config, states: Store, ns: Namespace, recalled: Recalled)
    ensures |OutcomeOf(cfg, states, ns, recalled).body|
            <= Max(cfg.bodyBudget, MIN_ASSEMBLY_BUDGET + |SpillNote(cfg.spillPath(ns))|)
  {
    hide Assemble, UpdateRecalled, StateFor, SpillNote;
    var o := OutcomeOf(cfg, states, ns, recalled);
    BodiesWithinBudget(o.live.shared, o.slice, AssemblyBudget(cfg, ns), cfg.budgets, recalled.score, recalled.gate);
  }

  // ---------------------------------------------------------------- nothing is withheld silently

  /** Where a text with this hash ended up: on a line that stands in the body of a reply the host was
      handed since its reset, in the spill the body points to, or behind a pointer reference that
      claimed its hash first. */
  ghost predicate Placed(cfg: Config, o: Outcome, window: set<Line>, bodies: seq<string>, h: Hash, text: string) {
    || WasShown(window, bodies, h)
    || (o.a.trimmed && Occurs("- " + text, o.a.fullBody))
    || Shadowed(o.live.shared, o.slice, cfg.budgets, h)
  }

  /** What the host was handed, the reply to this render included. */
  function HandedNow(cfg: Config, s: Bridge, id: nat, recalled: Recalled): seq<string>
    requires id in s.fence.renders
  {
    var r := s.fence.renders[id];
    var o := OutcomeOf(cfg, s.states, r.ns, recalled);
    HandedTo(s.handed, KeyOf(r)) + [ReplyTo(r, o.body, recalled.now, Passes(s.fence, id)).body]
  }

  /** Main result on the two together. Whenever a host render completes and the host did not claim to
      hold the block already, every text slab of the session is placed. Suppressing a fact is never
      silent: the host was really handed it. */
  lemma NothingIsWithheldSilently(cfg: Config, events: seq<Event>, s: Bridge, id: nat, recalled: Recalled, t: Slab)
    requires cfg.max >= 1 && Reaches(cfg, events, s) && id in s.fence.renders
    requires var r := s.fence.renders[id];
             var o := OutcomeOf(cfg, s.states, r.ns, recalled);
             r.forHost && r.knownEtag != Some(o.body) && IsCandidate(o.live.shared, o.slice, t) && t.text.Some?
    ensures var r := s.fence.renders[id];
            var o := OutcomeOf(cfg, s.states, r.ns, recalled);
            Placed(cfg, o, WindowOf(WindowAfter(s.window, r, o), KeyOf(r)), HandedNow(cfg, s, id, recalled),
                   t.hash, t.text.value)
  {
    hide Reaches, ToPrefix, Build, Ceiling, Emitted, RenderLines, FullRender, LinesOf, AllHeld, StateFor, Shadowed,
         IsCandidate, Occurs, FenceInv, Holds, OwnBodies, Witnessed, WasShown, ReplyTo, Passes;
    EveryRunIsSound(cfg, events, s);
    var r := s.fence.renders[id];
    var key := ToPrefix(r.ns);
    var o := OutcomeOf(cfg, s.states, r.ns, recalled);
    NothingDisappearsUnreported(o.live.shared, o.slice, AssemblyBudget(cfg, r.ns), cfg.budgets, recalled.score,
                                recalled.gate, t);
    ServedIsBelieved(s.states, s.window, key, recalled.now, cfg.ttl);
    EmittedAreSent(o.a.delta);
    if !Sends(r, o.body) { EmptyBodySendsNothing(o.a.delta); }
    assert o.slice.injectedDigest == StateFor(s.states, key, recalled.now, cfg.ttl).slice.injectedDigest;
    ReportedIsPlaced(o, WindowOf(s.window, key), LinesOf(o.a.delta), t, Sends(r, o.body));
    HeldWasShown(cfg, s, id, recalled, t.hash);
  }

  /** What the window holds after the render was handed over with its reply or before it. */
  lemma HeldWasShown(cfg: Config, s: Bridge, id: nat, recalled: Recalled, h: Hash)
    requires Witnessed(s.window, s.handed) && id in s.fence.renders
    ensures var r := s.fence.renders[id];
            var window := WindowOf(WindowAfter(s.window, r, OutcomeOf(cfg, s.states, r.ns, recalled)), KeyOf(r));
            Holds(window, h) ==> WasShown(window, HandedNow(cfg, s, id, recalled), h)
  {
    hide ToPrefix, OutcomeOf, ReplyTo, Passes, WasHanded, LinesOf;
    var r := s.fence.renders[id];
    var o := OutcomeOf(cfg, s.states, r.ns, recalled);
    var window := WindowOf(WindowAfter(s.window, r, o), KeyOf(r));
    var body := ReplyTo(r, o.body, recalled.now, Passes(s.fence, id)).body;
    ReplyShowsTheBlock(cfg, s.states, r, recalled, Passes(s.fence, id));
    if Holds(window, h) {
      var l :| l in window && l.hash == Some(h);
      HandedMore(HandedTo(s.handed, KeyOf(r)), body, l.text);
      if l !in WindowOf(s.window, KeyOf(r)) { LineIsInASection(o.a.delta, l); }
      assert WasHanded(HandedNow(cfg, s, id, recalled), l.text);
    }
  }

  lemma FiledUnder(slabs: seq<Slab>, t: Slab)
    requires t in slabs
    ensures t in WhereFloor(slabs, t.isFloor)
  {
    if slabs[0] != t { FiledUnder(slabs[1..], t); }
  }

  /** Every hit recall returned ends up in one of the slots the block is assembled from. */
  lemma HitIsCandidate(shared: SharedZone, slice: PrivateSlice, items: seq<RecallItem>, i: nat)
    requires i < |items|
    ensures IsCandidate(shared, UpdateRecalled(slice, SlabsOf(items)), SlabFromRecallItem(items[i]))
    ensures var t, hit := SlabFromRecallItem(items[i]), items[i];
            && t.id == hit.memoryId && t.artifactRef == hit.artifactRef && t.salience == hit.score
            && t.isFloor == hit.isFloor && (t.text.None? <==> hit.content == "" && hit.artifactRef.Some?)
            && (t.text.Some? ==> t.text.value == hit.content)
  {
    var t := SlabFromRecallItem(items[i]);
    assert SlabsOf(items)[i] == t;
    FiledUnder(SlabsOf(items), t);
  }

  /** The same said of recall's hits: one that has a body is on a line the host was sent, or spilled, or
      behind a pointer reference that claimed its hash. */
  lemma NoHitIsWithheldSilently(cfg: Config, events: seq<Event>, s: Bridge, id: nat, recalled: Recalled, i: nat)
    requires cfg.max >= 1 && Reaches(cfg, events, s) && id in s.fence.renders && i < |recalled.items|
    requires var r := s.fence.renders[id];
             r.forHost && r.knownEtag != Some(OutcomeOf(cfg, s.states, r.ns, recalled).body)
    requires recalled.items[i].content != "" || recalled.items[i].artifactRef.None?
    ensures var r := s.fence.renders[id];
            var o := OutcomeOf(cfg, s.states, r.ns, recalled);
            Placed(cfg, o, WindowOf(WindowAfter(s.window, r, o), KeyOf(r)), HandedNow(cfg, s, id, recalled),
                   SlabFromRecallItem(recalled.items[i]).hash, recalled.items[i].content)
  {
    hide Reaches, ToPrefix, Assemble, StateFor, SlabsOf, UpdateRecalled, IsCandidate, Placed, WindowAfter, HandedNow;
    var o := OutcomeOf(cfg, s.states, s.fence.renders[id].ns, recalled);
    HitIsCandidate(o.live.shared, o.live.slice, recalled.items, i);
    NothingIsWithheldSilently(cfg, events, s, id, recalled, SlabFromRecallItem(recalled.items[i]));
  }

  lemma ReportedIsPlaced(o: Outcome, before: set<Line>, sent: set<Line>, t: Slab, sends: bool)
    requires AllHeld(before, o.slice.injectedDigest) && AllHeld(sent, ToSet(o.a.emitted))
    requires !sends ==> o.a.emitted == [] || o.a.trimmed
    ensures t.hash in o.slice.injectedDigest || (t.hash in o.a.emitted && sends) ==>
              Holds(if sends then before + sent else before, t.hash)
  {
    if t.hash in o.slice.injectedDigest {
      var l :| l in before && l.hash == Some(t.hash);
      assert l in before + sent;
    } else if t.hash in o.a.emitted && sends {
      assert t.hash in ToSet(o.a.emitted);
      var l :| l in sent && l.hash == Some(t.hash);
      assert l in before + sent;
    }
  }

  /** An empty body has no line, so nothing was emitted with it. */
  lemma EmptyBodySendsNothing(block: Block)
    ensures RenderLines(block) == "" ==> Emitted(block) == []
  {
    hide RenderLines, Emitted;
    EmittedMeaning(block);
    if Emitted(block) != [] {
      assert Carries(block, Emitted(block)[0]);
      var s: Section :| Emitted(block)[0] in LineHashes(At(block, s));
      var l := LineWith(At(block, s), Emitted(block)[0]);
      LinesRender(block, s);
    }
  }

  lemma LinesRender(block: Block, s: Section)
    requires At(block, s) != []
    ensures RenderLines(block) != ""
  {
    hide SectionParts, Join, Tag;
    var texts := map t | t in block :: LineTexts(block[t]);
    assert At(texts, s) == LineTexts(At(block, s));
    EverySectionHasAPlace(s);
    PartsContain(texts, SECTION_ORDER, s, At(texts, s)[0]);
    var parts := SectionParts(texts, SECTION_ORDER);
    JoinStartsWith("<memory_context>", parts + ["</memory_context>"]);
    assert ["<memory_context>"] + parts + ["</memory_context>"]
        == ["<memory_context>"] + (parts + ["</memory_context>"]);
  }

  lemma JoinStartsWith(a: string, rest: seq<string>)
    requires a != ""
    ensures Join([a] + rest, '\n') != ""
  {}
}
