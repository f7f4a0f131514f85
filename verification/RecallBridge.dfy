/**
 The recall bridge: the render fence beside the store of what each session's host is believed to
 hold. `RenderFence` and this belief are stepped together by one event at a time.
 */
module RecallBridge {
  import opened Sequences
  import opened OrderedDicts
  import opened Namespaces
  import opened LiveContext
  import opened RenderCache
  import opened RenderFence

  /** The structured state of one session: what the block is assembled from. */
  datatype LiveState = LiveState(shared: SharedZone, slice: PrivateSlice, updatedAt: int, etag: string)

  type Store = Dict<string, LiveState>

  // ---------------------------------------------------------------- the live-state store

  const NOTHING_KNOWN := PrivateSlice("", [], [], [], [], {})

  function FreshState(now: int): LiveState {
    LiveState(SharedZone("", [], []), NOTHING_KNOWN, now, "")
  }

  /** The state a session has, or a fresh one when it has none or it is past the limit. */
  function StateFor(states: Store, key: string, now: int, ttl: nat): LiveState {
    if key in states.items && now - states.items[key].updatedAt <= ttl then states.items[key] else FreshState(now)
  }

  /** The store after serving that state: touched, or rid of an expired entry. */
  function Served(states: Store, key: string, now: int, ttl: nat): (r: Store)
    requires states.Valid()
    ensures r.Valid()
  {
    if key !in states.items then states
    else if now - states.items[key].updatedAt <= ttl then states.Touched(key)
    else states.Removed(key)
  }

  function PutState(states: Store, key: string, state: LiveState, max: nat): (r: Store)
    requires states.Valid()
    ensures r.Valid()
  {
    states.Stored(key, state).Capped(max)
  }

  /** Forgets what the host is believed to hold and keeps the slabs. */
  function ClearDigest(states: Store, key: string, now: int): (r: Store)
    requires states.Valid()
    ensures r.Valid()
  {
    if key !in states.items || states.items[key].slice.injectedDigest == {} then states
    else
      var state := states.items[key];
      states.Updated(key, state.(slice := state.slice.(injectedDigest := {}), updatedAt := now))
  }

  function Forget(states: Store, key: string, slice: PrivateSlice, now: int): (r: Store)
    requires states.Valid()
    ensures r.Valid()
  {
    if key !in states.items then states
    else states.Updated(key, states.items[key].(slice := slice, updatedAt := now))
  }

  // ---------------------------------------------------------------- the bridge

  datatype Config = Config(max: nat, ttl: nat, budgets: Budgets, bodyBudget: nat, spillPath: Namespace -> string)

  const MIN_ASSEMBLY_BUDGET := 200

  /** The pointer a trimmed body carries to its spill file. */
  function SpillNote(path: string): string {
    "\n\U{2026} (full context spilled to " + path + ")"
  }

  /** The configured ceiling with room for the spill note taken out, never below a small floor. */
  function AssemblyBudget(cfg: Config, ns: Namespace): nat {
    Max(cfg.bodyBudget - |SpillNote(cfg.spillPath(ns))|, MIN_ASSEMBLY_BUDGET)
  }

  // ---------------------------------------------------------------- what a caller gets

  datatype Staleness = FreshBody | StaleBody | ColdBody

  /** `etag` is the text whose digest the reply carries. */
  datatype RenderedContext = RenderedContext(body: string, etag: string, computedAt: int, staleness: Staleness)

  const RACED_NOTE := "\n(memory may be stale \U{2014} a lifecycle transition landed during this render)"
  const UNREACHABLE_NOTE := "\n(memory may be stale \U{2014} engine unreachable)"

  /** What the caller of a render gets: nothing when it holds the block or there is nothing to add,
      the body marked stale when the fence refused it, else the body. */
  function ReplyTo(r: Render, body: string, now: int, cached: bool): RenderedContext {
    if r.knownEtag == Some(body) then RenderedContext("", body, now, FreshBody)
    else if body == "" || cached then RenderedContext(body, body, now, FreshBody)
    else RenderedContext(body + RACED_NOTE, body, now, StaleBody)
  }

  /** When the recall failed: the warm body with a note and its own instant, or nothing. */
  function FallBackReply(cached: Option<Slot<Warm>>, now: int): RenderedContext {
    match cached
    case None => RenderedContext("", "", now, ColdBody)
    case Some(slot) => RenderedContext(slot.value.body + UNREACHABLE_NOTE, slot.value.body, slot.computedAt, StaleBody)
  }

  // ---------------------------------------------------------------- the machine

  /** History: `window` are the lines of every block credited to a session's host since its last reset,
      `handed` the bodies of the replies its host was given since then, and `rendered` every snapshot
      body with the namespace it was rendered for. */
  datatype Bridge = Bridge(
    fence: Fence, states: Store, window: map<string, set<Line>>, handed: map<string, seq<string>>,
    rendered: set<(Namespace, string)>)
  {
    ghost predicate Valid() {
      fence.cache.Valid() && states.Valid()
    }
  }

  function WindowOf(window: map<string, set<Line>>, key: string): set<Line> {
    if key in window then window[key] else {}
  }

  function HandedTo(handed: map<string, seq<string>>, key: string): seq<string> {
    if key in handed then handed[key] else []
  }

  function LinesOf(block: Block): set<Line> {
    set s, l | s in SECTION_ORDER && l in At(block, s) :: l
  }

  /** What the recall returned and how its slabs score against the prompt. */
  datatype Recalled = Recalled(items: seq<RecallItem>, score: Slab -> nat, gate: bool, now: int)

  datatype Event =
    | Begin(id: nat, ns: Namespace, query: Option<string>, knownEtag: Option<string>, forHost: bool, now: int)
    | RecallFails(id: nat, now: int)
    | Abandon(id: nat)
    | FinishEmpty(id: nat)
    | Finish(id: nat, recalled: Recalled, injected: set<Hash>)
    | Mutation(ns: Namespace, forgets: Option<PrivateSlice>, now: int)
    | HostReset(ns: Namespace, now: int)
    | WarmRead(key: string, now: int)

  // ---------------------------------------------------------------- one render's end

  function SlabsOf(items: seq<RecallItem>): seq<Slab> {
    seq(|items|, i requires 0 <= i < |items| => SlabFromRecallItem(items[i]))
  }

  /** What one completed recall works out before anything is written back. */
  datatype Outcome = Outcome(live: LiveState, slice: PrivateSlice, a: Assembled, body: string)

  function OutcomeOf(cfg: Config, states: Store, ns: Namespace, recalled: Recalled): Outcome {
    var live := StateFor(states, ToPrefix(ns), recalled.now, cfg.ttl);
    var slice := UpdateRecalled(live.slice, SlabsOf(recalled.items));
    var a := Assemble(live.shared, slice, AssemblyBudget(cfg, ns), cfg.budgets, recalled.score, recalled.gate);
    Outcome(live, slice, a, if a.trimmed then a.Body() + SpillNote(cfg.spillPath(ns)) else a.Body())
  }

  /** Whether this render's body goes to the host: not when the host named this very block's etag,
      not when there is nothing to add, and never for a background re-warm. */
  predicate Sends(r: Render, body: string) {
    r.forHost && r.knownEtag != Some(body) && body != ""
  }

  function StatesAfter(cfg: Config, states: Store, r: Render, recalled: Recalled, o: Outcome,
                       injected: set<Hash>): (t: Store)
    requires states.Valid()
    ensures t.Valid()
  {
    var slice := if Sends(r, o.body) then o.slice.(injectedDigest := injected) else o.slice;
    PutState(Served(states, ToPrefix(r.ns), recalled.now, cfg.ttl), ToPrefix(r.ns),
             o.live.(slice := slice, updatedAt := recalled.now, etag := o.body), cfg.max)
  }

  function WindowAfter(window: map<string, set<Line>>, r: Render, o: Outcome): map<string, set<Line>> {
    if Sends(r, o.body) then window[ToPrefix(r.ns) := WindowOf(window, ToPrefix(r.ns)) + LinesOf(o.a.delta)] else window
  }

  /** The digest after a delivery is some part of what was believed and what was just emitted. */
  predicate BoundedUnion(o: Outcome, injected: set<Hash>) {
    injected <= o.slice.injectedDigest + ToSet(o.a.emitted)
  }

  // ---------------------------------------------------------------- steps

  /** Forgetting a memory only removes beliefs. */
  predicate ForgetsOnly(states: Store, key: string, slice: PrivateSlice) {
    key in states.items ==> slice.injectedDigest <= states.items[key].slice.injectedDigest
  }

  predicate Enabled(cfg: Config, s: Bridge, e: Event) {
    match e
    case Begin(id, _, _, _, _, _) => id !in s.fence.renders
    case RecallFails(id, _) => id in s.fence.renders
    case Abandon(id) => id in s.fence.renders
    case FinishEmpty(id) => id in s.fence.renders
    case Finish(id, recalled, injected) =>
      id in s.fence.renders && recalled.items != []
      && BoundedUnion(OutcomeOf(cfg, s.states, s.fence.renders[id].ns, recalled), injected)
    case Mutation(ns, forgets, _) => forgets.Some? ==> ForgetsOnly(s.states, ToPrefix(ns), forgets.value)
    case HostReset(_, _) => true
    case WarmRead(_, _) => true
  }

  ghost function FenceStep(cfg: Config, s: Bridge, e: Event): Fence
    requires s.Valid() && Enabled(cfg, s, e)
  {
    match e
    case Begin(id, ns, query, knownEtag, forHost, now) =>
      RenderFence.Begin(s.fence, id, ns, query, knownEtag, forHost, now, cfg.ttl)
    case RecallFails(id, now) => Leave(Read(s.fence, KeyOf(s.fence.renders[id]), now, cfg.ttl), id)
    case Abandon(id) => Leave(s.fence, id)
    case FinishEmpty(id) => FindNothing(s.fence, id, cfg.max)
    case Finish(id, recalled, _) =>
      RenderFence.Finish(s.fence, id, OutcomeOf(cfg, s.states, s.fence.renders[id].ns, recalled).a.SnapshotBody(),
                         recalled.now, cfg.max)
    case Mutation(ns, _, now) => Invalidate(Read(s.fence, ToPrefix(ns), now, cfg.ttl), UserPrefix(ns), cfg.max)
    case HostReset(_, _) => s.fence
    case WarmRead(key, now) => Read(s.fence, key, now, cfg.ttl)
  }

  function StatesStep(cfg: Config, s: Bridge, e: Event): (t: Store)
    requires s.states.Valid() && Enabled(cfg, s, e)
    ensures t.Valid()
  {
    match e
    case Finish(id, recalled, injected) =>
      var r := s.fence.renders[id];
      StatesAfter(cfg, s.states, r, recalled, OutcomeOf(cfg, s.states, r.ns, recalled), injected)
    case Mutation(ns, forgets, now) =>
      if forgets.Some? then Forget(s.states, ToPrefix(ns), forgets.value, now) else s.states
    case HostReset(ns, now) => ClearDigest(s.states, ToPrefix(ns), now)
    case _ => s.states
  }

  function WindowStep(cfg: Config, s: Bridge, e: Event): map<string, set<Line>>
    requires Enabled(cfg, s, e)
  {
    match e
    case Finish(id, recalled, _) =>
      var r := s.fence.renders[id];
      WindowAfter(s.window, r, OutcomeOf(cfg, s.states, r.ns, recalled))
    case HostReset(ns, _) => s.window[ToPrefix(ns) := {}]
    case _ => s.window
  }

  /** The body a finishing render's caller is given. */
  ghost function ReplyBody(cfg: Config, s: Bridge, e: Event): string
    requires s.Valid() && Enabled(cfg, s, e) && (e.Finish? || e.FinishEmpty? || e.RecallFails?)
  {
    match e
    case Finish(id, recalled, _) =>
      var r := s.fence.renders[id];
      ReplyTo(r, OutcomeOf(cfg, s.states, r.ns, recalled).body, recalled.now, Passes(s.fence, id)).body
    case RecallFails(id, now) =>
      FallBackReply(Entry(s.fence.cache, KeyOf(s.fence.renders[id]), now, cfg.ttl).1, now).body
    case FinishEmpty(_) => ""
  }

  /** Only a render for the host hands its reply to it. */
  ghost function HandedStep(cfg: Config, s: Bridge, e: Event): map<string, seq<string>>
    requires s.Valid() && Enabled(cfg, s, e)
  {
    if (e.Finish? || e.FinishEmpty? || e.RecallFails?) && s.fence.renders[e.id].forHost then
      var key := KeyOf(s.fence.renders[e.id]);
      s.handed[key := HandedTo(s.handed, key) + [ReplyBody(cfg, s, e)]]
    else if e.HostReset? then s.handed[ToPrefix(e.ns) := []]
    else s.handed
  }

  function RenderedStep(cfg: Config, s: Bridge, e: Event): set<(Namespace, string)>
    requires Enabled(cfg, s, e)
  {
    match e
    case Finish(id, recalled, _) =>
      var r := s.fence.renders[id];
      s.rendered + {(r.ns, OutcomeOf(cfg, s.states, r.ns, recalled).a.SnapshotBody())}
    case _ => s.rendered
  }

  function FirstState(): Bridge {
    Bridge(Start(), Empty(), map[], map[], {})
  }

  ghost function Step(cfg: Config, s: Bridge, e: Event): Bridge
    requires s.Valid() && Enabled(cfg, s, e)
  {
    Bridge(FenceStep(cfg, s, e), StatesStep(cfg, s, e), WindowStep(cfg, s, e), HandedStep(cfg, s, e),
           RenderedStep(cfg, s, e))
  }

  /** `s` is where a run of these events ends, every one of them possible when it came. */
  ghost predicate Reaches(cfg: Config, events: seq<Event>, s: Bridge)
    decreases |events|
  {
    if events == [] then s == FirstState()
    else
      var e := events[|events| - 1];
      exists before: Bridge ::
        && Reaches(cfg, events[..|events| - 1], before) && before.Valid() && Enabled(cfg, before, e)
        && s == Step(cfg, before, e)
  }
}
