# mu-client: verified models of its protocols

mu-client is a local daemon that captures what a coding agent's host does, delivers it to a memory
engine, and injects recalled context back into the host. This project models the four stateful
protocols that carry its promises, and the bounded assembler between them, and proves the promises for
every input, every interleaving and every run.

- **Context assembly** (`LiveContext`, `LiveContextLoops`, `CeilingProofs`, `AssemblyProofs`,
  `SectionProofs`, `SectionTexts`, `SectionCounts`, `AccountingProofs`, `AccountingLimits`,
  `SectionBudgets`). Selection, two-arm dedup, section trimming,
  the pooled ceiling with its omission markers, the delta and the snapshot body, and the spill.
- **Warm cache, fence and belief** (`Namespaces`, `RenderCache`, `RenderCacheStore`, `RenderFence`,
  `RecallBridge`, `RecallBridgeProofs`, `BridgeSteps`, `SiblingBodies`, `InjectBridge`, `RefreshScheduler`). An LRU and
  TTL cache with four index tables, per-cohort epochs that are themselves pruned, renders interleaved
  with invalidations, the store of what each host is believed to hold, and the coalescing of re-warms.
- **Durable capture** (`Outbox`, `OutboxWorkers`, `OutboxOnce`, `OutboxStore`, `ActivityKeys`, `Tailing`,
  `Backfill`, `CaptureHook`, `CaptureChannels`, `CaptureSpine`). The four-state row table with crash
  recovery, workers, retries and dead letters, opened by other processes at any time; incremental reading
  of growing files; three delivery channels with spool and replay; and all of these over one outbox.
- **Lease and withdrawal** (`Lease`, `Timestamps`, `Tombstones`, `Consent`). A TTL lease across processes
  with heartbeats and crashes, and the max-merge record of withdrawn agent shares.

`Sequences`, `Text` and `OrderedDicts` are helpers.

## How it is modelled

What the program keeps in objects it mutates is a class here, and its loops are loops: each method's
contract ties the new state to a specification function, and the main results are about those functions
and about runs of steps built from them. A run is a sequence of events; an invariant is shown to survive
every event, so each main result holds wherever a run may stop.

- One SQLite transaction is one step. An `await` is a point where any other step may come. Any process
  may open the outbox at any time, as a hook's direct append and a backfill do.
- SHA-256 is an injective function: an id, an etag or a content hash stands for the text it is taken
  from. A recall hit may carry an engine hash instead, which is arbitrary.
- Recall returns arbitrary hits, and an ingest stores, skips or fails as it likes. The relevance of a
  slab to the prompt is an arbitrary score.
- Parts of mu-core that are not visible here get small assumptions, stated where they are used: the
  digest after a delivery is some part of the old digest and the hashes just emitted; forgetting a memory
  only removes beliefs; a namespace component holds no slash; sections are rendered in one fixed order.
- The clock of the lease never goes back and a process id names one process.
- What a host holds is told by history, not by the digest: the bodies of the replies it was given since its
  last reset. Belief is shown against that.
- Eligibility after a backoff is arbitrary. `ready_at` is written with a space where the text it is
  compared with has a `T` (`src/mu_client/outbox/sqlite_outbox.py:241-244` and `290-297`), so nothing is
  claimed about how long a backoff delays a row.
- A backfill loads and saves its checkpoint under one key, and for rollouts the session line names the
  session the file name does.

## Where the code does not do what it says

The code is followed in each of these. For each, one lemma holds the input, the family of inputs or the
run that shows it, and another says for all inputs or runs exactly when the code does what it says.

- The spill is described as the untrimmed block, but tool-state lines are not in it
  (`AccountingLimits.CutToolLineIsLost`). When such a line is reported, exactly:
  `AccountingProofs.ToolStateReported`; what is enough for all of them:
  `AccountingProofs.FittingStateIsReported`.
- A fact can vanish without any report when a pointer reference claimed its hash first: the pointer's
  marker carries no hash, yet its hash counts as seen (`AccountingLimits.ShadowedLineIsLost`; exactly
  then: `AccountingProofs.NothingDisappearsUnreported`).
- Every reference that is not expanded is said to leave a named marker. Hits without a body all hash the
  empty text, so the second of them leaves none (`AccountingLimits.SecondPointerIsSilent`). Which pointers
  leave their marker, exactly: `AssemblyProofs.PointerMarkersMeaning`. Such a hit in the floor is rendered
  as the word None, and no other is (`AccountingLimits.FloorPointerShowsNone`).
- A cut persona brief is reported exactly as long as its shown part is not with the host. Later turns
  neither show nor report the rest (`AccountingLimits.CutPersonaIsReportedOnce`).
- The section budgets are documented never to exceed the total. They never do exactly below one million
  characters (`SectionBudgets.SectionsFitExactlyBelowAMillion`).
- Opening the outbox is described as recovery after a crash, but a hook or a backfill opens it while the
  daemon is at work, and then a row can be in two batches and past its attempt limit
  (`OutboxWorkers.ForeignOpenSharesRows`). It ends exclusive ownership exactly for the records live
  batches hold at that moment (`OutboxWorkers.OpenEndsOwnership`, `OutboxWorkers.OneOwner`). Nothing is
  lost by it (`OutboxWorkers.NothingIsLost`).
- The worker is described as ingesting an activity at most once. A crash between ingest and ack delivers
  it again (`OutboxOnce.CrashDeliversTwice`), and so does another process's open
  (`OutboxOnce.ForeignOpenDeliversTwice`). When an activity is delivered twice, exactly:
  `OutboxOnce.AtMostOnceExactly`.
- A refresh loop is described as releasing its key on its way out. One that shutdown cancels before its
  first step never enters what releases it, and its key stays in flight
  (`RefreshScheduler.ShutdownCanStrandAKey`); which keys stay, exactly:
  `RefreshScheduler.LoopsLeaveExactlyTheStranded`.
- A dropped session is described as fenced by its cohort's epoch. That holds for bodies still being
  rendered; bodies of sibling sessions already in the cache stay there
  (`SiblingBodies.SiblingBodyOutlivesFence`). Which cached bodies are fenced, exactly:
  `RecallBridgeProofs.CachedBodiesAreFencedExactly`.
- `server_confirmed` is described as saying that a covering cut was confirmed. It is kept per row, so a
  later, unconfirmed blanket cut can read as confirmed (`Tombstones.ConfirmationOutlivesItsCut`). What it
  says, exactly: `Tombstones.ConfirmedMeaning`.
- Two acquires of one lease by one process are not told apart (`Lease.SameProcessTwiceOverlaps`). With one
  live acquire per process and prefix windows never overlap (`Lease.WindowsDoNotOverlap`).
- In another encoding than UTF-8 a record can get two rows (`CaptureChannels.OtherEncodingsDouble`); it
  survives the spool unchanged exactly in UTF-8 (`CaptureChannels.SpoolRoundTrip`).

## Model

| member | source | states |
|---|---|---|
| CeilingProofs.CeilingKeepsWhatItMust | src/mu_client/inject/live_context.py:624-692 | Main result on the pooled ceiling: the rendered block is within the budget; unless exhausted, each section is a subsequence of what it was, closed by a marker exactly when lines were given up, whose digits read back as their number; the lines given up are the last unguarded ones in sacrifice order, and a guarded line goes only when no unguarded line is left anywhere |
| Text.DecimalReadsBack | src/mu_client/inject/live_context.py:439-442 | A printed count is a row of digits that a reader takes for the same number |
| CeilingProofs.CeilingStopsAtTheFirstFit | src/mu_client/inject/live_context.py:681-692 | The loop stops at the first cutting that fits, so no line is given up that could have stayed |
| CeilingProofs.FittingBlockUnchanged | src/mu_client/inject/live_context.py:683-686 | A block that already fits comes back line for line, with nothing cut and nothing exhausted |
| CeilingProofs.NextVictimMeaning | src/mu_client/inject/live_context.py:624-641 | Which line is given up next: the last unguarded line of the cheapest section that has one, else the last guarded one, and none exactly when no line is left |
| AccountingLimits.DroppingCanLengthen | src/mu_client/inject/live_context.py:644-655 | Why length is no termination measure: giving up a one-character line makes the rendered block longer, because its marker is longer |
| AssemblyProofs.DedupMeaning | src/mu_client/inject/live_context.py:488-508 | Dedup keeps exactly the first carrier of each hash not seen before, has seen them all afterwards, and counts what it skipped |
| AssemblyProofs.FitHashes | src/mu_client/inject/live_context.py:445-485 | Trimming emits a subsequence of the slabs, and all of them when it reports no trim |
| AssemblyProofs.FitKeepsGuarded | src/mu_client/inject/live_context.py:476-484 | The top fact and every protected floor slab are emitted whatever the budget |
| SectionProofs.SectionsKeepSlabPromises | src/mu_client/inject/live_context.py:695-837 | Main result on the recency floor, the top fact and the section budgets, of the block one pass builds: under `Recent` every floor slab that is the first with a hash not seen before stands guarded, whatever the budgets; under `RecalledMemory` and `Reasoning` the first new one does; unguarded lines keep each to their own section budget, and when the texts fit it nothing new is missing |
| SectionProofs.FloorIsProtected | src/mu_client/inject/live_context.py:781-790 | In terms of the inputs alone: such a floor slab stands guarded in the block whatever the budgets |
| SectionProofs.FloorGoesLast | src/mu_client/inject/live_context.py:624-692 | The ceiling gives up a guarded floor line only when nothing else is left in the block, counts of what was left out aside |
| SectionProofs.FloorIsDelivered | src/mu_client/inject/live_context.py:857-937 | The same of what the host receives: a slab of the recency floor is missing from the delta only when nothing but floor lines and counts is left in it |
| SectionProofs.DedupKeepsOrder | src/mu_client/inject/live_context.py:488-508 | Dedup keeps the order recall or the floor came in |
| SectionTexts.StateAndReferencesKeepPromises | src/mu_client/inject/live_context.py:743-825 | The other sections: session state is made of the summary, the threads and the tools and keeps to its budget beyond its first line; references show texts and markers of first pointers, keep to their budget beyond a single line, and miss nothing that fits |
| SectionTexts.SummaryLeads | src/mu_client/inject/live_context.py:743-779 | Unless the host holds it the running summary is the first line of session state, whatever the budget |
| SectionTexts.ToolChangesAreNews | src/mu_client/inject/live_context.py:750-763 | Two reports on one tool that differ in a single field count as different news, except an absent result and one called None |
| SectionTexts.PersonaShowsThePrefix | src/mu_client/inject/live_context.py:717-741 | The persona section is exactly the prefix its budget holds, under the hash of that prefix, and one marker exactly when something was cut |
| SectionTexts.MarkerNamesTheReference | src/mu_client/inject/live_context.py:562-596 | The marker of a pointer holds its reference and the reason, and two markers are equal exactly when the references are |
| SectionTexts.RenderFormat | src/mu_client/inject/live_context.py:599-621 | The format: the sections in one fixed order between their tags, absent when empty, and no text at all when all are |
| SectionTexts.EveryStateIsAnItem | src/mu_client/inject/live_context.py:743-763 | The summary, every thread and every tool reach the session-state loop, with their own text and hash |
| SectionCounts.EveryInputIsCounted | src/mu_client/inject/live_context.py:695-837 | Conservation in one pass: every input is a line or a counted repetition, and a trim is reported exactly when the persona brief was cut or some input is neither |
| SectionCounts.UntrimmedIsComplete | src/mu_client/inject/live_context.py:879-937 | An assembly that reports no trim left out repetitions only, counted them, and has its body for its untrimmed body |
| AssemblyProofs.FitIsGreedy | src/mu_client/inject/live_context.py:473-485 | One more slab is emitted exactly when it must be or when it still fits beside everything emitted before it, and nothing emitted before changes |
| AssemblyProofs.StateIsGreedy | src/mu_client/inject/live_context.py:764-779 | So is session state: one more line is kept exactly when its hash is new and it is the first line or still fits beside everything kept before it |
| AssemblyProofs.ReferenceHashes | src/mu_client/inject/live_context.py:511-591 | Without a hydrator the reference lines carry hashes of text slabs only, in order, and all of them when nothing was trimmed |
| AssemblyProofs.PointerMarkersMeaning | src/mu_client/inject/live_context.py:521-564 | Which pointers leave their marker, exactly: those that are the first reference with their hash when nothing before the section had it; each once, in order, whatever the budget |
| AssemblyProofs.StateStageMeaning | src/mu_client/inject/live_context.py:743-779 | The session-state loop credits only lines it keeps, never a hash seen before, and everything when nothing was trimmed |
| AssemblyProofs.PersonaStageMeaning | src/mu_client/inject/live_context.py:717-741 | The persona section credits the text it shows, not the full brief, and reports every cut |
| AssemblyProofs.EmittedMeaning | src/mu_client/inject/live_context.py:840-854 | The reported hashes are exactly the hashes on surviving lines, each once |
| AssemblyProofs.DeltaIsLeanAndCredited | src/mu_client/inject/live_context.py:840-937 | Main result on the delta: no line carries a hash of the incoming digest, no hash appears twice in a block, and the credited hashes are exactly those on lines of the body |
| AssemblyProofs.FloorFactOnlyUnderRecent | src/mu_client/inject/live_context.py:781-805 | A fact of the recency floor never appears again in the recalled band, in either body |
| AssemblyProofs.SnapshotIgnoresDigest | src/mu_client/inject/live_context.py:915-937 | The snapshot does not depend on the digest and equals the delta a host with nothing delivered would get |
| AssemblyProofs.BodiesWithinBudget | src/mu_client/inject/live_context.py:857-937 | Both bodies are within the character budget |
| AccountingProofs.SortMeaning | src/mu_client/inject/live_context.py:386-400 | Selection drops nothing and orders by relevance, then salience |
| AccountingProofs.SortIsStable | src/mu_client/inject/live_context.py:398-400 | Slabs the selection key cannot tell apart keep the order recall ranked them in |
| AccountingProofs.SelectKeepsEverySlab | src/mu_client/inject/live_context.py:386-400 | With the prompt gate on or off, the selected slabs are the given ones |
| AccountingProofs.SelectMeaning | src/mu_client/inject/live_context.py:386-400 | With the gate on and some slab relevant the selection is ordered by relevance, then salience; with the gate off or nothing relevant by salience alone |
| AccountingProofs.UntouchedHitsComeByScore | src/mu_client/inject/live_context.py:290-400 | When no hit touches the prompt, recalled hits come by the score recall gave them, equal ones in the order they were returned |
| AccountingProofs.HitsAreOneFactWhen | src/mu_client/inject/live_context.py:319-346 | Two hits count as one fact exactly when they carry the same engine hash, or neither carries one and their texts are equal |
| AccountingProofs.SpillHolds | src/mu_client/inject/live_context.py:940-969 | Every text slab of the four slots has its line in the spill |
| AccountingProofs.SpillNamesPointers | src/mu_client/inject/live_context.py:961-966 | Every pointer reference is named in the spill, and its content is not fetched for it |
| AccountingProofs.DeltaLineIsInBody | src/mu_client/inject/live_context.py:599-621 | Every line of the delta occurs in the text the host receives |
| AccountingProofs.UntrimmedEmission | src/mu_client/inject/live_context.py:695-854 | When nothing was trimmed, a placed hash is in the digest or emitted exactly when no pointer reference claimed it first |
| AccountingProofs.NothingDisappearsUnreported | src/mu_client/inject/live_context.py:695-969 | Main result on accounting: every text slab is already with the host, or credited, or its line is in the spill of a trimmed block; with nothing trimmed this holds if and only if no pointer reference claimed its hash first |
| AccountingProofs.SharedStateAndPersonaReported | src/mu_client/inject/live_context.py:717-779 | The running summary, the open threads and the shown persona brief are accounted for without exception |
| AccountingProofs.ToolStateReported | src/mu_client/inject/live_context.py:743-779 | A tool-state line is reported exactly when nothing was trimmed, or it is with the host, or it is credited, or its text occurs in the spill of everything but the tool state |
| AccountingProofs.FittingStateIsReported | src/mu_client/inject/live_context.py:743-937 | What is enough for every state line, tool state included, whatever else is trimmed: the lines fit their section and the uncut block fits the budget |
| AccountingLimits.CutToolLineIsLost | src/mu_client/inject/live_context.py:940-953 | A tool-state line cut by its budget is in neither body nor spill: the spill is rendered without tool state |
| AccountingLimits.ShadowedLineIsLost | src/mu_client/inject/live_context.py:807-837 | A reasoning line behind a pointer reference with the same hash is neither emitted nor spilled nor reported |
| AccountingLimits.SecondPointerIsSilent | src/mu_client/inject/live_context.py:290-346 | The instance recall produces: hits with a link and no body all hash the empty text, so only the first of several leaves its marker |
| AccountingLimits.FloorPointerShowsNone | src/mu_client/inject/live_context.py:290-374 | Exactly the floor hits with a link and no body are filed with the floor without a text and rendered as the word None |
| AccountingLimits.CutPersonaIsReportedOnce | src/mu_client/inject/live_context.py:717-741 | A cut persona brief is reported exactly while its shown part is not with the host, so on the turn that cuts it and on no later one |
| LiveContextLoops.FitLines | src/mu_client/inject/live_context.py:473-485 | The trimming loop computes its specification function, which the results above are about |
| LiveContextLoops.DedupSlabs | src/mu_client/inject/live_context.py:501-508 | The dedup loop computes its specification function, which the results above are about |
| LiveContextLoops.StateLines | src/mu_client/inject/live_context.py:764-779 | The session-state loop computes its specification function, which the results above are about |
| LiveContextLoops.ReferenceLines | src/mu_client/inject/live_context.py:547-564 | The reference loop without a hydrator computes its specification function, which the results above are about |
| LiveContextLoops.FindVictim | src/mu_client/inject/live_context.py:631-641 | The search for the line to give up computes its specification function, which the results above are about |
| LiveContextLoops.DropOneLine | src/mu_client/inject/live_context.py:624-641 | The two-pass sacrifice of one line computes its specification function, which the results above are about |
| LiveContextLoops.EnforceCeiling | src/mu_client/inject/live_context.py:681-692 | The ceiling loop computes its specification function, which the results above are about |
| LiveContextLoops.EmittedHashes | src/mu_client/inject/live_context.py:846-854 | The read-back of delivered hashes computes its specification function, which the results above are about |
| LiveContextLoops.BuildSections | src/mu_client/inject/live_context.py:695-837 | The section pass in its order computes its specification function; what that promises is `SectionProofs.SectionsKeepSlabPromises` and `SectionTexts.StateAndReferencesKeepPromises` |
| LiveContextLoops.AssembleBlock | src/mu_client/inject/live_context.py:879-937 | The whole assembly with both passes computes its specification function, which the results above are about |
| SectionBudgets.SectionsFitExactlyBelowAMillion | src/mu_client/inject/live_context.py:169-190 | Over exact reals the floored section budgets stay within the total for every accepted split if and only if the total is below one million characters |
| SectionBudgets.EverySectionGetsItsShare | src/mu_client/inject/live_context.py:176-190 | Every section gets the whole characters of its own fraction |
| Namespaces.CohortsSeparateTenants | src/mu_client/inject/recall_bridge.py:245-254 | Two namespaces share a cohort exactly when they agree on tenant and plane and, on the private plane, on the user |
| Namespaces.PrefixParts | src/mu_client/inject/recall_bridge.py:245-254 | A full key can be taken apart into its cohort and its session, so one key names one session |
| Namespaces.SessionIsNoPrefix | src/mu_client/inject/recall_bridge.py:335-346 | A bare session id can never be taken for a full key |
| RenderCache.BumpRaisesOnlyUpward | src/mu_client/inject/recall_bridge.py:393-406 | A drop strictly raises its cohort's epoch and lowers nobody's, however many counters pruning folds into the floor |
| RenderCache.CohortDropIsExact | src/mu_client/inject/recall_bridge.py:498-507 | A cohort drop removes exactly that cohort's entries and keeps the rest, in order |
| RenderCache.PutMeaning | src/mu_client/inject/recall_bridge.py:460-488 | A write is refused exactly when the epoch moved; an accepted one keeps the new entry, changes no other and respects the bound |
| RenderCache.PutKeepsTheNewest | src/mu_client/inject/recall_bridge.py:460-488 | What an accepted write leaves are the newest keys up to the bound, in order, its own the newest |
| RenderCache.EntryMeaning | src/mu_client/inject/recall_bridge.py:409-450 | A read serves exactly the entry the key names, with what was stored under that very key and when, if it is young enough, and makes that key the newest; a bare session names an entry only when one has it; what leaves was named and past the limit, and no other key changes |
| RenderCacheStore.ScopedRenderCache.BumpCohort | src/mu_client/inject/recall_bridge.py:401-406 | The pruning loop raises the epoch as the cache specification says and leaves entries and indexes alone |
| RenderCacheStore.ScopedRenderCache.Unindex | src/mu_client/inject/recall_bridge.py:515-529 | Whatever keys the four indexes were sound for, afterwards they are sound for those keys without the one removed |
| RenderCacheStore.ScopedRenderCache.Drop | src/mu_client/inject/recall_bridge.py:509-513 | One key leaves the entries and all four indexes together; the result says whether it was there |
| RenderCacheStore.ScopedRenderCache.PopOne | src/mu_client/inject/recall_bridge.py:490-496 | The epoch moves whether or not the key was held, and exactly that key goes |
| RenderCacheStore.ScopedRenderCache.PopCohortOf | src/mu_client/inject/recall_bridge.py:498-507 | Walking the user index drops and counts exactly the keys a scan of the entries would find |
| RenderCacheStore.ScopedRenderCache.ResolveKey | src/mu_client/inject/recall_bridge.py:409-417 | The session index answers as a scan would: a full key, or the single holder of a bare session |
| RenderCacheStore.ScopedRenderCache.Read | src/mu_client/inject/recall_bridge.py:419-450 | The read over the four indexes serves, touches and retires what the specification does, whose meaning is `RenderCache.EntryMeaning` |
| RenderCacheStore.ScopedRenderCache.Store | src/mu_client/inject/recall_bridge.py:460-488 | The write keeps the indexes and the bound, agrees with the specification, and evicts only keys touched longer ago than everything kept |
| RenderCacheStore.ScopedRenderCache.EvictOldest | src/mu_client/inject/recall_bridge.py:475-487 | What is evicted was touched longer ago than every key that stays |
| RenderCacheStore.ScopedRenderCache.Create | src/mu_client/inject/recall_bridge.py:349-358 | A bound below one is refused; a fresh cache is empty |
| RenderFence.FinishFenced | src/mu_client/inject/recall_bridge.py:1003-1012 | A body the fence lets through was read after the last drop of either kind in its cohort, in whatever order renders and drops interleave |
| RenderFence.InvalidateFenced | src/mu_client/inject/recall_bridge.py:498-507 | A mutation keeps the fence invariant: no waiting render of the cohort can pass any more |
| RenderFence.PopSparesSiblings | src/mu_client/inject/recall_bridge.py:490-496 | One step of it: a drop of one session moves the whole cohort's fence but leaves cached sibling bodies in place |
| RenderFence.FencedUnlessSiblingPopped | src/mu_client/inject/recall_bridge.py:460-507 | In every state that keeps the fence invariant, a cached body was read after the last drop of either kind in its cohort if and only if no sibling's key was dropped since it was read |
| RecallBridgeProofs.CachedBodiesAreCurrent | src/mu_client/inject/recall_bridge.py:963-1120 | Epoch fence over every run: each cached body was read after its cohort was last invalidated and after its own key was last dropped |
| RecallBridgeProofs.CachedBodiesAreFencedExactly | src/mu_client/inject/recall_bridge.py:963-1120 | The same over every run of the bridge: against the last drop of either kind a cached body is current exactly as long as no sibling's key was dropped |
| SiblingBodies.SiblingBodyOutlivesFence | src/mu_client/inject/recall_bridge.py:1014-1032 | For any two sessions of one user, the run in which both are cached and a later render of one finds nothing ends with the other's body cached although its cohort was fenced since |
| RecallBridgeProofs.OnlyCurrentBodiesAreCached | src/mu_client/inject/recall_bridge.py:1003-1120 | Over every run, a render whose epoch still matches began after the last drop of either kind in its cohort |
| RecallBridgeProofs.BeliefIsSound | src/mu_client/inject/recall_bridge.py:592-631 | Belief soundness over every run: whatever the digest says a host holds is the hash of a line whose text occurs in a reply body handed to that host since its last reset, whatever renders, re-warms, resets, forgets, expiries and evictions came between |
| RecallBridgeProofs.WindowWasHanded | src/mu_client/inject/recall_bridge.py:963-1120 | Over every run every line credited to a host since its reset has its text in a reply body handed to it since then |
| RecallBridgeProofs.ReplyShowsTheBlock | src/mu_client/inject/recall_bridge.py:1094-1120 | What a finished render replies: when it sends, every line of the delta and the pointer to a spill occur in the body, and it is fresh exactly when the cache took the write; a host gets an empty body exactly when it holds the block or there is nothing to add; the etag is that of the block |
| RecallBridgeProofs.FallBackShowsTheWarmBody | src/mu_client/inject/recall_bridge.py:1122-1147 | What a failed recall replies: the warm body and a note, stale, with the instant it was computed at, or an empty cold reply |
| RecallBridgeProofs.ServedBodyIsTheTenants | src/mu_client/inject/recall_bridge.py:409-450 | Over every run a body served for a namespace is a snapshot rendered for that tenant, user and session, within the age limit, and read after the last drop of its cohort |
| RecallBridgeProofs.FinishBelieved | src/mu_client/inject/recall_bridge.py:1034-1120 | Every branch of a completed render keeps the belief sound: etag unchanged, nothing to add, background re-warm, delivered, raced |
| RecallBridgeProofs.NothingIsWithheldSilently | src/mu_client/inject/recall_bridge.py:963-1120 | Belief and accounting together, over every run: when a host render completes, every text slab it had is on a line whose text occurs in a reply body handed to the host since its reset, this reply included, or in the spill, or behind a pointer that claimed its hash |
| RecallBridgeProofs.NoHitIsWithheldSilently | src/mu_client/inject/recall_bridge.py:963-1120 | The same of the content of recall's hits: one with a body was handed to the host since its reset, or is spilled, or is behind such a pointer |
| RecallBridgeProofs.HitIsCandidate | src/mu_client/inject/live_context.py:290-374 | Every hit recall returned ends up in one of the slots the block is assembled from, with its own id, link, score, floor mark and content |
| RecallBridgeProofs.SentBodyFits | src/mu_client/inject/recall_bridge.py:1173-1245 | The body with its spill note fits the configured ceiling unless the ceiling cannot hold the note beside the smallest block |
| BridgeSteps.MutationDropsItsUser | src/mu_client/inject/recall_bridge.py:747-790 | Over every run a mutation reaches its user and nobody else: no session of that user is cached and no render of one that is under way can be; every other user's body stays |
| BridgeSteps.EmptyRenderDropsItsOwn | src/mu_client/inject/recall_bridge.py:1014-1032 | A render that finds nothing takes its own session's body out |
| BridgeSteps.FailedRenderOnlyReads | src/mu_client/inject/recall_bridge.py:1122-1147 | A render whose recall failed writes nothing: its cached body becomes the newest while young enough and goes when it is not |
| BridgeSteps.RenderCachesItsSnapshot | src/mu_client/inject/recall_bridge.py:1072-1093 | An accepted write caches the snapshot under the query and the instant of its render; a refused one changes nothing |
| BridgeSteps.RenderKeepsTheRest | src/mu_client/inject/recall_bridge.py:1034-1120 | A finished render keeps what recall does not write, makes its session the newest of at most the bound, stores the etag it replied with, and changes the digest exactly when the host was handed a body |
| BridgeSteps.ResetForgets | src/mu_client/inject/recall_bridge.py:592-619 | A host reset empties what is believed of that session, keeps its slabs and touches no other session |
| BridgeSteps.MutationForgets | src/mu_client/inject/recall_bridge.py:621-631 | A demoted memory is forgotten in its own session, which counts as new from then on; no session comes, goes or moves |
| BridgeSteps.ServedMeaning | src/mu_client/inject/recall_bridge.py:574-583 | Asking for a state makes it the newest while it is young enough and removes it when it is not; no other changes |
| BridgeSteps.OnlyRepliesAreHanded | src/mu_client/inject/recall_bridge.py:963-1147 | The history of what a host was handed grows exactly by the replies to its own renders |
| BridgeSteps.OnlyDeltasAreCredited | src/mu_client/inject/recall_bridge.py:1034-1120 | A line is credited to a host only when it stands in the delta of a render of its own that replied with a body |
| BridgeSteps.QueryMeaning | src/mu_client/inject/recall_bridge.py:1003-1008 | A render ranks for the prompt, else for the query its young cached body was ranked for, else for the session |
| InjectBridge.LiveStateStore.GetOrCreate | src/mu_client/inject/recall_bridge.py:574-583 | Serves a young state and touches it; an expired one is removed and a fresh one served |
| InjectBridge.LiveStateStore.Put | src/mu_client/inject/recall_bridge.py:585-590 | Stores the state as newest and evicts down to the bound |
| InjectBridge.LiveStateStore.ClearDigestOf | src/mu_client/inject/recall_bridge.py:592-619 | Empties the digest, keeps the slabs, and says whether there was anything to clear |
| InjectBridge.LiveStateStore.ForgetMemory | src/mu_client/inject/recall_bridge.py:621-631 | No other session changes, none comes or goes, and no session is believed to hold more than before |
| InjectBridge.RecallInjectBridge.BeginRender | src/mu_client/inject/recall_bridge.py:1003-1008 | Reads the cached query and then the fence before the recall, as the machine's first step does |
| InjectBridge.RecallInjectBridge.FinishRender | src/mu_client/inject/recall_bridge.py:1034-1120 | One assembly; cache, state store and reply are those of the machine's finishing step in all four branches; what that reply is: `RecallBridgeProofs.ReplyShowsTheBlock` |
| InjectBridge.FreshRepliesAreCurrent | src/mu_client/inject/recall_bridge.py:1094-1120 | Over every run a non-empty body is handed out as fresh only when it was read after the last drop in its cohort |
| InjectBridge.RecallInjectBridge.FallBack | src/mu_client/inject/recall_bridge.py:1122-1147 | A failed recall serves the warm body with its note and its old timestamp, else a cold reply |
| InjectBridge.RecallInjectBridge.OnMutation | src/mu_client/inject/recall_bridge.py:747-790 | The query is read before the drop, the whole cohort goes, and a demoted memory is forgotten |
| RefreshScheduler.NoLostWakeup | src/mu_client/inject/recall_bridge.py:792-826 | Over every run, until shutdown the latest event of a key is followed by a read that began after it, or a read is still owed |
| RefreshScheduler.NoMoreReadsThanEvents | src/mu_client/inject/recall_bridge.py:792-826 | No key is read more often than it was asked for, reads still owed included |
| RefreshScheduler.LoopsLeaveExactlyTheStranded | src/mu_client/inject/recall_bridge.py:724-738 | Over every run at most one loop per key; once the last loop is gone nothing is pending, and what is left in flight are exactly the keys of loops cancelled before their first step: none before shutdown |
| RefreshScheduler.ShutdownCanStrandAKey | src/mu_client/inject/recall_bridge.py:806-826 | The run that leaves a key in flight: an event, and shutdown before the loop has taken a step |
| RefreshScheduler.BurstCostsOneMore | src/mu_client/inject/recall_bridge.py:812-826 | Any burst of events during one read costs exactly one more read, for the query asked last |
| RefreshScheduler.Scheduler.ScheduleRefresh | src/mu_client/inject/recall_bridge.py:792-810 | Starts a loop or folds the event into the running one, as the machine's step does, and says which |
| RefreshScheduler.Scheduler.FinishTurn | src/mu_client/inject/recall_bridge.py:812-826 | The re-check after a read goes round once more, for the latest query, exactly when something is pending, else releases the key |
| RefreshScheduler.Scheduler.ShutDown | src/mu_client/inject/recall_bridge.py:724-738 | After shutdown no loop and no pending key is left, and in flight are exactly the keys of loops that had not taken their first step, besides any stranded before |
| Outbox.AppendMeaning | src/mu_client/outbox/sqlite_outbox.py:164-231 | A redelivered id changes no row and a new one gets exactly one; row and checkpoint are written together |
| Outbox.RedactionMeaning | src/mu_client/outbox/sqlite_outbox.py:135-162 | Redaction leaves no text but the redacted one and a hash of the text that is kept; the id and the rest stay |
| Outbox.DrainMeaning | src/mu_client/outbox/sqlite_outbox.py:233-271 | A drain claims exactly the oldest eligible rows, up to the limit, and touches no other row |
| Outbox.OldestMeaning | src/mu_client/outbox/sqlite_outbox.py:237-260 | ORDER BY seq LIMIT: ascending, wanted rows only, and a wanted row is passed over only when older ones use up the limit |
| Outbox.RedriveMeaning | src/mu_client/outbox/sqlite_outbox.py:314-361 | A redrive moves exactly the oldest dead rows, keeps their attempts and touches nothing else |
| Outbox.OpenMeaning | src/mu_client/outbox/sqlite_outbox.py:96-123 | Opening returns exactly the rows in flight to pending, attempts and all, and touches no other |
| Outbox.RetentionSparesTheUndelivered | src/mu_client/outbox/sqlite_outbox.py:428-475 | Neither purge nor delete removes a row still to be delivered; a dead row goes only when its content is named |
| OutboxWorkers.NothingIsLost | src/mu_client/outbox/sqlite_outbox.py:96-475 | At-least-once over every run with crashes, any number of workers and other processes opening the outbox: an appended id has a row until an ingest returned for it or skipped it, or its dead row was deleted by content hash |
| OutboxWorkers.RowsAreHonest | src/mu_client/workers/pool.py:59-114 | Over every run an acked row was ingested or skipped and no id has two rows; attempts stay below the limit, redrives included, unless another process opened the outbox while a live batch held the row |
| OutboxWorkers.OneOwner | src/mu_client/workers/pool.py:59-114 | Over every run a record in a live batch is in flight as drained and in no other batch, unless another process opened the outbox while a live batch held it |
| OutboxWorkers.HistoryMeaning | src/mu_client/outbox/sqlite_outbox.py:96-475 | What the words of these results mean, step by step: appended, delivered, forgotten, shared and exposed change exactly when an append, a successful ingest, a delete by hash of a dead row, a foreign open over a held row, or a cut-off or retired delivery happens |
| OutboxWorkers.OpenEndsOwnership | src/mu_client/outbox/sqlite_outbox.py:96-123 | The condition is exact: another process's open leaves the live records owned if and only if there are none, and shares exactly the ids they carry |
| OutboxWorkers.ForeignOpenSharesRows | src/mu_client/outbox/sqlite_outbox.py:96-123 | What then follows: the busy worker's row is eligible again, and two failures reach the attempt limit that each of them checked |
| OutboxOnce.AtMostOnceExactly | src/mu_client/workers/pool.py:1-114 | Over every run an activity is ingested for good a second time if and only if it is ingested after its worker was cut off before writing the delivery down, after its delivered row was purged or deleted, or by a second worker after another process's open |
| OutboxOnce.UndisturbedRunsDeliverOnce | src/mu_client/workers/pool.py:1-114 | While no worker is cut off, nothing is retired and nobody else opens the outbox, retries and redrives included, every activity is ingested for good at most once |
| OutboxOnce.CrashDeliversTwice | src/mu_client/workers/pool.py:74-117 | The run with a crash between ingest and ack delivers any activity twice |
| OutboxOnce.ForeignOpenDeliversTwice | src/mu_client/outbox/sqlite_outbox.py:96-123 | So does the run in which another process opens the outbox while a worker holds the row |
| OutboxStore.SqliteOutbox.OpenFile | src/mu_client/outbox/sqlite_outbox.py:96-123 | Opening recovers in-flight rows the first time and does nothing the second |
| OutboxStore.SqliteOutbox.AppendActivity | src/mu_client/outbox/sqlite_outbox.py:164-231 | Insert or ignore with the checkpoint; returns the row the id has |
| OutboxStore.SqliteOutbox.DrainBatch | src/mu_client/outbox/sqlite_outbox.py:233-271 | Hands out the oldest eligible rows with the attempts they had, marks exactly those in flight, and passes over an eligible row only when older ones fill the batch |
| OutboxStore.SqliteOutbox.RedriveDead | src/mu_client/outbox/sqlite_outbox.py:314-361 | Moves and counts the chosen dead rows |
| OutboxStore.RunOnce | src/mu_client/workers/pool.py:59-114 | The worker's loop settles each record of the batch and counts it, as the specification of one pass says |
| OutboxStore.OnePass | src/mu_client/workers/pool.py:59-114 | One pass: the tick adds up and agrees with the table (acked rows, dead rows, attempts), and every drained record used up at least one attempt left |
| OutboxStore.PassSettlesEachRecord | src/mu_client/workers/pool.py:59-114 | One pass record by record: the claimed rows are each settled by the outcome of their own ingest, no other row changes, and the tick counts the outcomes |
| OutboxStore.EachRecordIsSettled | src/mu_client/workers/pool.py:74-114 | What settling means: acked, pending with one attempt more and its backoff, or dead once the attempts are used up |
| OutboxStore.CountsAreOfTheOutcomes | src/mu_client/workers/pool.py:66-117 | The tick's numbers are how many ingests came to each outcome |
| OutboxStore.DrainAndStop | src/mu_client/workers/pool.py:138-153 | The shutdown drain ends for any outcomes and any eligibility, drains no more records than attempts were left, its totals are the sums over its passes, balance and agree with the table, and its last pass found no eligible row |
| ActivityKeys.KeysAreUnambiguous | src/mu_client/capture/parsers.py:77-89 | Equal keys are equal captures for arbitrary session names, as long as the offsets hold no bar |
| ActivityKeys.BarredOffsetsCollide | src/mu_client/capture/parsers.py:77-89 | Without that condition it fails: an offset with a bar shares its key with another capture |
| ActivityKeys.CandidateOffsetsAreUnambiguous | src/mu_client/capture/claude_tailer.py:385-392 | Two reasoning candidates share an offset only when they are the same sentence of the same block of the same record |
| Tailing.ReadTranscript | src/mu_client/capture/claude_tailer.py:260-294 | The transcript loop reads what its specification reads, and halts on the first drifted line |
| Tailing.ReadRollout | src/mu_client/capture/codex.py:340-390 | The rollout loop, with the session it carries along, reads what its specification reads |
| Tailing.RolloutTailIsStateless | src/mu_client/capture/codex.py:340-390 | When session lines agree with the name the tail starts from, where it starts does not change what a line is keyed by |
| Tailing.ResumedRolloutTailsAgree | src/mu_client/capture/codex.py:325-390 | However much of the file was there and at whichever line boundary a resumed tail starts, it keys lines as one tail of the whole file does |
| Tailing.TailEndsAtBoundary | src/mu_client/capture/claude_tailer.py:260-294 | A tail ends at a line boundary and never before it started |
| Tailing.TailSplits | src/mu_client/capture/claude_tailer.py:242-294 | A tail cut at any line boundary reads what the part before it reads and then what a tail from there reads |
| Tailing.TailIsAppendStable | src/mu_client/capture/claude_tailer.py:242-294 | What a tail read stays what the file says there however the file grows, half-written last lines included |
| Tailing.TailReadsOneMoreLine | src/mu_client/capture/claude_tailer.py:260-294 | A half-written line is left alone; once complete it adds exactly its own reading, the line without its newline at the offsets of its start and of the next line, and a drifted one halts the tail |
| Tailing.ExplicitSessionWins | src/mu_client/capture/codex.py:340-365 | With an explicit session every line is keyed under it, whatever the session lines say |
| Tailing.FirstLineNamesTheSession | src/mu_client/capture/codex.py:340-365 | Without one, a first session line that names a session names it for what follows up to another name; a nameless one leaves the name the tail started with |
| Tailing.RolloutCapturesEachItem | src/mu_client/capture/codex.py:366-390 | One activity for each line worth keeping, in the order of the lines, with its text, kind, session and hash, keyed by the byte the line starts at |
| Tailing.RolloutIdsAreDistinct | src/mu_client/capture/codex.py:114-117 | No two activities of one rollout share an id |
| Backfill.CheckpointsAreSafe | src/mu_client/capture/claude_tailer.py:465-535 | However the file grows, runs overlap or crash, a saved checkpoint is a line boundary with every earlier activity stored |
| Backfill.CompletedBackfillEqualsOneTail | src/mu_client/capture/claude_tailer.py:465-535 | A run that appended everything from a file whose complete lines it had seen leaves exactly the ids of one tail of the file |
| Backfill.CompletedRolloutBackfillEqualsOneTail | src/mu_client/capture/codex.py:435-502 | The same for rollouts: the ids stored are those of one tail by the rollout tailer, session carried along |
| Backfill.AppendFromMeaning | src/mu_client/capture/claude_tailer.py:515-536 | A finished append loop leaves a row for every activity, no other row changed, and the checkpoint moved only when something was appended |
| Backfill.BackfillThinking | src/mu_client/capture/claude_tailer.py:465-545 | One backfill against the outbox: drift halts the source and changes nothing; otherwise every activity is appended and the checkpoint moves with the last |
| CaptureHook.RunHook | src/mu_client/capture/hook.py:67-80 | The hook's early returns and fallbacks in order do what its specification says |
| CaptureHook.ReplaySpool | src/mu_client/capture/hook.py:270-294 | The replay empties the spool of exactly what no longer drifts and counts it |
| CaptureHook.IpcServer.HandleCapture | src/mu_client/daemon/ipc.py:228-279 | Requests are refused by name in the order of the checks, each with its own status and with no other, a refusal leaves the outbox alone, and nothing is taken after shutdown began |
| CaptureChannels.HandleGrows | src/mu_client/daemon/ipc.py:354-376 | A reply the hook accepts is never sent without the record in outbox or quarantine |
| CaptureChannels.HookKeeps | src/mu_client/capture/hook.py:67-172 | For every combination of missing socket, lost request, lost reply, refusal and failed write, a returned hook leaves the record in outbox, quarantine or spool |
| CaptureChannels.CapturedIsKept | src/mu_client/capture/hook.py:238-294 | Over every run, late daemon handling and dying replays included, a captured record stays kept |
| CaptureChannels.SpoolRoundTrip | src/mu_client/capture/hook.py:261-288 | A record comes out of the spool as it went in exactly when it is UTF-8 |
| CaptureChannels.IdsNameRecords | src/mu_client/capture/parsers.py:77-89 | Records with equal ids are the same record |
| CaptureChannels.OneRowPerRecord | src/mu_client/capture/hook.py:127-294 | However often a parseable UTF-8 record was sent, appended, spooled and replayed, at most one row carries it and no other record's row does |
| CaptureChannels.RowsSayWhatWasCaptured | src/mu_client/capture/hook.py:127-294 | Over every run every row says what its record parses to: kind, session, host, and the redacted text with its hash |
| CaptureChannels.OtherEncodingsDouble | src/mu_client/capture/hook.py:261-294 | In another encoding a record can get two rows |
| CaptureSpine.CapturedUntilDelivered | src/mu_client/capture/hook.py:67-294 | Capture end to end, over every run of hooks, daemon, replays, backfill, workers, retention and other processes: a captured record is in quarantine or spool, or has a row until it was delivered or its dead row deleted by content hash |
| CaptureSpine.CheckpointsNeverSkip | src/mu_client/capture/claude_tailer.py:465-535 | Over the same runs the checkpoint in the outbox is a line boundary and every activity before it has a row, was delivered, or was deleted by content hash |
| Lease.WindowsDoNotOverlap | src/mu_client/runners/sqlite_wal.py:495-600 | Mutual exclusion over every run: two unexpired windows for one prefix are one and the same |
| Lease.LateHoldersAreHarmless | src/mu_client/runners/sqlite_wal.py:559-600 | A lapsed holder's renewal or release never touches a successor's row |
| Lease.HeartbeatKeepsTheLease | src/mu_client/runners/sqlite_wal.py:547-584 | While a holder is live a renewal never shortens its window, and other acquires are turned away; how far it extends it is `Lease.RenewalExtendsToTheLimit` |
| Lease.RenewalExtendsToTheLimit | src/mu_client/runners/sqlite_wal.py:559-584 | A renewal begun at one clock reading and written while the holder is live leaves row and window ending exactly the limit after that reading |
| Lease.HeartbeatsHoldOthersOff | src/mu_client/runners/sqlite_wal.py:495-584 | Over every run a holder whose last written acquire or renewal began at most the limit ago is live, and every other acquire that reads the clock by then is turned away |
| Lease.StaleLeaseIsTaken | src/mu_client/runners/sqlite_wal.py:495-540 | Progress: once nothing was written for longer than the limit, the next acquire succeeds |
| Lease.SameProcessTwiceOverlaps | src/mu_client/runners/sqlite_wal.py:574-600 | Why one live acquire per process is needed, as a run from the start: the row only knows the process, so a lapsed acquire's release deletes a later one's row and another process gets a window over a live one |
| Lease.LeaseTable.TryAcquire | src/mu_client/runners/sqlite_wal.py:511-533 | Takes the row exactly when it is absent or expired |
| Lease.LeaseTable.RenewRow | src/mu_client/runners/sqlite_wal.py:559-584 | Extends only a row of the same process and says whether it did |
| Lease.LeaseTable.ReleaseRow | src/mu_client/runners/sqlite_wal.py:586-600 | Another process's row and every other prefix's row stay; a process's own row goes, and then any acquire of the prefix succeeds |
| Timestamps.TextOrderIsTimeOrder | src/mu_client/consent/tombstone.py:63-73 | For UTC instants with four-digit years text order is time order although zero microseconds print no fraction, beyond what section 5.1 of RFC 3339 asks for |
| Timestamps.IsoReadsBack | src/mu_client/consent/tombstone.py:63-73 | Every field of an instant stands at its place in the text and reads back as the number it was |
| Timestamps.BeforeMeaning | src/mu_client/consent/tombstone.py:63-73 | The order meant is that of time: the first field that differs decides |
| Tombstones.RowMeaning | src/mu_client/consent/tombstone.py:174-220 | After any sequence of withdrawals a row holds the latest recorded instant, and is confirmed exactly when one of them was |
| Tombstones.RecordIsIdempotent | src/mu_client/consent/tombstone.py:174-220 | Recording the same withdrawal again changes nothing |
| Tombstones.OrderDoesNotMatter | src/mu_client/consent/tombstone.py:174-220 | Instants and confirmations depend on which withdrawals were recorded, not on order or repetition |
| Tombstones.ReasonDependsOnOrder | src/mu_client/consent/tombstone.py:204-207 | The reason is not part of that: at equal instants the first one stays |
| Tombstones.ReasonOfTheFirstLatest | src/mu_client/consent/tombstone.py:204-207 | Which reason a row holds, exactly: that of the first withdrawal recorded with the latest instant |
| Tombstones.CutOfIsUpper | src/mu_client/consent/tombstone.py:222-271 | The reported instant is that of a covering row and no covering row has a later one |
| Tombstones.CutExactlyWhenCovered | src/mu_client/consent/tombstone.py:222-271 | After one more withdrawal a grant is cut exactly when it was before or the new one covers it |
| Tombstones.CutOnlyGrows | src/mu_client/consent/tombstone.py:174-271 | A cut grant stays cut, its instant never goes back and its confirmation stays |
| Tombstones.BlanketIsNeverSilent | src/mu_client/consent/tombstone.py:292-306 | A blanket cut either covers a grant or is reported as not covering it |
| Tombstones.BlanketCoversInTime | src/mu_client/consent/tombstone.py:251-260 | A blanket cut covers a grant exactly when it was not recorded before the grant was issued |
| Tombstones.ConfirmedMeaning | src/mu_client/consent/tombstone.py:117-134 | What a reader is told, exactly: a covering cut was confirmed, or the blanket row covers and carries the confirmation of a cut from before the grant was issued |
| Tombstones.ConfirmationOutlivesItsCut | src/mu_client/consent/tombstone.py:200-203 | It can be the second alone: a blanket cut the server never confirmed reads as confirmed when an earlier one of the pair was |
| Tombstones.GrantTombstones.RecordCut | src/mu_client/consent/tombstone.py:174-220 | A datetime without a zone is refused before anything is written; otherwise the merge |
| Consent.Revoke | src/mu_client/consent/service.py:315-397 | The revoke as it runs: bad reason and naive clock change nothing; otherwise the cut is written before the server leg, whatever that comes to, and the server counts as confirming exactly on a receipt or when nothing was live |
| Consent.NeverShownLiveAgain | src/mu_client/consent/service.py:258-397 | From a revoke's first write on, whatever the server leg does and whatever is recorded later, a grant it reaches is never shown as live |
| Consent.RevokeStartsWithTheCut | src/mu_client/consent/service.py:352-390 | The finished revoke is that first write and, when the server confirmed, one more |
| Consent.RevokeLeavesOneRow | src/mu_client/consent/service.py:340-390 | What a finished revoke leaves: one row, of the grant it read or of the pair, with the later instant and the reason of that, confirmed exactly when the server confirmed now or before; no other row changes |
| Consent.ReShareStaysLive | src/mu_client/consent/service.py:258-397 | A grant that was not cut and that the revoke does not reach is shown live exactly when the server says so; after a cut of the whole pair the uncovering blanket is reported |
| Consent.OfflineReadsRememberTheCut | src/mu_client/consent/service.py:258-290 | When the server cannot be asked or has no grant, a withdrawal is shown exactly when one of the pair was recorded, and as confirmed exactly when the server confirmed one of them |

## Left out

- What distilling does to recall's hits before they become slabs: the hits here are those it leaves, in any order.
- Artifact hydration: the shipped program wires no hydrator, so a reference without a text is never expanded.
- Sockets, JSON, TOML, file permissions, logging and notices: how bytes travel is not modelled, only what a lost or refused exchange leaves behind.
- What a parser makes of a host event, and which parser a registry picks: a record either has an activity or drifts; the fixed event tables would only add easy members.
- JSON transport of a record to the daemon is taken to keep the record.
- `CredentialPolicy.REFUSE`: the redaction of an activity's text is an arbitrary function that keeps the id.
- CaptureChannels.OneRowPerRecord: it speaks of rows at one moment; a purge forgets ids, so a record sent again after one gets a new row (`OutboxOnce.AtMostOnceExactly` counts that as a second delivery).
- OutboxWorkers.NothingIsLost: delivered means that an ingest returned or skipped; what the engine stored before an ingest was cut off is not visible to the outbox.
- Backfill.CompletedBackfillEqualsOneTail: it is stated for a run that had read all complete lines; a file that grew meanwhile needs one more run.
- Tailing.RolloutTailIsStateless: a session line that disagrees with the file name changes what later lines are keyed by, so agreement is a precondition.
- Lease.WindowsDoNotOverlap: a renewal whose thread outlives its cancellation is not modelled.
- AssemblyProofs.DeltaIsLeanAndCredited: it speaks of hashes; two different texts under one engine-supplied hash count as one fact, as they do in the program.
- RecallBridgeProofs.BeliefIsSound: a body the host is sent counts as held until its next reset; what a host drops from its window without one is not visible to the daemon.
- Removing an expired live state in a render that then fails: only a state past its limit is affected, which the next render would replace anyway.
- The age marker on a stale warm read and the throttling of notices: text only.
- The bound on how many refreshes read at once: every interleaving is allowed, with or without it.
- The query a coalesced refresh uses: later events overwrite it; only that the last one counts is claimed.
- `latest_cut`: whether there is a cut of the pair and whether one was confirmed are used here, not its instant.
- Receipts, residue text and the exposure contract's fields other than liveness: fixed tables.
- The job table and the shared connection of `src/mu_client/runners/sqlite_wal.py`, the enrichment queue, installers, the MCP server and the command line: easy members or plumbing.
- Floating point: fractions are exact reals.
