/**
 The context assembler's data and its meaning as functions: selection, two-arm dedup, section
 trimming, the pooled ceiling, and the rendered block. `LiveContextLoops` holds the loops the
 program runs and proves that each computes the function given here.
 */
module LiveContext {
  import opened Sequences
  import opened Text

  /** SHA-256 is idealised: a text hash is determined by its text, and distinct texts differ.
      A hit may instead carry a hash the engine supplied. */
  datatype Hash = TextHash(text: string) | EngineHash(id: string)

  datatype Section = Persona | SessionState | RecalledMemory | Recent | References | Reasoning

  const SECTION_ORDER: seq<Section> := [Persona, SessionState, RecalledMemory, Recent, References, Reasoning]
  const CEILING_DROP_ORDER: seq<Section> :=
    [References, Reasoning, RecalledMemory, SessionState, Persona, Recent]

  datatype Slab = Slab(
    id: string, hash: Hash, text: Option<string>, artifactRef: Option<string>,
    section: Section, salience: real, isFloor: bool)

  datatype ToolState = ToolState(
    correlationId: string, kind: string, title: string, status: string, resultRef: Option<string>)

  datatype SharedZone = SharedZone(runningSummary: string, openThreads: seq<string>, recentShared: seq<Slab>)

  datatype PrivateSlice = PrivateSlice(
    personaBrief: string, recalled: seq<Slab>, recencyFloor: seq<Slab>,
    reasoning: seq<Slab>, toolState: seq<ToolState>, injectedDigest: set<Hash>)

  /** One rendered line. `hash` is `None` for a marker line, which never enters the digest. */
  datatype Line = Line(text: string, hash: Option<Hash>, guarded: bool)

  type Block = map<Section, seq<Line>>

  function At<T>(block: map<Section, seq<T>>, section: Section): seq<T> {
    if section in block then block[section] else []
  }

  function ContentHashOf(text: string): Hash {
    TextHash(text)
  }

  /** Python prints an absent text as `None`. */
  function TextOf(slab: Slab): string {
    if slab.text.Some? then slab.text.value else "None"
  }

  function Bullet(text: string): string {
    "- " + text
  }

  function LineOf(slab: Slab, guarded: bool): Line {
    Line(Bullet(TextOf(slab)), Some(slab.hash), guarded)
  }

  function LineHashes(lines: seq<Line>): (r: seq<Hash>) {
    if lines == [] then []
    else if lines[0].hash.Some? then [lines[0].hash.value] + LineHashes(lines[1..])
    else LineHashes(lines[1..])
  }

  function SlabHashes(slabs: seq<Slab>): (r: seq<Hash>) {
    if slabs == [] then [] else [slabs[0].hash] + SlabHashes(slabs[1..])
  }

  // ---------------------------------------------------------------- recall hits become slabs

  datatype RecallItem = RecallItem(
    memoryId: string, content: string, artifactRef: Option<string>, isFloor: bool,
    score: real, engineHash: Option<string>)

  function SlabFromRecallItem(item: RecallItem): Slab {
    var pointer := item.artifactRef.Some? && item.content == "";
    var section := if pointer then References else if item.isFloor then Recent else RecalledMemory;
    var hash := if item.engineHash.Some? && item.engineHash.value != "" then EngineHash(item.engineHash.value)
                else ContentHashOf(item.content);
    Slab(item.memoryId, hash, if pointer then None else Some(item.content), item.artifactRef,
         section, item.score, item.isFloor)
  }

  function WhereFloor(slabs: seq<Slab>, floor: bool): (r: seq<Slab>) {
    if slabs == [] then []
    else if slabs[0].isFloor == floor then [slabs[0]] + WhereFloor(slabs[1..], floor)
    else WhereFloor(slabs[1..], floor)
  }

  /** Recall writes the recalled and floor slots and leaves the other slots as they were. */
  function UpdateRecalled(slice: PrivateSlice, slabs: seq<Slab>): PrivateSlice {
    slice.(recalled := WhereFloor(slabs, false), recencyFloor := WhereFloor(slabs, true))
  }

  // ---------------------------------------------------------------- selection

  /** `x` must come strictly before `y`: higher relevance, then higher salience. */
  predicate Before(x: Slab, y: Slab, score: Slab -> nat) {
    score(x) > score(y) || (score(x) == score(y) && x.salience > y.salience)
  }

  function Insert(x: Slab, sorted: seq<Slab>, score: Slab -> nat): seq<Slab> {
    if sorted == [] then [x]
    else if Before(sorted[0], x, score) then [sorted[0]] + Insert(x, sorted[1..], score)
    else [x] + sorted
  }

  /** A stable sort by the selection key. */
  function Sort(slabs: seq<Slab>, score: Slab -> nat): seq<Slab> {
    if slabs == [] then [] else Insert(slabs[0], Sort(slabs[1..], score), score)
  }

  function Select(slabs: seq<Slab>, score: Slab -> nat, enabled: bool): seq<Slab> {
    if !enabled || forall s :: s in slabs ==> score(s) == 0 then Sort(slabs, (s: Slab) => 0)
    else Sort(slabs, score)
  }

  // ---------------------------------------------------------------- dedup and trimming

  datatype Deduped = Deduped(kept: seq<Slab>, seen: set<Hash>, skipped: nat)

  function Dedup(slabs: seq<Slab>, seen: set<Hash>): Deduped {
    if slabs == [] then Deduped([], seen, 0)
    else if slabs[0].hash in seen then
      var rest := Dedup(slabs[1..], seen);
      rest.(skipped := rest.skipped + 1)
    else
      var rest := Dedup(slabs[1..], seen + {slabs[0].hash});
      rest.(kept := [slabs[0]] + rest.kept)
  }

  datatype Fitted = Fitted(lines: seq<Line>, trimmed: bool)

  /** Section trimming from the state (`first`, `used`) the loop has reached. */
  function FitFrom(slabs: seq<Slab>, first: bool, used: nat, budget: int, protectFloor: bool): Fitted {
    if slabs == [] then Fitted([], false)
    else
      var size := |Bullet(TextOf(slabs[0]))|;
      var mustEmit := first || (protectFloor && slabs[0].isFloor);
      if !mustEmit && used + size > budget then
        FitFrom(slabs[1..], false, used, budget, protectFloor).(trimmed := true)
      else
        var rest := FitFrom(slabs[1..], false, used + size, budget, protectFloor);
        Fitted([LineOf(slabs[0], mustEmit)] + rest.lines, rest.trimmed)
  }

  function Fit(slabs: seq<Slab>, budget: int, protectFloor: bool): Fitted {
    FitFrom(slabs, true, 0, budget, protectFloor)
  }

  /** What one section contributes, and what it leaves in `seen` for the sections after it. */
  datatype Stage = Stage(lines: seq<Line>, seen: set<Hash>, trimmed: bool, deduped: nat)

  function SlabStage(slabs: seq<Slab>, seen: set<Hash>, budget: int, protectFloor: bool): Stage {
    var d := Dedup(slabs, seen);
    var f := Fit(d.kept, budget, protectFloor);
    Stage(f.lines, d.seen, f.trimmed, d.skipped)
  }

  const PERSONA_MARKER := Line("- [persona brief truncated \U{2014} inject budget]", None, false)

  function PersonaStage(brief: string, seen: set<Hash>, budget: nat): Stage {
    if brief == "" then Stage([], seen, false, 0)
    else
      var over := |brief| > budget;
      var shown := if over then brief[..budget] else brief;
      var hash := ContentHashOf(shown);
      if hash in seen then Stage([], seen, false, 1)
      else Stage([Line(shown, Some(hash), false)] + (if over then [PERSONA_MARKER] else []),
                 seen + {hash}, over, 0)
  }

  /** A session-state line with the text its hash is taken from. */
  datatype StateItem = StateItem(text: string, hashed: string)

  function ThreadItems(threads: seq<string>): seq<StateItem> {
    seq(|threads|, i requires 0 <= i < |threads| => StateItem(Bullet(threads[i]), threads[i]))
  }

  function ShownRef(ref: Option<string>): string {
    if ref.Some? then ref.value else "None"
  }

  function ToolItem(tool: ToolState): StateItem {
    StateItem(
      Bullet(tool.kind + " " + tool.title + ": " + tool.status)
      + (if tool.resultRef.Some? && tool.resultRef.value != "" then " (result " + tool.resultRef.value + ")" else ""),
      tool.correlationId + ":" + tool.kind + ":" + tool.title + ":" + tool.status + ":" + ShownRef(tool.resultRef))
  }

  function ToolItems(tools: seq<ToolState>): seq<StateItem> {
    seq(|tools|, i requires 0 <= i < |tools| => ToolItem(tools[i]))
  }

  function SharedItems(shared: SharedZone): seq<StateItem> {
    (if shared.runningSummary == "" then [] else [StateItem(Bullet(shared.runningSummary), shared.runningSummary)])
    + ThreadItems(shared.openThreads)
  }

  function StateItems(shared: SharedZone, slice: PrivateSlice): seq<StateItem> {
    SharedItems(shared) + ToolItems(slice.toolState)
  }

  /** The session-state loop from the point where `any` says whether a line was kept so far. */
  function StateStageFrom(items: seq<StateItem>, any: bool, used: nat, seen: set<Hash>, budget: int): Stage {
    if items == [] then Stage([], seen, false, 0)
    else
      var item, rest := items[0], items[1..];
      var hash := ContentHashOf(item.hashed);
      if hash in seen then
        var s := StateStageFrom(rest, any, used, seen, budget);
        s.(deduped := s.deduped + 1)
      else if any && used + |item.text| > budget then
        StateStageFrom(rest, any, used, seen, budget).(trimmed := true)
      else
        var s := StateStageFrom(rest, true, used + |item.text|, seen + {hash}, budget);
        s.(lines := [Line(item.text, Some(hash), false)] + s.lines)
  }

  function StateStage(items: seq<StateItem>, seen: set<Hash>, budget: int): Stage {
    StateStageFrom(items, false, 0, seen, budget)
  }

  function RefMarker(ref: Option<string>, why: string): string {
    "- [reference " + ShownRef(ref) + " " + why + "]"
  }

  const NOT_WIRED := "not expanded \U{2014} no artifact store wired"

  /** References with no hydrator wired: a pointer slab leaves a named marker and no hash. */
  function ReferencesFrom(slabs: seq<Slab>, any: bool, used: nat, budget: int): Fitted {
    if slabs == [] then Fitted([], false)
    else if slabs[0].text.None? then
      var rest := ReferencesFrom(slabs[1..], true, used, budget);
      rest.(lines := [Line(RefMarker(slabs[0].artifactRef, NOT_WIRED), None, false)] + rest.lines)
    else
      var size := |Bullet(TextOf(slabs[0]))|;
      if used + size <= budget || !any then
        var rest := ReferencesFrom(slabs[1..], true, used + size, budget);
        rest.(lines := [LineOf(slabs[0], false)] + rest.lines)
      else
        ReferencesFrom(slabs[1..], any, used, budget).(trimmed := true)
  }

  function ReferenceStage(slabs: seq<Slab>, seen: set<Hash>, budget: int): Stage {
    var d := Dedup(slabs, seen);
    var f := ReferencesFrom(d.kept, false, 0, budget);
    Stage(f.lines, d.seen, f.trimmed, d.skipped)
  }

  function InSection(slabs: seq<Slab>, section: Section): (r: seq<Slab>) {
    if slabs == [] then []
    else if slabs[0].section == section then [slabs[0]] + InSection(slabs[1..], section)
    else InSection(slabs[1..], section)
  }

  function FloorOf(shared: SharedZone, slice: PrivateSlice): seq<Slab> {
    shared.recentShared + slice.recencyFloor
  }

  /** Everything `_build_sections` reads besides the state: section budgets and the prompt gate. */
  datatype Budgets = Budgets(
    persona: nat, sessionState: nat, recalledMemory: nat, recent: nat, references: nat, reasoning: nat)

  datatype Built = Built(block: Block, seen: set<Hash>, trimmed: bool, deduped: nat)

  function PersonaPass(slice: PrivateSlice, seen: set<Hash>, b: Budgets): Stage {
    PersonaStage(slice.personaBrief, seen, b.persona)
  }

  function StatePass(shared: SharedZone, slice: PrivateSlice, seen: set<Hash>, b: Budgets): Stage {
    StateStage(StateItems(shared, slice), PersonaPass(slice, seen, b).seen, b.sessionState)
  }

  function RecentPass(shared: SharedZone, slice: PrivateSlice, seen: set<Hash>, b: Budgets): Stage {
    SlabStage(FloorOf(shared, slice), StatePass(shared, slice, seen, b).seen, b.recent, true)
  }

  function Selected(slice: PrivateSlice, score: Slab -> nat, gate: bool): seq<Slab> {
    Select(InSection(slice.recalled, RecalledMemory), score, gate)
  }

  function RecalledPass(shared: SharedZone, slice: PrivateSlice, seen: set<Hash>, b: Budgets,
                        score: Slab -> nat, gate: bool): Stage
  {
    SlabStage(Selected(slice, score, gate), RecentPass(shared, slice, seen, b).seen, b.recalledMemory, false)
  }

  function ReferencePass(shared: SharedZone, slice: PrivateSlice, seen: set<Hash>, b: Budgets,
                         score: Slab -> nat, gate: bool): Stage
  {
    ReferenceStage(InSection(slice.recalled, References),
                   RecalledPass(shared, slice, seen, b, score, gate).seen, b.references)
  }

  function ReasoningPass(shared: SharedZone, slice: PrivateSlice, seen: set<Hash>, b: Budgets,
                         score: Slab -> nat, gate: bool): Stage
  {
    SlabStage(slice.reasoning, ReferencePass(shared, slice, seen, b, score, gate).seen, b.reasoning, false)
  }

  /** One pass over shared zone and one private slice, sections chained through `seen`. */
  function Build(shared: SharedZone, slice: PrivateSlice, seen: set<Hash>, b: Budgets,
                 score: Slab -> nat, gate: bool): Built
  {
    var persona := PersonaPass(slice, seen, b);
    var state := StatePass(shared, slice, seen, b);
    var recent := RecentPass(shared, slice, seen, b);
    var recalled := RecalledPass(shared, slice, seen, b, score, gate);
    var refs := ReferencePass(shared, slice, seen, b, score, gate);
    var reasoning := ReasoningPass(shared, slice, seen, b, score, gate);
    Built(
      map[Persona := persona.lines, SessionState := state.lines, RecalledMemory := recalled.lines,
          Recent := recent.lines, References := refs.lines, Reasoning := reasoning.lines],
      reasoning.seen,
      persona.trimmed || state.trimmed || recent.trimmed || recalled.trimmed || refs.trimmed || reasoning.trimmed,
      persona.deduped + state.deduped + recent.deduped + recalled.deduped + refs.deduped + reasoning.deduped)
  }

  // ---------------------------------------------------------------- rendering

  function Tag(section: Section): string {
    match section
    case Persona => "persona"
    case SessionState => "session_state"
    case RecalledMemory => "recalled_memory"
    case Recent => "recent"
    case References => "references"
    case Reasoning => "reasoning"
  }

  function SectionParts(texts: map<Section, seq<string>>, order: seq<Section>): seq<string>
    decreases |order|, |texts|
  {
    if order == [] then []
    else
      var lines := At(texts, order[0]);
      (if lines == [] then [] else ["<" + Tag(order[0]) + ">"] + lines + ["</" + Tag(order[0]) + ">"])
      + SectionParts(texts, order[1..])
  }

  function Render(texts: map<Section, seq<string>>): string {
    var parts := SectionParts(texts, SECTION_ORDER);
    if parts == [] then "" else Join(["<memory_context>"] + parts + ["</memory_context>"], '\n')
  }

  function LineTexts(lines: seq<Line>): seq<string> {
    seq(|lines|, i requires 0 <= i < |lines| => lines[i].text)
  }

  function RenderLines(block: Block): string {
    Render(map s | s in block :: LineTexts(block[s]))
  }

  /** The untrimmed block written to the spill file. Tool-state lines are not part of it. */
  function FullTexts(shared: SharedZone, slice: PrivateSlice): map<Section, seq<string>> {
    map[Persona := if slice.personaBrief == "" then [] else [slice.personaBrief],
        SessionState := ItemTexts(SharedItems(shared)),
        Recent := SlabTexts(FloorOf(shared, slice)),
        RecalledMemory := SlabTexts(InSection(slice.recalled, RecalledMemory)),
        References := RefTexts(InSection(slice.recalled, References)),
        Reasoning := SlabTexts(slice.reasoning)]
  }

  function ItemTexts(items: seq<StateItem>): seq<string> {
    seq(|items|, i requires 0 <= i < |items| => items[i].text)
  }

  function SlabTexts(slabs: seq<Slab>): seq<string> {
    seq(|slabs|, i requires 0 <= i < |slabs| => Bullet(TextOf(slabs[i])))
  }

  function RefTexts(slabs: seq<Slab>): seq<string> {
    seq(|slabs|, i requires 0 <= i < |slabs| =>
      if slabs[i].text.Some? then Bullet(TextOf(slabs[i])) else RefMarker(slabs[i].artifactRef, "not expanded"))
  }

  function FullRender(shared: SharedZone, slice: PrivateSlice): string {
    Render(FullTexts(shared, slice))
  }

  // ---------------------------------------------------------------- the pooled ceiling

  /** Index of the last line that may go: any line when `guardedToo`, else an unguarded one. */
  function LastDroppable(lines: seq<Line>, guardedToo: bool): (r: int)
    ensures -1 <= r < |lines|
    ensures r >= 0 ==> guardedToo || !lines[r].guarded
    ensures forall k :: r < k < |lines| ==> !guardedToo && lines[k].guarded
  {
    if lines == [] then -1
    else if guardedToo || !lines[|lines| - 1].guarded then |lines| - 1
    else LastDroppable(lines[..|lines| - 1], guardedToo)
  }

  datatype Victim = NoVictim | Victim(section: Section, index: nat)

  function VictimIn(kept: Block, order: seq<Section>, guardedToo: bool): (v: Victim)
    ensures v.Victim? ==> v.section in order && v.index < |At(kept, v.section)|
    decreases |order|, |kept|
  {
    if order == [] then NoVictim
    else
      var i := LastDroppable(At(kept, order[0]), guardedToo);
      if i >= 0 then Victim(order[0], i) else VictimIn(kept, order[1..], guardedToo)
  }

  /** The line the ceiling gives up next: unguarded lines anywhere before any guarded line. */
  function NextVictim(kept: Block): (v: Victim)
    ensures v.Victim? ==> v.index < |At(kept, v.section)|
  {
    var v := VictimIn(kept, CEILING_DROP_ORDER, false);
    if v.Victim? then v else VictimIn(kept, CEILING_DROP_ORDER, true)
  }

  datatype Cutting = Cutting(kept: Block, dropped: map<Section, nat>)

  function DroppedFrom(c: Cutting, section: Section): nat {
    if section in c.dropped then c.dropped[section] else 0
  }

  /** `c` with the line `v` names taken out and counted. */
  function TakenOut(c: Cutting, v: Victim): Cutting
    requires v.Victim? && v.index < |At(c.kept, v.section)|
  {
    var lines := At(c.kept, v.section);
    Cutting(c.kept[v.section := lines[..v.index] + lines[v.index + 1..]],
            c.dropped[v.section := DroppedFrom(c, v.section) + 1])
  }

  function DropOne(c: Cutting): Cutting
    requires NextVictim(c.kept).Victim?
  {
    TakenOut(c, NextVictim(c.kept))
  }

  function OmissionMarker(count: nat): Line {
    Line("- [" + Decimal(count) + " item(s) omitted \U{2014} inject budget]", None, false)
  }

  function MarkedLines(c: Cutting, section: Section): seq<Line> {
    At(c.kept, section) + (if DroppedFrom(c, section) > 0 then [OmissionMarker(DroppedFrom(c, section))] else [])
  }

  /** The surviving lines, each cut section closed by its count marker. Empty sections are absent. */
  function WithMarkers(c: Cutting): Block {
    map s: Section | s in SECTION_ORDER && MarkedLines(c, s) != [] :: MarkedLines(c, s)
  }

  function TotalLines(kept: Block): nat {
    |At(kept, Persona)| + |At(kept, SessionState)| + |At(kept, RecalledMemory)|
    + |At(kept, Recent)| + |At(kept, References)| + |At(kept, Reasoning)|
  }

  /** Gives up lines one at a time until the block fits or nothing is left to give up. */
  function FinalCutting(c: Cutting, fits: Cutting -> bool): Cutting
    decreases TotalLines(c.kept)
  {
    if fits(c) || NextVictim(c.kept).NoVictim? then c else FinalCutting(DropOne(c), fits)
  }

  function Within(budget: int): Cutting -> bool {
    (c: Cutting) => |RenderLines(WithMarkers(c))| <= budget
  }

  /** `exhausted`: not even the omission markers fit, so the block is empty. */
  datatype Ceiled = Ceiled(block: Block, cut: bool, exhausted: bool)

  function Ceiling(block: Block, budget: int): Ceiled {
    var c := FinalCutting(Cutting(block, map[]), Within(budget));
    if Within(budget)(c) then Ceiled(WithMarkers(c), c.dropped != map[], false) else Ceiled(map[], true, true)
  }

  function EmittedIn(block: Block, order: seq<Section>, seen: set<Hash>): seq<Hash>
    decreases |order|, |block|
  {
    if order == [] then []
    else
      var here := FreshHashes(At(block, order[0]), seen);
      here + EmittedIn(block, order[1..], seen + ToSet(here))
  }

  function FreshHashes(lines: seq<Line>, seen: set<Hash>): (r: seq<Hash>) {
    if lines == [] then []
    else if lines[0].hash.None? || lines[0].hash.value in seen then FreshHashes(lines[1..], seen)
    else [lines[0].hash.value] + FreshHashes(lines[1..], seen + {lines[0].hash.value})
  }

  function Emitted(block: Block): seq<Hash> {
    EmittedIn(block, SECTION_ORDER, {})
  }

  // ---------------------------------------------------------------- one assembly

  /** `delta` and `snapshot` are the surviving lines; the bodies are their renderings. */
  datatype Assembled = Assembled(
    delta: Block, snapshot: Block, fullBody: string, emitted: seq<Hash>, deduped: nat, trimmed: bool)
  {
    function Body(): string { RenderLines(delta) }
    function SnapshotBody(): string { RenderLines(snapshot) }
  }

  function Assemble(shared: SharedZone, slice: PrivateSlice, budget: int, b: Budgets,
                    score: Slab -> nat, gate: bool): Assembled
  {
    var built := Build(shared, slice, slice.injectedDigest, b, score, gate);
    var delta := Ceiling(built.block, budget);
    var trimmed := built.trimmed || delta.cut;
    var snapshot := Ceiling(Build(shared, slice, {}, b, score, gate).block, budget);
    Assembled(delta.block, snapshot.block,
              if trimmed then FullRender(shared, slice) else RenderLines(delta.block),
              Emitted(delta.block), built.deduped, trimmed)
  }
}
