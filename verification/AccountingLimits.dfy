/** Concrete inputs on which the assembler's accounting stops short. */
module AccountingLimits {
  import opened Sequences
  import opened Text
  import opened LiveContext
  import opened CeilingProofs
  import opened AssemblyProofs
  import opened AccountingProofs

  const NO_BUDGETS := Budgets(0, 0, 0, 0, 0, 0)
  const EMPTY_ZONE := SharedZone("", [], [])
  const EMPTY_SLICE := PrivateSlice("", [], [], [], [], {})

  function Flat(s: Slab): nat { 0 }

  lemma EmptyRender(texts: map<Section, seq<string>>)
    requires forall s: Section :: At(texts, s) == []
    ensures Render(texts) == ""
  {
    NoPartsAtAll(texts, SECTION_ORDER);
  }

  lemma NoPartsAtAll(texts: map<Section, seq<string>>, order: seq<Section>)
    requires forall s: Section :: At(texts, s) == []
    ensures SectionParts(texts, order) == []
  {
    if order != [] { NoPartsAtAll(texts, order[1..]); }
  }

  lemma EmptySections(slice: PrivateSlice, seen: set<Hash>, budget: int, guard: bool)
    ensures SlabStage([], seen, budget, guard) == Stage([], seen, false, 0)
    ensures ReferenceStage([], seen, budget) == Stage([], seen, false, 0)
    ensures Selected(slice.(recalled := []), Flat, true) == []
  {}

  // ---------------------------------------------------------------- a cut tool-state line

  /** With no budget at all the first state line is kept and the second is cut. */
  lemma TwoStateLines(x: StateItem, y: StateItem, seen: set<Hash>)
    requires ContentHashOf(x.hashed) !in seen && ContentHashOf(y.hashed) !in seen && x.hashed != y.hashed
             && y.text != ""
    ensures StateStage([x, y], seen, 0)
            == Stage([Line(x.text, Some(ContentHashOf(x.hashed)), false)], seen + {ContentHashOf(x.hashed)}, true, 0)
  {
    var used, now := |x.text|, seen + {ContentHashOf(x.hashed)};
    assert [x, y][1..] == [y] && [y][1..] == [];
    assert StateStageFrom([y], true, used, now, 0) == Stage([], now, true, 0);
  }

  const FIRST_TOOL := ToolState("1", "task", "build", "done", None)
  const SECOND_TOOL := ToolState("2", "task", "deploy", "running", None)
  const TWO_TOOLS := EMPTY_SLICE.(toolState := [FIRST_TOOL, SECOND_TOOL])

  lemma ToolItemsDiffer()
    ensures ToolItem(FIRST_TOOL).hashed != ToolItem(SECOND_TOOL).hashed
    ensures ToolItem(SECOND_TOOL).text != ""
  {
    assert ToolItem(FIRST_TOOL).hashed[0] == '1' && ToolItem(SECOND_TOOL).hashed[0] == '2';
    assert ToolItem(SECOND_TOOL).text[0] == '-';
  }

  /** With nothing but tool state, the block is what the state section makes of it. */
  lemma OnlyState(slice: PrivateSlice)
    requires slice == EMPTY_SLICE.(toolState := slice.toolState)
    ensures var st := StateStage(StateItems(EMPTY_ZONE, slice), {}, 0);
            var built := Build(EMPTY_ZONE, slice, {}, NO_BUDGETS, Flat, true);
            && built.trimmed == st.trimmed
            && built.block == map[Persona := [], SessionState := st.lines, RecalledMemory := [],
                                  Recent := [], References := [], Reasoning := []]
  {
    hide StateStage, StateItems, SlabStage, ReferenceStage, Select;
    assert InSection([], RecalledMemory) == [] && InSection([], References) == [];
    var st := StatePass(EMPTY_ZONE, slice, {}, NO_BUDGETS);
    EmptySections(slice, st.seen, 0, true);
    EmptySections(slice, st.seen, 0, false);
    assert slice.(recalled := []) == slice && FloorOf(EMPTY_ZONE, slice) == [];
    assert PersonaPass(slice, {}, NO_BUDGETS) == Stage([], {}, false, 0);
    assert RecentPass(EMPTY_ZONE, slice, {}, NO_BUDGETS) == Stage([], st.seen, false, 0);
    assert RecalledPass(EMPTY_ZONE, slice, {}, NO_BUDGETS, Flat, true) == Stage([], st.seen, false, 0);
    assert ReferencePass(EMPTY_ZONE, slice, {}, NO_BUDGETS, Flat, true) == Stage([], st.seen, false, 0);
  }

  lemma TwoToolsBuilt()
    ensures var x := ToolItem(FIRST_TOOL);
            var built := Build(EMPTY_ZONE, TWO_TOOLS, {}, NO_BUDGETS, Flat, true);
            && built.trimmed
            && built.block == map[Persona := [], SessionState := [Line(x.text, Some(ContentHashOf(x.hashed)), false)],
                                  RecalledMemory := [], Recent := [], References := [], Reasoning := []]
  {
    OnlyState(TWO_TOOLS);
    ToolItemsDiffer();
    assert StateItems(EMPTY_ZONE, TWO_TOOLS) == [ToolItem(FIRST_TOOL), ToolItem(SECOND_TOOL)];
    hide Build, StateStage, StateItems, ToolItem;
    TwoStateLines(ToolItem(FIRST_TOOL), ToolItem(SECOND_TOOL), {});
  }

  lemma ToolsAreNotSpilled(tools: seq<ToolState>)
    ensures FullRender(EMPTY_ZONE, EMPTY_SLICE.(toolState := tools)) == ""
  {
    var texts := FullTexts(EMPTY_ZONE, EMPTY_SLICE.(toolState := tools));
    forall s: Section
      ensures At(texts, s) == []
    {
      match s case Persona => case SessionState => case RecalledMemory =>
              case Recent => case References => case Reasoning =>
    }
    EmptyRender(texts);
  }

  lemma OnlyOneHash(block: Block, line: Line, h: Hash, other: Hash)
    requires block == map[Persona := [], SessionState := [line], RecalledMemory := [],
                          Recent := [], References := [], Reasoning := []]
    requires line.hash == Some(h) && other != h
    ensures !Carries(block, other)
  {
    assert LineHashes([line]) == [h] by { assert [line][1..] == []; }
    NoHashes();
    forall s: Section
      ensures other !in LineHashes(At(block, s))
    {
      match s case Persona => case SessionState => case RecalledMemory =>
              case Recent => case References => case Reasoning =>
    }
  }

  /** A tool-state line cut by its section budget is in neither the body nor the spill: the spill
      is rendered without tool state. Two tools and no room for the second are enough. */
  lemma CutToolLineIsLost(budget: nat)
    ensures var a := Assemble(EMPTY_ZONE, TWO_TOOLS, budget, NO_BUDGETS, Flat, true);
            var lost := ToolItem(SECOND_TOOL);
            a.trimmed && !Reported(TWO_TOOLS, a, ContentHashOf(lost.hashed), lost.text)
  {
    hide Build, Ceiling, EmittedIn, RenderLines, FullRender, ToolItem, At;
    TwoToolsBuilt();
    ToolItemsDiffer();
    ToolsAreNotSpilled([FIRST_TOOL, SECOND_TOOL]);
    var x, y := ToolItem(FIRST_TOOL), ToolItem(SECOND_TOOL);
    var block := Build(EMPTY_ZONE, TWO_TOOLS, {}, NO_BUDGETS, Flat, true).block;
    OnlyOneHash(block, Line(x.text, Some(ContentHashOf(x.hashed)), false), ContentHashOf(x.hashed),
                ContentHashOf(y.hashed));
    BuildNoRepeat(EMPTY_ZONE, TWO_TOOLS, {}, NO_BUDGETS, Flat, true);
    CeilingNoRepeat(block, budget);
    EmittedMeaning(Ceiling(block, budget).block);
  }

  // ---------------------------------------------------------------- a persona brief cut once

  /** A cut persona brief is reported exactly while its shown part is not with the host: the rest is
      reported on the turn that cuts it and on no later one, where the section is empty and nothing
      counts as trimmed. */
  lemma CutPersonaIsReportedOnce(brief: string, budget: nat, seen: set<Hash>)
    ensures PersonaStage(brief, seen, budget).trimmed
            <==> |brief| > budget && ContentHashOf(ShownPersona(brief, budget)) !in seen
    ensures PersonaStage(brief, seen, budget).lines == []
            <==> brief == "" || ContentHashOf(ShownPersona(brief, budget)) in seen
  {}

  // ---------------------------------------------------------------- a line behind a pointer

  /** A reasoning line is lost when a pointer reference carries the same hash: nothing is trimmed,
      nothing is credited, and the marker names something else. */
  lemma ShadowedLineIsLost(hash: Hash, id: string, ref: string, text: string)
    ensures var pointer := Slab(id, hash, None, Some(ref), References, 0.0, false);
            var thought := Slab(id, hash, Some(text), None, Reasoning, 0.0, false);
            var slice := EMPTY_SLICE.(recalled := [pointer], reasoning := [thought]);
            exists budget: nat ::
              var a := Assemble(EMPTY_ZONE, slice, budget, NO_BUDGETS, Flat, true);
              !a.trimmed && IsCandidate(EMPTY_ZONE, slice, thought) && !Reported(slice, a, hash, Bullet(text))
  {
    var pointer := Slab(id, hash, None, Some(ref), References, 0.0, false);
    var thought := Slab(id, hash, Some(text), None, Reasoning, 0.0, false);
    var slice := EMPTY_SLICE.(recalled := [pointer], reasoning := [thought]);
    assert InSection([pointer], References) == [pointer];
    assert InSection([pointer], RecalledMemory) == [];
    assert SlabHashes([pointer]) == [hash];
    assert EarlierHashes(EMPTY_ZONE, slice, NO_BUDGETS) == {};
    assert Shadowed(EMPTY_ZONE, slice, NO_BUDGETS, hash);
    var block := Build(EMPTY_ZONE, slice, {}, NO_BUDGETS, Flat, true).block;
    PointerAlone(pointer);
    PointerThenThought(thought, hash);
    forall seen, g { EmptySections(slice, seen, 0, g); }
    hide SlabStage, ReferenceStage, Selected, StateStageFrom;
    assert !Build(EMPTY_ZONE, slice, {}, NO_BUDGETS, Flat, true).trimmed;
    hide Build, RenderLines, EmittedIn, Shadowed, WithMarkers;
    var budget := |RenderLines(WithMarkers(Cutting(block, map[])))|;
    FittingBlockUnchanged(block, budget);
    hide Ceiling, FullRender;
    NothingDisappearsUnreported(EMPTY_ZONE, slice, budget, NO_BUDGETS, Flat, true, thought);
    assert !Assemble(EMPTY_ZONE, slice, budget, NO_BUDGETS, Flat, true).trimmed;
  }

  lemma PointerAlone(pointer: Slab)
    requires pointer.text.None?
    ensures var g := ReferenceStage([pointer], {}, 0); g.seen == {pointer.hash} && !g.trimmed
  {
    assert [pointer][1..] == [];
    assert Dedup([], {pointer.hash}) == Deduped([], {pointer.hash}, 0);
    assert Dedup([pointer], {}) == Deduped([pointer], {pointer.hash}, 0);
    assert ReferencesFrom([], true, 0, 0) == Fitted([], false);
    assert !ReferencesFrom([pointer], false, 0, 0).trimmed;
  }

  lemma PointerThenThought(thought: Slab, hash: Hash)
    requires thought.hash == hash
    ensures SlabStage([thought], {hash}, 0, false) == Stage([], {hash}, false, 1)
  {
    assert [thought][1..] == [];
    assert Dedup([thought], {hash}) == Deduped([], {hash}, 1);
  }

  // ---------------------------------------------------------------- hits without a body

  /** Hits that carry a link and no body all hash the empty text, so of several such references only
      the first leaves its marker, and nothing counts as trimmed. */
  lemma SecondPointerIsSilent(a: RecallItem, b: RecallItem, seen: set<Hash>, budget: int)
    requires a.artifactRef.Some? && b.artifactRef.Some? && a.content == "" && b.content == ""
    requires a.engineHash.None? && b.engineHash.None? && ContentHashOf("") !in seen
    ensures var g := ReferenceStage([SlabFromRecallItem(a), SlabFromRecallItem(b)], seen, budget);
            g.lines == [Line(RefMarker(a.artifactRef, NOT_WIRED), None, false)] && !g.trimmed
  {
    var x, y := SlabFromRecallItem(a), SlabFromRecallItem(b);
    var now := seen + {x.hash};
    assert [x, y][1..] == [y] && [y][1..] == [] && [x][1..] == [];
    assert Dedup([], now) == Deduped([], now, 0);
    assert Dedup([y], now) == Deduped([], now, 1);
    assert Dedup([x, y], seen) == Deduped([x], now, 1);
    assert ReferencesFrom([], true, 0, budget) == Fitted([], false);
    assert ReferencesFrom([x], false, 0, budget).lines == [Line(RefMarker(x.artifactRef, NOT_WIRED), None, false)] + [];
  }

  /** Exactly the floor hits with a link and no body are filed with the floor without a text, and are
      rendered as the word None. */
  lemma FloorPointerShowsNone(item: RecallItem, slice: PrivateSlice)
    requires item.isFloor
    ensures UpdateRecalled(slice, [SlabFromRecallItem(item)]).recencyFloor == [SlabFromRecallItem(item)]
    ensures SlabFromRecallItem(item).text.None? <==> item.artifactRef.Some? && item.content == ""
    ensures LineOf(SlabFromRecallItem(item), true).text == "- None"
            <==> (item.artifactRef.Some? && item.content == "") || item.content == "None"
    ensures item.artifactRef.Some? && item.content == "" && item.engineHash.None? ==>
              LineOf(SlabFromRecallItem(item), true) == Line("- None", Some(ContentHashOf("")), true)
  {
    assert Bullet(item.content)[2..] == item.content;
    var slab := SlabFromRecallItem(item);
    assert slab.isFloor && [slab][1..] == [] && WhereFloor([], true) == [];
    assert WhereFloor([slab], true) == [slab] + [];
  }

  // ---------------------------------------------------------------- length is no measure

  /** Giving up a line can make the block longer, because its marker is longer than the line. */
  lemma DroppingCanLengthen()
    ensures var c := Cutting(map[Reasoning := [Line("-", None, false)]], map[]);
            && NextVictim(c.kept).Victim?
            && |RenderLines(WithMarkers(DropOne(c)))| > |RenderLines(WithMarkers(c))|
  {
    hide RenderLines, NextVictim, OmissionMarker;
    var line, marker := Line("-", None, false), OmissionMarker(1);
    var c := Cutting(map[Reasoning := [line]], map[]);
    OneLineVictim(c, line);
    var d := DropOne(c);
    assert d.kept == map[Reasoning := []] && d.dropped == map[Reasoning := 1];
    OnlyReasoningMarked(c, line);
    OnlyReasoningMarked(d, marker);
    OneReasoningLine(WithMarkers(c), line);
    OneReasoningLine(WithMarkers(d), marker);
    MarkerIsLong(1);
  }

  lemma MarkerIsLong(count: nat)
    ensures |OmissionMarker(count).text| > 1
  {}

  lemma OnlyReasoningMarked(c: Cutting, line: Line)
    requires MarkedLines(c, Reasoning) == [line]
    requires c.kept.Keys == {Reasoning} && c.dropped.Keys <= {Reasoning}
    ensures forall s: Section :: At(WithMarkers(c), s) == if s == Reasoning then [line] else []
  {
    MarkedSections(c);
  }

  lemma OneLineVictim(c: Cutting, line: Line)
    requires c.kept == map[Reasoning := [line]] && !line.guarded
    ensures NextVictim(c.kept) == Victim(Reasoning, 0)
  {
    var order := CEILING_DROP_ORDER;
    assert LastDroppable([line], false) == 0;
    assert order[1..][0] == Reasoning;
    assert VictimIn(c.kept, order[1..], false) == Victim(Reasoning, 0);
  }

  /** The rendered length of a block with one reasoning line. */
  lemma OneReasoningLine(block: Block, line: Line)
    requires forall s: Section :: At(block, s) == if s == Reasoning then [line] else []
    ensures |RenderLines(block)|
            == |Join(["<memory_context>", "<reasoning>", "", "</reasoning>", "</memory_context>"], '\n')| + |line.text|
  {
    hide Join, Tag;
    var texts := map s | s in block :: LineTexts(block[s]);
    assert LineTexts([line]) == [line.text];
    forall s: Section
      ensures At(texts, s) == if s == Reasoning then [line.text] else []
    {
      assert At(texts, s) == LineTexts(At(block, s));
    }
    OnlyReasoning(texts, SECTION_ORDER, line.text);
    FiveParts("<memory_context>", "<reasoning>", line.text, "</reasoning>", "</memory_context>");
    FiveParts("<memory_context>", "<reasoning>", "", "</reasoning>", "</memory_context>");
    assert ["<memory_context>"] + ["<reasoning>", line.text, "</reasoning>"] + ["</memory_context>"]
        == ["<memory_context>", "<reasoning>", line.text, "</reasoning>", "</memory_context>"];
  }

  lemma FiveParts(a: string, b: string, c: string, d: string, e: string)
    ensures |Join([a, b, c, d, e], '\n')| == |a| + |b| + |c| + |d| + |e| + 4
  {
    JoinStep(a, [b, c, d, e]);
    JoinStep(b, [c, d, e]);
    JoinStep(c, [d, e]);
    JoinStep(d, [e]);
    hide Join;
    assert [a, b, c, d, e] == [a] + [b, c, d, e] && [b, c, d, e] == [b] + [c, d, e];
    assert [c, d, e] == [c] + [d, e] && [d, e] == [d] + [e];
    JoinOne(e);
  }

  lemma JoinOne(e: string)
    ensures Join([e], '\n') == e
  {}

  lemma JoinStep(a: string, rest: seq<string>)
    requires rest != []
    ensures |Join([a] + rest, '\n')| == |a| + 1 + |Join(rest, '\n')|
  {
    assert ([a] + rest)[1..] == rest;
  }

  lemma OnlyReasoning(texts: map<Section, seq<string>>, order: seq<Section>, line: string)
    requires forall s: Section :: At(texts, s) == if s == Reasoning then [line] else []
    requires order != [] && order[|order| - 1] == Reasoning && forall i :: 0 <= i < |order| - 1 ==>
             order[i] != Reasoning
    ensures SectionParts(texts, order) == ["<reasoning>", line, "</reasoning>"]
  {
    if |order| > 1 {
      OnlyReasoning(texts, order[1..], line);
    } else {
      assert order[0] == Reasoning && At(texts, order[0]) == [line];
      assert SectionParts(texts, order[1..]) == [];
      TagsOfReasoning();
      assert ["<reasoning>"] + [line] + ["</reasoning>"] == ["<reasoning>", line, "</reasoning>"];
    }
  }

  lemma TagsOfReasoning()
    ensures "<" + Tag(Reasoning) + ">" == "<reasoning>"
    ensures "</" + Tag(Reasoning) + ">" == "</reasoning>"
  {}
}
