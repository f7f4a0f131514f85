/** Nothing the assembler is given disappears unreported, except behind a pointer that claimed the
    hash first; `AccountingLimits` shows that exception and one more. */
module AccountingProofs {
  import opened Sequences
  import opened Text
  import opened LiveContext
  import opened CeilingProofs
  import opened AssemblyProofs
  import opened SectionTexts

  // ---------------------------------------------------------------- selection drops nothing

  ghost predicate Ordered(slabs: seq<Slab>, score: Slab -> nat) {
    forall i, j :: 0 <= i < j < |slabs| ==> !Before(slabs[j], slabs[i], score)
  }

  lemma InsertMeaning(x: Slab, sorted: seq<Slab>, score: Slab -> nat)
    requires Ordered(sorted, score)
    ensures multiset(Insert(x, sorted, score)) == multiset(sorted) + multiset{x}
    ensures Ordered(Insert(x, sorted, score), score)
  {
    hide Before;
    if sorted != [] {
      assert sorted == [sorted[0]] + sorted[1..];
      if Before(sorted[0], x, score) {
        InsertMeaning(x, sorted[1..], score);
        var rest := Insert(x, sorted[1..], score);
        forall y | y in rest
          ensures !Before(y, sorted[0], score)
        {
          assert y in multiset(rest);
          assert y == x || y in sorted[1..];
          NotBoth(sorted[0], x, score);
        }
        OrderedInFront(sorted[0], rest, score);
      } else {
        forall y | y in sorted
          ensures !Before(y, x, score)
        {
          var k :| 0 <= k < |sorted| && sorted[k] == y;
          if k > 0 { NotAbove(y, sorted[0], x, score); }
        }
        OrderedInFront(x, sorted, score);
      }
    }
  }

  lemma NotBoth(x: Slab, y: Slab, score: Slab -> nat)
    ensures Before(x, y, score) ==> !Before(y, x, score)
    ensures !Before(x, x, score)
  {}

  lemma NotAbove(y: Slab, first: Slab, x: Slab, score: Slab -> nat)
    requires !Before(first, x, score) && !Before(y, first, score)
    ensures !Before(y, x, score)
  {}

  lemma OrderedInFront(x: Slab, rest: seq<Slab>, score: Slab -> nat)
    requires Ordered(rest, score) && forall y :: y in rest ==> !Before(y, x, score)
    ensures Ordered([x] + rest, score)
  {
    hide Before;
  }

  lemma NothingIsOrdered(score: Slab -> nat)
    ensures Ordered([], score)
  {}

  /** Selection reorders and drops nothing: more relevant first, then more salient. */
  lemma SortMeaning(slabs: seq<Slab>, score: Slab -> nat)
    ensures var r := Sort(slabs, score);
            multiset(r) == multiset(slabs) && Ordered(r, score)
  {
    hide Ordered, Before;
    NothingIsOrdered(score);
    if slabs != [] {
      SortMeaning(slabs[1..], score);
      InsertMeaning(slabs[0], Sort(slabs[1..], score), score);
      assert slabs == [slabs[0]] + slabs[1..];
    }
  }

  /** Ordered by relevance to the prompt, higher first, and by salience where that is equal. */
  lemma OrderedMeans(r: seq<Slab>, score: Slab -> nat)
    requires Ordered(r, score)
    ensures forall i, j :: 0 <= i < j < |r| ==>
              score(r[i]) > score(r[j]) || (score(r[i]) == score(r[j]) && r[i].salience >= r[j].salience)
  {
    forall i, j | 0 <= i < j < |r|
      ensures score(r[i]) > score(r[j]) || (score(r[i]) == score(r[j]) && r[i].salience >= r[j].salience)
    {
      assert !Before(r[j], r[i], score);
    }
  }

  /** What the prompt gate does: while it is on and the prompt touches anything, relevance comes first and
      salience decides among equals; otherwise salience alone orders, whatever the scores say. */
  lemma SelectMeaning(slabs: seq<Slab>, score: Slab -> nat, gate: bool)
    ensures var r, touched := Select(slabs, score, gate), gate && exists s :: s in slabs && score(s) > 0;
            && multiset(r) == multiset(slabs)
            && (touched ==> forall i, j :: 0 <= i < j < |r| ==>
                  score(r[i]) > score(r[j]) || (score(r[i]) == score(r[j]) && r[i].salience >= r[j].salience))
            && (!touched ==> forall i, j :: 0 <= i < j < |r| ==> r[i].salience >= r[j].salience)
  {
    hide Sort, Ordered;
    SortMeaning(slabs, score);
    OrderedMeans(Sort(slabs, score), score);
    var flat := (s: Slab) => 0;
    SortMeaning(slabs, flat);
    OrderedMeans(Sort(slabs, flat), flat);
  }

  /** Of recall's hits: without a prompt that touches any of them they come in the order of the scores
      recall gave them. */
  lemma UntouchedHitsComeByScore(items: seq<RecallItem>, slabs: seq<Slab>, score: Slab -> nat)
    requires |slabs| == |items| && forall i :: 0 <= i < |items| ==> slabs[i] == SlabFromRecallItem(items[i])
    requires forall s :: s in slabs ==> score(s) == 0
    ensures var r := Select(slabs, score, true);
            forall i, j, x, y ::
              (0 <= i < j < |r| && 0 <= x < |items| && 0 <= y < |items|
               && r[i] == SlabFromRecallItem(items[x]) && r[j] == SlabFromRecallItem(items[y])) ==>
                items[x].score >= items[y].score
  {
    hide Select;
    SelectMeaning(slabs, score, true);
  }

  /** Which hits count as one fact: by the hash the engine supplied when there is one, else by the text;
      and never across the two. */
  lemma HitsAreOneFactWhen(a: RecallItem, b: RecallItem)
    ensures var ea, eb := a.engineHash.Some? && a.engineHash.value != "", b.engineHash.Some?
            && b.engineHash.value != "";
            SlabFromRecallItem(a).hash == SlabFromRecallItem(b).hash
            <==> ea == eb && (if ea then a.engineHash == b.engineHash else a.content == b.content)
  {}

  /** Slabs the key cannot tell apart keep the order recall ranked them in. */
  lemma {:induction false} SortIsStable(slabs: seq<Slab>, score: Slab -> nat, level: nat, salience: real)
    ensures Alike(Sort(slabs, score), score, level, salience) == Alike(slabs, score, level, salience)
  {
    if slabs != [] {
      SortIsStable(slabs[1..], score, level, salience);
      SortMeaning(slabs[1..], score);
      InsertKeepsAlike(slabs[0], Sort(slabs[1..], score), score, level, salience);
    }
  }

  function Alike(slabs: seq<Slab>, score: Slab -> nat, level: nat, salience: real): seq<Slab> {
    if slabs == [] then []
    else (if score(slabs[0]) == level && slabs[0].salience == salience then [slabs[0]] else [])
         + Alike(slabs[1..], score, level, salience)
  }

  lemma {:induction false} InsertKeepsAlike(x: Slab, sorted: seq<Slab>, score: Slab -> nat, level: nat, salience: real)
    ensures Alike(Insert(x, sorted, score), score, level, salience) == Alike([x] + sorted, score, level, salience)
  {
    if sorted != [] && Before(sorted[0], x, score) {
      InsertKeepsAlike(x, sorted[1..], score, level, salience);
      assert ([x] + sorted)[1..] == sorted && ([x] + sorted[1..])[1..] == sorted[1..];
      var r := Insert(x, sorted, score);
      assert r[1..] == Insert(x, sorted[1..], score);
    }
  }

  lemma SelectKeepsEverySlab(slabs: seq<Slab>, score: Slab -> nat, enabled: bool)
    ensures multiset(Select(slabs, score, enabled)) == multiset(slabs)
    ensures ToSet(SlabHashes(Select(slabs, score, enabled))) == ToSet(SlabHashes(slabs))
  {
    SortMeaning(slabs, score);
    SortMeaning(slabs, (s: Slab) => 0);
    var r := Select(slabs, score, enabled);
    HashesOfMembers(slabs);
    HashesOfMembers(r);
    forall s ensures s in r <==> s in slabs {
      assert s in multiset(r) <==> s in multiset(slabs);
    }
  }

  lemma HashesOfMembers(slabs: seq<Slab>)
    ensures forall h :: h in SlabHashes(slabs) <==> exists s :: s in slabs && s.hash == h
  {
    forall h
      ensures h in SlabHashes(slabs) <==> exists s :: s in slabs && s.hash == h
    {
      if h in SlabHashes(slabs) {
        var s := FirstWith(slabs, h);
      } else if exists s :: s in slabs && s.hash == h {
        var s :| s in slabs && s.hash == h;
        SlabHashIn(slabs, s);
      }
    }
  }

  // ---------------------------------------------------------------- the spill holds every line

  lemma PartsContain(texts: map<Section, seq<string>>, order: seq<Section>, s: Section, line: string)
    requires s in order && line in At(texts, s)
    ensures line in SectionParts(texts, order)
  {
    if order[0] != s { PartsContain(texts, order[1..], s, line); }
  }

  lemma RenderContains(texts: map<Section, seq<string>>, s: Section, line: string)
    requires line in At(texts, s)
    ensures Occurs(line, Render(texts))
  {
    hide SectionParts, Join, Occurs;
    EverySectionHasAPlace(s);
    PartsContain(texts, SECTION_ORDER, s, line);
    var parts := ["<memory_context>"] + SectionParts(texts, SECTION_ORDER) + ["</memory_context>"];
    var i :| 0 <= i < |SectionParts(texts, SECTION_ORDER)| && SectionParts(texts, SECTION_ORDER)[i] == line;
    assert parts[i + 1] == line;
    JoinedPartOccurs(parts, '\n', i + 1);
  }

  /** Every line of the delta is in the text the host receives. */
  lemma DeltaLineIsInBody(a: Assembled, s: Section, line: Line)
    requires line in At(a.delta, s)
    ensures Occurs(line.text, a.Body())
  {
    hide SectionParts, Join, Occurs;
    var texts := map t | t in a.delta :: LineTexts(a.delta[t]);
    var i :| 0 <= i < |At(a.delta, s)| && At(a.delta, s)[i] == line;
    assert At(texts, s)[i] == line.text;
    RenderContains(texts, s, line.text);
  }

  /** A slab of one of the four slab slots. */
  predicate IsCandidate(shared: SharedZone, slice: PrivateSlice, t: Slab) {
    || t in shared.recentShared
    || t in slice.recencyFloor
    || (t in slice.recalled && (t.section == RecalledMemory || t.section == References))
    || t in slice.reasoning
  }

  lemma CandidatesAreFiled(shared: SharedZone, slice: PrivateSlice, t: Slab)
    requires IsCandidate(shared, slice, t)
    ensures || t in FloorOf(shared, slice) || t in InSection(slice.recalled, RecalledMemory)
            || t in InSection(slice.recalled, References) || t in slice.reasoning
  {
    if t in slice.recalled { FiledInSection(slice.recalled, t); }
  }

  lemma FiledInSection(slabs: seq<Slab>, t: Slab)
    requires t in slabs
    ensures t in InSection(slabs, t.section)
  {
    if slabs[0] != t { FiledInSection(slabs[1..], t); }
  }

  lemma SpillHolds(shared: SharedZone, slice: PrivateSlice, t: Slab)
    requires IsCandidate(shared, slice, t) && t.text.Some?
    ensures Occurs(Bullet(TextOf(t)), FullRender(shared, slice))
  {
    hide Render, Occurs;
    CandidatesAreFiled(shared, slice, t);
    var line := Bullet(TextOf(t));
    var texts := FullTexts(shared, slice);
    if t in FloorOf(shared, slice) {
      SlabTextIn(FloorOf(shared, slice), t);
      RenderContains(texts, Recent, line);
    } else if t in InSection(slice.recalled, RecalledMemory) {
      SlabTextIn(InSection(slice.recalled, RecalledMemory), t);
      RenderContains(texts, RecalledMemory, line);
    } else if t in InSection(slice.recalled, References) {
      var refs := InSection(slice.recalled, References);
      var i :| 0 <= i < |refs| && refs[i] == t;
      assert RefTexts(refs)[i] == line;
      RenderContains(texts, References, line);
    } else {
      SlabTextIn(slice.reasoning, t);
      RenderContains(texts, Reasoning, line);
    }
  }

  /** A pointer is named in the spill, every one of them, and its content is not fetched for it. */
  lemma SpillNamesPointers(shared: SharedZone, slice: PrivateSlice, t: Slab)
    requires t in slice.recalled && t.section == References && t.text.None? && t.artifactRef.Some?
    ensures Occurs("- [reference " + t.artifactRef.value + " not expanded]", FullRender(shared, slice))
  {
    hide Render, Occurs;
    var refs := InSection(slice.recalled, References);
    FiledInSection(slice.recalled, t);
    var i :| 0 <= i < |refs| && refs[i] == t;
    var line := "- [reference " + t.artifactRef.value + " not expanded]";
    assert RefTexts(refs)[i] == line;
    RenderContains(FullTexts(shared, slice), References, line);
  }

  lemma SlabTextIn(slabs: seq<Slab>, t: Slab)
    requires t in slabs
    ensures Bullet(TextOf(t)) in SlabTexts(slabs)
  {
    var i :| 0 <= i < |slabs| && slabs[i] == t;
    assert SlabTexts(slabs)[i] == Bullet(TextOf(t));
  }

  // ---------------------------------------------------------------- when nothing was trimmed

  /** Six sections in a row, all complete but the references: a hash recorded on the way is on a
      line, unless the references recorded it for a pointer. */
  lemma ChainCarries(s0: set<Hash>, a: Stage, b: Stage, c: Stage, d: Stage, e: Stage, f: Stage, block: Block,
                     h: Hash, pointer: bool)
    requires Clean(a, s0) && Clean(b, a.seen) && Clean(c, b.seen) && Clean(d, c.seen) && Clean(e, d.seen)
             && Clean(f, e.seen)
    requires Complete(a, s0) && Complete(b, a.seen) && Complete(c, b.seen) && Complete(d, c.seen) && Complete(f, e.seen)
    requires h in e.seen && h !in d.seen ==> (h in LineHashes(e.lines) <==> !pointer)
    requires block == map[Persona := a.lines, SessionState := b.lines, RecalledMemory := d.lines,
                          Recent := c.lines, References := e.lines, Reasoning := f.lines]
    requires h in f.seen && h !in s0
    ensures Carries(block, h) <==> !(h in e.seen && h !in d.seen && pointer)
  {
    hide LineHashes;
    assert At(block, Persona) == a.lines && At(block, SessionState) == b.lines && At(block, Recent) == c.lines;
    assert At(block, RecalledMemory) == d.lines && At(block, References) == e.lines && At(block, Reasoning) == f.lines;
    hide At;
    if Carries(block, h) {
      var s: Section :| h in LineHashes(At(block, s));
      match s case Persona => case SessionState => case RecalledMemory =>
              case Recent => case References => case Reasoning =>
    }
  }

  /** The hashes of everything that is placed before the references. */
  function EarlierHashes(shared: SharedZone, slice: PrivateSlice, b: Budgets): set<Hash> {
    PersonaHashes(slice.personaBrief, b.persona) + ItemHashes(StateItems(shared, slice))
    + ToSet(SlabHashes(FloorOf(shared, slice))) + ToSet(SlabHashes(InSection(slice.recalled, RecalledMemory)))
  }

  /** `h` is first claimed by a pointer reference, which renders as a marker and carries no hash. */
  predicate Shadowed(shared: SharedZone, slice: PrivateSlice, b: Budgets, h: Hash) {
    var refs := InSection(slice.recalled, References);
    && h !in slice.injectedDigest && h !in EarlierHashes(shared, slice, b)
    && h in SlabHashes(refs) && FirstWith(refs, h).text.None?
  }

  lemma UntrimmedPasses(shared: SharedZone, slice: PrivateSlice, seen: set<Hash>, b: Budgets, score: Slab -> nat,
                        gate: bool)
    requires !Build(shared, slice, seen, b, score, gate).trimmed
    ensures Complete(PersonaPass(slice, seen, b), seen)
    ensures Complete(StatePass(shared, slice, seen, b), PersonaPass(slice, seen, b).seen)
    ensures Complete(RecentPass(shared, slice, seen, b), StatePass(shared, slice, seen, b).seen)
    ensures Complete(RecalledPass(shared, slice, seen, b, score, gate), RecentPass(shared, slice, seen, b).seen)
    ensures Complete(ReasoningPass(shared, slice, seen, b, score, gate),
                     ReferencePass(shared, slice, seen, b, score, gate).seen)
    ensures RecalledPass(shared, slice, seen, b, score, gate).seen == seen + EarlierHashes(shared, slice, b)
    ensures var refs := InSection(slice.recalled, References);
            var before := RecalledPass(shared, slice, seen, b, score, gate).seen;
            var g := ReferencePass(shared, slice, seen, b, score, gate);
            && g.seen == before + ToSet(SlabHashes(refs))
            && forall h :: h in g.seen && h !in before ==> (h in LineHashes(g.lines) <==> FirstWith(refs, h).text.Some?)
    ensures ReasoningPass(shared, slice, seen, b, score, gate).seen
            == ReferencePass(shared, slice, seen, b, score, gate).seen + ToSet(SlabHashes(slice.reasoning))
  {
    hide PersonaStage, StateStageFrom, SlabStage, ReferenceStage, Select, Clean, Complete, SlabHashes, FirstWith,
         ItemHashes;
    PersonaStageMeaning(slice.personaBrief, seen, b.persona);
    StateStageMeaning(StateItems(shared, slice), false, 0, PersonaPass(slice, seen, b).seen, b.sessionState);
    SlabStageMeaning(FloorOf(shared, slice), StatePass(shared, slice, seen, b).seen, b.recent, true);
    SlabStageMeaning(Selected(slice, score, gate), RecentPass(shared, slice, seen, b).seen, b.recalledMemory, false);
    SelectKeepsEverySlab(InSection(slice.recalled, RecalledMemory), score, gate);
    ReferenceStageMeaning(InSection(slice.recalled, References),
                          RecalledPass(shared, slice, seen, b, score, gate).seen, b.references);
    SlabStageMeaning(slice.reasoning, ReferencePass(shared, slice, seen, b, score, gate).seen, b.reasoning, false);
  }

  lemma UncutBlock(block: Block, budget: int)
    requires !Ceiling(block, budget).cut
    ensures forall s: Section :: At(Ceiling(block, budget).block, s) == At(block, s)
  {
    hide RenderLines, WithMarkers, DropOne;
    UncutCutting(Cutting(block, map[]), Within(budget));
    MarkedSections(Cutting(block, map[]));
  }

  lemma UncutCutting(c: Cutting, fits: Cutting -> bool)
    ensures FinalCutting(c, fits).dropped == map[] ==> FinalCutting(c, fits) == c
    decreases TotalLines(c.kept)
  {
    hide TotalLines, NextVictim;
    if !fits(c) && NextVictim(c.kept).Victim? {
      DropOneShrinks(c);
      UncutCutting(DropOne(c), fits);
      assert NextVictim(c.kept).section in DropOne(c).dropped;
    }
  }

  ghost predicate Reported(slice: PrivateSlice, a: Assembled, h: Hash, line: string) {
    h in slice.injectedDigest || h in a.emitted || (a.trimmed && Occurs(line, a.fullBody))
  }

  lemma UntrimmedEmission(shared: SharedZone, slice: PrivateSlice, budget: int, b: Budgets,
                          score: Slab -> nat, gate: bool, h: Hash)
    requires !Assemble(shared, slice, budget, b, score, gate).trimmed
    requires h in EarlierHashes(shared, slice, b) || h in SlabHashes(InSection(slice.recalled, References))
             || h in SlabHashes(slice.reasoning)
    ensures var a := Assemble(shared, slice, budget, b, score, gate);
            h in slice.injectedDigest || h in a.emitted <==> !Shadowed(shared, slice, b, h)
  {
    var seen := slice.injectedDigest;
    var block := Build(shared, slice, seen, b, score, gate).block;
    hide Ceiling, EmittedIn, RenderLines, FullRender, EarlierHashes, LineHashes, At, FirstWith, SlabHashes, Clean,
         Complete;
    UncutBlock(block, budget);
    EmittedMeaning(Ceiling(block, budget).block);
    assert Carries(Ceiling(block, budget).block, h) <==> Carries(block, h);
    if h !in seen {
      UntrimmedPasses(shared, slice, seen, b, score, gate);
      PassesChain(shared, slice, seen, b, score, gate);
      hide PersonaPass, StatePass, RecentPass, RecalledPass, ReferencePass, ReasoningPass;
      var refs := InSection(slice.recalled, References);
      ChainCarries(seen, PersonaPass(slice, seen, b), StatePass(shared, slice, seen, b),
                   RecentPass(shared, slice, seen, b),
                   RecalledPass(shared, slice, seen, b, score, gate),
                   ReferencePass(shared, slice, seen, b, score, gate),
                   ReasoningPass(shared, slice, seen, b, score, gate), block,
                   h, h in SlabHashes(refs) && FirstWith(refs, h).text.None?);
    }
  }

  /** Main result on accounting. Every text slab of the floor, recalled, reference and reasoning
      slots is already with the host, or credited, or in the spill the trimmed block points to; with
      nothing trimmed this holds exactly when no pointer reference claimed its hash first. */
  lemma NothingDisappearsUnreported(shared: SharedZone, slice: PrivateSlice, budget: int, b: Budgets,
                                    score: Slab -> nat, gate: bool, t: Slab)
    requires IsCandidate(shared, slice, t) && t.text.Some?
    ensures var a := Assemble(shared, slice, budget, b, score, gate);
            && (a.trimmed ==> Reported(slice, a, t.hash, Bullet(TextOf(t))))
            && (!a.trimmed ==> (Reported(slice, a, t.hash, Bullet(TextOf(t))) <==> !Shadowed(shared, slice, b, t.hash)))
  {
    hide Build, Ceiling, EmittedIn, RenderLines, FullRender, Shadowed, Occurs;
    SpillHolds(shared, slice, t);
    var a := Assemble(shared, slice, budget, b, score, gate);
    if !a.trimmed {
      CandidateHash(shared, slice, b, t);
      UntrimmedEmission(shared, slice, budget, b, score, gate, t.hash);
    }
  }

  lemma CandidateHash(shared: SharedZone, slice: PrivateSlice, b: Budgets, t: Slab)
    requires IsCandidate(shared, slice, t)
    ensures t.hash in EarlierHashes(shared, slice, b) || t.hash in SlabHashes(InSection(slice.recalled, References))
            || t.hash in SlabHashes(slice.reasoning)
  {
    hide PersonaHashes, ItemHashes;
    CandidatesAreFiled(shared, slice, t);
    if t in FloorOf(shared, slice) { SlabHashIn(FloorOf(shared, slice), t); }
    else if t in InSection(slice.recalled, RecalledMemory) { SlabHashIn(InSection(slice.recalled, RecalledMemory), t); }
    else if t in InSection(slice.recalled, References) { SlabHashIn(InSection(slice.recalled, References), t); }
    else { SlabHashIn(slice.reasoning, t); }
  }

  /** The running summary and the open threads are accounted for without exception, and so is the
      part of the persona brief that is rendered. */
  lemma SharedStateAndPersonaReported(shared: SharedZone, slice: PrivateSlice, budget: int, b: Budgets,
                                      score: Slab -> nat, gate: bool)
    ensures var a := Assemble(shared, slice, budget, b, score, gate);
            && (shared.runningSummary != "" ==>
                  Reported(slice, a, TextHash(shared.runningSummary), "- " + shared.runningSummary))
            && (forall thread :: thread in shared.openThreads ==> Reported(slice, a, TextHash(thread), "- " + thread))
            && (slice.personaBrief != "" ==>
                  Reported(slice, a, ContentHashOf(ShownPersona(slice.personaBrief, b.persona)), slice.personaBrief))
  {
    hide Assemble, Reported, SharedItems, ShownPersona;
    forall i | i in SharedItems(shared)
      ensures Reported(slice, Assemble(shared, slice, budget, b, score, gate), ContentHashOf(i.hashed), i.text)
    {
      ItemReported(shared, slice, budget, b, score, gate, i);
    }
    EveryStateIsAnItem(shared, slice);
    if slice.personaBrief != "" {
      PersonaReported(shared, slice, budget, b, score, gate);
    }
  }

  /** When a tool-state line is reported, exactly: when nothing was trimmed, or it is with the host, or
      it is credited, or its text happens to occur in the spill of everything but the tool state. */
  lemma ToolStateReported(shared: SharedZone, slice: PrivateSlice, budget: int, b: Budgets,
                          score: Slab -> nat, gate: bool, tool: ToolState)
    requires tool in slice.toolState
    ensures var a, i := Assemble(shared, slice, budget, b, score, gate), ToolItem(tool);
            Reported(slice, a, ContentHashOf(i.hashed), i.text)
            <==> !a.trimmed || ContentHashOf(i.hashed) in slice.injectedDigest || ContentHashOf(i.hashed) in a.emitted
                 || Occurs(i.text, FullRender(shared, slice.(toolState := [])))
  {
    hide Build, Ceiling, EmittedIn, RenderLines, Render, Occurs, SharedItems, ToolItems, ToolItem, PersonaHashes;
    EveryStateIsAnItem(shared, slice);
    var i := ToolItem(tool);
    assert FullTexts(shared, slice) == FullTexts(shared, slice.(toolState := []));
    if !Assemble(shared, slice, budget, b, score, gate).trimmed {
      assert i in StateItems(shared, slice);
      UntrimmedEmission(shared, slice, budget, b, score, gate, ContentHashOf(i.hashed));
    }
  }

  function ItemsSize(items: seq<StateItem>): nat {
    if items == [] then 0 else |items[0].text| + ItemsSize(items[1..])
  }

  lemma {:induction false} StateFits(items: seq<StateItem>, any: bool, used: nat, seen: set<Hash>, budget: int)
    requires used + ItemsSize(items) <= budget
    ensures !StateStageFrom(items, any, used, seen, budget).trimmed
    decreases |items|
  {
    if items != [] {
      var rest, hash := items[1..], ContentHashOf(items[0].hashed);
      if hash in seen {
        StateFits(rest, any, used, seen, budget);
      } else {
        StateFits(rest, true, used + |items[0].text|, seen + {hash}, budget);
      }
    }
  }

  /** Rendering depends on the sections' lines only. */
  lemma SameSectionsSameText(x: Block, y: Block)
    requires forall s: Section :: At(x, s) == At(y, s)
    ensures RenderLines(x) == RenderLines(y)
  {
    hide SectionParts;
    var p, q := map s | s in x :: LineTexts(x[s]), map s | s in y :: LineTexts(y[s]);
    forall s: Section
      ensures At(p, s) == At(q, s)
    {
      assert At(p, s) == LineTexts(At(x, s)) && At(q, s) == LineTexts(At(y, s));
    }
    SamePartsInOrder(p, q, SECTION_ORDER);
  }

  lemma SamePartsInOrder(p: map<Section, seq<string>>, q: map<Section, seq<string>>, order: seq<Section>)
    requires forall s: Section :: At(p, s) == At(q, s)
    ensures SectionParts(p, order) == SectionParts(q, order)
  {
    if order != [] { SamePartsInOrder(p, q, order[1..]); }
  }

  /** What is enough for every state line, tool state included, whatever else is trimmed: the lines fit
      their section's budget and the block fits before the ceiling. */
  lemma FittingStateIsReported(shared: SharedZone, slice: PrivateSlice, budget: int, b: Budgets, score: Slab -> nat,
                               gate: bool)
    requires ItemsSize(StateItems(shared, slice)) <= b.sessionState
    requires |RenderLines(Build(shared, slice, slice.injectedDigest, b, score, gate).block)| <= budget
    ensures var a := Assemble(shared, slice, budget, b, score, gate);
            forall i :: i in StateItems(shared, slice) ==>
              ContentHashOf(i.hashed) in slice.injectedDigest || ContentHashOf(i.hashed) in a.emitted
  {
    hide Build, Ceiling, EmittedIn, RenderLines, FullRender, StateItems, ItemsSize;
    var block := Build(shared, slice, slice.injectedDigest, b, score, gate).block;
    FittingCeiling(block, budget);
    EmittedMeaning(Ceiling(block, budget).block);
    forall i | i in StateItems(shared, slice) && ContentHashOf(i.hashed) !in slice.injectedDigest
      ensures ContentHashOf(i.hashed) in Assemble(shared, slice, budget, b, score, gate).emitted
    {
      FittingItemIsCarried(shared, slice, slice.injectedDigest, b, score, gate, i);
      SameCarriers(block, Ceiling(block, budget).block, ContentHashOf(i.hashed));
    }
  }

  lemma FittingCeiling(block: Block, budget: int)
    requires |RenderLines(block)| <= budget
    ensures forall s: Section :: At(Ceiling(block, budget).block, s) == At(block, s)
  {
    hide RenderLines;
    MarkedSections(Cutting(block, map[]));
    SameSectionsSameText(block, WithMarkers(Cutting(block, map[])));
    FittingBlockUnchanged(block, budget);
  }

  lemma SameCarriers(x: Block, y: Block, h: Hash)
    requires forall s: Section :: At(x, s) == At(y, s)
    ensures Carries(x, h) <==> Carries(y, h)
  {
    hide LineHashes, At;
  }

  lemma FittingItemIsCarried(shared: SharedZone, slice: PrivateSlice, seen: set<Hash>, b: Budgets,
                             score: Slab -> nat, gate: bool, i: StateItem)
    requires ItemsSize(StateItems(shared, slice)) <= b.sessionState
    requires i in StateItems(shared, slice) && ContentHashOf(i.hashed) !in seen
    ensures Carries(Build(shared, slice, seen, b, score, gate).block, ContentHashOf(i.hashed))
  {
    hide StateItems, StateStageFrom, PersonaStage, RecentPass, RecalledPass, ReferencePass, ReasoningPass, LineHashes,
         ItemsSize;
    var persona, state := PersonaPass(slice, seen, b), StatePass(shared, slice, seen, b);
    PersonaStageMeaning(slice.personaBrief, seen, b.persona);
    StateFits(StateItems(shared, slice), false, 0, persona.seen, b.sessionState);
    StateStageMeaning(StateItems(shared, slice), false, 0, persona.seen, b.sessionState);
    var block := Build(shared, slice, seen, b, score, gate).block;
    assert At(block, Persona) == persona.lines && At(block, SessionState) == state.lines;
    assert ContentHashOf(i.hashed) in LineHashes(At(block, Persona))
        || ContentHashOf(i.hashed) in LineHashes(At(block, SessionState));
  }

  lemma ItemReported(shared: SharedZone, slice: PrivateSlice, budget: int, b: Budgets,
                     score: Slab -> nat, gate: bool, i: StateItem)
    requires i in SharedItems(shared)
    ensures Reported(slice, Assemble(shared, slice, budget, b, score, gate), ContentHashOf(i.hashed), i.text)
  {
    hide Build, Ceiling, EmittedIn, RenderLines, Render, Occurs, SharedItems, PersonaHashes;
    var a := Assemble(shared, slice, budget, b, score, gate);
    if a.trimmed {
      var k :| 0 <= k < |SharedItems(shared)| && SharedItems(shared)[k] == i;
      assert ItemTexts(SharedItems(shared))[k] == i.text;
      RenderContains(FullTexts(shared, slice), SessionState, i.text);
    } else {
      assert i in StateItems(shared, slice);
      UntrimmedEmission(shared, slice, budget, b, score, gate, ContentHashOf(i.hashed));
    }
  }

  lemma PersonaReported(shared: SharedZone, slice: PrivateSlice, budget: int, b: Budgets, score: Slab -> nat,
                        gate: bool)
    requires slice.personaBrief != ""
    ensures Reported(slice, Assemble(shared, slice, budget, b, score, gate),
                     ContentHashOf(ShownPersona(slice.personaBrief, b.persona)), slice.personaBrief)
  {
    hide Build, Ceiling, EmittedIn, RenderLines, Render, Occurs, ItemHashes, ShownPersona;
    var a := Assemble(shared, slice, budget, b, score, gate);
    if a.trimmed {
      assert slice.personaBrief in At(FullTexts(shared, slice), Persona);
      RenderContains(FullTexts(shared, slice), Persona, slice.personaBrief);
    } else {
      UntrimmedEmission(shared, slice, budget, b, score, gate,
                        ContentHashOf(ShownPersona(slice.personaBrief, b.persona)));
    }
  }
}
