/** The assembler's loops, each proved to compute its function in `LiveContext`. */
module LiveContextLoops {
  import opened Sequences
  import opened LiveContext
  import CeilingProofs

  /** What a trimming loop has so far, and then `rest`. */
  function Extended(lines: seq<Line>, trimmed: bool, rest: Fitted): Fitted {
    Fitted(lines + rest.lines, trimmed || rest.trimmed)
  }

  lemma ExtendedTwice(a: seq<Line>, trimmed: bool, b: seq<Line>, more: bool, rest: Fitted)
    ensures Extended(a, trimmed, Extended(b, more, rest)) == Extended(a + b, trimmed || more, rest)
    ensures a + [] == a
    ensures Extended(a, trimmed, Fitted([], false)) == Fitted(a, trimmed)
    ensures Extended([], false, rest) == rest
  {
    assert a + (b + rest.lines) == (a + b) + rest.lines;
    assert a + [] == a && [] + rest.lines == rest.lines;
  }

  lemma FitStep(slabs: seq<Slab>, index: nat, first: bool, used: nat, budget: int, protectFloor: bool)
    requires index < |slabs|
    ensures var slab := slabs[index];
            var size := |Bullet(TextOf(slab))|;
            var mustEmit := first || (protectFloor && slab.isFloor);
            FitFrom(slabs[index..], first, used, budget, protectFloor)
            == if !mustEmit && used + size > budget then
                 Extended([], true, FitFrom(slabs[index + 1..], false, used, budget, protectFloor))
               else
                 Extended([LineOf(slab, mustEmit)], false,
                          FitFrom(slabs[index + 1..], false, used + size, budget, protectFloor))
  {
    assert slabs[index..][0] == slabs[index] && slabs[index..][1..] == slabs[index + 1..];
    assert [] + FitFrom(slabs[index + 1..], false, used, budget, protectFloor).lines
        == FitFrom(slabs[index + 1..], false, used, budget, protectFloor).lines;
  }

  method FitLines(slabs: seq<Slab>, budget: int, protectFloor: bool) returns (lines: seq<Line>, trimmed: bool)
    ensures Fitted(lines, trimmed) == Fit(slabs, budget, protectFloor)
  {
    hide FitFrom, Extended, TextOf, Bullet, LineOf;
    lines, trimmed := [], false;
    var used: nat := 0;
    assert slabs[0..] == slabs;
    ExtendedTwice([], false, [], false, Fit(slabs, budget, protectFloor));
    for index := 0 to |slabs|
      invariant Fit(slabs, budget, protectFloor)
                == Extended(lines, trimmed, FitFrom(slabs[index..], index == 0, used, budget, protectFloor))
    {
      var slab := slabs[index];
      FitStep(slabs, index, index == 0, used, budget, protectFloor);
      var text := Bullet(TextOf(slab));
      var mustEmit := index == 0 || (protectFloor && slab.isFloor);
      if !mustEmit && used + |text| > budget {
        ExtendedTwice(lines, trimmed, [], true, FitFrom(slabs[index + 1..], false, used, budget, protectFloor));
        trimmed := true;
      } else {
        ExtendedTwice(lines, trimmed, [LineOf(slab, mustEmit)], false,
                      FitFrom(slabs[index + 1..], false, used + |text|, budget, protectFloor));
        lines := lines + [LineOf(slab, mustEmit)];
        used := used + |text|;
      }
    }
    NothingToFit(slabs[|slabs|..], used, budget, protectFloor);
    ExtendedTwice(lines, trimmed, [], false, Fitted([], false));
  }

  lemma NothingToFit(slabs: seq<Slab>, used: nat, budget: int, protectFloor: bool)
    requires slabs == []
    ensures forall first :: FitFrom(slabs, first, used, budget, protectFloor) == Fitted([], false)
    ensures forall any :: ReferencesFrom(slabs, any, used, budget) == Fitted([], false)
  {}

  method DedupSlabs(slabs: seq<Slab>, already: set<Hash>) returns (kept: seq<Slab>, seen: set<Hash>, skipped: nat)
    ensures Deduped(kept, seen, skipped) == Dedup(slabs, already)
  {
    kept, seen, skipped := [], already, 0;
    for index := 0 to |slabs|
      invariant var rest := Dedup(slabs[index..], seen);
                Dedup(slabs, already) == Deduped(kept + rest.kept, rest.seen, skipped + rest.skipped)
    {
      var slab := slabs[index];
      assert slabs[index..][0] == slab && slabs[index..][1..] == slabs[index + 1..];
      if slab.hash in seen {
        skipped := skipped + 1;
      } else {
        ghost var rest := Dedup(slabs[index + 1..], seen + {slab.hash});
        assert kept + ([slab] + rest.kept) == kept + [slab] + rest.kept;
        seen := seen + {slab.hash};
        kept := kept + [slab];
      }
    }
  }

  method StateLines(items: seq<StateItem>, already: set<Hash>, budget: int) returns (stage: Stage)
    ensures stage == StateStage(items, already, budget)
  {
    var kept, used: nat, seen, trimmed, deduped := [], 0, already, false, 0;
    for index := 0 to |items|
      invariant var rest := StateStageFrom(items[index..], kept != [], used, seen, budget);
                StateStage(items, already, budget)
                == Stage(kept + rest.lines, rest.seen, trimmed || rest.trimmed, deduped + rest.deduped)
    {
      var item := items[index];
      assert items[index..][0] == item && items[index..][1..] == items[index + 1..];
      var hash := ContentHashOf(item.hashed);
      if hash in seen {
        deduped := deduped + 1;
      } else if kept != [] && used + |item.text| > budget {
        trimmed := true;
      } else {
        var line := Line(item.text, Some(hash), false);
        ghost var rest := StateStageFrom(items[index + 1..], true, used + |item.text|, seen + {hash}, budget);
        assert kept + ([line] + rest.lines) == kept + [line] + rest.lines;
        seen := seen + {hash};
        kept := kept + [line];
        used := used + |item.text|;
      }
    }
    stage := Stage(kept, seen, trimmed, deduped);
  }

  lemma ReferenceStep(slabs: seq<Slab>, index: nat, any: bool, used: nat, budget: int)
    requires index < |slabs|
    ensures var slab := slabs[index];
            var size := |Bullet(TextOf(slab))|;
            ReferencesFrom(slabs[index..], any, used, budget)
            == if slab.text.None? then
                 Extended([Line(RefMarker(slab.artifactRef, NOT_WIRED), None, false)], false,
                          ReferencesFrom(slabs[index + 1..], true, used, budget))
               else if used + size <= budget || !any then
                 Extended([LineOf(slab, false)], false, ReferencesFrom(slabs[index + 1..], true, used + size, budget))
               else Extended([], true, ReferencesFrom(slabs[index + 1..], any, used, budget))
  {
    assert slabs[index..][0] == slabs[index] && slabs[index..][1..] == slabs[index + 1..];
    assert [] + ReferencesFrom(slabs[index + 1..], any, used, budget).lines
        == ReferencesFrom(slabs[index + 1..], any, used, budget).lines;
  }

  method ReferenceLines(slabs: seq<Slab>, budget: int) returns (lines: seq<Line>, trimmed: bool)
    ensures Fitted(lines, trimmed) == ReferencesFrom(slabs, false, 0, budget)
  {
    hide ReferencesFrom, Extended, TextOf, Bullet, LineOf, RefMarker;
    lines, trimmed := [], false;
    var used: nat := 0;
    assert slabs[0..] == slabs;
    ExtendedTwice([], false, [], false, ReferencesFrom(slabs, false, 0, budget));
    for index := 0 to |slabs|
      invariant ReferencesFrom(slabs, false, 0, budget)
                == Extended(lines, trimmed, ReferencesFrom(slabs[index..], lines != [], used, budget))
    {
      var slab := slabs[index];
      ReferenceStep(slabs, index, lines != [], used, budget);
      if slab.text.None? {
        var marker := Line(RefMarker(slab.artifactRef, NOT_WIRED), None, false);
        ExtendedTwice(lines, trimmed, [marker], false, ReferencesFrom(slabs[index + 1..], true, used, budget));
        lines := lines + [marker];
      } else {
        var size := |Bullet(TextOf(slab))|;
        if used + size <= budget || lines == [] {
          ExtendedTwice(lines, trimmed, [LineOf(slab, false)], false,
                        ReferencesFrom(slabs[index + 1..], true, used + size, budget));
          lines := lines + [LineOf(slab, false)];
          used := used + size;
        } else {
          ExtendedTwice(lines, trimmed, [], true, ReferencesFrom(slabs[index + 1..], true, used, budget));
          trimmed := true;
        }
      }
    }
    NothingToFit(slabs[|slabs|..], used, budget, true);
    ExtendedTwice(lines, trimmed, [], false, Fitted([], false));
  }

  method LastDroppableIndex(lines: seq<Line>, guardedToo: bool) returns (index: int)
    ensures index == LastDroppable(lines, guardedToo)
  {
    index := |lines| - 1;
    assert lines[..|lines|] == lines;
    while index >= 0 && lines[index].guarded && !guardedToo
      invariant -1 <= index < |lines|
      invariant LastDroppable(lines, guardedToo) == LastDroppable(lines[..index + 1], guardedToo)
    {
      assert lines[..index + 1][..index] == lines[..index];
      index := index - 1;
    }
    assert index >= 0 ==> lines[..index + 1][index] == lines[index];
  }

  /** One pass over the sections in the order they are sacrificed. */
  method FindVictim(kept: Block, order: seq<Section>, guardedToo: bool) returns (v: Victim)
    ensures v == VictimIn(kept, order, guardedToo)
  {
    hide LastDroppable;
    assert order[0..] == order;
    for place := 0 to |order|
      invariant VictimIn(kept, order, guardedToo) == VictimIn(kept, order[place..], guardedToo)
    {
      assert order[place..][0] == order[place] && order[place..][1..] == order[place + 1..];
      var index := LastDroppableIndex(At(kept, order[place]), guardedToo);
      if index >= 0 {
        return Victim(order[place], index);
      }
    }
    v := NoVictim;
  }

  /** Gives up exactly one line; `ok` is false when nothing is left. */
  method DropOneLine(c: Cutting) returns (after: Cutting, ok: bool)
    ensures ok <==> NextVictim(c.kept).Victim?
    ensures after == if ok then DropOne(c) else c
  {
    hide TakenOut, VictimIn;
    var v := FindVictim(c.kept, CEILING_DROP_ORDER, false);
    if v.NoVictim? {
      v := FindVictim(c.kept, CEILING_DROP_ORDER, true);
    }
    ok := v.Victim?;
    after := if ok then TakenOut(c, v) else c;
  }

  method EnforceCeiling(block: Block, budget: int) returns (result: Ceiled)
    ensures result == Ceiling(block, budget)
  {
    hide RenderLines, WithMarkers, NextVictim, DropOne;
    var c := Cutting(block, map[]);
    var within := Within(budget);
    while true
      invariant FinalCutting(c, within) == FinalCutting(Cutting(block, map[]), within)
      decreases TotalLines(c.kept)
    {
      if |RenderLines(WithMarkers(c))| <= budget {
        return Ceiled(WithMarkers(c), c.dropped != map[], false);
      }
      var after, ok := DropOneLine(c);
      if !ok {
        return Ceiled(map[], true, true);
      }
      CeilingProofs.DropOneShrinks(c);
      c := after;
    }
  }

  method FreshHashesOf(lines: seq<Line>, already: set<Hash>) returns (found: seq<Hash>)
    ensures found == FreshHashes(lines, already)
  {
    var seen := already;
    found := [];
    for index := 0 to |lines|
      invariant FreshHashes(lines, already) == found + FreshHashes(lines[index..], seen)
    {
      var line := lines[index];
      assert lines[index..][0] == line && lines[index..][1..] == lines[index + 1..];
      if line.hash.Some? && line.hash.value !in seen {
        ghost var rest := FreshHashes(lines[index + 1..], seen + {line.hash.value});
        assert found + ([line.hash.value] + rest) == found + [line.hash.value] + rest;
        seen := seen + {line.hash.value};
        found := found + [line.hash.value];
      }
    }
  }

  method EmittedHashes(block: Block, order: seq<Section>) returns (out: seq<Hash>)
    ensures out == EmittedIn(block, order, {})
  {
    hide FreshHashes, EmittedIn;
    var seen: set<Hash> := {};
    out := [];
    assert order[0..] == order;
    assert [] + EmittedIn(block, order, {}) == EmittedIn(block, order, {});
    for place := 0 to |order|
      invariant EmittedIn(block, order, {}) == out + EmittedIn(block, order[place..], seen)
    {
      var here := FreshHashesOf(At(block, order[place]), seen);
      EmittedStep(block, order, place, seen, out, here);
      out := out + here;
      seen := seen + ToSet(here);
    }
    NothingEmitted(block, seen);
    assert order[|order|..] == [];
  }

  lemma NothingEmitted(block: Block, seen: set<Hash>)
    ensures EmittedIn(block, [], seen) == []
  {}

  lemma EmittedStep(block: Block, order: seq<Section>, place: nat, seen: set<Hash>, out: seq<Hash>, here: seq<Hash>)
    requires place < |order| && here == FreshHashes(At(block, order[place]), seen)
    ensures out + EmittedIn(block, order[place..], seen)
            == out + here + EmittedIn(block, order[place + 1..], seen + ToSet(here))
  {
    hide FreshHashes, At;
    assert order[place..][0] == order[place] && order[place..][1..] == order[place + 1..];
    var rest := EmittedIn(block, order[place + 1..], seen + ToSet(here));
    assert out + (here + rest) == out + here + rest;
  }

  method PersonaLines(brief: string, seen: set<Hash>, budget: nat) returns (stage: Stage)
    ensures stage == PersonaStage(brief, seen, budget)
  {
    if brief == "" { return Stage([], seen, false, 0); }
    var shown, over := brief, |brief| > budget;
    if over { shown := brief[..budget]; }
    var hash := ContentHashOf(shown);
    if hash in seen { return Stage([], seen, false, 1); }
    var lines := [Line(shown, Some(hash), false)];
    if over { lines := lines + [PERSONA_MARKER]; }
    stage := Stage(lines, seen + {hash}, over, 0);
    assert !over ==> lines + [] == lines;
  }

  method SlabLines(slabs: seq<Slab>, already: set<Hash>, budget: int, protectFloor: bool) returns (stage: Stage)
    ensures stage == SlabStage(slabs, already, budget, protectFloor)
  {
    var kept, seen, skipped := DedupSlabs(slabs, already);
    var lines, trimmed := FitLines(kept, budget, protectFloor);
    stage := Stage(lines, seen, trimmed, skipped);
  }

  method BuildSections(shared: SharedZone, slice: PrivateSlice, already: set<Hash>, b: Budgets,
                       score: Slab -> nat, gate: bool) returns (built: Built)
    ensures built == Build(shared, slice, already, b, score, gate)
  {
    hide PersonaStage, StateStage, SlabStage, ReferenceStage, Selected;
    var persona := PersonaLines(slice.personaBrief, already, b.persona);
    var state := StateLines(StateItems(shared, slice), persona.seen, b.sessionState);
    var recent := SlabLines(FloorOf(shared, slice), state.seen, b.recent, true);
    var recalled := SlabLines(Selected(slice, score, gate), recent.seen, b.recalledMemory, false);
    var refs := ReferencePassLines(InSection(slice.recalled, References), recalled.seen, b.references);
    var reasoning := SlabLines(slice.reasoning, refs.seen, b.reasoning, false);
    built := Built(
      map[Persona := persona.lines, SessionState := state.lines, RecalledMemory := recalled.lines,
          Recent := recent.lines, References := refs.lines, Reasoning := reasoning.lines],
      reasoning.seen,
      persona.trimmed || state.trimmed || recent.trimmed || recalled.trimmed || refs.trimmed || reasoning.trimmed,
      persona.deduped + state.deduped + recent.deduped + recalled.deduped + refs.deduped + reasoning.deduped);
  }

  method ReferencePassLines(slabs: seq<Slab>, already: set<Hash>, budget: int) returns (stage: Stage)
    ensures stage == ReferenceStage(slabs, already, budget)
  {
    var kept, seen, skipped := DedupSlabs(slabs, already);
    var lines, trimmed := ReferenceLines(kept, budget);
    stage := Stage(lines, seen, trimmed, skipped);
  }

  method AssembleBlock(shared: SharedZone, slice: PrivateSlice, budget: int, b: Budgets,
                       score: Slab -> nat, gate: bool) returns (a: Assembled)
    ensures a == Assemble(shared, slice, budget, b, score, gate)
  {
    hide Build, Ceiling, EmittedIn, RenderLines, FullRender;
    var built := BuildSections(shared, slice, slice.injectedDigest, b, score, gate);
    var delta := EnforceCeiling(built.block, budget);
    var trimmed := built.trimmed || delta.cut;
    var emitted := EmittedHashes(delta.block, SECTION_ORDER);
    var snapshotBuilt := BuildSections(shared, slice, {}, b, score, gate);
    var snapshot := EnforceCeiling(snapshotBuilt.block, budget);
    var full := if trimmed then FullRender(shared, slice) else RenderLines(delta.block);
    a := Assembled(delta.block, snapshot.block, full, emitted, built.deduped, trimmed);
  }
}
