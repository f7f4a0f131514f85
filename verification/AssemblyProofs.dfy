/** What one assembly delivers: nothing re-sent, nothing repeated, nothing lost unreported. */
module AssemblyProofs {
  import opened Sequences
  import opened Text
  import opened LiveContext
  import opened CeilingProofs

  // ---------------------------------------------------------------- hashes of lines

  lemma LineHashesAppend(a: seq<Line>, b: seq<Line>)
    ensures LineHashes(a + b) == LineHashes(a) + LineHashes(b)
  {
    if a == [] {
      assert a + b == b;
    } else {
      assert (a + b)[1..] == a[1..] + b;
      LineHashesAppend(a[1..], b);
    }
  }

  lemma LineHashesSubsequence(a: seq<Line>, b: seq<Line>)
    requires Subsequence(a, b)
    ensures Subsequence(LineHashes(a), LineHashes(b))
  {
    if b != [] && a != [] {
      if a[0] == b[0] {
        LineHashesSubsequence(a[1..], b[1..]);
      } else {
        LineHashesSubsequence(a, b[1..]);
        if b[0].hash.Some? { SubsequenceSkip(LineHashes(a), b[0].hash.value, LineHashes(b[1..])); }
      }
    }
  }

  lemma SlabHashesSubsequence(a: seq<Slab>, b: seq<Slab>)
    requires Subsequence(a, b)
    ensures Subsequence(SlabHashes(a), SlabHashes(b))
  {
    if b != [] && a != [] {
      if a[0] == b[0] {
        SlabHashesSubsequence(a[1..], b[1..]);
      } else {
        SlabHashesSubsequence(a, b[1..]);
        SubsequenceSkip(SlabHashes(a), b[0].hash, SlabHashes(b[1..]));
      }
    }
  }

  lemma SlabHashIn(slabs: seq<Slab>, s: Slab)
    requires s in slabs
    ensures s.hash in SlabHashes(slabs)
  {
    if s != slabs[0] { SlabHashIn(slabs[1..], s); }
  }

  // ---------------------------------------------------------------- dedup

  /** The first slab of the list that carries `h`. */
  function FirstWith(slabs: seq<Slab>, h: Hash): (s: Slab)
    requires h in SlabHashes(slabs)
    ensures s in slabs && s.hash == h
  {
    if slabs[0].hash == h then slabs[0] else FirstWith(slabs[1..], h)
  }

  /** Dedup keeps exactly the first carrier of each hash not seen before, and has seen them all after. */
  lemma {:induction false} DedupMeaning(slabs: seq<Slab>, seen: set<Hash>)
    ensures var d := Dedup(slabs, seen);
            && d.seen == seen + ToSet(SlabHashes(slabs))
            && Distinct(SlabHashes(d.kept))
            && (forall h :: h in SlabHashes(d.kept) <==> h in SlabHashes(slabs) && h !in seen)
            && (forall h :: h in SlabHashes(d.kept) ==> FirstWith(slabs, h) in d.kept)
            && (forall s :: s in d.kept ==> s in slabs)
            && |d.kept| + d.skipped == |slabs|
  {
    if slabs != [] {
      var s := slabs[0];
      assert slabs == [s] + slabs[1..];
      assert SlabHashes(slabs) == [s.hash] + SlabHashes(slabs[1..]);
      if s.hash in seen {
        DedupMeaning(slabs[1..], seen);
      } else {
        DedupMeaning(slabs[1..], seen + {s.hash});
        var rest := Dedup(slabs[1..], seen + {s.hash});
        assert SlabHashes([s] + rest.kept) == [s.hash] + SlabHashes(rest.kept);
      }
    }
  }

  // ---------------------------------------------------------------- trimming

  /** Trimming emits a subsequence, and all of it when it reports no trim. */
  lemma FitHashes(slabs: seq<Slab>, first: bool, used: nat, budget: int, protectFloor: bool)
    ensures var f := FitFrom(slabs, first, used, budget, protectFloor);
            && Subsequence(LineHashes(f.lines), SlabHashes(slabs))
            && (!f.trimmed ==> LineHashes(f.lines) == SlabHashes(slabs))
  {
    if slabs != [] {
      var size := |Bullet(TextOf(slabs[0]))|;
      if !(first || (protectFloor && slabs[0].isFloor)) && used + size > budget {
        FitHashes(slabs[1..], false, used, budget, protectFloor);
        var f := FitFrom(slabs[1..], false, used, budget, protectFloor);
        SubsequenceSkip(LineHashes(f.lines), slabs[0].hash, SlabHashes(slabs[1..]));
      } else {
        FitHashes(slabs[1..], false, used + size, budget, protectFloor);
      }
    }
  }

  /** The top fact and every protected floor slab are emitted whatever the budget, as guarded lines. */
  lemma FitKeepsGuarded(slabs: seq<Slab>, first: bool, used: nat, budget: int, protectFloor: bool, k: nat)
    requires k < |slabs| && ((first && k == 0) || (protectFloor && slabs[k].isFloor))
    ensures LineOf(slabs[k], true) in FitFrom(slabs, first, used, budget, protectFloor).lines
  {
    var size := |Bullet(TextOf(slabs[0]))|;
    if k != 0 {
      if !(first || (protectFloor && slabs[0].isFloor)) && used + size > budget {
        FitKeepsGuarded(slabs[1..], false, used, budget, protectFloor, k - 1);
      } else {
        FitKeepsGuarded(slabs[1..], false, used + size, budget, protectFloor, k - 1);
      }
    }
  }

  function Size(lines: seq<Line>): nat {
    if lines == [] then 0 else |lines[0].text| + Size(lines[1..])
  }

  /** What the loop makes of one more slab after `f`. */
  function Admitted(f: Fitted, x: Slab, must: bool, used: nat, budget: int): Fitted {
    if must || used + Size(f.lines) + |Bullet(TextOf(x))| <= budget
    then Fitted(f.lines + [LineOf(x, must)], f.trimmed) else Fitted(f.lines, true)
  }

  lemma FitCons(s: Slab, rest: seq<Slab>, first: bool, used: nat, budget: int, protectFloor: bool)
    ensures var size, must := |Bullet(TextOf(s))|, first || (protectFloor && s.isFloor);
            FitFrom([s] + rest, first, used, budget, protectFloor)
            == if !must && used + size > budget then FitFrom(rest, false, used, budget, protectFloor).(trimmed := true)
               else InFrontOf(LineOf(s, must), FitFrom(rest, false, used + size, budget, protectFloor))
  {
    assert ([s] + rest)[1..] == rest;
  }

  function InFrontOf(line: Line, f: Fitted): Fitted {
    Fitted([line] + f.lines, f.trimmed)
  }

  lemma AdmittedBehind(line: Line, f: Fitted, x: Slab, must: bool, used: nat, budget: int)
    ensures Admitted(InFrontOf(line, f), x, must, used, budget)
            == InFrontOf(line, Admitted(f, x, must, used + |line.text|, budget))
  {
    assert ([line] + f.lines)[1..] == f.lines;
    assert [line] + (f.lines + [LineOf(x, must)]) == ([line] + f.lines) + [LineOf(x, must)];
  }

  /** Trimming is greedy: one more slab is emitted exactly when it must be or when its text still fits
      beside everything emitted before it, and what was emitted before does not change. */
  lemma {:induction false} FitIsGreedy(slabs: seq<Slab>, x: Slab, first: bool, used: nat, budget: int,
                                       protectFloor: bool)
    ensures var must := (first && slabs == []) || (protectFloor && x.isFloor);
            FitFrom(slabs + [x], first, used, budget, protectFloor)
            == Admitted(FitFrom(slabs, first, used, budget, protectFloor), x, must, used, budget)
    decreases |slabs|
  {
    hide FitFrom, InFrontOf, Bullet, TextOf, Size;
    if slabs == [] {
      FitNothing(used, first, budget, protectFloor);
      FitNothing(used + |Bullet(TextOf(x))|, false, budget, protectFloor);
      FitNothing(used, false, budget, protectFloor);
      FitCons(x, [], first, used, budget, protectFloor);
      assert [x] + [] == [x] && [] + [x] == [x];
      AloneInFront(LineOf(x, first || (protectFloor && x.isFloor)));
    } else {
      var s, rest := slabs[0], slabs[1..];
      assert slabs == [s] + rest && slabs + [x] == [s] + (rest + [x]);
      FitCons(s, rest, first, used, budget, protectFloor);
      FitCons(s, rest + [x], first, used, budget, protectFloor);
      var size, must := |Bullet(TextOf(s))|, first || (protectFloor && s.isFloor);
      if !must && used + size > budget {
        FitIsGreedy(rest, x, false, used, budget, protectFloor);
      } else {
        FitIsGreedy(rest, x, false, used + size, budget, protectFloor);
        AdmittedBehind(LineOf(s, must), FitFrom(rest, false, used + size, budget, protectFloor), x,
                       protectFloor && x.isFloor, used, budget);
      }
    }
  }

  lemma FitNothing(used: nat, first: bool, budget: int, protectFloor: bool)
    ensures FitFrom([], first, used, budget, protectFloor) == Fitted([], false) && Size([]) == 0
  {}

  lemma AloneInFront(line: Line)
    ensures InFrontOf(line, Fitted([], false)) == Fitted([] + [line], false)
  {}

  /** What the session-state loop makes of one more line after `g`. */
  function AdmittedItem(g: Stage, x: StateItem, any: bool, used: nat, budget: int): Stage {
    var hash := ContentHashOf(x.hashed);
    if hash in g.seen then g.(deduped := g.deduped + 1)
    else if (any || g.lines != []) && used + Size(g.lines) + |x.text| > budget then g.(trimmed := true)
    else g.(lines := g.lines + [Line(x.text, Some(hash), false)], seen := g.seen + {hash})
  }

  /** So is session state: one more line is kept exactly when its hash is new and it is the first or
      still fits beside everything kept before it. */
  lemma {:induction false} StateIsGreedy(items: seq<StateItem>, x: StateItem, any: bool, used: nat, seen: set<Hash>,
                                         budget: int)
    ensures StateStageFrom(items + [x], any, used, seen, budget)
            == AdmittedItem(StateStageFrom(items, any, used, seen, budget), x, any, used, budget)
    decreases |items|
  {
    hide AdmittedItem;
    if items == [] {
      LastItem(x, any, used, seen, budget);
      assert items + [x] == [x];
    } else {
      var rest, hash := items[1..], ContentHashOf(items[0].hashed);
      assert (items + [x])[1..] == rest + [x];
      if hash in seen {
        StateIsGreedy(rest, x, any, used, seen, budget);
        LaterItem(StateStageFrom(rest, any, used, seen, budget), x, any, used, budget);
      } else if any && used + |items[0].text| > budget {
        StateIsGreedy(rest, x, any, used, seen, budget);
        LaterItem(StateStageFrom(rest, any, used, seen, budget), x, any, used, budget);
      } else {
        StateIsGreedy(rest, x, true, used + |items[0].text|, seen + {hash}, budget);
        ItemBehind(Line(items[0].text, Some(hash), false),
                   StateStageFrom(rest, true, used + |items[0].text|, seen + {hash}, budget), x, any, used, budget);
      }
    }
  }

  lemma LastItem(x: StateItem, any: bool, used: nat, seen: set<Hash>, budget: int)
    ensures StateStageFrom([x], any, used, seen, budget)
            == AdmittedItem(Stage([], seen, false, 0), x, any, used, budget)
  {
    assert [x][1..] == [];
  }

  lemma LaterItem(g: Stage, x: StateItem, any: bool, used: nat, budget: int)
    ensures AdmittedItem(g.(deduped := g.deduped + 1), x, any, used, budget)
            == (var t := AdmittedItem(g, x, any, used, budget); t.(deduped := t.deduped + 1))
    ensures AdmittedItem(g.(trimmed := true), x, any, used, budget)
            == AdmittedItem(g, x, any, used, budget).(trimmed := true)
  {}

  lemma ItemBehind(line: Line, g: Stage, x: StateItem, any: bool, used: nat, budget: int)
    ensures AdmittedItem(g.(lines := [line] + g.lines), x, any, used, budget)
            == (var t := AdmittedItem(g, x, true, used + |line.text|, budget); t.(lines := [line] + t.lines))
  {
    assert ([line] + g.lines)[1..] == g.lines;
    assert [line] + (g.lines + [Line(x.text, Some(ContentHashOf(x.hashed)), false)])
        == ([line] + g.lines) + [Line(x.text, Some(ContentHashOf(x.hashed)), false)];
  }

  function TextOnly(slabs: seq<Slab>): (r: seq<Slab>) {
    if slabs == [] then []
    else if slabs[0].text.Some? then [slabs[0]] + TextOnly(slabs[1..])
    else TextOnly(slabs[1..])
  }

  lemma TextOnlySubsequence(slabs: seq<Slab>)
    ensures Subsequence(TextOnly(slabs), slabs)
    ensures forall s :: s in TextOnly(slabs) <==> s in slabs && s.text.Some?
  {
    if slabs != [] {
      TextOnlySubsequence(slabs[1..]);
      if slabs[0].text.None? && TextOnly(slabs) != [] { assert TextOnly(slabs)[0] in TextOnly(slabs); }
    }
  }

  lemma ReferenceHashes(slabs: seq<Slab>, any: bool, used: nat, budget: int)
    ensures var f := ReferencesFrom(slabs, any, used, budget);
            && Subsequence(LineHashes(f.lines), SlabHashes(TextOnly(slabs)))
            && (!f.trimmed ==> LineHashes(f.lines) == SlabHashes(TextOnly(slabs)))
  {
    if slabs != [] {
      var size := |Bullet(TextOf(slabs[0]))|;
      if slabs[0].text.None? {
        ReferenceHashes(slabs[1..], true, used, budget);
      } else if used + size <= budget || !any {
        ReferenceHashes(slabs[1..], true, used + size, budget);
        assert SlabHashes(TextOnly(slabs)) == [slabs[0].hash] + SlabHashes(TextOnly(slabs[1..]));
      } else {
        ReferenceHashes(slabs[1..], any, used, budget);
        assert SlabHashes(TextOnly(slabs)) == [slabs[0].hash] + SlabHashes(TextOnly(slabs[1..]));
        var f := ReferencesFrom(slabs[1..], any, used, budget);
        SubsequenceSkip(LineHashes(f.lines), slabs[0].hash, SlabHashes(TextOnly(slabs[1..])));
      }
    }
  }

  // ---------------------------------------------------------------- which pointers leave a marker

  /** `slabs[k]` is the first with its hash, and nothing before the section had that hash. */
  predicate FirstCarrier(slabs: seq<Slab>, k: nat, seen: set<Hash>)
    requires k < |slabs|
  {
    slabs[k].hash !in seen && forall j :: 0 <= j < k ==> slabs[j].hash != slabs[k].hash
  }

  function MarkerOf(slab: Slab): Line {
    Line(RefMarker(slab.artifactRef, NOT_WIRED), None, false)
  }

  /** The markers of the pointers among `slabs[k..]` that are first carriers. */
  function MarkersFrom(slabs: seq<Slab>, k: nat, seen: set<Hash>): seq<Line>
    requires k <= |slabs|
    decreases |slabs| - k
  {
    if k == |slabs| then []
    else
      var rest := MarkersFrom(slabs, k + 1, seen);
      if slabs[k].text.None? && FirstCarrier(slabs, k, seen) then [MarkerOf(slabs[k])] + rest else rest
  }

  function Unhashed(lines: seq<Line>): seq<Line> {
    if lines == [] then []
    else if lines[0].hash.None? then [lines[0]] + Unhashed(lines[1..])
    else Unhashed(lines[1..])
  }

  function PointerMarkers(slabs: seq<Slab>): seq<Line> {
    if slabs == [] then []
    else if slabs[0].text.None? then [MarkerOf(slabs[0])] + PointerMarkers(slabs[1..])
    else PointerMarkers(slabs[1..])
  }

  lemma {:induction false} EveryKeptPointerIsMarked(slabs: seq<Slab>, any: bool, used: nat, budget: int)
    ensures Unhashed(ReferencesFrom(slabs, any, used, budget).lines) == PointerMarkers(slabs)
    decreases |slabs|
  {
    if slabs != [] {
      var size := |Bullet(TextOf(slabs[0]))|;
      if slabs[0].text.None? {
        EveryKeptPointerIsMarked(slabs[1..], true, used, budget);
        var rest := ReferencesFrom(slabs[1..], true, used, budget).lines;
        assert ([MarkerOf(slabs[0])] + rest)[1..] == rest;
      } else if used + size <= budget || !any {
        EveryKeptPointerIsMarked(slabs[1..], true, used + size, budget);
        var rest := ReferencesFrom(slabs[1..], true, used + size, budget).lines;
        assert ([LineOf(slabs[0], false)] + rest)[1..] == rest;
      } else {
        EveryKeptPointerIsMarked(slabs[1..], any, used, budget);
      }
    }
  }

  lemma {:induction false} KeptPointersAreFirst(slabs: seq<Slab>, k: nat, seen: set<Hash>, now: set<Hash>)
    requires k <= |slabs|
    requires forall h :: h in now <==> h in seen || exists j :: 0 <= j < k && slabs[j].hash == h
    ensures PointerMarkers(Dedup(slabs[k..], now).kept) == MarkersFrom(slabs, k, seen)
    decreases |slabs| - k
  {
    if k < |slabs| {
      var s := slabs[k];
      assert slabs[k..][1..] == slabs[k + 1..];
      KeptPointersAreFirst(slabs, k + 1, seen, now + {s.hash});
      assert FirstCarrier(slabs, k, seen) <==> s.hash !in now;
      if s.hash in now {
        assert now + {s.hash} == now;
      } else {
        var kept := Dedup(slabs[k + 1..], now + {s.hash}).kept;
        assert ([s] + kept)[1..] == kept;
      }
    }
  }

  /** Which pointers leave their marker, exactly: those that are the first reference with their hash,
      when nothing before the section had it; each once, in order, whatever the budget. */
  lemma PointerMarkersMeaning(slabs: seq<Slab>, seen: set<Hash>, budget: int)
    ensures Unhashed(ReferenceStage(slabs, seen, budget).lines) == MarkersFrom(slabs, 0, seen)
  {
    EveryKeptPointerIsMarked(Dedup(slabs, seen).kept, false, 0, budget);
    KeptPointersAreFirst(slabs, 0, seen, seen);
    assert slabs[0..] == slabs;
  }

  // ---------------------------------------------------------------- one section

  /** A section adds hashes that were not seen before it, each on one line, and records them. */
  ghost predicate Clean(stage: Stage, before: set<Hash>) {
    && before <= stage.seen
    && Distinct(LineHashes(stage.lines))
    && forall h :: h in LineHashes(stage.lines) ==> h !in before && h in stage.seen
  }

  /** Every hash the section newly recorded is on one of its lines. */
  ghost predicate Complete(stage: Stage, before: set<Hash>) {
    forall h :: h in stage.seen && h !in before ==> h in LineHashes(stage.lines)
  }

  lemma SlabStageMeaning(slabs: seq<Slab>, seen: set<Hash>, budget: int, protectFloor: bool)
    ensures var g := SlabStage(slabs, seen, budget, protectFloor);
            && Clean(g, seen) && g.seen == seen + ToSet(SlabHashes(slabs))
            && (!g.trimmed ==> Complete(g, seen))
  {
    DedupMeaning(slabs, seen);
    var d := Dedup(slabs, seen);
    FitHashes(d.kept, true, 0, budget, protectFloor);
    var f := Fit(d.kept, budget, protectFloor);
    SubsequenceDistinct(LineHashes(f.lines), SlabHashes(d.kept));
    SubsequenceMembers(LineHashes(f.lines), SlabHashes(d.kept));
  }

  lemma ReferenceStageMeaning(slabs: seq<Slab>, seen: set<Hash>, budget: int)
    ensures var g := ReferenceStage(slabs, seen, budget);
            && Clean(g, seen) && g.seen == seen + ToSet(SlabHashes(slabs))
            && (!g.trimmed ==> forall h :: h in g.seen && h !in seen ==>
                  (h in LineHashes(g.lines) <==> FirstWith(slabs, h).text.Some?))
  {
    DedupMeaning(slabs, seen);
    var d := Dedup(slabs, seen);
    TextOnlySubsequence(d.kept);
    SlabHashesSubsequence(TextOnly(d.kept), d.kept);
    ReferenceHashes(d.kept, false, 0, budget);
    var f := ReferencesFrom(d.kept, false, 0, budget);
    var textHashes := SlabHashes(TextOnly(d.kept));
    SubsequenceDistinct(textHashes, SlabHashes(d.kept));
    SubsequenceDistinct(LineHashes(f.lines), textHashes);
    SubsequenceMembers(LineHashes(f.lines), textHashes);
    SubsequenceMembers(textHashes, SlabHashes(d.kept));
    forall h | h in d.seen && h !in seen
      ensures h in textHashes <==> FirstWith(slabs, h).text.Some?
    {
      var first := FirstWith(slabs, h);
      if first.text.Some? {
        SlabHashIn(TextOnly(d.kept), first);
      } else if h in textHashes {
        var other := FirstWith(TextOnly(d.kept), h);
        OneCarrier(d.kept, first, other);
      }
    }
  }

  lemma OneCarrier(slabs: seq<Slab>, a: Slab, b: Slab)
    requires Distinct(SlabHashes(slabs)) && a in slabs && b in slabs && a.hash == b.hash
    ensures a == b
  {
    assert SlabHashes(slabs) == [slabs[0].hash] + SlabHashes(slabs[1..]);
    DistinctTail(slabs[0].hash, SlabHashes(slabs[1..]));
    if a != slabs[0] && b != slabs[0] {
      OneCarrier(slabs[1..], a, b);
    } else if a != b {
      SlabHashIn(slabs[1..], if a == slabs[0] then b else a);
    }
  }

  function ItemHashes(items: seq<StateItem>): (r: set<Hash>) {
    set i | i in items :: ContentHashOf(i.hashed)
  }

  /** A stage with one more line in front, whose hash was not seen before. */
  lemma LineInFront(line: Line, hash: Hash, g: Stage, seen: set<Hash>)
    requires line.hash == Some(hash) && hash !in seen
    requires Clean(g, seen + {hash}) && Complete(g, seen + {hash})
    ensures var h := g.(lines := [line] + g.lines); Clean(h, seen) && Complete(h, seen)
  {
    assert ([line] + g.lines)[1..] == g.lines;
    assert LineHashes([line] + g.lines) == [hash] + LineHashes(g.lines);
    DistinctTail(hash, LineHashes(g.lines));
  }

  lemma {:induction false} StateStageMeaning(items: seq<StateItem>, any: bool, used: nat, seen: set<Hash>, budget: int)
    ensures var g := StateStageFrom(items, any, used, seen, budget);
            && Clean(g, seen) && Complete(g, seen) && g.seen <= seen + ItemHashes(items)
            && (!g.trimmed ==> g.seen == seen + ItemHashes(items))
  {
    hide ItemHashes, Clean, Complete, LineHashes;
    if items == [] {
      NothingAdded(seen);
    } else {
      var item, rest := items[0], items[1..];
      var hash := ContentHashOf(item.hashed);
      ItemHashesCons(items);
      if hash in seen {
        StateStageMeaning(rest, any, used, seen, budget);
        SameLines(StateStageFrom(rest, any, used, seen, budget), StateStageFrom(items, any, used, seen, budget), seen);
      } else if any && used + |item.text| > budget {
        StateStageMeaning(rest, any, used, seen, budget);
        SameLines(StateStageFrom(rest, any, used, seen, budget), StateStageFrom(items, any, used, seen, budget), seen);
      } else {
        StateStageMeaning(rest, true, used + |item.text|, seen + {hash}, budget);
        LineInFront(Line(item.text, Some(hash), false), hash,
                    StateStageFrom(rest, true, used + |item.text|, seen + {hash}, budget), seen);
      }
    }
  }

  lemma SameLines(g: Stage, h: Stage, seen: set<Hash>)
    requires Clean(g, seen) && Complete(g, seen) && h.lines == g.lines && h.seen == g.seen
    ensures Clean(h, seen) && Complete(h, seen)
  {}

  lemma NothingAdded(seen: set<Hash>)
    ensures Clean(Stage([], seen, false, 0), seen) && Complete(Stage([], seen, false, 0), seen)
    ensures ItemHashes([]) == {}
  {}

  lemma ItemHashesCons(items: seq<StateItem>)
    requires items != []
    ensures ItemHashes(items) == {ContentHashOf(items[0].hashed)} + ItemHashes(items[1..])
  {
    assert items == [items[0]] + items[1..];
  }

  function ShownPersona(brief: string, budget: nat): string {
    if |brief| > budget then brief[..budget] else brief
  }

  function PersonaHashes(brief: string, budget: nat): set<Hash> {
    if brief == "" then {} else {ContentHashOf(ShownPersona(brief, budget))}
  }

  lemma PersonaStageMeaning(brief: string, seen: set<Hash>, budget: nat)
    ensures var g := PersonaStage(brief, seen, budget);
            && Clean(g, seen) && Complete(g, seen) && g.seen == seen + PersonaHashes(brief, budget)
  {
    if brief != "" && ContentHashOf(ShownPersona(brief, budget)) !in seen && |brief| > budget {
      var line := Line(ShownPersona(brief, budget), Some(ContentHashOf(ShownPersona(brief, budget))), false);
      LineHashesAppend([line], [PERSONA_MARKER]);
      assert LineHashes([PERSONA_MARKER]) == [];
      assert LineHashes([line] + [PERSONA_MARKER]) == [line.hash.value];
    }
  }

  // ---------------------------------------------------------------- the whole block

  /** No hash twice in a section, and no hash in two sections. */
  ghost predicate NoRepeat(block: Block) {
    && (forall s: Section :: Distinct(LineHashes(At(block, s))))
    && forall s: Section, t: Section, h: Hash ::
         s != t && h in LineHashes(At(block, s)) ==> h !in LineHashes(At(block, t))
  }

  ghost predicate Carries(block: Block, h: Hash) {
    exists s: Section :: h in LineHashes(At(block, s))
  }

  /** How the six sections chain: each is clean with respect to what was seen before it. */
  lemma PassesChain(shared: SharedZone, slice: PrivateSlice, seen: set<Hash>, b: Budgets, score: Slab -> nat,
                    gate: bool)
    ensures Clean(PersonaPass(slice, seen, b), seen)
    ensures Clean(StatePass(shared, slice, seen, b), PersonaPass(slice, seen, b).seen)
    ensures Clean(RecentPass(shared, slice, seen, b), StatePass(shared, slice, seen, b).seen)
    ensures Clean(RecalledPass(shared, slice, seen, b, score, gate), RecentPass(shared, slice, seen, b).seen)
    ensures Clean(ReferencePass(shared, slice, seen, b, score, gate),
                  RecalledPass(shared, slice, seen, b, score, gate).seen)
    ensures Clean(ReasoningPass(shared, slice, seen, b, score, gate),
                  ReferencePass(shared, slice, seen, b, score, gate).seen)
  {
    hide PersonaStage, StateStageFrom, SlabStage, ReferenceStage, Selected, Clean;
    PersonaStageMeaning(slice.personaBrief, seen, b.persona);
    StateStageMeaning(StateItems(shared, slice), false, 0, PersonaPass(slice, seen, b).seen, b.sessionState);
    SlabStageMeaning(FloorOf(shared, slice), StatePass(shared, slice, seen, b).seen, b.recent, true);
    SlabStageMeaning(Selected(slice, score, gate), RecentPass(shared, slice, seen, b).seen, b.recalledMemory, false);
    ReferenceStageMeaning(InSection(slice.recalled, References),
                          RecalledPass(shared, slice, seen, b, score, gate).seen, b.references);
    SlabStageMeaning(slice.reasoning, ReferencePass(shared, slice, seen, b, score, gate).seen, b.reasoning, false);
  }

  /** Six clean sections in a row, whatever they hold, share no hash with each other or with the start. */
  lemma ChainNoRepeat(s0: set<Hash>, a: Stage, b: Stage, c: Stage, d: Stage, e: Stage, f: Stage, block: Block)
    requires Clean(a, s0) && Clean(b, a.seen) && Clean(c, b.seen) && Clean(d, c.seen) && Clean(e, d.seen)
             && Clean(f, e.seen)
    requires block == map[Persona := a.lines, SessionState := b.lines, RecalledMemory := d.lines,
                          Recent := c.lines, References := e.lines, Reasoning := f.lines]
    ensures NoRepeat(block)
    ensures forall h :: Carries(block, h) ==> h !in s0
  {
    hide LineHashes;
    assert At(block, Persona) == a.lines && At(block, SessionState) == b.lines && At(block, Recent) == c.lines;
    assert At(block, RecalledMemory) == d.lines && At(block, References) == e.lines && At(block, Reasoning) == f.lines;
    hide At;
    forall s: Section
      ensures Distinct(LineHashes(At(block, s)))
    {
      match s case Persona => case SessionState => case RecalledMemory =>
              case Recent => case References => case Reasoning =>
    }
    forall s: Section, t: Section, h: Hash | s != t && h in LineHashes(At(block, s))
      ensures h !in LineHashes(At(block, t)) && h !in s0
    {}
  }

  lemma BuildNoRepeat(shared: SharedZone, slice: PrivateSlice, seen: set<Hash>, b: Budgets, score: Slab -> nat,
                      gate: bool)
    ensures NoRepeat(Build(shared, slice, seen, b, score, gate).block)
    ensures forall h :: Carries(Build(shared, slice, seen, b, score, gate).block, h) ==> h !in seen
  {
    hide PersonaPass, StatePass, RecentPass, RecalledPass, ReferencePass, ReasoningPass, Clean, NoRepeat, Carries;
    PassesChain(shared, slice, seen, b, score, gate);
    ChainNoRepeat(seen, PersonaPass(slice, seen, b), StatePass(shared, slice, seen, b),
                  RecentPass(shared, slice, seen, b),
                  RecalledPass(shared, slice, seen, b, score, gate), ReferencePass(shared, slice, seen, b, score, gate),
                  ReasoningPass(shared, slice, seen, b, score, gate), Build(shared, slice, seen, b, score, gate).block);
  }

  /** What is left of a clean block after the ceiling is still clean, and says nothing new. */
  lemma CeilingNoRepeat(block: Block, budget: nat)
    requires NoRepeat(block)
    ensures NoRepeat(Ceiling(block, budget).block)
    ensures forall s: Section, h: Hash ::
              h in LineHashes(At(Ceiling(block, budget).block, s)) ==> h in LineHashes(At(block, s))
  {
    hide Ceiling, FinalCutting, Survives, RenderLines, LineHashes, MarkedLines;
    var c := CeilingKeepsWhatItMust(block, budget);
    var r := Ceiling(block, budget);
    forall s: Section
      ensures Distinct(LineHashes(At(r.block, s)))
      ensures forall h :: h in LineHashes(At(r.block, s)) ==> h in LineHashes(At(block, s))
    {
      if r.exhausted {
        ExhaustedIsEmpty(block, budget);
        NoHashes();
      } else {
        MarkerHashes(c, s);
        LineHashesSubsequence(At(c.kept, s), At(block, s));
        SubsequenceDistinct(LineHashes(At(c.kept, s)), LineHashes(At(block, s)));
        SubsequenceMembers(LineHashes(At(c.kept, s)), LineHashes(At(block, s)));
      }
    }
  }

  lemma NoHashes()
    ensures LineHashes([]) == []
  {}

  lemma ExhaustedIsEmpty(block: Block, budget: int)
    requires Ceiling(block, budget).exhausted
    ensures Ceiling(block, budget).block == map[]
  {
    hide FinalCutting;
  }

  lemma MarkerHashes(c: Cutting, s: Section)
    ensures LineHashes(MarkedLines(c, s)) == LineHashes(At(c.kept, s))
  {
    if DroppedFrom(c, s) > 0 {
      var marker := OmissionMarker(DroppedFrom(c, s));
      LineHashesAppend(At(c.kept, s), [marker]);
      assert LineHashes([marker]) == [];
    } else {
      assert MarkedLines(c, s) == At(c.kept, s);
    }
  }

  // ---------------------------------------------------------------- the delivered hashes

  lemma FreshHashesMeaning(lines: seq<Line>, seen: set<Hash>)
    ensures var f := FreshHashes(lines, seen);
            && Distinct(f) && forall h :: h in f <==> h in LineHashes(lines) && h !in seen
  {
    if lines != [] && lines[0].hash.Some? && lines[0].hash.value !in seen {
      FreshHashesMeaning(lines[1..], seen + {lines[0].hash.value});
      DistinctTail(lines[0].hash.value, FreshHashes(lines[1..], seen + {lines[0].hash.value}));
    }
  }

  /** Some section of `order` has a line with this hash. */
  ghost predicate CarriedIn(block: Block, order: seq<Section>, h: Hash) {
    exists k: nat :: k < |order| && h in LineHashes(At(block, order[k]))
  }

  lemma CarriedHereOrLater(block: Block, order: seq<Section>, h: Hash)
    requires order != []
    ensures CarriedIn(block, order, h) <==> h in LineHashes(At(block, order[0])) || CarriedIn(block, order[1..], h)
  {
    hide LineHashes, At;
    if CarriedIn(block, order[1..], h) {
      var k: nat :| k < |order[1..]| && h in LineHashes(At(block, order[1..][k]));
      assert order[1..][k] == order[k + 1];
    }
    if CarriedIn(block, order, h) {
      var k: nat :| k < |order| && h in LineHashes(At(block, order[k]));
      if k > 0 { assert h in LineHashes(At(block, order[1..][k - 1])); }
    }
  }

  lemma EmittedInMeaning(block: Block, order: seq<Section>, seen: set<Hash>)
    ensures var e := EmittedIn(block, order, seen);
            && Distinct(e)
            && forall h :: h in e <==> h !in seen && CarriedIn(block, order, h)
  {
    hide LineHashes, FreshHashes, At, CarriedIn;
    if order == [] {
      NothingCarried(block);
    } else {
      var here := FreshHashes(At(block, order[0]), seen);
      FreshHashesMeaning(At(block, order[0]), seen);
      EmittedInMeaning(block, order[1..], seen + ToSet(here));
      var rest := EmittedIn(block, order[1..], seen + ToSet(here));
      DistinctAppend(here, rest);
      forall h
        ensures h in here + rest <==> h !in seen && CarriedIn(block, order, h)
      {
        CarriedHereOrLater(block, order, h);
      }
    }
  }

  lemma NothingCarried(block: Block)
    ensures forall h :: !CarriedIn(block, [], h)
  {}

  /** A hash is credited exactly when a line of the block carries it, and credited once. */
  lemma EmittedMeaning(block: Block)
    ensures Distinct(Emitted(block))
    ensures forall h :: h in Emitted(block) <==> Carries(block, h)
  {
    hide EmittedIn, LineHashes, At;
    EmittedInMeaning(block, SECTION_ORDER, {});
    forall h
      ensures h in Emitted(block) <==> Carries(block, h)
    {
      if Carries(block, h) {
        var s: Section :| h in LineHashes(At(block, s));
        EverySectionHasAPlace(s);
        var k: nat :| k < |SECTION_ORDER| && SECTION_ORDER[k] == s;
        assert h in LineHashes(At(block, SECTION_ORDER[k]));
      }
    }
  }

  /** Main result on the delta. No line of the body carries a hash the host already holds, no hash
      appears twice, every credited hash is on a line of the body and every such line is credited. */
  lemma DeltaIsLeanAndCredited(shared: SharedZone, slice: PrivateSlice, budget: nat, b: Budgets, score: Slab -> nat,
                               gate: bool)
    ensures var a := Assemble(shared, slice, budget, b, score, gate);
            && NoRepeat(a.delta) && NoRepeat(a.snapshot)
            && Distinct(a.emitted)
            && (forall h :: h in a.emitted <==> Carries(a.delta, h))
            && (forall h :: h in a.emitted ==> h !in slice.injectedDigest)
  {
    hide Build, Ceiling, EmittedIn, FullRender, RenderLines, NoRepeat, LineHashes, At;
    BuildNoRepeat(shared, slice, slice.injectedDigest, b, score, gate);
    BuildNoRepeat(shared, slice, {}, b, score, gate);
    var block := Build(shared, slice, slice.injectedDigest, b, score, gate).block;
    CeilingNoRepeat(block, budget);
    CeilingNoRepeat(Build(shared, slice, {}, b, score, gate).block, budget);
    EmittedMeaning(Ceiling(block, budget).block);
    assert forall h :: Carries(Ceiling(block, budget).block, h) ==> Carries(block, h);
  }

  /** A fact of the recency floor is never repeated in the recalled band of the same block. */
  lemma FloorFactOnlyUnderRecent(shared: SharedZone, slice: PrivateSlice, budget: nat, b: Budgets,
                                 score: Slab -> nat, gate: bool, fact: Slab)
    requires fact in FloorOf(shared, slice)
    ensures var a := Assemble(shared, slice, budget, b, score, gate);
            && fact.hash !in LineHashes(At(a.delta, RecalledMemory))
            && fact.hash !in LineHashes(At(a.snapshot, RecalledMemory))
  {
    hide Build, Ceiling, EmittedIn, FullRender, RenderLines, LineHashes;
    FloorHashesPrecedeRecall(shared, slice, slice.injectedDigest, b, score, gate, fact);
    FloorHashesPrecedeRecall(shared, slice, {}, b, score, gate, fact);
    BuildNoRepeat(shared, slice, slice.injectedDigest, b, score, gate);
    BuildNoRepeat(shared, slice, {}, b, score, gate);
    CeilingNoRepeat(Build(shared, slice, slice.injectedDigest, b, score, gate).block, budget);
    CeilingNoRepeat(Build(shared, slice, {}, b, score, gate).block, budget);
  }

  lemma FloorHashesPrecedeRecall(shared: SharedZone, slice: PrivateSlice, seen: set<Hash>, b: Budgets,
                                 score: Slab -> nat, gate: bool, fact: Slab)
    requires fact in FloorOf(shared, slice)
    ensures fact.hash !in LineHashes(At(Build(shared, slice, seen, b, score, gate).block, RecalledMemory))
  {
    hide PersonaPass, StatePass, SlabStage, ReferencePass, ReasoningPass, Selected, LineHashes;
    PassesChain(shared, slice, seen, b, score, gate);
    SlabStageMeaning(FloorOf(shared, slice), StatePass(shared, slice, seen, b).seen, b.recent, true);
    SlabHashIn(FloorOf(shared, slice), fact);
  }

  /** Both bodies respect the ceiling. */
  lemma BodiesWithinBudget(shared: SharedZone, slice: PrivateSlice, budget: nat, b: Budgets, score: Slab -> nat,
                           gate: bool)
    ensures var a := Assemble(shared, slice, budget, b, score, gate);
            |a.Body()| <= budget && |a.SnapshotBody()| <= budget
  {
    hide Build, Ceiling, FinalCutting, EmittedIn, FullRender, RenderLines, Survives, MarkedLines;
    var _ := CeilingKeepsWhatItMust(Build(shared, slice, slice.injectedDigest, b, score, gate).block, budget);
    var _ := CeilingKeepsWhatItMust(Build(shared, slice, {}, b, score, gate).block, budget);
  }

  /** The snapshot is what a host with nothing delivered would receive: the digest does not reach it. */
  lemma SnapshotIgnoresDigest(shared: SharedZone, slice: PrivateSlice, digest: set<Hash>, budget: int, b: Budgets,
                              score: Slab -> nat, gate: bool)
    ensures var a := Assemble(shared, slice.(injectedDigest := digest), budget, b, score, gate);
            && a.snapshot == Assemble(shared, slice, budget, b, score, gate).snapshot
            && a.snapshot == Assemble(shared, slice.(injectedDigest := {}), budget, b, score, gate).delta
  {
    hide Ceiling, EmittedIn, RenderLines, FullRender, PersonaStage, StateStageFrom, SlabStage, ReferenceStage, Select;
    DigestDoesNotReachThePasses(shared, slice, digest, {}, b, score, gate);
    DigestDoesNotReachThePasses(shared, slice, {}, {}, b, score, gate);
    hide Build;
  }

  lemma DigestDoesNotReachThePasses(shared: SharedZone, slice: PrivateSlice, digest: set<Hash>, seen: set<Hash>,
                                    b: Budgets,
                                    score: Slab -> nat, gate: bool)
    ensures Build(shared, slice.(injectedDigest := digest), seen, b, score, gate)
            == Build(shared, slice, seen, b, score, gate)
  {
    hide PersonaStage, StateStageFrom, SlabStage, ReferenceStage, Select;
    var other := slice.(injectedDigest := digest);
    assert PersonaPass(other, seen, b) == PersonaPass(slice, seen, b);
    assert StatePass(shared, other, seen, b) == StatePass(shared, slice, seen, b);
    assert RecentPass(shared, other, seen, b) == RecentPass(shared, slice, seen, b);
    assert RecalledPass(shared, other, seen, b, score, gate) == RecalledPass(shared, slice, seen, b, score, gate);
    assert ReferencePass(shared, other, seen, b, score, gate) == ReferencePass(shared, slice, seen, b, score, gate);
    assert ReasoningPass(shared, other, seen, b, score, gate) == ReasoningPass(shared, slice, seen, b, score, gate);
  }
}
