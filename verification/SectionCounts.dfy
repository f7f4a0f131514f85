/** Nothing goes uncounted: every input of a block is a line of it, or a repetition, or a reported trim. */
module SectionCounts {
  import opened Sequences
  import opened LiveContext
  import opened CeilingProofs
  import opened AccountingProofs

  /** How many pieces there are to show. */
  function InputsOf(shared: SharedZone, slice: PrivateSlice): nat {
    (if slice.personaBrief != "" then 1 else 0)
    + (if shared.runningSummary != "" then 1 else 0) + |shared.openThreads| + |slice.toolState|
    + |shared.recentShared| + |slice.recencyFloor|
    + |InSection(slice.recalled, RecalledMemory)| + |InSection(slice.recalled, References)| + |slice.reasoning|
  }

  /** Of `n` pieces each became a line or was skipped as a repetition, unless a trim was reported. */
  predicate Balanced(s: Stage, n: nat) {
    |s.lines| + s.deduped <= n && (s.trimmed <==> |s.lines| + s.deduped < n)
  }

  lemma {:induction false} DedupIsBalanced(slabs: seq<Slab>, seen: set<Hash>)
    ensures |Dedup(slabs, seen).kept| + Dedup(slabs, seen).skipped == |slabs|
    decreases |slabs|
  {
    if slabs != [] {
      DedupIsBalanced(slabs[1..], seen);
      DedupIsBalanced(slabs[1..], seen + {slabs[0].hash});
    }
  }

  lemma {:induction false} FitIsBalanced(slabs: seq<Slab>, first: bool, used: nat, budget: int, protectFloor: bool)
    ensures var f := FitFrom(slabs, first, used, budget, protectFloor);
            |f.lines| <= |slabs| && (f.trimmed <==> |f.lines| < |slabs|)
    decreases |slabs|
  {
    if slabs != [] {
      FitIsBalanced(slabs[1..], false, used, budget, protectFloor);
      FitIsBalanced(slabs[1..], false, used + |Bullet(TextOf(slabs[0]))|, budget, protectFloor);
    }
  }

  lemma SlabsAreBalanced(slabs: seq<Slab>, seen: set<Hash>, budget: int, protectFloor: bool)
    ensures Balanced(SlabStage(slabs, seen, budget, protectFloor), |slabs|)
  {
    DedupIsBalanced(slabs, seen);
    FitIsBalanced(Dedup(slabs, seen).kept, true, 0, budget, protectFloor);
  }

  lemma {:induction false} StateIsBalanced(items: seq<StateItem>, any: bool, used: nat, seen: set<Hash>, budget: int)
    ensures Balanced(StateStageFrom(items, any, used, seen, budget), |items|)
    decreases |items|
  {
    if items != [] {
      var rest, hash, more := items[1..], ContentHashOf(items[0].hashed), used + |items[0].text|;
      StateIsBalanced(rest, any, used, seen, budget);
      StateIsBalanced(rest, true, more, seen + {hash}, budget);
    }
  }

  lemma {:induction false} RefsAreBalanced(slabs: seq<Slab>, any: bool, used: nat, budget: int)
    ensures var f := ReferencesFrom(slabs, any, used, budget);
            |f.lines| <= |slabs| && (f.trimmed <==> |f.lines| < |slabs|)
    decreases |slabs|
  {
    if slabs != [] {
      RefsAreBalanced(slabs[1..], true, used, budget);
      RefsAreBalanced(slabs[1..], true, used + |Bullet(TextOf(slabs[0]))|, budget);
      RefsAreBalanced(slabs[1..], any, used, budget);
    }
  }

  lemma ReferencesAreBalanced(slabs: seq<Slab>, seen: set<Hash>, budget: int)
    ensures Balanced(ReferenceStage(slabs, seen, budget), |slabs|)
  {
    DedupIsBalanced(slabs, seen);
    RefsAreBalanced(Dedup(slabs, seen).kept, false, 0, budget);
  }

  lemma BriefIsBalanced(brief: string, seen: set<Hash>, budget: nat)
    ensures var s, n := PersonaStage(brief, seen, budget), if brief == "" then 0 else 1;
            && (s.trimmed <==> |s.lines| == 2) && |s.lines| <= 2
            && |s.lines| + s.deduped == n + (if s.trimmed then 1 else 0)
  {}

  /** Main result on the counts of one pass. A trim is reported exactly when the brief was cut, which
      shows as a second line under it, or when fewer pieces are lines or repetitions than there were. */
  lemma EveryInputIsCounted(shared: SharedZone, slice: PrivateSlice, seen: set<Hash>, b: Budgets,
                            score: Slab -> nat, gate: bool)
    ensures var built := Build(shared, slice, seen, b, score, gate);
            var cut := |At(built.block, Persona)| == 2;
            var counted := TotalLines(built.block) - (if cut then 1 else 0) + built.deduped;
            counted <= InputsOf(shared, slice) && (built.trimmed <==> cut || counted < InputsOf(shared, slice))
  {
    hide SlabStage, StateStageFrom, ReferenceStage, PersonaStage, Select, InSection, Dedup;
    BriefIsBalanced(slice.personaBrief, seen, b.persona);
    StateIsBalanced(StateItems(shared, slice), false, 0, PersonaPass(slice, seen, b).seen, b.sessionState);
    SlabsAreBalanced(FloorOf(shared, slice), StatePass(shared, slice, seen, b).seen, b.recent, true);
    SelectedSize(slice, score, gate);
    SlabsAreBalanced(Selected(slice, score, gate), RecentPass(shared, slice, seen, b).seen, b.recalledMemory, false);
    ReferencesAreBalanced(InSection(slice.recalled, References), RecalledPass(shared, slice, seen, b, score, gate).seen,
                          b.references);
    SlabsAreBalanced(slice.reasoning, ReferencePass(shared, slice, seen, b, score, gate).seen, b.reasoning, false);
  }

  lemma SelectedSize(slice: PrivateSlice, score: Slab -> nat, gate: bool)
    ensures |Selected(slice, score, gate)| == |InSection(slice.recalled, RecalledMemory)|
  {
    hide Select, InSection;
    var given := InSection(slice.recalled, RecalledMemory);
    SelectKeepsEverySlab(given, score, gate);
    assert |multiset(Selected(slice, score, gate))| == |multiset(given)|;
  }

  /** What an assembly that reports no trim leaves out are repetitions, it counts them, and its untrimmed
      body is the body itself. */
  lemma UntrimmedIsComplete(shared: SharedZone, slice: PrivateSlice, budget: int, b: Budgets, score: Slab -> nat,
                            gate: bool)
    ensures var a := Assemble(shared, slice, budget, b, score, gate);
            && a.deduped <= InputsOf(shared, slice)
            && (!a.trimmed ==>
                  TotalLines(a.delta) + a.deduped == InputsOf(shared, slice) && a.fullBody == a.Body())
  {
    EveryInputIsCounted(shared, slice, slice.injectedDigest, b, score, gate);
    var block := Build(shared, slice, slice.injectedDigest, b, score, gate).block;
    hide Build, FullRender, RenderLines, InSection, Emitted;
    UncutIsWhole(block, budget);
  }

  lemma UncutIsWhole(block: Block, budget: int)
    ensures !Ceiling(block, budget).cut ==> TotalLines(Ceiling(block, budget).block) == TotalLines(block)
  {
    hide RenderLines, WithMarkers, At, NextVictim, Within;
    var c := Cutting(block, map[]);
    if Within(budget)(c) {
      FittingBlockUnchanged(block, budget);
    } else if NextVictim(block).Victim? {
      DropsStay(DropOne(c), Within(budget));
    }
  }

  /** A section that gave up a line stays marked for it. */
  lemma {:induction false} DropsStay(c: Cutting, fits: Cutting -> bool)
    ensures c.dropped.Keys <= FinalCutting(c, fits).dropped.Keys
    decreases TotalLines(c.kept)
  {
    hide NextVictim, At;
    if !fits(c) && NextVictim(c.kept).Victim? {
      DropOneShrinks(c);
      DropsStay(DropOne(c), fits);
    }
  }
}
