/**
 What one pass puts into each section: who is protected, what fits, and that every line says what it is
 credited for. Stated of whole blocks, so of the sections as they are wired together.
 */
module SectionProofs {
  import opened Sequences
  import opened Text
  import opened LiveContext
  import opened CeilingProofs
  import opened AssemblyProofs

  // ---------------------------------------------------------------- the first carriers of a list

  /** No slab before `k` is a first carrier. */
  predicate LeadsTheList(slabs: seq<Slab>, k: nat, seen: set<Hash>)
    requires k < |slabs|
  {
    FirstCarrier(slabs, k, seen) && forall j :: 0 <= j < k ==> slabs[j].hash in seen
  }

  /** The line that shows a slab's text and is credited with its hash. */
  predicate Shows(line: Line, slab: Slab) {
    line.hash == Some(slab.hash) && line.text == "- " + (if slab.text.Some? then slab.text.value else "None")
  }

  ghost predicate ShownIn(lines: seq<Line>, slab: Slab, guarded: bool) {
    exists l :: l in lines && Shows(l, slab) && (guarded ==> l.guarded)
  }

  /** Dedup keeps a first carrier, and the leader of the list in front. */
  lemma {:induction false} DedupKeepsCarriers(slabs: seq<Slab>, k: nat, seen: set<Hash>) returns (i: nat)
    requires k < |slabs| && FirstCarrier(slabs, k, seen)
    ensures i < |Dedup(slabs, seen).kept| && Dedup(slabs, seen).kept[i] == slabs[k]
    ensures LeadsTheList(slabs, k, seen) ==> i == 0
    decreases |slabs|
  {
    var s, rest := slabs[0], slabs[1..];
    if k == 0 {
      i := 0;
    } else {
      assert rest[k - 1] == slabs[k];
      assert forall j :: 0 <= j < k - 1 ==> rest[j] == slabs[j + 1];
      assert slabs[0].hash != slabs[k].hash;
      if s.hash in seen {
        i := DedupKeepsCarriers(rest, k - 1, seen);
      } else {
        i := DedupKeepsCarriers(rest, k - 1, seen + {s.hash});
        i := i + 1;
      }
    }
  }

  /** Dedup keeps the order it was given. */
  lemma {:induction false} DedupKeepsOrder(slabs: seq<Slab>, seen: set<Hash>)
    ensures Subsequence(Dedup(slabs, seen).kept, slabs)
    decreases |slabs|
  {
    if slabs != [] {
      assert slabs == [slabs[0]] + slabs[1..];
      if slabs[0].hash in seen {
        DedupKeepsOrder(slabs[1..], seen);
        SubsequenceSkip(Dedup(slabs[1..], seen).kept, slabs[0], slabs[1..]);
      } else {
        DedupKeepsOrder(slabs[1..], seen + {slabs[0].hash});
        var kept := Dedup(slabs[1..], seen + {slabs[0].hash}).kept;
        assert ([slabs[0]] + kept)[1..] == kept;
      }
    }
  }

  // ---------------------------------------------------------------- one slab section

  function UnguardedSize(lines: seq<Line>): nat {
    if lines == [] then 0 else (if lines[0].guarded then 0 else |lines[0].text|) + UnguardedSize(lines[1..])
  }

  /** What the slabs' lines would take. */
  function TextsSize(slabs: seq<Slab>): nat {
    if slabs == [] then 0 else |"- " + TextOf(slabs[0])| + TextsSize(slabs[1..])
  }

  lemma {:induction false} FitKeepsItsBudget(slabs: seq<Slab>, first: bool, used: nat, budget: int, protectFloor: bool)
    ensures var lines := FitFrom(slabs, first, used, budget, protectFloor).lines;
            UnguardedSize(lines) == 0 || used + UnguardedSize(lines) <= budget
    decreases |slabs|
  {
    if slabs != [] {
      var size, must := |Bullet(TextOf(slabs[0]))|, first || (protectFloor && slabs[0].isFloor);
      if !must && used + size > budget {
        FitKeepsItsBudget(slabs[1..], false, used, budget, protectFloor);
      } else {
        FitKeepsItsBudget(slabs[1..], false, used + size, budget, protectFloor);
        var rest := FitFrom(slabs[1..], false, used + size, budget, protectFloor).lines;
        assert ([LineOf(slabs[0], must)] + rest)[1..] == rest;
      }
    }
  }

  lemma {:induction false} FittingSlabsAllStay(slabs: seq<Slab>, first: bool, used: nat, budget: int,
                                               protectFloor: bool)
    requires used + TextsSize(slabs) <= budget
    ensures !FitFrom(slabs, first, used, budget, protectFloor).trimmed
    decreases |slabs|
  {
    if slabs != [] {
      FittingSlabsAllStay(slabs[1..], false, used + |Bullet(TextOf(slabs[0]))|, budget, protectFloor);
    }
  }

  lemma {:induction false} SubsequenceIsSmaller(a: seq<Slab>, b: seq<Slab>)
    requires Subsequence(a, b)
    ensures TextsSize(a) <= TextsSize(b)
    decreases |b|
  {
    if a != [] {
      if a[0] == b[0] { SubsequenceIsSmaller(a[1..], b[1..]); } else { SubsequenceIsSmaller(a, b[1..]); }
    }
  }

  ghost predicate ShowsOnly(lines: seq<Line>, slabs: seq<Slab>) {
    forall l :: l in lines ==> exists s :: s in slabs && Shows(l, s)
  }

  ghost predicate ShowsAll(lines: seq<Line>, slabs: seq<Slab>) {
    forall s :: s in slabs ==> ShownIn(lines, s, false)
  }

  /** Every emitted line shows one of the slabs; untrimmed, every slab is shown. */
  lemma {:induction false} FitShows(slabs: seq<Slab>, first: bool, used: nat, budget: int, protectFloor: bool)
    ensures var f := FitFrom(slabs, first, used, budget, protectFloor);
            ShowsOnly(f.lines, slabs) && (!f.trimmed ==> ShowsAll(f.lines, slabs))
    decreases |slabs|
  {
    if slabs != [] {
      hide ShowsOnly, ShowsAll, Shows;
      var s, rest := slabs[0], slabs[1..];
      assert slabs == [s] + rest;
      var size, must := |Bullet(TextOf(s))|, first || (protectFloor && s.isFloor);
      if !must && used + size > budget {
        FitShows(rest, false, used, budget, protectFloor);
        OneMoreSlab(FitFrom(rest, false, used, budget, protectFloor).lines, s, rest);
      } else {
        FitShows(rest, false, used + size, budget, protectFloor);
        OneMoreLine(LineOf(s, must), FitFrom(rest, false, used + size, budget, protectFloor).lines, s, rest);
      }
    }
  }

  lemma OneMoreSlab(lines: seq<Line>, s: Slab, rest: seq<Slab>)
    requires ShowsOnly(lines, rest)
    ensures ShowsOnly(lines, [s] + rest)
  {
    hide Shows;
    forall l | l in lines
      ensures exists x :: x in [s] + rest && Shows(l, x)
    {
      var x :| x in rest && Shows(l, x);
      assert x in [s] + rest;
    }
  }

  lemma OneMoreLine(line: Line, lines: seq<Line>, s: Slab, rest: seq<Slab>)
    requires line == LineOf(s, line.guarded) && ShowsOnly(lines, rest)
    ensures ShowsOnly([line] + lines, [s] + rest)
    ensures ShowsAll(lines, rest) ==> ShowsAll([line] + lines, [s] + rest)
  {
    OneMoreSlab(lines, s, rest);
    assert Shows(line, s);
    hide Shows;
    assert s in [s] + rest && line in [line] + lines;
    assert forall x :: x in [s] + rest ==> x == s || x in rest;
    forall x | x in rest && ShowsAll(lines, rest)
      ensures ShownIn([line] + lines, x, false)
    {
      assert ShownIn(lines, x, false);
      var l :| l in lines && Shows(l, x);
      assert l in [line] + lines;
    }
  }

  /** What a slab section promises: its lines show its slabs; its leader is guarded; with a protected
      floor every first carrier of the floor is guarded; unguarded lines keep to the budget; and when the
      texts fit the budget every first carrier is shown. */
  ghost predicate KeepsSlabPromises(lines: seq<Line>, slabs: seq<Slab>, seen: set<Hash>, budget: nat,
                                    protectFloor: bool) {
    && (forall l :: l in lines ==> exists s :: s in slabs && Shows(l, s))
    && (forall k :: 0 <= k < |slabs| && LeadsTheList(slabs, k, seen) ==> ShownIn(lines, slabs[k], true))
    && (protectFloor ==> forall k :: 0 <= k < |slabs| && FirstCarrier(slabs, k, seen) && slabs[k].isFloor ==>
          ShownIn(lines, slabs[k], true))
    && UnguardedSize(lines) <= budget
    && (TextsSize(slabs) <= budget ==>
          forall k :: 0 <= k < |slabs| && FirstCarrier(slabs, k, seen) ==> ShownIn(lines, slabs[k], false))
  }

  lemma SlabStageKeepsPromises(slabs: seq<Slab>, seen: set<Hash>, budget: nat, protectFloor: bool)
    ensures KeepsSlabPromises(SlabStage(slabs, seen, budget, protectFloor).lines, slabs, seen, budget, protectFloor)
  {
    hide FitFrom, Dedup, Shows, TextsSize, UnguardedSize, FirstCarrier, ShownIn, Subsequence;
    var kept := Dedup(slabs, seen).kept;
    var lines := SlabStage(slabs, seen, budget, protectFloor).lines;
    FitShows(kept, true, 0, budget, protectFloor);
    FitKeepsItsBudget(kept, true, 0, budget, protectFloor);
    DedupMeaning(slabs, seen);
    DedupKeepsOrder(slabs, seen);
    SubsequenceIsSmaller(kept, slabs);
    if TextsSize(slabs) <= budget { FittingSlabsAllStay(kept, true, 0, budget, protectFloor); }
    forall k | 0 <= k < |slabs| && FirstCarrier(slabs, k, seen)
      ensures LeadsTheList(slabs, k, seen) || (protectFloor && slabs[k].isFloor) ==> ShownIn(lines, slabs[k], true)
      ensures slabs[k] in kept
    {
      var i := DedupKeepsCarriers(slabs, k, seen);
      if i == 0 || (protectFloor && kept[i].isFloor) {
        FitKeepsGuarded(kept, true, 0, budget, protectFloor, i);
        GuardedShows(lines, slabs[k]);
      }
    }
  }

  lemma GuardedShows(lines: seq<Line>, s: Slab)
    requires LineOf(s, true) in lines
    ensures ShownIn(lines, s, true)
  {
    assert Shows(LineOf(s, true), s);
  }

  // ---------------------------------------------------------------- the sections of a block

  /** Main result on the recency floor, the top fact and the section budgets, of the block one pass
      builds. Under `Recent` every floor slab that is the first with a hash not seen before it stands
      guarded, whatever the budgets; under `RecalledMemory` and `Reasoning` the first new one does; and
      each of the three keeps to its own budget. */
  lemma SectionsKeepSlabPromises(shared: SharedZone, slice: PrivateSlice, seen: set<Hash>, b: Budgets,
                                 score: Slab -> nat, gate: bool)
    ensures var block := Build(shared, slice, seen, b, score, gate).block;
            && KeepsSlabPromises(At(block, Recent), shared.recentShared + slice.recencyFloor,
                                 StatePass(shared, slice, seen, b).seen, b.recent, true)
            && KeepsSlabPromises(At(block, RecalledMemory), Selected(slice, score, gate),
                                 RecentPass(shared, slice, seen, b).seen, b.recalledMemory, false)
            && KeepsSlabPromises(At(block, Reasoning), slice.reasoning,
                                 ReferencePass(shared, slice, seen, b, score, gate).seen, b.reasoning, false)
  {
    hide SlabStage, KeepsSlabPromises, StatePass, ReferencePass, Selected, PersonaPass;
    SlabStageKeepsPromises(shared.recentShared + slice.recencyFloor, StatePass(shared, slice, seen, b).seen, b.recent,
                           true);
    SlabStageKeepsPromises(Selected(slice, score, gate), RecentPass(shared, slice, seen, b).seen, b.recalledMemory,
                           false);
    SlabStageKeepsPromises(slice.reasoning, ReferencePass(shared, slice, seen, b, score, gate).seen, b.reasoning,
                           false);
  }

  /** The hashes a pass can have seen before it comes to the floor. */
  function BeforeTheFloor(shared: SharedZone, slice: PrivateSlice, b: Budgets): set<Hash> {
    PersonaHashes(slice.personaBrief, b.persona) + ItemHashes(StateItems(shared, slice))
  }

  lemma SeenBeforeTheFloor(shared: SharedZone, slice: PrivateSlice, seen: set<Hash>, b: Budgets)
    ensures StatePass(shared, slice, seen, b).seen <= seen + BeforeTheFloor(shared, slice, b)
  {
    hide PersonaStage, StateStageFrom, Clean, Complete, ItemHashes;
    PersonaStageMeaning(slice.personaBrief, seen, b.persona);
    StateStageMeaning(StateItems(shared, slice), false, 0, PersonaPass(slice, seen, b).seen, b.sessionState);
  }

  /** In terms of the inputs alone: a floor slab stands guarded in the block, whatever the budgets, when
      nothing with its hash was seen or comes before it. */
  lemma FloorIsProtected(shared: SharedZone, slice: PrivateSlice, seen: set<Hash>, b: Budgets,
                         score: Slab -> nat, gate: bool, k: nat)
    requires k < |shared.recentShared + slice.recencyFloor|
    requires var floor := shared.recentShared + slice.recencyFloor;
             floor[k].isFloor && FirstCarrier(floor, k, seen + BeforeTheFloor(shared, slice, b))
    ensures ShownIn(At(Build(shared, slice, seen, b, score, gate).block, Recent),
                    (shared.recentShared + slice.recencyFloor)[k], true)
  {
    hide Build, StatePass, BeforeTheFloor, ShownIn, Selected, RecentPass, ReferencePass;
    SeenBeforeTheFloor(shared, slice, seen, b);
    SectionsKeepSlabPromises(shared, slice, seen, b, score, gate);
  }

  // ---------------------------------------------------------------- what the ceiling may take of it

  /** The line announces how many others were left out. */
  ghost predicate IsOmission(line: Line) {
    line.hash.None? && exists n: nat :: Announces(line.text, n)
  }

  lemma {:induction false} CutKeepsTheOthers(lines: seq<Line>, guarded: bool, n: int, l: Line)
    requires l in lines && l.guarded != guarded
    ensures l in Cut(lines, guarded, n)
    decreases |lines|
  {
    if n > 0 {
      var front, last := lines[..|lines| - 1], lines[|lines| - 1];
      assert lines == front + [last];
      if l in front {
        CutKeepsTheOthers(front, guarded, if last.guarded == guarded then n - 1 else n, l);
      }
    }
  }

  lemma {:induction false} CountedIsThere(lines: seq<Line>, guarded: bool)
    ensures Count(lines, guarded) == 0 ==> forall l :: l in lines ==> l.guarded != guarded
    decreases |lines|
  {
    if lines != [] {
      CountedIsThere(lines[..|lines| - 1], guarded);
      assert lines == lines[..|lines| - 1] + [lines[|lines| - 1]];
    }
  }

  lemma LostGuarded(orig: Block, c: Cutting, s: Section, l: Line)
    requires Accounted(orig, c, s) && l in At(orig, s) && l.guarded && l !in At(c.kept, s)
    ensures Lost(orig, c, s, true) > 0
  {
    hide Count;
    CutKeepsTheOthers(At(orig, s), false, Lost(orig, c, s, false), l);
  }

  /** A guarded line of the floor is missing from a block under the ceiling only when nothing unguarded is
      left anywhere and nothing at all is left in any other section, the counts of what was left out
      aside. */
  lemma FloorGoesLast(block: Block, budget: nat, l: Line)
    requires l in At(block, Recent) && l.guarded
    ensures var out := Ceiling(block, budget).block;
            l in At(out, Recent)
            || (forall s: Section, x :: x in At(out, s) ==> IsOmission(x) || (s == Recent && x.guarded))
  {
    hide FinalCutting, Survives, WithMarkers, MarkedLines, RenderLines, Announces;
    var c := CeilingKeepsWhatItMust(block, budget);
    var out := Ceiling(block, budget).block;
    if !Ceiling(block, budget).exhausted && l !in At(out, Recent) {
      KeptIsShown(block, c, out, Recent);
      SurvivesAccounts(block, c, Recent);
      LostGuarded(block, c, Recent, l);
      forall s: Section, x | x in At(out, s)
        ensures IsOmission(x) || (s == Recent && x.guarded)
      {
        NothingCheaperLeft(block, c, s);
        KeptIsShown(block, c, out, s);
      }
    }
  }

  lemma KeptIsShown(block: Block, c: Cutting, out: Block, s: Section)
    requires ClosedByCount(At(block, s), At(c.kept, s), At(out, s))
    ensures forall x :: x in At(c.kept, s) ==> x in At(out, s)
    ensures forall x :: x in At(out, s) ==> x in At(c.kept, s) || IsOmission(x)
  {
    hide Announces;
    var kept, shown := At(c.kept, s), At(out, s);
    if |kept| < |At(block, s)| { assert shown == kept + [shown[|kept|]]; }
  }

  lemma NothingCheaperLeft(block: Block, c: Cutting, s: Section)
    requires Survives(block, c) && Lost(block, c, Recent, true) > 0
    ensures forall x :: x in At(c.kept, s) ==> s == Recent && x.guarded
  {
    hide Cut, Count, Lost;
    CountedIsThere(At(c.kept, s), false);
    CountedIsThere(At(c.kept, s), true);
    assert Count(At(c.kept, s), false) == 0;
    if s != Recent {
      assert Rank(s) < Rank(Recent);
      assert Count(At(c.kept, s), true) == 0;
    }
  }

  /** The same of what the host receives: a slab of the recency floor is missing from the delta only when
      nothing but floor lines and counts is left in it. */
  lemma FloorIsDelivered(shared: SharedZone, slice: PrivateSlice, budget: nat, b: Budgets,
                         score: Slab -> nat, gate: bool, k: nat)
    requires k < |shared.recentShared + slice.recencyFloor|
    requires var floor := shared.recentShared + slice.recencyFloor;
             floor[k].isFloor && FirstCarrier(floor, k, slice.injectedDigest + BeforeTheFloor(shared, slice, b))
    ensures var a := Assemble(shared, slice, budget, b, score, gate);
            ShownIn(At(a.delta, Recent), (shared.recentShared + slice.recencyFloor)[k], true)
            || (forall s: Section, x :: x in At(a.delta, s) ==> IsOmission(x) || (s == Recent && x.guarded))
  {
    hide Build, Ceiling, EmittedIn, FullRender, RenderLines, BeforeTheFloor, IsOmission, FirstCarrier, Shows;
    var slab := (shared.recentShared + slice.recencyFloor)[k];
    FloorIsProtected(shared, slice, slice.injectedDigest, b, score, gate, k);
    var block := Build(shared, slice, slice.injectedDigest, b, score, gate).block;
    var l :| l in At(block, Recent) && Shows(l, slab) && l.guarded;
    FloorGoesLast(block, budget, l);
  }

  // ---------------------------------------------------------------- session state and persona

  /** With one line at most, or within the budget. */
  lemma {:induction false} StateKeepsItsBudget(items: seq<StateItem>, any: bool, used: nat, seen: set<Hash>,
                                               budget: int)
    ensures var lines := StateStageFrom(items, any, used, seen, budget).lines;
            lines == [] || used + Size(lines) <= budget || (!any && |lines| == 1)
    decreases |items|
  {
    if items != [] {
      var rest, hash := items[1..], ContentHashOf(items[0].hashed);
      if hash in seen {
        StateKeepsItsBudget(rest, any, used, seen, budget);
      } else if any && used + |items[0].text| > budget {
        StateKeepsItsBudget(rest, any, used, seen, budget);
      } else {
        StateKeepsItsBudget(rest, true, used + |items[0].text|, seen + {hash}, budget);
        var tail := StateStageFrom(rest, true, used + |items[0].text|, seen + {hash}, budget).lines;
        var lines := StateStageFrom(items, any, used, seen, budget).lines;
        assert lines == [Line(items[0].text, Some(hash), false)] + tail && lines[1..] == tail;
        if tail == [] { assert Size(tail) == 0; }
      }
    }
  }
}
