/** What the lines of a block say, in the words of what they were made from. */
module SectionTexts {
  import opened Sequences
  import opened Text
  import opened LiveContext
  import opened CeilingProofs
  import opened AssemblyProofs
  import opened SectionProofs

  // ---------------------------------------------------------------- session state

  /** The line a session-state line shows, and the text its hash is of: the summary's or a thread's own
      text, or a tool's kind, title, status and result. */
  ghost predicate IsStateLine(shared: SharedZone, slice: PrivateSlice, line: Line) {
    || (shared.runningSummary != "" && IsTextLine(line, shared.runningSummary))
    || (exists thread :: thread in shared.openThreads && IsTextLine(line, thread))
    || (exists tool :: tool in slice.toolState && IsToolLine(line, tool))
  }

  predicate IsTextLine(line: Line, text: string) {
    line.text == "- " + text && line.hash == Some(TextHash(text))
  }

  ghost predicate IsToolLine(line: Line, tool: ToolState) {
    && Occurs("- " + tool.kind + " " + tool.title + ": " + tool.status, line.text)
    && (tool.resultRef.Some? && tool.resultRef.value != "" ==> Occurs(tool.resultRef.value, line.text))
    && line.hash == Some(TextHash(ToolItem(tool).hashed))
  }

  lemma ToolLineIsOne(tool: ToolState)
    ensures IsToolLine(Line(ToolItem(tool).text, Some(TextHash(ToolItem(tool).hashed)), false), tool)
  {
    var start := "- " + tool.kind + " " + tool.title + ": " + tool.status;
    var text := ToolItem(tool).text;
    assert Bullet(tool.kind + " " + tool.title + ": " + tool.status) == start;
    assert text[..|start|] == start;
    assert OccursAt(start, text, 0);
    if tool.resultRef.Some? && tool.resultRef.value != "" {
      var ref := tool.resultRef.value;
      assert text == start + " (result " + ref + ")";
      assert OccursAt(ref, text, |start| + |" (result "|);
    }
  }

  /** Two reports on one tool that differ in a single field differ in what their hash is of, so the later
      one counts as news. Only an absent result and one called None look alike. */
  lemma ToolChangesAreNews(a: ToolState, b: ToolState)
    requires a != b
    requires || a.(correlationId := b.correlationId) == b || a.(kind := b.kind) == b || a.(title := b.title) == b
             || a.(status := b.status) == b || a.(resultRef := b.resultRef) == b
    ensures ToolItem(a).hashed == ToolItem(b).hashed
            <==> a.resultRef != b.resultRef && {a.resultRef, b.resultRef} == {None, Some("None")}
  {
    hide ToolItem;
    if a.(correlationId := b.correlationId) == b { IdChanges(a, b); }
    if a.(kind := b.kind) == b { KindChanges(a, b); }
    if a.(title := b.title) == b { TitleChanges(a, b); }
    if a.(status := b.status) == b { StatusChanges(a, b); }
    if a.(resultRef := b.resultRef) == b { ResultChanges(a, b); }
    assert a.resultRef == None || a.resultRef == Some(a.resultRef.value);
    assert b.resultRef == None || b.resultRef == Some(b.resultRef.value);
  }

  lemma IdChanges(a: ToolState, b: ToolState)
    requires a.(correlationId := b.correlationId) == b
    ensures ToolItem(a).hashed == ToolItem(b).hashed <==> a.correlationId == b.correlationId
  {
    hide Bullet, ShownRef;
    var rest := ":" + a.kind + ":" + a.title + ":" + a.status + ":" + ShownRef(a.resultRef);
    Between("", a.correlationId, b.correlationId, rest);
    assert ToolItem(a).hashed == "" + a.correlationId + rest && ToolItem(b).hashed == "" + b.correlationId + rest;
  }

  lemma KindChanges(a: ToolState, b: ToolState)
    requires a.(kind := b.kind) == b
    ensures ToolItem(a).hashed == ToolItem(b).hashed <==> a.kind == b.kind
  {
    hide Bullet, ShownRef;
    var front, rest := a.correlationId + ":", ":" + a.title + ":" + a.status + ":" + ShownRef(a.resultRef);
    Between(front, a.kind, b.kind, rest);
    assert ToolItem(a).hashed == front + a.kind + rest && ToolItem(b).hashed == front + b.kind + rest;
  }

  lemma TitleChanges(a: ToolState, b: ToolState)
    requires a.(title := b.title) == b
    ensures ToolItem(a).hashed == ToolItem(b).hashed <==> a.title == b.title
  {
    hide Bullet, ShownRef;
    var front, rest := a.correlationId + ":" + a.kind + ":", ":" + a.status + ":" + ShownRef(a.resultRef);
    Between(front, a.title, b.title, rest);
    assert ToolItem(a).hashed == front + a.title + rest && ToolItem(b).hashed == front + b.title + rest;
  }

  lemma StatusChanges(a: ToolState, b: ToolState)
    requires a.(status := b.status) == b
    ensures ToolItem(a).hashed == ToolItem(b).hashed <==> a.status == b.status
  {
    hide Bullet, ShownRef;
    var front, rest := a.correlationId + ":" + a.kind + ":" + a.title + ":", ":" + ShownRef(a.resultRef);
    Between(front, a.status, b.status, rest);
    assert ToolItem(a).hashed == front + a.status + rest && ToolItem(b).hashed == front + b.status + rest;
  }

  lemma ResultChanges(a: ToolState, b: ToolState)
    requires a.(resultRef := b.resultRef) == b
    ensures ToolItem(a).hashed == ToolItem(b).hashed <==> ShownRef(a.resultRef) == ShownRef(b.resultRef)
  {
    hide Bullet, ShownRef;
    var front := a.correlationId + ":" + a.kind + ":" + a.title + ":" + a.status + ":";
    Between(front, ShownRef(a.resultRef), ShownRef(b.resultRef), "");
    assert ToolItem(a).hashed == front + ShownRef(a.resultRef) + "";
    assert ToolItem(b).hashed == front + ShownRef(b.resultRef) + "";
  }

  lemma Between(p: string, x: string, y: string, q: string)
    ensures p + x + q == p + y + q <==> x == y
  {
    if p + x + q == p + y + q {
      assert (p + x + q)[|p|..|p| + |x|] == x && (p + y + q)[|p|..|p| + |y|] == y;
    }
  }

  /** Every state line is one of the summary, the threads and the tools. */
  lemma {:induction false} StateSays(items: seq<StateItem>, any: bool, used: nat, seen: set<Hash>, budget: int)
    ensures forall l :: l in StateStageFrom(items, any, used, seen, budget).lines ==>
              exists i :: i in items && l == Line(i.text, Some(TextHash(i.hashed)), false)
    decreases |items|
  {
    if items != [] {
      var item, rest := items[0], items[1..];
      assert items == [item] + rest;
      var hash := ContentHashOf(item.hashed);
      if hash in seen || (any && used + |item.text| > budget) {
        StateSays(rest, any, used, seen, budget);
      } else {
        StateSays(rest, true, used + |item.text|, seen + {hash}, budget);
      }
    }
  }

  lemma ItemsAreStateLines(shared: SharedZone, slice: PrivateSlice, i: StateItem)
    requires i in StateItems(shared, slice)
    ensures IsStateLine(shared, slice, Line(i.text, Some(TextHash(i.hashed)), false))
  {
    hide IsToolLine, ToolItem;
    if i in ToolItems(slice.toolState) {
      var k :| 0 <= k < |slice.toolState| && ToolItems(slice.toolState)[k] == i;
      ToolLineIsOne(slice.toolState[k]);
      assert slice.toolState[k] in slice.toolState;
    } else if i in ThreadItems(shared.openThreads) {
      var k :| 0 <= k < |shared.openThreads| && ThreadItems(shared.openThreads)[k] == i;
      assert shared.openThreads[k] in shared.openThreads;
    }
  }

  /** The summary, every thread and every tool is a state item, with its own text and hash. */
  lemma EveryStateIsAnItem(shared: SharedZone, slice: PrivateSlice)
    ensures shared.runningSummary != "" ==>
              StateItem("- " + shared.runningSummary, shared.runningSummary) in SharedItems(shared)
    ensures forall thread :: thread in shared.openThreads ==> StateItem("- " + thread, thread) in SharedItems(shared)
    ensures forall tool :: tool in slice.toolState ==> ToolItem(tool) in ToolItems(slice.toolState)
  {
    hide ToolItem;
    forall thread | thread in shared.openThreads
      ensures StateItem("- " + thread, thread) in SharedItems(shared)
    {
      var k :| 0 <= k < |shared.openThreads| && shared.openThreads[k] == thread;
      assert ThreadItems(shared.openThreads)[k] == StateItem("- " + thread, thread);
    }
    forall tool | tool in slice.toolState
      ensures ToolItem(tool) in ToolItems(slice.toolState)
    {
      var k :| 0 <= k < |slice.toolState| && slice.toolState[k] == tool;
      assert ToolItems(slice.toolState)[k] == ToolItem(tool);
    }
  }

  /** The running summary leads the session state: unless the host holds it, it is the section's first
      line, whatever the budget. */
  lemma SummaryLeads(shared: SharedZone, slice: PrivateSlice, seen: set<Hash>, b: Budgets, score: Slab -> nat,
                     gate: bool)
    requires shared.runningSummary != "" && TextHash(shared.runningSummary) !in PersonaPass(slice, seen, b).seen
    ensures var lines := At(Build(shared, slice, seen, b, score, gate).block, SessionState);
            lines != [] && IsTextLine(lines[0], shared.runningSummary)
  {
    hide PersonaPass, ToolItems, ThreadItems, RecentPass, RecalledPass, ReferencePass, ReasoningPass;
    var items := StateItems(shared, slice);
    assert items[0] == StateItem("- " + shared.runningSummary, shared.runningSummary);
  }

  // ---------------------------------------------------------------- the persona brief

  /** The brief's section: as much of the brief as its budget holds, under the hash of just that, and a
      second, unhashed line exactly when something was left off. */
  lemma PersonaShowsThePrefix(shared: SharedZone, slice: PrivateSlice, seen: set<Hash>, b: Budgets, score: Slab -> nat,
                              gate: bool)
    ensures var lines := At(Build(shared, slice, seen, b, score, gate).block, Persona);
            var shown := slice.personaBrief[..if |slice.personaBrief| <= b.persona then |slice.personaBrief|
                                            else b.persona];
            if slice.personaBrief == "" || TextHash(shown) in seen then lines == []
            else
              && |lines| == (if |slice.personaBrief| <= b.persona then 1 else 2)
              && lines[0].text == shown && lines[0].hash == Some(TextHash(shown))
              && (|lines| == 2 ==>
                  lines[1].hash.None? && lines[1].text == "- [persona brief truncated \U{2014} inject budget]")
  {
    hide StatePass, RecentPass, RecalledPass, ReferencePass, ReasoningPass;
    assert slice.personaBrief[..|slice.personaBrief|] == slice.personaBrief;
  }

  // ---------------------------------------------------------------- references

  function HashedSize(lines: seq<Line>): nat {
    if lines == [] then 0 else (if lines[0].hash.Some? then |lines[0].text| else 0) + HashedSize(lines[1..])
  }

  /** A pointer's marker names its reference and why it was not expanded, and two markers are the same exactly
      when they are of one reference. */
  lemma MarkerNamesTheReference(a: Slab, b: Slab)
    requires a.artifactRef.Some? && b.artifactRef.Some?
    ensures MarkerOf(a).hash.None? && Occurs(a.artifactRef.value, MarkerOf(a).text)
    ensures Occurs("not expanded \U{2014} no artifact store wired", MarkerOf(a).text)
    ensures MarkerOf(a).text == MarkerOf(b).text <==> a.artifactRef == b.artifactRef
  {
    NamesTheReference(a.artifactRef.value, b.artifactRef.value, NOT_WIRED);
  }

  lemma NamesTheReference(a: string, b: string, why: string)
    ensures Occurs(a, RefMarker(Some(a), why)) && Occurs(why, RefMarker(Some(a), why))
    ensures RefMarker(Some(a), why) == RefMarker(Some(b), why) <==> a == b
  {
    var front, rest := "- [reference ", " " + why + "]";
    Between(front, a, b, rest);
    assert RefMarker(Some(a), why) == front + a + rest && RefMarker(Some(b), why) == front + b + rest;
    assert OccursAt(a, front + a + rest, |front|) && OccursAt(why, front + a + rest, |front + a| + 1);
  }

  /** Hashed lines show a slab that has a text; with more than the very first line hashed they keep to the
      budget; untrimmed, every slab with a text is shown. */
  lemma {:induction false} ReferencesShow(slabs: seq<Slab>, any: bool, used: nat, budget: int)
    ensures var f := ReferencesFrom(slabs, any, used, budget);
            && (forall l :: l in f.lines && l.hash.Some? ==> exists s :: s in slabs && s.text.Some? && Shows(l, s))
            && (!f.trimmed ==> forall s :: s in slabs && s.text.Some? ==> ShownIn(f.lines, s, false))
    decreases |slabs|
  {
    if slabs != [] {
      var s, rest := slabs[0], slabs[1..];
      assert slabs == [s] + rest;
      var size := |Bullet(TextOf(s))|;
      var f := ReferencesFrom(slabs, any, used, budget);
      if s.text.None? {
        ReferencesShow(rest, true, used, budget);
        StillShown(ReferencesFrom(rest, true, used, budget), f, rest);
      } else if used + size <= budget || !any {
        ReferencesShow(rest, true, used + size, budget);
        assert f.lines[0] == LineOf(s, false) && Shows(f.lines[0], s);
        StillShown(ReferencesFrom(rest, true, used + size, budget), f, rest);
      } else {
        ReferencesShow(rest, any, used, budget);
      }
    }
  }

  lemma StillShown(tail: Fitted, f: Fitted, rest: seq<Slab>)
    requires f.lines != [] && f.lines[1..] == tail.lines && f.trimmed == tail.trimmed
    requires !tail.trimmed ==> forall s :: s in rest && s.text.Some? ==> ShownIn(tail.lines, s, false)
    ensures !f.trimmed ==> forall s :: s in rest && s.text.Some? ==> ShownIn(f.lines, s, false)
  {
    assert f.lines == [f.lines[0]] + tail.lines;
    forall s | s in rest && s.text.Some? && !f.trimmed
      ensures ShownIn(f.lines, s, false)
    {
      assert ShownIn(tail.lines, s, false);
      var l :| l in tail.lines && Shows(l, s);
      assert l in f.lines;
    }
  }

  lemma {:induction false} ReferencesKeepTheirBudget(slabs: seq<Slab>, any: bool, used: nat, budget: int)
    ensures var lines := ReferencesFrom(slabs, any, used, budget).lines;
            HashedSize(lines) == 0 || used + HashedSize(lines) <= budget || (!any && HashedSize(lines[1..]) == 0)
    decreases |slabs|
  {
    if slabs != [] {
      var s, rest := slabs[0], slabs[1..];
      var size := |Bullet(TextOf(s))|;
      var lines := ReferencesFrom(slabs, any, used, budget).lines;
      if s.text.None? {
        ReferencesKeepTheirBudget(rest, true, used, budget);
        assert lines[1..] == ReferencesFrom(rest, true, used, budget).lines;
      } else if used + size <= budget || !any {
        ReferencesKeepTheirBudget(rest, true, used + size, budget);
        assert lines[1..] == ReferencesFrom(rest, true, used + size, budget).lines;
      } else {
        ReferencesKeepTheirBudget(rest, any, used, budget);
      }
    }
  }

  lemma {:induction false} FittingReferencesAllStay(slabs: seq<Slab>, any: bool, used: nat, budget: int)
    requires used + TextsSize(slabs) <= budget
    ensures !ReferencesFrom(slabs, any, used, budget).trimmed
    decreases |slabs|
  {
    if slabs != [] {
      if slabs[0].text.None? {
        FittingReferencesAllStay(slabs[1..], true, used, budget);
      } else {
        FittingReferencesAllStay(slabs[1..], true, used + |Bullet(TextOf(slabs[0]))|, budget);
      }
    }
  }

  /** What the references section promises: its hashed lines show references that have a text, the others
      are the markers of the first pointers; the hashed ones keep to the budget, a single first line
      aside; a leading text is always shown; and when the texts fit every first carrier with one is. */
  ghost predicate KeepsReferencePromises(lines: seq<Line>, refs: seq<Slab>, seen: set<Hash>, budget: nat) {
    && (forall l :: l in lines && l.hash.Some? ==> exists s :: s in refs && s.text.Some? && Shows(l, s))
    && Unhashed(lines) == MarkersFrom(refs, 0, seen)
    && (HashedSize(lines) <= budget || HashedSize(lines[1..]) == 0)
    && (forall k :: 0 <= k < |refs| && LeadsTheList(refs, k, seen) && refs[k].text.Some? ==>
        ShownIn(lines, refs[k], false))
    && (TextsSize(refs) <= budget ==>
          forall k :: 0 <= k < |refs| && FirstCarrier(refs, k, seen) && refs[k].text.Some? ==>
            ShownIn(lines, refs[k], false))
  }

  lemma ReferenceStageKeepsPromises(slabs: seq<Slab>, seen: set<Hash>, budget: nat)
    ensures KeepsReferencePromises(ReferenceStage(slabs, seen, budget).lines, slabs, seen, budget)
  {
    hide ReferencesFrom, Dedup, Shows, TextsSize, HashedSize, FirstCarrier, ShownIn, Subsequence, MarkersFrom, Unhashed;
    var kept := Dedup(slabs, seen).kept;
    var lines := ReferenceStage(slabs, seen, budget).lines;
    ReferencesShow(kept, false, 0, budget);
    ReferencesKeepTheirBudget(kept, false, 0, budget);
    HashedAtAll(lines);
    PointerMarkersMeaning(slabs, seen, budget);
    DedupMeaning(slabs, seen);
    DedupKeepsOrder(slabs, seen);
    SubsequenceIsSmaller(kept, slabs);
    if TextsSize(slabs) <= budget { FittingReferencesAllStay(kept, false, 0, budget); }
    forall k | 0 <= k < |slabs| && FirstCarrier(slabs, k, seen) && slabs[k].text.Some?
      ensures LeadsTheList(slabs, k, seen) ==> ShownIn(lines, slabs[k], false)
      ensures slabs[k] in kept
    {
      var i := DedupKeepsCarriers(slabs, k, seen);
      if i == 0 { LeadingTextIsShown(kept, budget); }
    }
  }

  lemma HashedAtAll(lines: seq<Line>)
    ensures HashedSize(lines) == 0 && lines != [] ==> HashedSize(lines[1..]) == 0
  {}

  lemma LeadingTextIsShown(slabs: seq<Slab>, budget: int)
    requires slabs != [] && slabs[0].text.Some?
    ensures ShownIn(ReferencesFrom(slabs, false, 0, budget).lines, slabs[0], false)
  {
    var lines := ReferencesFrom(slabs, false, 0, budget).lines;
    assert lines[0] == LineOf(slabs[0], false) && Shows(lines[0], slabs[0]);
  }

  // ---------------------------------------------------------------- the whole block

  /** Main result on the other sections of the block: session state is made of the summary, the threads
      and the tools and keeps to its budget beyond its first line; references keep their promises. */
  lemma StateAndReferencesKeepPromises(shared: SharedZone, slice: PrivateSlice, seen: set<Hash>, b: Budgets,
                                       score: Slab -> nat, gate: bool)
    ensures var block := Build(shared, slice, seen, b, score, gate).block;
            && (forall l :: l in At(block, SessionState) ==> IsStateLine(shared, slice, l))
            && (|At(block, SessionState)| <= 1 || Size(At(block, SessionState)) <= b.sessionState)
            && KeepsReferencePromises(At(block, References), InSection(slice.recalled, References),
                                      RecalledPass(shared, slice, seen, b, score, gate).seen, b.references)
  {
    hide StateStageFrom, KeepsReferencePromises, ReferenceStage, StateItems, PersonaPass, RecentPass, RecalledPass,
         ReasoningPass,
         IsStateLine, Size;
    var items := StateItems(shared, slice);
    StateSays(items, false, 0, PersonaPass(slice, seen, b).seen, b.sessionState);
    StateKeepsItsBudget(items, false, 0, PersonaPass(slice, seen, b).seen, b.sessionState);
    ReferenceStageKeepsPromises(InSection(slice.recalled, References),
                                RecalledPass(shared, slice, seen, b, score, gate).seen, b.references);
    forall l | l in StatePass(shared, slice, seen, b).lines
      ensures IsStateLine(shared, slice, l)
    {
      var i :| i in items && l == Line(i.text, Some(TextHash(i.hashed)), false);
      ItemsAreStateLines(shared, slice, i);
    }
  }

  // ---------------------------------------------------------------- the rendered text

  function Tagged(name: string, lines: seq<string>): seq<string> {
    if lines == [] then [] else ["<" + name + ">"] + lines + ["</" + name + ">"]
  }

  /** The format: the sections in one fixed order, each between its tags, absent when empty; and no text at
      all when every section is. */
  lemma RenderFormat(texts: map<Section, seq<string>>)
    ensures var parts := Tagged("persona", At(texts, Persona)) + Tagged("session_state", At(texts, SessionState))
                         + Tagged("recalled_memory", At(texts, RecalledMemory)) + Tagged("recent", At(texts, Recent))
                         + Tagged("references", At(texts, References)) + Tagged("reasoning", At(texts, Reasoning));
            Render(texts) == if parts == [] then ""
                else Join(["<memory_context>"] + parts + ["</memory_context>"], '\n')
  {
    hide SectionParts, Tagged, Join, At;
    var o := SECTION_ORDER;
    assert o[1..][1..] == o[2..] && o[2..][1..] == o[3..] && o[3..][1..] == o[4..] && o[4..][1..] == o[5..];
    assert o[5..][1..] == [];
    OnePart(texts, o);
    OnePart(texts, o[1..]);
    OnePart(texts, o[2..]);
    OnePart(texts, o[3..]);
    OnePart(texts, o[4..]);
    OnePart(texts, o[5..]);
    InARow(Tagged("persona", At(texts, Persona)), Tagged("session_state", At(texts, SessionState)),
           Tagged("recalled_memory", At(texts, RecalledMemory)), Tagged("recent", At(texts, Recent)),
           Tagged("references", At(texts, References)), Tagged("reasoning", At(texts, Reasoning)));
  }

  lemma InARow<T>(a: seq<T>, b: seq<T>, c: seq<T>, d: seq<T>, e: seq<T>, f: seq<T>)
    ensures a + (b + (c + (d + (e + (f + []))))) == a + b + c + d + e + f
  {}

  lemma OnePart(texts: map<Section, seq<string>>, order: seq<Section>)
    requires order != []
    ensures SectionParts(texts, order) == Tagged(Tag(order[0]), At(texts, order[0])) + SectionParts(texts, order[1..])
    ensures SectionParts(texts, []) == []
  {}
}
