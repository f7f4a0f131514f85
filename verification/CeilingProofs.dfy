/** What the pooled ceiling keeps, what it gives up, and in which order. */
module CeilingProofs {
  import opened Sequences
  import opened Text
  import opened LiveContext

  /** How many of the lines are guarded (or unguarded). */
  function Count(lines: seq<Line>, guarded: bool): (n: nat)
    ensures n <= |lines|
  {
    if lines == [] then 0
    else Count(lines[..|lines| - 1], guarded) + (if lines[|lines| - 1].guarded == guarded then 1 else 0)
  }

  /** `lines` without its last `n` lines of the given kind; the other kind is untouched. */
  function Cut(lines: seq<Line>, guarded: bool, n: int): seq<Line> {
    if n <= 0 || lines == [] then lines
    else
      var front, last := lines[..|lines| - 1], lines[|lines| - 1];
      if last.guarded == guarded then Cut(front, guarded, n - 1) else Cut(front, guarded, n) + [last]
  }

  lemma CountSplits(lines: seq<Line>)
    ensures Count(lines, false) + Count(lines, true) == |lines|
  {
    if lines != [] {
      CountSplits(lines[..|lines| - 1]);
    }
  }

  lemma CutCounts(lines: seq<Line>, guarded: bool, n: nat)
    requires n <= Count(lines, guarded)
    ensures Count(Cut(lines, guarded, n), guarded) == Count(lines, guarded) - n
    ensures Count(Cut(lines, guarded, n), !guarded) == Count(lines, !guarded)
  {
    if n != 0 {
      var front, last := lines[..|lines| - 1], lines[|lines| - 1];
      if last.guarded == guarded {
        CutCounts(front, guarded, n - 1);
      } else {
        CutCounts(front, guarded, n);
        assert (Cut(front, guarded, n) + [last])[..|Cut(front, guarded, n)|] == Cut(front, guarded, n);
      }
    }
  }

  lemma {:induction false} CutStep(lines: seq<Line>, guarded: bool, n: nat)
    requires n < Count(lines, guarded)
    ensures Count(Cut(lines, guarded, n), guarded) > 0
    ensures Cut(Cut(lines, guarded, n), guarded, 1) == Cut(lines, guarded, n + 1)
  {
    CutCounts(lines, guarded, n);
    if n != 0 {
      var front, last := lines[..|lines| - 1], lines[|lines| - 1];
      if last.guarded == guarded {
        CutStep(front, guarded, n - 1);
      } else {
        CutStep(front, guarded, n);
        var c := Cut(front, guarded, n);
        assert (c + [last])[..|c|] == c;
      }
    }
  }

  lemma CutKeepsOrder(lines: seq<Line>, guarded: bool, n: int)
    ensures Subsequence(Cut(lines, guarded, n), lines)
  {
    if n <= 0 || lines == [] {
      SubsequenceOfItself(lines);
    } else {
      var front, last := lines[..|lines| - 1], lines[|lines| - 1];
      assert lines == front + [last];
      if last.guarded == guarded {
        CutKeepsOrder(front, guarded, n - 1);
        SubsequenceLonger(Cut(front, guarded, n - 1), front, last);
      } else {
        CutKeepsOrder(front, guarded, n);
        SubsequenceBoth(Cut(front, guarded, n), front, last);
      }
    }
  }

  lemma SubsequenceOfItself<T(!new)>(s: seq<T>)
    ensures Subsequence(s, s)
  {}

  lemma SubsequenceLonger<T(!new)>(a: seq<T>, b: seq<T>, x: T)
    requires Subsequence(a, b)
    ensures Subsequence(a, b + [x])
  {
    if a != [] {
      assert (b + [x])[1..] == b[1..] + [x];
      if a[0] == b[0] { SubsequenceLonger(a[1..], b[1..], x); } else { SubsequenceLonger(a, b[1..], x); }
    }
  }

  lemma SubsequenceBoth<T(!new)>(a: seq<T>, b: seq<T>, x: T)
    requires Subsequence(a, b)
    ensures Subsequence(a + [x], b + [x])
  {
    if b == [] {
      assert a + [x] == [x] && b + [x] == [x];
    } else {
      assert (b + [x])[1..] == b[1..] + [x];
      if a == [] {
        SubsequenceBoth(a, b[1..], x);
        assert a + [x] == [x];
        if x == b[0] { assert [x][1..] == []; }
      } else if a[0] == b[0] {
        assert (a + [x])[1..] == a[1..] + [x];
        SubsequenceBoth(a[1..], b[1..], x);
      } else {
        SubsequenceBoth(a, b[1..], x);
      }
    }
  }

  // ---------------------------------------------------------------- popping the last droppable line

  lemma LastDroppableMeaning(lines: seq<Line>)
    ensures LastDroppable(lines, false) == -1 <==> Count(lines, false) == 0
    ensures LastDroppable(lines, true) == |lines| - 1
  {
    if lines != [] {
      LastDroppableMeaning(lines[..|lines| - 1]);
    }
  }

  lemma WithoutOne(front: seq<Line>, last: Line, i: nat)
    requires i < |front|
    ensures (front + [last])[..i] + (front + [last])[i + 1..] == front[..i] + front[i + 1..] + [last]
  {}

  lemma {:induction false} PopUnguarded(lines: seq<Line>)
    requires LastDroppable(lines, false) >= 0
    ensures Count(lines, false) > 0
    ensures var i := LastDroppable(lines, false); lines[..i] + lines[i + 1..] == Cut(lines, false, 1)
  {
    LastDroppableMeaning(lines);
    var front, last := lines[..|lines| - 1], lines[|lines| - 1];
    var i := LastDroppable(lines, false);
    if last.guarded {
      PopUnguarded(front);
      assert i == LastDroppable(front, false) < |front|;
      WithoutOne(front, last, i);
      assert front + [last] == lines;
    } else {
      assert lines[..i] + lines[i + 1..] == front;
    }
  }

  lemma PopGuarded(lines: seq<Line>)
    requires lines != [] && Count(lines, false) == 0
    ensures Count(lines, true) > 0
    ensures var i := LastDroppable(lines, true); lines[..i] + lines[i + 1..] == Cut(lines, true, 1)
  {
    CountSplits(lines);
    var i := LastDroppable(lines, true);
    assert lines[..i] + lines[i + 1..] == lines[..|lines| - 1];
  }

  // ---------------------------------------------------------------- the order of sacrifice

  function Rank(section: Section): nat {
    match section
    case References => 0
    case Reasoning => 1
    case RecalledMemory => 2
    case SessionState => 3
    case Persona => 4
    case Recent => 5
  }

  lemma RankIsDropOrder(section: Section)
    ensures Rank(section) < |CEILING_DROP_ORDER| && CEILING_DROP_ORDER[Rank(section)] == section
  {}

  lemma VictimMeaning(kept: Block, order: seq<Section>, guardedToo: bool) returns (k: nat)
    ensures k <= |order|
    ensures forall j :: 0 <= j < k ==> LastDroppable(At(kept, order[j]), guardedToo) == -1
    ensures VictimIn(kept, order, guardedToo).NoVictim? <==> k == |order|
    ensures k < |order| ==>
              var v := VictimIn(kept, order, guardedToo);
              v.Victim? && v.section == order[k] && v.index == LastDroppable(At(kept, order[k]), guardedToo)
  {
    if order == [] {
      k := 0;
    } else if LastDroppable(At(kept, order[0]), guardedToo) >= 0 {
      k := 0;
    } else {
      var j := VictimMeaning(kept, order[1..], guardedToo);
      k := j + 1;
    }
  }

  function Lost(orig: Block, c: Cutting, s: Section, guarded: bool): int {
    Count(At(orig, s), guarded) - Count(At(c.kept, s), guarded)
  }

  ghost predicate Accounted(orig: Block, c: Cutting, s: Section) {
    && 0 <= Lost(orig, c, s, false) && 0 <= Lost(orig, c, s, true)
    && DroppedFrom(c, s) == |At(orig, s)| - |At(c.kept, s)|
    && At(c.kept, s) == Cut(Cut(At(orig, s), false, Lost(orig, c, s, false)), true, Lost(orig, c, s, true))
  }

  /** What the sections look like once some lines were given up: in every section the last
      unguarded lines are gone, then the last guarded ones; a section loses a line of a kind only
      when every cheaper section has none of that kind left; and a guarded line goes only when no
      unguarded line is left anywhere. */
  ghost predicate Survives(orig: Block, c: Cutting) {
    && (forall s: Section :: Accounted(orig, c, s))
    && (forall s: Section, t: Section, g: bool :: Rank(s) < Rank(t) && Lost(orig, c, t, g) > 0 ==>
        Count(At(c.kept, s), g) == 0)
    && (forall s: Section, t: Section :: Lost(orig, c, t, true) > 0 ==> Count(At(c.kept, s), false) == 0)
  }

  lemma NothingLost(orig: Block)
    ensures Survives(orig, Cutting(orig, map[]))
  {}

  lemma OthersUntouched(orig: Block, c: Cutting, v: Victim, s: Section)
    requires v.Victim? && v.index < |At(c.kept, v.section)| && s != v.section
    ensures At(TakenOut(c, v).kept, s) == At(c.kept, s)
    ensures Accounted(orig, c, s) ==> Accounted(orig, TakenOut(c, v), s)
    ensures forall g :: Lost(orig, TakenOut(c, v), s, g) == Lost(orig, c, s, g)
  {
    hide Cut, Count;
    OtherSection(c, v, s);
    SameAccount(orig, c, TakenOut(c, v), s);
  }

  lemma OtherSection(c: Cutting, v: Victim, s: Section)
    requires v.Victim? && v.index < |At(c.kept, v.section)| && s != v.section
    ensures At(TakenOut(c, v).kept, s) == At(c.kept, s) && DroppedFrom(TakenOut(c, v), s) == DroppedFrom(c, s)
  {}

  lemma SameAccount(orig: Block, c: Cutting, d: Cutting, s: Section)
    requires At(d.kept, s) == At(c.kept, s) && DroppedFrom(d, s) == DroppedFrom(c, s)
    ensures Accounted(orig, c, s) ==> Accounted(orig, d, s)
    ensures forall g :: Lost(orig, d, s, g) == Lost(orig, c, s, g)
  {
    hide Cut, Count, At, DroppedFrom;
  }

  lemma UnguardedTakenOut(orig: Block, c: Cutting, v: Victim)
    requires v.Victim? && v.index == LastDroppable(At(c.kept, v.section), false)
    requires Accounted(orig, c, v.section) && Lost(orig, c, v.section, true) == 0
    ensures v.index < |At(c.kept, v.section)| && Count(At(c.kept, v.section), false) > 0
    ensures var d := TakenOut(c, v);
            Accounted(orig, d, v.section) && Lost(orig, d, v.section, true) == 0
  {
    var d := TakenOut(c, v);
    var lines, whole := At(c.kept, v.section), At(orig, v.section);
    var a := Lost(orig, c, v.section, false);
    PopUnguarded(lines);
    CutStep(whole, false, a);
    hide Cut, Count, LastDroppable;
    CutCounts(lines, false, 1);
    CountSplits(lines);
    CountSplits(At(d.kept, v.section));
    assert At(d.kept, v.section) == Cut(whole, false, a + 1);
  }

  lemma TakenOutAt(c: Cutting, v: Victim)
    requires v.Victim? && v.index < |At(c.kept, v.section)|
    ensures var lines := At(c.kept, v.section);
            At(TakenOut(c, v).kept, v.section) == lines[..v.index] + lines[v.index + 1..]
    ensures DroppedFrom(TakenOut(c, v), v.section) == DroppedFrom(c, v.section) + 1
  {}

  /** Cutting one more guarded line from what is left of a section. */
  lemma CutOneMoreGuarded(whole: seq<Line>, a: nat, b: nat, lines: seq<Line>)
    requires a <= Count(whole, false) && lines == Cut(Cut(whole, false, a), true, b)
    requires lines != [] && Count(lines, false) == 0 && b == Count(whole, true) - Count(lines, true)
    ensures Cut(lines, true, 1) == Cut(Cut(whole, false, a), true, b + 1)
    ensures Count(lines, true) > 0 && Count(Cut(lines, true, 1), true) == Count(lines, true) - 1
    ensures Count(Cut(lines, true, 1), false) == 0
    ensures |Cut(lines, true, 1)| == |lines| - 1
  {
    hide Cut, Count;
    CutCounts(whole, false, a);
    CountSplits(lines);
    CutStep(Cut(whole, false, a), true, b);
    CutCounts(lines, true, 1);
    CountSplits(Cut(lines, true, 1));
  }

  lemma GuardedTakenOut(orig: Block, c: Cutting, v: Victim)
    requires v.Victim? && At(c.kept, v.section) != [] && v.index == LastDroppable(At(c.kept, v.section), true)
    requires Accounted(orig, c, v.section) && Count(At(c.kept, v.section), false) == 0
    ensures v.index < |At(c.kept, v.section)|
    ensures var d := TakenOut(c, v);
            && Accounted(orig, d, v.section) && Count(At(d.kept, v.section), false) == 0
            && Lost(orig, d, v.section, false) == Lost(orig, c, v.section, false)
    ensures Count(At(c.kept, v.section), true) > 0
  {
    hide Cut, Count, LastDroppable, TakenOut, At, DroppedFrom;
    var lines, whole := At(c.kept, v.section), At(orig, v.section);
    PopGuarded(lines);
    TakenOutAt(c, v);
    CutOneMoreGuarded(whole, Lost(orig, c, v.section, false), Lost(orig, c, v.section, true), lines);
  }

  /** The priority part of one step: only section `v` changes and it loses a line of kind `g`. */
  lemma SurvivesAgain(orig: Block, c: Cutting, d: Cutting, v: Section, g: bool)
    requires Survives(orig, c) && Accounted(orig, d, v)
    requires forall s: Section :: s != v ==> At(d.kept, s) == At(c.kept, s) && Accounted(orig, d, s)
    requires forall s: Section, k: bool :: s != v ==> Lost(orig, d, s, k) == Lost(orig, c, s, k)
    requires Lost(orig, d, v, !g) == Lost(orig, c, v, !g) && Count(At(c.kept, v), g) > 0
    requires forall s: Section :: Rank(s) < Rank(v) ==> Count(At(c.kept, s), g) == 0
    requires forall s: Section :: g ==> Count(At(c.kept, s), false) == 0
    requires forall s: Section :: !g ==> Lost(orig, c, s, true) == 0
    ensures Survives(orig, d)
  {
    hide *;
    assert Count(At(d.kept, v), !g) == Count(At(c.kept, v), !g) by { SameCount(orig, c, d, v, !g); }
    forall s: Section, t: Section, k: bool | Rank(s) < Rank(t) && Lost(orig, d, t, k) > 0
      ensures Count(At(d.kept, s), k) == 0
    {
      CheaperFirst(orig, c, d, v, g, s, t, k);
    }
    forall s: Section, t: Section | Lost(orig, d, t, true) > 0
      ensures Count(At(d.kept, s), false) == 0
    {}
    forall s: Section
      ensures Accounted(orig, d, s)
    {}
    IsSurvival(orig, d);
  }

  lemma SameCount(orig: Block, c: Cutting, d: Cutting, v: Section, g: bool)
    requires Lost(orig, d, v, g) == Lost(orig, c, v, g)
    ensures Count(At(d.kept, v), g) == Count(At(c.kept, v), g)
  {}

  lemma IsSurvival(orig: Block, d: Cutting)
    requires forall s: Section :: Accounted(orig, d, s)
    requires forall s: Section, t: Section, g: bool :: Rank(s) < Rank(t) && Lost(orig, d, t, g) > 0 ==>
             Count(At(d.kept, s), g) == 0
    requires forall s: Section, t: Section :: Lost(orig, d, t, true) > 0 ==> Count(At(d.kept, s), false) == 0
    ensures Survives(orig, d)
  {
    hide Accounted, Rank, Count, At, Lost;
  }

  lemma CheaperFirst(orig: Block, c: Cutting, d: Cutting, v: Section, g: bool, s: Section, t: Section, k: bool)
    requires Survives(orig, c)
    requires s != v ==> At(d.kept, s) == At(c.kept, s)
    requires t != v ==> Lost(orig, d, t, k) == Lost(orig, c, t, k)
    requires Lost(orig, d, v, !g) == Lost(orig, c, v, !g)
    requires Count(At(d.kept, v), !g) == Count(At(c.kept, v), !g) && Count(At(c.kept, v), g) > 0
    requires Rank(s) < Rank(v) ==> Count(At(c.kept, s), g) == 0
    requires Rank(s) < Rank(t) && Lost(orig, d, t, k) > 0
    ensures Count(At(d.kept, s), k) == 0
  {
    hide Accounted, Rank, Count, At, Lost;
  }

  /** The last unguarded line of section `v` goes, cheaper sections having none left. */
  lemma UnguardedStep(orig: Block, c: Cutting, v: Victim)
    requires Survives(orig, c) && v.Victim?
    requires v.index == LastDroppable(At(c.kept, v.section), false)
    requires forall s: Section :: Rank(s) < Rank(v.section) ==> Count(At(c.kept, s), false) == 0
    ensures v.index < |At(c.kept, v.section)| && Survives(orig, TakenOut(c, v))
  {
    LastDroppableMeaning(At(c.kept, v.section));
    hide Accounted, Count, LastDroppable, TakenOut, Cut, At, Rank;
    forall t: Section
      ensures Lost(orig, c, t, true) == 0 && Accounted(orig, c, t)
    {
      assert Accounted(orig, c, t);
      NeverNegative(orig, c, t);
    }
    hide Survives;
    UnguardedTakenOut(orig, c, v);
    hide Lost;
    var d := TakenOut(c, v);
    forall s: Section | s != v.section
      ensures At(d.kept, s) == At(c.kept, s) && Accounted(orig, d, s)
      ensures forall g :: Lost(orig, d, s, g) == Lost(orig, c, s, g)
    {
      OthersUntouched(orig, c, v, s);
    }
    SurvivesAgain(orig, c, d, v.section, false);
  }

  lemma NeverNegative(orig: Block, c: Cutting, s: Section)
    requires Accounted(orig, c, s)
    ensures Lost(orig, c, s, false) >= 0 && Lost(orig, c, s, true) >= 0
  {}

  /** The last line of section `v` goes, no unguarded line being left anywhere and cheaper
      sections being empty. */
  lemma GuardedStep(orig: Block, c: Cutting, v: Victim)
    requires Survives(orig, c) && v.Victim? && At(c.kept, v.section) != []
    requires v.index == LastDroppable(At(c.kept, v.section), true)
    requires forall s: Section :: Count(At(c.kept, s), false) == 0
    requires forall s: Section :: Rank(s) < Rank(v.section) ==> Count(At(c.kept, s), true) == 0
    ensures v.index < |At(c.kept, v.section)| && Survives(orig, TakenOut(c, v))
  {
    hide Accounted, Count, LastDroppable, TakenOut, Cut, At, Rank;
    assert Accounted(orig, c, v.section);
    GuardedTakenOut(orig, c, v);
    hide Lost;
    var d := TakenOut(c, v);
    forall s: Section | s != v.section
      ensures At(d.kept, s) == At(c.kept, s) && Accounted(orig, d, s)
      ensures forall g :: Lost(orig, d, s, g) == Lost(orig, c, s, g)
    {
      assert Accounted(orig, c, s);
      OthersUntouched(orig, c, v, s);
    }
    SurvivesAgain(orig, c, d, v.section, true);
  }

  lemma NoneDroppable(kept: Block, guardedToo: bool, below: nat)
    requires below <= |CEILING_DROP_ORDER|
    requires forall j :: 0 <= j < below ==> LastDroppable(At(kept, CEILING_DROP_ORDER[j]), guardedToo) == -1
    ensures forall s: Section :: Rank(s) < below ==> Count(At(kept, s), false) == 0
    ensures guardedToo ==> forall s: Section :: Rank(s) < below ==> At(kept, s) == []
  {
    forall s: Section | Rank(s) < below
      ensures Count(At(kept, s), false) == 0 && (guardedToo ==> At(kept, s) == [])
    {
      RankIsDropOrder(s);
      LastDroppableMeaning(At(kept, s));
    }
  }

  /** What `NextVictim` picks, without its search. */
  lemma NextVictimMeaning(kept: Block)
    ensures NextVictim(kept).NoVictim? ==> forall s: Section :: At(kept, s) == []
    ensures NextVictim(kept).Victim? ==>
              var v := NextVictim(kept);
              || (v.index == LastDroppable(At(kept, v.section), false)
                  && forall s: Section :: Rank(s) < Rank(v.section) ==> Count(At(kept, s), false) == 0)
              || (v.index == LastDroppable(At(kept, v.section), true)
                  && (forall s: Section :: Count(At(kept, s), false) == 0)
                  && forall s: Section :: Rank(s) < Rank(v.section) ==> At(kept, s) == [])
  {
    hide VictimIn, LastDroppable, Count;
    forall s: Section { RankIsDropOrder(s); }
    var k := VictimMeaning(kept, CEILING_DROP_ORDER, false);
    NoneDroppable(kept, false, k);
    if k == |CEILING_DROP_ORDER| {
      var j := VictimMeaning(kept, CEILING_DROP_ORDER, true);
      NoneDroppable(kept, true, j);
    }
  }

  lemma DropOneShrinks(c: Cutting)
    requires NextVictim(c.kept).Victim?
    ensures TotalLines(DropOne(c).kept) == TotalLines(c.kept) - 1
  {
    var v := NextVictim(c.kept);
    hide NextVictim;
    var d := TakenOut(c, v);
    assert |At(d.kept, v.section)| == |At(c.kept, v.section)| - 1;
    assert forall s: Section :: s != v.section ==> At(d.kept, s) == At(c.kept, s);
  }

  lemma DropOneSurvives(orig: Block, c: Cutting)
    requires Survives(orig, c) && NextVictim(c.kept).Victim?
    ensures Survives(orig, DropOne(c))
  {
    hide NextVictim, Survives, Count, LastDroppable, TakenOut;
    NextVictimMeaning(c.kept);
    var v := NextVictim(c.kept);
    if v.index == LastDroppable(At(c.kept, v.section), false)
       && forall s: Section :: Rank(s) < Rank(v.section) ==> Count(At(c.kept, s), false) == 0
    {
      UnguardedStep(orig, c, v);
    } else {
      GuardedStep(orig, c, v);
    }
  }

  lemma {:induction false} FinalSurvives(orig: Block, c: Cutting, fits: Cutting -> bool)
    requires Survives(orig, c)
    ensures Survives(orig, FinalCutting(c, fits))
    ensures var f := FinalCutting(c, fits); fits(f) || forall s: Section :: At(f.kept, s) == []
    decreases TotalLines(c.kept)
  {
    hide NextVictim, Survives, TotalLines, DropOne, Count, LastDroppable;
    if fits(c) {
    } else if NextVictim(c.kept).NoVictim? {
      NextVictimMeaning(c.kept);
    } else {
      DropOneSurvives(orig, c);
      DropOneShrinks(c);
      FinalSurvives(orig, DropOne(c), fits);
    }
  }

  /** `c` after `n` lines were given up. */
  function DropMany(c: Cutting, n: nat): Cutting
    decreases n
  {
    if n == 0 || NextVictim(c.kept).NoVictim? then c else DropMany(DropOne(c), n - 1)
  }

  /** The ceiling stops at the first cutting that fits: it gives up no line it could have kept. */
  lemma {:induction false} CeilingStopsAtTheFirstFit(c: Cutting, fits: Cutting -> bool) returns (n: nat)
    ensures FinalCutting(c, fits) == DropMany(c, n)
    ensures forall m: nat :: m < n ==> !fits(DropMany(c, m))
    decreases TotalLines(c.kept)
  {
    hide NextVictim, TotalLines, DropOne;
    if fits(c) || NextVictim(c.kept).NoVictim? {
      n := 0;
    } else {
      DropOneShrinks(c);
      var rest := CeilingStopsAtTheFirstFit(DropOne(c), fits);
      n := rest + 1;
      forall m: nat | m < n
        ensures !fits(DropMany(c, m))
      {
        if m > 0 { assert DropMany(c, m) == DropMany(DropOne(c), m - 1); }
      }
    }
  }

  lemma EverySectionHasAPlace(s: Section)
    ensures s in SECTION_ORDER
  {
    assert s == SECTION_ORDER[match s case Persona => 0 case SessionState => 1 case RecalledMemory => 2
                              case Recent => 3 case References => 4 case Reasoning => 5];
  }

  lemma MarkedSections(c: Cutting)
    ensures forall s: Section :: At(WithMarkers(c), s) == MarkedLines(c, s)
  {
    forall s: Section
      ensures At(WithMarkers(c), s) == MarkedLines(c, s)
    {
      EverySectionHasAPlace(s);
    }
  }

  lemma SurvivesAccounts(orig: Block, c: Cutting, s: Section)
    requires Survives(orig, c)
    ensures Accounted(orig, c, s)
  {}

  lemma EmptyBlockIsEmptyText()
    ensures RenderLines(map[]) == ""
  {
    var block: Block := map[];
    var texts := map s | s in block :: LineTexts(block[s]);
    NoParts(texts, SECTION_ORDER);
  }

  lemma NoParts(texts: map<Section, seq<string>>, order: seq<Section>)
    requires texts == map[]
    ensures SectionParts(texts, order) == []
  {
    if order != [] { NoParts(texts, order[1..]); }
  }

  /** The text tells a reader that `n` lines were left out. */
  ghost predicate Announces(text: string, n: nat) {
    exists digits: string ::
      && digits != "" && (forall c :: c in digits ==> IsDigit(c)) && ValueOf(digits) == n
      && text == "- [" + digits + " item(s) omitted \U{2014} inject budget]"
  }

  /** `shown` is `kept`, closed by one unhashed line announcing what is missing from `whole` if anything
      is. */
  ghost predicate ClosedByCount(whole: seq<Line>, kept: seq<Line>, shown: seq<Line>) {
    && |kept| <= |whole|
    && (|kept| == |whole| ==> shown == kept)
    && (|kept| < |whole| ==>
          && |shown| == |kept| + 1 && shown[..|kept|] == kept
          && shown[|kept|].hash.None? && !shown[|kept|].guarded && Announces(shown[|kept|].text, |whole| - |kept|))
  }

  lemma MarkedIsClosedByCount(block: Block, c: Cutting, s: Section)
    requires Accounted(block, c, s)
    ensures ClosedByCount(At(block, s), At(c.kept, s), MarkedLines(c, s))
  {
    hide Cut;
    CountSplits(At(block, s));
    CountSplits(At(c.kept, s));
    DecimalReadsBack(DroppedFrom(c, s));
    hide Count, Decimal, ValueOf;
    var digits := Decimal(DroppedFrom(c, s));
    assert OmissionMarker(DroppedFrom(c, s)).text == "- [" + digits + " item(s) omitted \U{2014} inject budget]";
  }

  /** Main result on the ceiling. The rendered block is within the budget; unless exhausted, every
      section is a subsequence of what it was, followed, when lines were given up, by a marker whose
      digits read back as their number; and the lines given up are the ones `Survives` allows. */
  lemma CeilingKeepsWhatItMust(block: Block, budget: nat) returns (c: Cutting)
    ensures c == FinalCutting(Cutting(block, map[]), Within(budget))
    ensures |RenderLines(Ceiling(block, budget).block)| <= budget
    ensures Ceiling(block, budget).exhausted ==> forall s: Section :: At(c.kept, s) == []
    ensures !Ceiling(block, budget).exhausted ==>
              forall s: Section :: At(Ceiling(block, budget).block, s) == MarkedLines(c, s)
    ensures !Ceiling(block, budget).exhausted ==>
              forall s: Section :: ClosedByCount(At(block, s), At(c.kept, s), At(Ceiling(block, budget).block, s))
    ensures Survives(block, c)
    ensures forall s: Section :: Subsequence(At(c.kept, s), At(block, s))
  {
    hide FinalCutting, Survives, WithMarkers, MarkedLines, RenderLines, ClosedByCount;
    NothingLost(block);
    var start := Cutting(block, map[]);
    FinalSurvives(block, start, Within(budget));
    c := FinalCutting(start, Within(budget));
    forall s: Section
      ensures Subsequence(At(c.kept, s), At(block, s))
    {
      SurvivesAccounts(block, c, s);
      var open := Cut(At(block, s), false, Lost(block, c, s, false));
      CutKeepsOrder(At(block, s), false, Lost(block, c, s, false));
      CutKeepsOrder(open, true, Lost(block, c, s, true));
      SubsequenceTransitive(At(c.kept, s), open, At(block, s));
    }
    forall s: Section
      ensures ClosedByCount(At(block, s), At(c.kept, s), MarkedLines(c, s))
    {
      SurvivesAccounts(block, c, s);
      MarkedIsClosedByCount(block, c, s);
    }
    MarkedSections(c);
    EmptyBlockIsEmptyText();
  }

  /** A block that already fits is handed back as it was. */
  lemma FittingBlockUnchanged(block: Block, budget: int)
    requires Within(budget)(Cutting(block, map[]))
    ensures !Ceiling(block, budget).cut && !Ceiling(block, budget).exhausted
    ensures forall s: Section :: At(Ceiling(block, budget).block, s) == At(block, s)
  {
    MarkedSections(Cutting(block, map[]));
  }
}
