/** How the character budget is split over the sections, and when the parts can exceed the whole. */
module SectionBudgets {
  import opened LiveContext

  datatype Fractions = Fractions(
    persona: real, sessionState: real, recalledMemory: real, recent: real, references: real, reasoning: real)

  const TOLERANCE := 0.000001

  predicate InRange(f: real) {
    0.0 < f <= 1.0
  }

  function Total(f: Fractions): real {
    f.persona + f.sessionState + f.recalledMemory + f.recent + f.references + f.reasoning
  }

  /** What the configuration accepts: each fraction in range, and a sum within the tolerance of one. */
  predicate Accepted(f: Fractions) {
    && InRange(f.persona) && InRange(f.sessionState) && InRange(f.recalledMemory)
    && InRange(f.recent) && InRange(f.references) && InRange(f.reasoning)
    && 1.0 - TOLERANCE <= Total(f) <= 1.0 + TOLERANCE
  }

  /** `int(total * fraction)` over exact reals. */
  function Share(total: nat, fraction: real): (chars: nat)
    requires fraction > 0.0
    ensures chars as real <= total as real * fraction
  {
    (total as real * fraction).Floor
  }

  function Allocate(total: nat, f: Fractions): Budgets
    requires Accepted(f)
  {
    Budgets(Share(total, f.persona), Share(total, f.sessionState), Share(total, f.recalledMemory),
            Share(total, f.recent), Share(total, f.references), Share(total, f.reasoning))
  }

  /** Every section gets the whole characters of its own fraction of the total. */
  lemma EverySectionGetsItsShare(total: nat, f: Fractions)
    requires Accepted(f)
    ensures var b, t := Allocate(total, f), total as real;
            && b.persona as real <= t * f.persona < b.persona as real + 1.0
            && b.sessionState as real <= t * f.sessionState < b.sessionState as real + 1.0
            && b.recalledMemory as real <= t * f.recalledMemory < b.recalledMemory as real + 1.0
            && b.recent as real <= t * f.recent < b.recent as real + 1.0
            && b.references as real <= t * f.references < b.references as real + 1.0
            && b.reasoning as real <= t * f.reasoning < b.reasoning as real + 1.0
  {
    hide Share;
    ShareIsTheFloor(total, f.persona);
    ShareIsTheFloor(total, f.sessionState);
    ShareIsTheFloor(total, f.recalledMemory);
    ShareIsTheFloor(total, f.recent);
    ShareIsTheFloor(total, f.references);
    ShareIsTheFloor(total, f.reasoning);
  }

  lemma ShareIsTheFloor(total: nat, fraction: real)
    requires fraction > 0.0
    ensures var chars := Share(total, fraction) as real;
            chars <= total as real * fraction < chars + 1.0
  {}

  function Sum(b: Budgets): nat {
    b.persona + b.sessionState + b.recalledMemory + b.recent + b.references + b.reasoning
  }

  lemma SumIsAtMostTheProduct(total: nat, f: Fractions)
    requires Accepted(f)
    ensures Sum(Allocate(total, f)) as real <= total as real * Total(f)
  {
    var t, b := total as real, Allocate(total, f);
    assert t * Total(f) == t * f.persona + t * f.sessionState + t * f.recalledMemory + t * f.recent + t * f.references
        + t * f.reasoning;
    assert Sum(b) as real == b.persona as real + b.sessionState as real + b.recalledMemory as real
                             + b.recent as real + b.references as real + b.reasoning as real;
  }

  lemma SmallTotalsFit(total: nat, f: Fractions)
    requires Accepted(f) && total < 1000000
    ensures Sum(Allocate(total, f)) <= total
  {
    hide Sum, Allocate, Total;
    SumIsAtMostTheProduct(total, f);
    ToleranceIsWorthless(total as real, Total(f));
  }

  lemma ToleranceIsWorthless(t: real, sum: real)
    requires 0.0 <= t <= 999999.0 && sum <= 1.0 + TOLERANCE
    ensures t * sum < t + 1.0
  {
    var slack := 1.0 + TOLERANCE - sum;
    NonNegative(t, slack);
    assert t * slack == t * (1.0 + TOLERANCE) - t * sum;
  }

  lemma NonNegative(a: real, b: real)
    requires a >= 0.0 && b >= 0.0
    ensures a * b >= 0.0
  {}

  /** Five sections with one character each and the sixth with four less than the total. */
  function Overfull(total: nat): Fractions
    requires total >= 1000000
  {
    var one := 1.0 / total as real;
    Fractions(one, one, one, one, one, (total - 4) as real / total as real)
  }

  lemma OverfullExceeds(total: nat)
    requires total >= 1000000
    ensures Accepted(Overfull(total)) && Sum(Allocate(total, Overfull(total))) == total + 1
  {
    var t, f := total as real, Overfull(total);
    assert t * (1.0 / t) == 1.0;
    assert t * ((total - 4) as real / t) == (total - 4) as real;
    OneIsSmall(t);
    assert Total(f) == 1.0 + 1.0 / t;
    assert Share(total, f.persona) == 1;
    assert Share(total, f.reasoning) == total - 4;
  }

  lemma OneIsSmall(t: real)
    requires t >= 1000000.0
    ensures 0.0 < 1.0 / t <= TOLERANCE
  {
    var one := 1.0 / t;
    assert one * t == 1.0;
    Cancel(t, one, TOLERANCE);
  }

  lemma Cancel(t: real, a: real, b: real)
    requires t > 0.0 && a * t <= b * t
    ensures a <= b
  {
    assert (b - a) * t >= 0.0;
  }

  /** The sections together stay within the total, for every accepted split, exactly for totals below
      one million characters: from there on the tolerance is worth a whole character. */
  lemma SectionsFitExactlyBelowAMillion(total: nat)
    ensures (forall f: Fractions :: Accepted(f) ==> Sum(Allocate(total, f)) <= total) <==> total < 1000000
  {
    if total < 1000000 {
      forall f: Fractions | Accepted(f)
        ensures Sum(Allocate(total, f)) <= total
      {
        SmallTotalsFit(total, f);
      }
    } else {
      OverfullExceeds(total);
    }
  }
}
