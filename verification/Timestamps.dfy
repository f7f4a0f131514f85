/** UTC timestamps as text: their order as text is their order in time. */
module Timestamps {
  import opened Sequences
  import opened Text

  // ---------------------------------------------------------------- the order of texts

  /** Character by character, a proper prefix first: how SQLite and Python compare text. */
  predicate Less(s: string, t: string) {
    t != "" && (s == "" || (if s[0] == t[0] then Less(s[1..], t[1..]) else s[0] < t[0]))
  }

  function Later(s: string, t: string): string {
    if Less(s, t) then t else s
  }

  lemma {:induction false} LessIrreflexive(s: string)
    ensures !Less(s, s)
  {
    if s != "" { LessIrreflexive(s[1..]); }
  }

  lemma {:induction false} LessTransitive(a: string, b: string, c: string)
    requires Less(a, b) && Less(b, c)
    ensures Less(a, c)
  {
    if a != "" && a[0] == b[0] && b[0] == c[0] { LessTransitive(a[1..], b[1..], c[1..]); }
  }

  lemma {:induction false} LessTotal(a: string, b: string)
    ensures Less(a, b) || Less(b, a) || a == b
  {
    if a != "" && b != "" && a[0] == b[0] {
      LessTotal(a[1..], b[1..]);
      assert a == [a[0]] + a[1..] && b == [b[0]] + b[1..];
    }
  }

  /** Texts of equal length in front decide; the rest only breaks ties. */
  lemma {:induction false} LessConcat(p: string, q: string, s: string, t: string)
    requires |p| == |q|
    ensures Less(p + s, q + t) <==> Less(p, q) || (p == q && Less(s, t))
  {
    if p == "" {
      assert p + s == s && q + t == t;
    } else {
      assert (p + s)[1..] == p[1..] + s && (q + t)[1..] == q[1..] + t;
      LessConcat(p[1..], q[1..], s, t);
      assert p == [p[0]] + p[1..] && q == [q[0]] + q[1..];
    }
  }

  // ---------------------------------------------------------------- fixed-width numbers

  /** `n` in `width` digits, zeros in front. */
  function Pad(n: nat, width: nat): (s: string)
    ensures |s| == width
  {
    if width == 0 then "" else Pad(n / 10, width - 1) + [Digit(n % 10)]
  }

  function Power(width: nat): nat {
    if width == 0 then 1 else 10 * Power(width - 1)
  }

  lemma {:induction false} PadOrder(a: nat, b: nat, width: nat)
    requires a < Power(width) && b < Power(width)
    ensures Less(Pad(a, width), Pad(b, width)) <==> a < b
    ensures Pad(a, width) == Pad(b, width) <==> a == b
  {
    if width > 0 {
      PadOrder(a / 10, b / 10, width - 1);
      LessConcat(Pad(a / 10, width - 1), Pad(b / 10, width - 1), [Digit(a % 10)], [Digit(b % 10)]);
      LastDigits(Pad(a / 10, width - 1), Pad(b / 10, width - 1), a % 10, b % 10);
    }
  }

  lemma LastDigits(p: string, q: string, a: nat, b: nat)
    requires |p| == |q| && a < 10 && b < 10
    ensures p + [Digit(a)] == q + [Digit(b)] <==> p == q && a == b
    ensures Less([Digit(a)], [Digit(b)]) <==> a < b
  {
    if p + [Digit(a)] == q + [Digit(b)] {
      assert p == (p + [Digit(a)])[..|p|] && q == (q + [Digit(b)])[..|q|];
      assert Digit(a) == (p + [Digit(a)])[|p|] && Digit(b) == (q + [Digit(b)])[|q|];
    }
  }

  // ---------------------------------------------------------------- instants

  /** A UTC instant with a four-digit year, to the microsecond. */
  datatype Fields = Fields(year: nat, month: nat, day: nat, hour: nat, minute: nat, second: nat, micro: nat)

  type Instant = f: Fields |
    && f.year < 10000 && f.month < 100 && f.day < 100
    && f.hour < 100 && f.minute < 100 && f.second < 100 && f.micro < 1000000
    witness Fields(2000, 1, 1, 0, 0, 0, 0)

  function Parts(i: Instant): seq<nat> {
    [i.year, i.month, i.day, i.hour, i.minute, i.second]
  }

  const WIDTHS: seq<nat> := [4, 2, 2, 2, 2, 2]
  const MARKS: seq<char> := ['-', '-', 'T', ':', ':', ' ']

  /** The first differing part decides. */
  predicate Earlier(a: seq<nat>, b: seq<nat>)
    requires |a| == |b|
    decreases |a|
  {
    a != [] && (a[0] < b[0] || (a[0] == b[0] && Earlier(a[1..], b[1..])))
  }

  predicate Before(a: Instant, b: Instant) {
    Earlier(Parts(a), Parts(b)) || (Parts(a) == Parts(b) && a.micro < b.micro)
  }

  /** Each part in its width, closed by its mark; the last part has none. */
  function Joined(parts: seq<nat>, widths: seq<nat>, marks: seq<char>): string
    requires |parts| == |widths| == |marks|
    decreases |parts|
  {
    if parts == [] then ""
    else
      var mark := if |parts| == 1 then "" else [marks[0]];
      Pad(parts[0], widths[0]) + mark + Joined(parts[1..], widths[1..], marks[1..])
  }

  /** Zero microseconds print no fraction. */
  function Fraction(micro: nat): string {
    if micro == 0 then "" else "." + Pad(micro, 6)
  }

  function Iso(i: Instant): string {
    Joined(Parts(i), WIDTHS, MARKS) + (Fraction(i.micro) + "+00:00")
  }

  lemma {:induction false} JoinedOrder(a: seq<nat>, b: seq<nat>, widths: seq<nat>, marks: seq<char>)
    requires |a| == |b| == |widths| == |marks|
    requires forall i :: 0 <= i < |a| ==> a[i] < Power(widths[i]) && b[i] < Power(widths[i])
    ensures |Joined(a, widths, marks)| == |Joined(b, widths, marks)|
    ensures Less(Joined(a, widths, marks), Joined(b, widths, marks)) <==> Earlier(a, b)
    ensures Joined(a, widths, marks) == Joined(b, widths, marks) <==> a == b
    decreases |a|
  {
    hide Less, Pad, Power;
    if a != [] {
      JoinedOrder(a[1..], b[1..], widths[1..], marks[1..]);
      PadOrder(a[0], b[0], widths[0]);
      var mark := if |a| == 1 then "" else [marks[0]];
      var p, q := Pad(a[0], widths[0]), Pad(b[0], widths[0]);
      var s, t := Joined(a[1..], widths[1..], marks[1..]), Joined(b[1..], widths[1..], marks[1..]);
      LessIrreflexive(mark);
      LessConcat(p, q, mark, mark);
      LessConcat(p + mark, q + mark, s, t);
      SamePieces(p, q, mark, s, t);
      assert a == [a[0]] + a[1..] && b == [b[0]] + b[1..];
    } else {
      assert b == [];
      LessIrreflexive("");
    }
  }

  lemma SamePieces(p: string, q: string, mark: string, s: string, t: string)
    requires |p| == |q|
    ensures p + mark + s == q + mark + t <==> p == q && s == t
    ensures p + mark == q + mark <==> p == q
  {
    assert (p + mark)[..|p|] == p && (q + mark)[..|q|] == q;
    assert (p + mark + s)[..|p|] == p && (q + mark + t)[..|q|] == q;
    assert (p + mark + s)[|p + mark|..] == s && (q + mark + t)[|q + mark|..] == t;
  }

  lemma FractionOrder(a: nat, b: nat)
    requires a < 1000000 && b < 1000000
    ensures Less(Fraction(a) + "+00:00", Fraction(b) + "+00:00") <==> a < b
    ensures Fraction(a) + "+00:00" == Fraction(b) + "+00:00" <==> a == b
  {
    LessIrreflexive("+00:00");
    LessIrreflexive(Fraction(a) + "+00:00");
    assert Power(6) == 1000000 by { SixDigits(); }
    if a > 0 && b > 0 {
      PadOrder(a, b, 6);
      var p, q := Pad(a, 6), Pad(b, 6);
      LessConcat("." + p, "." + q, "+00:00", "+00:00");
      assert ("." + p)[1..] == p && ("." + q)[1..] == q;
      SamePieces("." + p, "." + q, "+00:00", "", "");
      assert ("." + p) + "+00:00" + "" == ("." + p) + "+00:00" && ("." + q) + "+00:00" + "" == ("." + q) + "+00:00";
    } else {
      assert (Fraction(a) + "+00:00")[0] == if a == 0 then '+' else '.';
      assert (Fraction(b) + "+00:00")[0] == if b == 0 then '+' else '.';
    }
  }

  lemma SixDigits()
    ensures Power(6) == 1000000 && Power(4) == 10000 && Power(2) == 100
  {
    assert Power(1) == 10 && Power(2) == 100 && Power(3) == 1000 && Power(4) == 10000 && Power(5) == 100000;
  }

  /** Text order is time order, although instants print fractions of different lengths: the zone's sign
      sorts before the fraction's point. */
  lemma TextOrderIsTimeOrder(a: Instant, b: Instant)
    ensures Less(Iso(a), Iso(b)) <==> Before(a, b)
    ensures Iso(a) == Iso(b) <==> a == b
  {
    hide Joined, Fraction, Earlier, Less;
    SixDigits();
    PartsInWidth(a);
    PartsInWidth(b);
    JoinedOrder(Parts(a), Parts(b), WIDTHS, MARKS);
    FractionOrder(a.micro, b.micro);
    LessConcat(Joined(Parts(a), WIDTHS, MARKS), Joined(Parts(b), WIDTHS, MARKS), Fraction(a.micro) + "+00:00",
               Fraction(b.micro) + "+00:00");
    SamePieces(Joined(Parts(a), WIDTHS, MARKS), Joined(Parts(b), WIDTHS, MARKS), "", Fraction(a.micro) + "+00:00",
               Fraction(b.micro) + "+00:00");
    NoMark(a);
    NoMark(b);
  }

  lemma NoMark(a: Instant)
    ensures Joined(Parts(a), WIDTHS, MARKS) + "" + (Fraction(a.micro) + "+00:00") == Iso(a)
  {
    assert Joined(Parts(a), WIDTHS, MARKS) + "" == Joined(Parts(a), WIDTHS, MARKS);
  }

  lemma PartsInWidth(i: Instant)
    ensures |Parts(i)| == |WIDTHS| == |MARKS| == 6
    ensures forall k :: 0 <= k < 6 ==> Parts(i)[k] < Power(WIDTHS[k])
  {
    SixDigits();
    hide Power;
    assert WIDTHS[0] == 4 && WIDTHS[1] == 2 && WIDTHS[2] == 2 && WIDTHS[3] == 2 && WIDTHS[4] == 2 && WIDTHS[5] == 2;
  }

  /** `Before` is time: the first of year, month, day, hour, minute, second and microsecond that differs
      decides. */
  lemma BeforeMeaning(a: Instant, b: Instant)
    ensures Before(a, b) <==>
              if a.year != b.year then a.year < b.year
              else if a.month != b.month then a.month < b.month
              else if a.day != b.day then a.day < b.day
              else if a.hour != b.hour then a.hour < b.hour
              else if a.minute != b.minute then a.minute < b.minute
              else if a.second != b.second then a.second < b.second
              else a.micro < b.micro
  {
    var p, q := Parts(a), Parts(b);
    assert p[1..][1..] == p[2..] && p[2..][1..] == p[3..] && p[3..][1..] == p[4..] && p[4..][1..] == p[5..];
    assert q[1..][1..] == q[2..] && q[2..][1..] == q[3..] && q[3..][1..] == q[4..] && q[4..][1..] == q[5..];
    assert Earlier(p[5..], q[5..]) <==> a.second < b.second;
    assert Earlier(p[4..], q[4..]) <==> a.minute < b.minute || (a.minute == b.minute && Earlier(p[5..], q[5..]));
    assert Earlier(p[3..], q[3..]) <==> a.hour < b.hour || (a.hour == b.hour && Earlier(p[4..], q[4..]));
    assert Earlier(p[2..], q[2..]) <==> a.day < b.day || (a.day == b.day && Earlier(p[3..], q[3..]));
    assert Earlier(p[1..], q[1..]) <==> a.month < b.month || (a.month == b.month && Earlier(p[2..], q[2..]));
    assert p == q <==> a.(micro := 0) == b.(micro := 0);
  }

  // ---------------------------------------------------------------- the text reads back

  lemma {:induction false} PadReadsBack(n: nat, width: nat)
    requires n < Power(width)
    ensures (forall c :: c in Pad(n, width) ==> IsDigit(c)) && ValueOf(Pad(n, width)) == n
  {
    if width > 0 {
      PadReadsBack(n / 10, width - 1);
      assert Pad(n, width)[..width - 1] == Pad(n / 10, width - 1);
    }
  }

  /** The digits from `from` up to `to` read as `n`. */
  predicate Reads(text: string, from: nat, to: nat, n: nat) {
    from <= to <= |text| && (forall c :: c in text[from..to] ==> IsDigit(c)) && ValueOf(text[from..to]) == n
  }

  /** The text of an instant: every field stands at its place and reads back, and nothing else is said. */
  lemma IsoReadsBack(i: Instant)
    ensures var text := Iso(i);
            && |text| >= 25
            && Reads(text, 0, 4, i.year) && Reads(text, 5, 7, i.month) && Reads(text, 8, 10, i.day)
            && Reads(text, 11, 13, i.hour) && Reads(text, 14, 16, i.minute) && Reads(text, 17, 19, i.second)
            && text[4] == '-' && text[7] == '-' && text[10] == 'T' && text[13] == ':' && text[16] == ':'
            && (i.micro == 0 ==> text[19..] == "+00:00")
            && (i.micro > 0 ==>
                  |text| == 32 && text[19] == '.' && Reads(text, 20, 26, i.micro) && text[26..] == "+00:00")
  {
    hide Pad, Power, ValueOf;
    SixDigits();
    PadReadsBack(i.year, 4);
    PadReadsBack(i.month, 2);
    PadReadsBack(i.day, 2);
    PadReadsBack(i.hour, 2);
    PadReadsBack(i.minute, 2);
    PadReadsBack(i.second, 2);
    PadReadsBack(i.micro, 6);
    Spelled(i);
    Slices(Pad(i.year, 4), Pad(i.month, 2), Pad(i.day, 2), Pad(i.hour, 2), Pad(i.minute, 2), Pad(i.second, 2),
           Fraction(i.micro) + "+00:00");
    if i.micro > 0 { FractionSlices(Iso(i), Pad(i.micro, 6)); }
  }

  lemma FractionSlices(text: string, digits: string)
    requires |text| == 32 && |digits| == 6 && text[19..] == "." + digits + "+00:00"
    ensures text[19] == '.' && text[20..26] == digits && text[26..] == "+00:00"
  {
    var tail := text[19..];
    assert tail[0] == '.' && tail[1..7] == digits && tail[7..] == "+00:00";
    assert text[20..26] == tail[1..7] && text[26..] == tail[7..];
  }

  lemma Spelled(i: Instant)
    ensures Iso(i) == InOne(Pad(i.year, 4), Pad(i.month, 2), Pad(i.day, 2), Pad(i.hour, 2), Pad(i.minute, 2),
                            Pad(i.second, 2), Fraction(i.micro) + "+00:00")
  {
    hide Pad, Fraction;
    var p, w, m := Parts(i), WIDTHS, MARKS;
    assert p[1..][1..] == p[2..] && p[2..][1..] == p[3..] && p[3..][1..] == p[4..] && p[4..][1..] == p[5..];
    assert w[1..][1..] == w[2..] && w[2..][1..] == w[3..] && w[3..][1..] == w[4..] && w[4..][1..] == w[5..];
    assert m[1..][1..] == m[2..] && m[2..][1..] == m[3..] && m[3..][1..] == m[4..] && m[4..][1..] == m[5..];
    assert Joined(p[5..], w[5..], m[5..]) == Pad(i.second, 2);
    assert Joined(p[4..], w[4..], m[4..]) == Pad(i.minute, 2) + ":" + Joined(p[5..], w[5..], m[5..]);
    assert Joined(p[3..], w[3..], m[3..]) == Pad(i.hour, 2) + ":" + Joined(p[4..], w[4..], m[4..]);
    assert Joined(p[2..], w[2..], m[2..]) == Pad(i.day, 2) + "T" + Joined(p[3..], w[3..], m[3..]);
    assert Joined(p[1..], w[1..], m[1..]) == Pad(i.month, 2) + "-" + Joined(p[2..], w[2..], m[2..]);
    InOneRow(Pad(i.year, 4), Pad(i.month, 2), Pad(i.day, 2), Pad(i.hour, 2), Pad(i.minute, 2), Pad(i.second, 2),
             Fraction(i.micro) + "+00:00");
  }

  lemma InOneRow(year: string, month: string, day: string, hour: string, minute: string, second: string, rest: string)
    ensures (year + "-" + (month + "-" + (day + "T" + (hour + ":" + (minute + ":" + second))))) + rest
            == InOne(year, month, day, hour, minute, second, rest)
  {}

  function InOne(year: string, month: string, day: string, hour: string, minute: string, second: string,
                 rest: string): string {
    year + "-" + month + "-" + day + "T" + hour + ":" + minute + ":" + second + rest
  }

  lemma Slices(year: string, month: string, day: string, hour: string, minute: string, second: string, rest: string)
    requires |year| == 4 && |month| == |day| == |hour| == |minute| == |second| == 2
    ensures var text := InOne(year, month, day, hour, minute, second, rest);
            && |text| == 19 + |rest| && text[0..4] == year && text[5..7] == month && text[8..10] == day
            && text[11..13] == hour && text[14..16] == minute && text[17..19] == second && text[19..] == rest
            && text[4] == '-' && text[7] == '-' && text[10] == 'T' && text[13] == ':' && text[16] == ':'
  {}

  // ---------------------------------------------------------------- the one way into a column

  /** A datetime with or without a zone. An aware one is taken to UTC. */
  datatype Moment = Naive | Aware(utc: Instant)

  /** Refuses a datetime without a zone. */
  function UtcText(m: Moment): Option<string> {
    if m.Naive? then None else Some(Iso(m.utc))
  }
}
