/** Text helpers: decimal numerals and newline-joined lines. */
module Text {
  function Digit(d: nat): char
    requires d < 10
  {
    '0' + d as char
  }

  function Decimal(n: nat): string {
    if n < 10 then [Digit(n)] else Decimal(n / 10) + [Digit(n % 10)]
  }

  predicate IsDigit(c: char) {
    '0' <= c <= '9'
  }

  function DigitValue(c: char): nat
    requires IsDigit(c)
  {
    c as int - '0' as int
  }

  /** The number a reader takes a row of digits for. */
  function ValueOf(digits: string): nat
    requires forall c :: c in digits ==> IsDigit(c)
  {
    if digits == "" then 0
    else
      var last := digits[|digits| - 1];
      assert last in digits;
      ValueOf(digits[..|digits| - 1]) * 10 + DigitValue(last)
  }

  /** A printed number is a row of digits and reads back as the number it was printed for. */
  lemma {:induction false} DecimalReadsBack(n: nat)
    ensures Decimal(n) != "" && (forall c :: c in Decimal(n) ==> IsDigit(c)) && ValueOf(Decimal(n)) == n
  {
    if n < 10 {
      assert Decimal(n)[..0] == "";
    } else {
      DecimalReadsBack(n / 10);
      assert Decimal(n)[..|Decimal(n)| - 1] == Decimal(n / 10);
    }
  }

  /** `sep.join(parts)` for a one-character separator. */
  function Join(parts: seq<string>, sep: char): string {
    if parts == [] then ""
    else if |parts| == 1 then parts[0]
    else parts[0] + [sep] + Join(parts[1..], sep)
  }

  predicate OccursAt(part: string, whole: string, i: int) {
    0 <= i <= |whole| - |part| && whole[i..i + |part|] == part
  }

  /** `part` occurs in `whole` as a contiguous stretch. */
  ghost predicate Occurs(part: string, whole: string) {
    exists i :: OccursAt(part, whole, i)
  }

  lemma OccursAfter(part: string, before: string, whole: string)
    requires Occurs(part, whole)
    ensures Occurs(part, before + whole)
  {
    var i :| OccursAt(part, whole, i);
    assert OccursAt(part, before + whole, |before| + i);
  }

  lemma {:induction false} JoinedPartOccurs(parts: seq<string>, sep: char, k: nat)
    requires k < |parts|
    ensures Occurs(parts[k], Join(parts, sep))
  {
    var whole := Join(parts, sep);
    if k == 0 {
      assert OccursAt(parts[0], whole, 0);
    } else {
      JoinedPartOccurs(parts[1..], sep, k - 1);
      OccursAfter(parts[k], parts[0] + [sep], Join(parts[1..], sep));
    }
  }

  lemma LastSeparator(a: string, x: string, sep: char)
    requires sep !in x
    ensures (a + [sep] + x)[|a|] == sep
    ensures forall i :: |a| < i < |a + [sep] + x| ==> (a + [sep] + x)[i] != sep
  {
    forall i | |a| < i < |a + [sep] + x|
      ensures (a + [sep] + x)[i] != sep
    {
      assert (a + [sep] + x)[i] == x[i - |a| - 1];
    }
  }

  /** A separator the last part does not contain splits a text in one way only. */
  lemma SplitLast(a: string, x: string, b: string, y: string, sep: char)
    requires a + [sep] + x == b + [sep] + y && sep !in x && sep !in y
    ensures a == b && x == y
  {
    var whole := a + [sep] + x;
    LastSeparator(a, x, sep);
    LastSeparator(b, y, sep);
    assert a == whole[..|a|] && x == whole[|a| + 1..];
    assert b == whole[..|b|] && y == whole[|b| + 1..];
  }

  lemma FirstSeparator(a: string, x: string, sep: char)
    requires sep !in a
    ensures (a + [sep] + x)[|a|] == sep
    ensures forall i :: 0 <= i < |a| ==> (a + [sep] + x)[i] != sep
  {
    forall i | 0 <= i < |a|
      ensures (a + [sep] + x)[i] != sep
    {
      assert (a + [sep] + x)[i] == a[i];
    }
  }

  /** The same at the first separator. */
  lemma SplitFirst(a: string, x: string, b: string, y: string, sep: char)
    requires a + [sep] + x == b + [sep] + y && sep !in a && sep !in b
    ensures a == b && x == y
  {
    var whole := a + [sep] + x;
    FirstSeparator(a, x, sep);
    FirstSeparator(b, y, sep);
    assert a == whole[..|a|] && x == whole[|a| + 1..];
    assert b == whole[..|b|] && y == whole[|b| + 1..];
  }
}
