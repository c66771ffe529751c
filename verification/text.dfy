/** String operations the source applies to metadata, queries and
    rationales: ASCII lower-casing, Python's substring test `needle in hay`,
    `sep.join(parts)` and the decimal rendering of counts in f-strings. */
module Text {

  predicate IsUpper(c: char)
  {
    'A' <= c <= 'Z'
  }

  function LowerChar(c: char): char
  {
    if IsUpper(c) then (c as int + 32) as char else c
  }

  /** `str.lower()` on the ASCII range. */
  function Lower(s: string): (r: string)
    ensures |r| == |s|
    ensures forall i :: 0 <= i < |r| ==> !IsUpper(r[i])
    ensures forall i :: 0 <= i < |s| && !IsUpper(s[i]) ==> r[i] == s[i]
    ensures forall i :: 0 <= i < |s| && IsUpper(s[i]) ==> r[i] as int == s[i] as int + 32
  {
    seq(|s|, i requires 0 <= i < |s| => LowerChar(s[i]))
  }

  /** Lower-casing twice is lower-casing once: the document detector calls
      `.lower()` on strings it has already lower-cased. */
  lemma LowerIdempotent(s: string)
    ensures Lower(Lower(s)) == Lower(s)
  {
    var once := Lower(s);
    var twice := Lower(once);
    forall i | 0 <= i < |s|
      ensures twice[i] == once[i]
    {
      assert !IsUpper(once[i]);
    }
  }

  predicate StartsWith(s: string, prefix: string)
  {
    |prefix| <= |s| && s[..|prefix|] == prefix
  }

  predicate OccursAt(hay: string, needle: string, i: int)
  {
    0 <= i && i + |needle| <= |hay| && hay[i..i + |needle|] == needle
  }

  /** The middle part of a concatenation occurs right after the first. */
  lemma InfixAt(a: string, b: string, c: string)
    ensures StartsWith(a + b + c, a)
    ensures OccursAt(a + b + c, b, |a|)
  {
    var s := a + b + c;
    assert s[..|a|] == a;
    assert s[|a|..|a| + |b|] == b;
  }

  /** Python's `needle in hay` for strings. */
  function Contains(hay: string, needle: string): (b: bool)
    ensures b <==> exists i :: OccursAt(hay, needle, i)
  {
    if StartsWith(hay, needle) then
      assert OccursAt(hay, needle, 0);
      true
    else if |hay| == 0 then
      false
    else
      var tail := hay[1..];
      if Contains(tail, needle) then
        var i :| OccursAt(tail, needle, i);
        assert tail[i..i + |needle|] == hay[i + 1..i + 1 + |needle|];
        assert OccursAt(hay, needle, i + 1);
        true
      else
        assert forall i :: OccursAt(hay, needle, i) ==> OccursAt(tail, needle, i - 1) by {
          forall i | OccursAt(hay, needle, i)
            ensures OccursAt(tail, needle, i - 1)
          {
            assert hay[0..|needle|] == hay[..|needle|];
            assert tail[i - 1..i - 1 + |needle|] == hay[i..i + |needle|];
          }
        }
        false
  }

  /** `sep.join(parts)`. */
  function Join(parts: seq<string>, sep: string): string
  {
    if |parts| == 0 then ""
    else if |parts| == 1 then parts[0]
    else parts[0] + sep + Join(parts[1..], sep)
  }

  /** The joined text starts with the first part, followed by the separator
      when a second part exists. */
  lemma JoinStartsWith(parts: seq<string>, sep: string)
    requires |parts| > 0
    ensures StartsWith(Join(parts, sep), parts[0])
    ensures |parts| > 1 ==> StartsWith(Join(parts, sep), parts[0] + sep)
  {
    var j := Join(parts, sep);
    if |parts| > 1 {
      assert j == (parts[0] + sep) + Join(parts[1..], sep);
      assert j[..|parts[0] + sep|] == parts[0] + sep;
      assert j[..|parts[0]|] == (parts[0] + sep)[..|parts[0]|];
    }
  }

  /** Splitting a join by its last part: `Join(xs + [x]) == Join(xs) + sep + x`. */
  lemma {:induction false} JoinSnoc(parts: seq<string>, last: string, sep: string)
    requires |parts| > 0
    ensures Join(parts + [last], sep) == Join(parts, sep) + sep + last
  {
    if |parts| == 1 {
      assert (parts + [last])[1..] == [last];
    } else {
      assert (parts + [last])[1..] == parts[1..] + [last];
      JoinSnoc(parts[1..], last, sep);
    }
  }

  predicate IsDigit(c: char)
  {
    '0' <= c <= '9'
  }

  predicate AllDigits(s: string)
  {
    forall i :: 0 <= i < |s| ==> IsDigit(s[i])
  }

  function DigitChar(d: nat): (c: char)
    requires d < 10
    ensures IsDigit(c)
  {
    ('0' as int + d) as char
  }

  /** The decimal digits of `n`, as `f"{n}"` prints a non-negative int. */
  function Decimal(n: nat): (s: string)
    ensures |s| > 0 && AllDigits(s)
  {
    if n < 10 then [DigitChar(n)] else Decimal(n / 10) + [DigitChar(n % 10)]
  }

  function ParseDecimal(s: string): nat
    requires AllDigits(s)
  {
    if |s| == 0 then 0
    else ParseDecimal(s[..|s| - 1]) * 10 + (s[|s| - 1] as int - '0' as int)
  }

  /** Reading the printed count back gives the count. */
  lemma {:induction false} DecimalRoundTrip(n: nat)
    ensures ParseDecimal(Decimal(n)) == n
  {
    if n >= 10 {
      DecimalRoundTrip(n / 10);
      var s := Decimal(n);
      assert s[..|s| - 1] == Decimal(n / 10);
    }
  }

  /** The magnitude of `x` in whole hundredths, rounded to the nearest one
      with ties to even, as `format(x, '.2f')` rounds. */
  function Cents(x: real): (c: nat)
    ensures var scaled := (if x < 0.0 then -x else x) * 100.0;
      scaled - 0.5 <= c as real <= scaled + 0.5
    // at an exact tie between two counts, the even one is taken
    ensures var scaled := (if x < 0.0 then -x else x) * 100.0;
      (c as real - scaled == 0.5 || scaled - c as real == 0.5) ==> c % 2 == 0
  {
    var scaled := (if x < 0.0 then -x else x) * 100.0;
    var whole := scaled.Floor;
    var fraction := scaled - whole as real;
    if fraction > 0.5 || (fraction == 0.5 && whole % 2 == 1) then whole + 1 else whole
  }

  /** A count of hundredths as a decimal with exactly two places. */
  function Hundredths(c: nat): string
  {
    Decimal(c / 100) + "." + [DigitChar(c % 100 / 10), DigitChar(c % 10)]
  }

  /** `f"{x:.2f}"`: a minus sign for a negative value, then the rounded
      magnitude with two places. */
  function TwoDecimals(x: real): string
  {
    (if x < 0.0 then "-" else "") + Hundredths(Cents(x))
  }

  /** The digits before and after the point give back the hundredths. */
  lemma HundredthsReadsBack(c: nat)
    ensures var h := Hundredths(c);
      && |h| >= 4 && h[|h| - 3] == '.' && IsDigit(h[0])
      && AllDigits(h[..|h| - 3]) && AllDigits(h[|h| - 2..])
      && ParseDecimal(h[..|h| - 3]) * 100 + ParseDecimal(h[|h| - 2..]) == c
  {
    var whole := Decimal(c / 100);
    var digits := [DigitChar(c % 100 / 10), DigitChar(c % 10)];
    var h := Hundredths(c);
    assert h == whole + "." + digits;
    assert h[..|h| - 3] == whole;
    assert h[|h| - 2..] == digits;
    DecimalRoundTrip(c / 100);
    assert ParseDecimal(digits) == ParseDecimal(digits[..1]) * 10 + c % 10;
    assert ParseDecimal(digits[..1]) == c % 100 / 10 by {
      assert digits[..1][..0] == [];
    }
  }

  /** The printed value reads back: a leading minus sign exactly for a
      negative value, and the rounded hundredths after it. */
  lemma TwoDecimalsReadsBack(x: real)
    ensures var s := TwoDecimals(x);
      && (s[0] == '-' <==> x < 0.0)
      && (if x < 0.0 then s[1..] else s) == Hundredths(Cents(x))
  {
    HundredthsReadsBack(Cents(x));
    var s := TwoDecimals(x);
    if x < 0.0 {
      assert s[1..] == Hundredths(Cents(x));
    }
  }
}
