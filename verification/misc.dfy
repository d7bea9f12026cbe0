/**
 `get_index_suffix` of `sigmaepsilon.core.misc`: the English ordinal suffix
 of an integer. Python's `%` floors; for the positive divisors used here it
 agrees with Dafny's `%`, negative indices included.
 */
module Misc {

  const Suffixes: set<string> := {"st", "nd", "rd", "th"}

  /** `get_index_suffix`: "th" when the last two digits are 11, 12 or 13,
      otherwise chosen by the last digit. */
  function IndexSuffix(index: int): (r: string)
    ensures r in Suffixes
    ensures index % 100 in {11, 12, 13} ==> r == "th"
  {
    if index % 100 in {11, 12, 13} then "th"
    else
      var last := index % 10;
      if last == 1 then "st"
      else if last == 2 then "nd"
      else if last == 3 then "rd"
      else "th"
  }

  /** The ordinal rule stated digit by digit: numbers whose tens digit is 1
      take "th"; otherwise units 1, 2, 3 take "st", "nd", "rd"; all others "th". */
  function OrdinalByDigits(index: int): string {
    var units := index % 10;
    var tens := (index / 10) % 10;
    if tens == 1 then "th"
    else if units == 1 then "st"
    else if units == 2 then "nd"
    else if units == 3 then "rd"
    else "th"
  }

  lemma MulAtLeast(d: int, k: int)
    ensures d > 0 && k >= 1 ==> d * k >= d
  {
    if d > 0 && k >= 1 {
      assert d * k == d + d * (k - 1);
    }
  }

  /** Euclidean division by a positive divisor is unique. */
  lemma DivModUnique(n: int, d: int, q: int, r: int)
    requires d > 0 && 0 <= r < d && n == d * q + r
    ensures n / d == q && n % d == r
  {
    var q0, r0 := n / d, n % d;
    var k := q - q0;
    assert d * k == r0 - r by {
      assert d * q - d * q0 == d * (q - q0);
    }
    assert d * -k == -(d * k);
    MulAtLeast(d, k);
    MulAtLeast(d, -k);
  }

  /** The last digit and the tens digit are those of the last two digits. */
  lemma DigitsOfLastTwo(index: int)
    ensures index % 10 == (index % 100) % 10
    ensures (index / 10) % 10 == (index % 100) / 10
  {
    var q, r := index / 100, index % 100;
    var t, u := r / 10, r % 10;
    assert index == 100 * q + r;
    assert r == 10 * t + u && 0 <= t < 10;
    assert index == 10 * (10 * q + t) + u;
    DivModUnique(index, 10, 10 * q + t, u);
    DivModUnique(10 * q + t, 10, q, t);
  }

  /** The suffix depends only on the last two digits. */
  lemma SuffixByLastTwoDigits(i: int, j: int)
    requires i % 100 == j % 100
    ensures IndexSuffix(i) == IndexSuffix(j)
  {
    DigitsOfLastTwo(i);
    DigitsOfLastTwo(j);
  }

  /** Adding any multiple of 100 leaves the suffix unchanged. */
  lemma SuffixPeriodic(i: int, k: int)
    ensures IndexSuffix(i + 100 * k) == IndexSuffix(i)
  {
    var q, r := i / 100, i % 100;
    DivModUnique(i + 100 * k, 100, q + k, r);
    SuffixByLastTwoDigits(i + 100 * k, i);
  }

  /** The code agrees with the digit-by-digit rule on every integer. */
  lemma SuffixMatchesOrdinalRule(index: int)
    ensures IndexSuffix(index) == OrdinalByDigits(index)
  {
    DigitsOfLastTwo(index);
    var r := index % 100;
    assert (r / 10 == 1 && r % 10 in {1, 2, 3}) <==> r in {11, 12, 13};
  }

  /** The cases of the unit tests. */
  lemma SuffixExamples()
    ensures IndexSuffix(1) == "st" && IndexSuffix(2) == "nd" && IndexSuffix(3) == "rd" && IndexSuffix(4) == "th"
    ensures IndexSuffix(11) == "th" && IndexSuffix(12) == "th" && IndexSuffix(13) == "th"
    ensures IndexSuffix(21) == "st" && IndexSuffix(22) == "nd" && IndexSuffix(23) == "rd" && IndexSuffix(24) == "th"
  {
  }
}
