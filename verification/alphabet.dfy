/**
 The code-point generators of `sigmaepsilon.core.alphabet`. A character is
 represented by its code point (`chr(c)` is `c`); the endless generator of
 `alphabet` is the function from position to code point.
 */
module Alphabet {
  import opened Python

  /** A `start` argument: a code point, or a string converted with `ord`. */
  datatype Start = Code(code: int) | Text(text: string)

  // ---------------------------------------------------------------------------
  // Decimal strings, as `str` writes an int
  // ---------------------------------------------------------------------------

  function DigitChar(d: int): char
    requires 0 <= d < 10
  {
    ('0' as int + d) as char
  }

  predicate IsDigit(c: char) {
    '0' <= c <= '9'
  }

  /** The decimal digits of a natural number, without leading zeros. */
  function Digits(n: nat): (r: string)
    ensures |r| >= 1 && (r[0] == '0' ==> n == 0)
    ensures forall i :: 0 <= i < |r| ==> IsDigit(r[i])
    decreases n
  {
    if n < 10 then [DigitChar(n)] else Digits(n / 10) + [DigitChar(n % 10)]
  }

  /** `str(n)` for an int. */
  function DecimalString(n: int): (r: string)
    ensures |r| >= 1
    ensures r[0] == '-' <==> n < 0
  {
    if n < 0 then "-" + Digits(-n) else Digits(n)
  }

  /** Reading digits back, most significant first. */
  function ParseDigits(s: string): int
    decreases |s|
  {
    if |s| == 0 then 0 else 10 * ParseDigits(s[..|s| - 1]) + (s[|s| - 1] as int - '0' as int)
  }

  /** `int(s)` for what `str` writes. */
  function ParseDecimal(s: string): int {
    if |s| > 0 && s[0] == '-' then -ParseDigits(s[1..]) else ParseDigits(s)
  }

  lemma {:induction false} DigitsRoundTrip(n: nat)
    ensures ParseDigits(Digits(n)) == n
    decreases n
  {
    if n >= 10 {
      var d := Digits(n / 10);
      DigitsRoundTrip(n / 10);
      assert (d + [DigitChar(n % 10)])[..|d|] == d;
    }
  }

  /** `int(str(n)) == n` for every integer. */
  lemma DecimalRoundTrip(n: int)
    ensures ParseDecimal(DecimalString(n)) == n
  {
    if n < 0 {
      assert DecimalString(n)[1..] == Digits(-n);
      DigitsRoundTrip(-n);
    } else {
      DigitsRoundTrip(n);
    }
  }

  // ---------------------------------------------------------------------------
  // ord and range
  // ---------------------------------------------------------------------------

  /** `ord(s)`: defined on one-character strings only. */
  function Ord(s: string): (r: Result<int>)
    ensures r.Ok? <==> |s| == 1
    ensures r.Ok? ==> r.value == s[0] as int
  {
    if |s| == 1 then Ok(s[0] as int)
    else Err(TypeError("ord() expected a character, but string of length " + DecimalString(|s|) + " found"))
  }

  function StartCode(s: Start): Result<int> {
    match s
    case Code(c) => Ok(c)
    case Text(t) => Ord(t)
  }

  /** `list(range(lo, hi))`. */
  function Range(lo: int, hi: int): (r: seq<int>)
    ensures |r| == if lo < hi then hi - lo else 0
    ensures forall i :: 0 <= i < |r| ==> r[i] == lo + i
    decreases hi - lo
  {
    if lo >= hi then [] else [lo] + Range(lo + 1, hi)
  }

  /** The number of items `range(lo, hi)` has. */
  function Count(lo: int, hi: int): nat {
    if lo < hi then hi - lo else 0
  }

  /** `s` is `count` consecutive code points from `first`. */
  predicate Consecutive(s: seq<int>, first: int, count: int) {
    |s| == (if count > 0 then count else 0) && forall i :: 0 <= i < |s| ==> s[i] == first + i
  }

  // ---------------------------------------------------------------------------
  // alphabet
  // ---------------------------------------------------------------------------

  const Alphabets: set<string> := {"ord", "o", "latin", "l", "u", "greek", "g"}

  /** The first code point `alphabet(abctype, start)` yields. */
  function AlphabetStart(abctype: string, start: Option<Start>): (r: Result<int>)
    ensures abctype !in Alphabets ==> r == Err(ValueError("Invalid alphabet."))
    ensures abctype in Alphabets && start.None? ==>
              r == Ok(if abctype in {"latin", "l"} then 97 else if abctype in {"greek", "g"} then 0x3B1 else 0)
    ensures abctype in Alphabets && start.Some? ==> r == StartCode(start.value)
  {
    var default :=
      if abctype in {"ord", "o"} then Some(0)
      else if abctype in {"latin", "l"} then Some('a' as int)
      else if abctype == "u" then Some('\U{0}' as int)
      else if abctype in {"greek", "g"} then Some('\U{3B1}' as int)
      else None;
    if default.None? then Err(ValueError("Invalid alphabet."))
    else StartCode(start.GetOr(Code(default.value)))
  }

  /** The `k`-th item (from 0) `alphabet(abctype, start)` yields; the generator
      raises before its first item when the start is invalid. */
  function AlphabetItem(abctype: string, start: Option<Start>, k: nat): (r: Result<int>)
    ensures r.Ok? <==> AlphabetStart(abctype, start).Ok?
    ensures r.Err? ==> r == AlphabetStart(abctype, start)
  {
    var s :- AlphabetStart(abctype, start);
    Ok(s + k)
  }

  /** The generator walks consecutive code points from its start, without end. */
  lemma AlphabetConsecutive(abctype: string, start: Option<Start>, k: nat)
    requires AlphabetStart(abctype, start).Ok?
    ensures AlphabetItem(abctype, start, 0) == AlphabetStart(abctype, start)
    ensures AlphabetItem(abctype, start, k + 1).value == AlphabetItem(abctype, start, k).value + 1
  {
  }

  // ---------------------------------------------------------------------------
  // The range builders
  // ---------------------------------------------------------------------------

  /** `ordrange(N, start=..., stop=...)`: `start` defaults to 0; an absent stop,
      or one equal to the start, means `N` items; any other stop bounds the
      range and `N` is ignored. */
  function OrdRange(n: int, start: Option<Start>, stop: Option<int>): (r: Result<seq<int>>)
    ensures r.Ok? <==> StartCode(start.GetOr(Code(0))).Ok?
    // a string start that is not one character gives the `TypeError` of `ord`
    ensures r.Err? ==> r == Err(StartCode(start.GetOr(Code(0))).error)
    ensures r.Ok? && (stop.None? || stop.value == StartCode(start.GetOr(Code(0))).value) ==>
              Consecutive(r.value, StartCode(start.GetOr(Code(0))).value, n)
    ensures r.Ok? && stop.Some? && stop.value != StartCode(start.GetOr(Code(0))).value ==>
              var s := StartCode(start.GetOr(Code(0))).value;
              Consecutive(r.value, s, stop.value - s)
  {
    var s :- StartCode(start.GetOr(Code(0)));
    var e := if stop.None? || stop.value == s then s + n else stop.value;
    Ok(Range(s, e))
  }

  /** A stop below the start gives nothing, whatever `N` is. */
  lemma OrdRangeDescendingEmpty(n: int, start: int, stop: int)
    requires stop < start
    ensures OrdRange(n, Some(Code(start)), Some(stop)) == Ok([])
  {
  }

  /** `latinrange`: `start` defaults to 97 (`'a'`); the rest is `ordrange`. */
  function LatinRange(n: int, start: Option<Start>, stop: Option<int>): (r: Result<seq<int>>)
    ensures start.Some? ==> r == OrdRange(n, start, stop)
    ensures start.None? ==> r == OrdRange(n, Some(Code(97)), stop)
    ensures start.None? && stop.None? ==> r.Ok? && Consecutive(r.value, 97, n)
  {
    OrdRange(n, Some(start.GetOr(Code(97))), stop)
  }

  /** `urange`: `start` is a one-character string (default U+0000) and an
      absent stop is set to the start, so `N` items follow it. */
  function URange(n: int, start: Option<string>, stop: Option<string>): (r: Result<seq<int>>)
    ensures r.Ok? <==> |start.GetOr("\U{0}")| == 1 && |stop.GetOr(start.GetOr("\U{0}"))| == 1
    ensures r.Ok? ==> r == OrdRange(n, Some(Code(start.GetOr("\U{0}")[0] as int)), Some(stop.GetOr(start.GetOr("\U{0}"))[0] as int))
    ensures r.Ok? && stop.None? ==> Consecutive(r.value, start.GetOr("\U{0}")[0] as int, n)
    // a bad start is reported before a bad stop, each with the error of `ord`
    ensures |start.GetOr("\U{0}")| != 1 ==> r == Err(Ord(start.GetOr("\U{0}")).error)
    ensures |start.GetOr("\U{0}")| == 1 && |stop.GetOr(start.GetOr("\U{0}"))| != 1 ==>
              r == Err(Ord(stop.GetOr(start.GetOr("\U{0}"))).error)
  {
    var first := start.GetOr("\U{0}");
    var last := stop.GetOr(first);
    var a :- Ord(first);
    var b :- Ord(last);
    OrdRange(n, Some(Code(a)), Some(b))
  }

  /** `greekrange`: `N` consecutive characters from U+03B1 (alpha). */
  function GreekRange(n: int): (r: Result<seq<int>>)
    ensures r.Ok? && Consecutive(r.value, 0x3B1, n)
  {
    URange(n, Some("\U{3B1}"), None)
  }

  /** `arabicrange`: like `ordrange` on integers (start defaulting to 0), each
      item written as a decimal string. */
  function ArabicRange(n: int, start: Option<int>, stop: Option<int>): (r: seq<string>)
    ensures var s := start.GetOr(0);
            var e := if stop.None? || stop.value == s then s + n else stop.value;
            |r| == Count(s, e) && forall i :: 0 <= i < |r| ==> r[i] == DecimalString(s + i)
  {
    var s := start.GetOr(0);
    var e := if stop.None? || stop.value == s then s + n else stop.value;
    var codes := Range(s, e);
    seq(|codes|, i requires 0 <= i < |codes| => DecimalString(codes[i]))
  }

  /** Reading the items of `arabicrange` back gives consecutive integers. */
  lemma ArabicRangeReadsBack(n: int, start: Option<int>, stop: Option<int>, i: int)
    requires 0 <= i < |ArabicRange(n, start, stop)|
    ensures ParseDecimal(ArabicRange(n, start, stop)[i]) == start.GetOr(0) + i
  {
    DecimalRoundTrip(start.GetOr(0) + i);
  }
}
