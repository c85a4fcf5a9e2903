/**
 * The handful of Python built-ins the scanner relies on, each stated over exact
 * numbers (`real`, `int`) and character sequences:
 *   - truthiness of optional numbers and strings (`if x:`),
 *   - `round(x, d)` (round half to even at d decimals),
 *   - `int(x)` on a number (truncation toward zero),
 *   - `str.upper()` and the substring test `needle in haystack`,
 *   - the prefix slice `s[:n]`, including a negative n.
 */
module Builtins {
  import opened Wrappers

  function Min(a: int, b: int): int { if a <= b then a else b }
  function Max(a: int, b: int): int { if a >= b then a else b }

  // ---------------------------------------------------------------- truthiness

  /** Python truthiness of an optional integer: None and 0 are false. */
  predicate TruthyInt(x: Option<int>) { x.Some? && x.value != 0 }

  /** Python truthiness of an optional number: None and 0.0 are false. */
  predicate TruthyReal(x: Option<real>) { x.Some? && x.value != 0.0 }

  /** Python truthiness of an optional string: None and "" are false. */
  predicate TruthyStr(x: Option<string>) { x.Some? && x.value != "" }

  // ---------------------------------------------------------------- rounding

  /** 10 to the power d, as a number. */
  function Pow10(d: nat): (p: real)
    ensures p >= 1.0
  {
    if d == 0 then 1.0 else 10.0 * Pow10(d - 1)
  }

  /** The integer nearest to y; when y lies exactly half-way, the even one. */
  function RoundHalfEven(y: real): (n: int)
    ensures -0.5 <= n as real - y <= 0.5
    ensures (n as real - y == 0.5 || y - n as real == 0.5) ==> n % 2 == 0
  {
    var f := y.Floor;
    var frac := y - f as real;
    if frac < 0.5 then f
    else if frac > 0.5 then f + 1
    else if f % 2 == 0 then f
    else f + 1
  }

  /** Rounds x to the nearest multiple of 1/scale, half-way cases to an even multiple. */
  function RoundToScale(x: real, scale: real): real
    requires scale > 0.0
  {
    RoundHalfEven(x * scale) as real / scale
  }

  /** Python's `round(x, digits)`, taken on the exact value of x. */
  function Round(x: real, digits: nat): real
  {
    RoundToScale(x, Pow10(digits))
  }

  /** Rounding to d decimals moves a value by at most half a unit in the last place. */
  lemma RoundIsClose(x: real, digits: nat)
    ensures -0.5 / Pow10(digits) <= Round(x, digits) - x <= 0.5 / Pow10(digits)
  {
    RoundToScaleIsClose(x, Pow10(digits));
  }

  lemma RoundToScaleIsClose(x: real, scale: real)
    requires scale > 0.0
    ensures -0.5 / scale <= RoundToScale(x, scale) - x <= 0.5 / scale
  {
    var n := RoundHalfEven(x * scale) as real;
    assert RoundToScale(x, scale) == n / scale;
    ScaledErrorBound(n, x, scale);
  }

  lemma ScaledErrorBound(n: real, x: real, p: real)
    requires p > 0.0 && -0.5 <= n - x * p <= 0.5
    ensures -0.5 / p <= n / p - x <= 0.5 / p
  {
    var e := n - x * p;
    assert (x * p) / p == x;
    assert n / p - x == e / p;
    assert e / p + 0.5 / p == (e + 0.5) / p;
    assert 0.5 / p - e / p == (0.5 - e) / p;
  }

  // ---------------------------------------------------------------- int()

  /** Python's `int(x)` on a number: truncation toward zero. */
  function TruncToInt(x: real): (n: int)
    ensures 0.0 <= x ==> 0.0 <= n as real <= x < n as real + 1.0
    ensures x < 0.0 ==> n as real - 1.0 < x <= n as real <= 0.0
  {
    if x >= 0.0 then x.Floor else -((-x).Floor)
  }

  // ---------------------------------------------------------------- strings

  /** `str.upper()` on one character, for the ASCII letters. */
  function UpperChar(c: char): char
  {
    if 'a' <= c <= 'z' then (c as int - 32) as char else c
  }

  function Upper(s: string): string
  {
    seq(|s|, i requires 0 <= i < |s| => UpperChar(s[i]))
  }

  predicate OccursAt(haystack: string, needle: string, i: int)
  {
    0 <= i <= |haystack| - |needle| && haystack[i..i + |needle|] == needle
  }

  /** Python's `needle in haystack` on strings: the needle occurs at some position. */
  predicate Contains(haystack: string, needle: string)
  {
    exists i | 0 <= i <= |haystack| - |needle| :: OccursAt(haystack, needle, i)
  }

  // ---------------------------------------------------------------- slicing

  /** Python's `s[:n]`: the first n elements, or all but the last -n when n is negative. */
  function PrefixSlice<T>(s: seq<T>, n: int): (r: seq<T>)
    ensures r <= s
    ensures |r| == if n >= 0 then Min(n, |s|) else Max(0, |s| + n)
  {
    if n >= 0 then (if n <= |s| then s[..n] else s)
    else if |s| + n >= 0 then s[..|s| + n]
    else []
  }
}
