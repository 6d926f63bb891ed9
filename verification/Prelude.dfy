/** Vocabulary shared by every model: optional values, decimal arithmetic and ASCII upper-casing. */
module Prelude {

  datatype Option<+T> = None | Some(value: T)

  function Min(a: real, b: real): real {
    if a <= b then a else b
  }

  function Max(a: real, b: real): real {
    if a >= b then a else b
  }

  function Abs(a: real): real {
    if a >= 0.0 then a else -a
  }

  function Clamp(lo: real, hi: real, x: real): real {
    Max(lo, Min(hi, x))
  }

  function MinInt(a: int, b: int): int {
    if a <= b then a else b
  }

  function MaxInt(a: int, b: int): int {
    if a >= b then a else b
  }

  /** `Decimal.to_integral_value(rounding=ROUND_HALF_UP)`: nearest integer, ties away from zero. */
  function RoundHalfUp(x: real): int {
    if x >= 0.0 then (x + 0.5).Floor else -((-x + 0.5).Floor)
  }

  /** Rounding is odd, monotone, and never moves a value by more than one half. */
  lemma RoundHalfUpFacts(x: real, y: real)
    ensures RoundHalfUp(-x) == -RoundHalfUp(x)
    ensures x <= y ==> RoundHalfUp(x) <= RoundHalfUp(y)
    ensures -0.5 <= x - RoundHalfUp(x) as real <= 0.5
  {
  }

  /** `quantize(Decimal("0.0001"), ROUND_HALF_UP)`. */
  function Quantized(x: real): real {
    RoundHalfUp(x * 10000.0) as real / 10000.0
  }

  /** One minute, in microseconds. */
  const MINUTE := 60_000_000

  function Sum(xs: seq<real>): real {
    if xs == [] then 0.0 else Sum(xs[..|xs| - 1]) + xs[|xs| - 1]
  }

  lemma {:induction false} SumConcat(xs: seq<real>, ys: seq<real>)
    ensures Sum(xs + ys) == Sum(xs) + Sum(ys)
  {
    if ys == [] {
      assert xs + ys == xs;
    } else {
      assert (xs + ys)[..|xs + ys| - 1] == xs + ys[..|ys| - 1];
      SumConcat(xs, ys[..|ys| - 1]);
    }
  }

  lemma LessTimes(x: real, y: real, n: real)
    requires n > 0.0
    ensures x < y <==> x * n < y * n
  {
    if x < y {
      assert (y - x) * n > 0.0;
    } else {
      assert (x - y) * n >= 0.0;
    }
  }

  lemma Divides(x: real, n: real, q: real)
    requires n > 0.0 && q * n == x
    ensures x / n == q
  {
  }

  /** A quotient lies between bounds exactly as its numerator lies between their multiples. */
  lemma DivisionBounds(x: real, n: real, lo: real, hi: real)
    requires n > 0.0 && lo * n <= x <= hi * n
    ensures lo <= x / n <= hi
  {
    var q := x / n;
    assert q * n == x;
    LessTimes(q, lo, n);
    LessTimes(hi, q, n);
  }

  lemma SplitConcat<T>(xs: seq<T>, ys: seq<T>, n: nat)
    requires n <= |xs|
    ensures (xs + ys)[..n] == xs[..n] && (xs + ys)[n..] == xs[n..] + ys
  {
  }

  lemma AppendAssociates<T>(a: seq<T>, b: seq<T>, c: seq<T>)
    ensures (a + b) + c == a + (b + c)
  {
  }

  function UpperChar(c: char): char {
    if 'a' <= c <= 'z' then (c as int - 32) as char else c
  }

  /** `str.upper` on the ASCII names exchanges use. */
  function Upper(s: string): (u: string)
    ensures |u| == |s|
  {
    if s == "" then "" else [UpperChar(s[0])] + Upper(s[1..])
  }

  /** Every small letter becomes the capital at its place in the alphabet, and nothing else changes. */
  lemma {:induction false} UpperMeans(s: string, i: nat)
    requires i < |s|
    ensures 'a' <= s[i] <= 'z' ==>
      'A' <= Upper(s)[i] <= 'Z' && Upper(s)[i] as int - 'A' as int == s[i] as int - 'a' as int
    ensures !('a' <= s[i] <= 'z') ==> Upper(s)[i] == s[i]
  {
    if i > 0 {
      UpperMeans(s[1..], i - 1);
    }
  }
}
