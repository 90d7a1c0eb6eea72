/** Python 3's built-in `round`: to the nearest integer, and on an exact tie
    to the even neighbour ("banker's rounding"). Two forms: of a real number
    (the model's output) and of an exact quotient of integers (a bed
    ratio). */
module Rounding {

  /** `round(x)` for a finite number `x`. */
  function RoundHalfEven(x: real): (n: int)
    ensures n as real - 0.5 <= x <= n as real + 0.5
    ensures x == n as real - 0.5 || x == n as real + 0.5 ==> n % 2 == 0
  {
    var f := x.Floor;
    var frac := x - f as real;
    if frac < 0.5 then f
    else if frac > 0.5 then f + 1
    else if f % 2 == 0 then f
    else f + 1
  }

  /** The two properties above determine the rounded value. */
  lemma RoundHalfEvenUnique(x: real, n: int)
    requires n as real - 0.5 <= x <= n as real + 0.5
    requires x == n as real - 0.5 || x == n as real + 0.5 ==> n % 2 == 0
    ensures RoundHalfEven(x) == n
  {
  }

  /** Rounding never leaves an integer interval that contains `x`. */
  lemma RoundWithin(x: real, lo: int, hi: int)
    requires lo as real <= x <= hi as real
    ensures lo <= RoundHalfEven(x) <= hi
  {
  }

  /** An integer rounds to itself. */
  lemma RoundOfInteger(k: int)
    ensures RoundHalfEven(k as real) == k
  {
    RoundHalfEvenUnique(k as real, k);
  }

  /** `round(num / den)` of the exact quotient, computed with integer
      division: the integer `n` whose distance to the quotient, scaled by
      `den`, is at most one half, the even one on a tie. */
  function RoundQuotient(num: int, den: int): (n: int)
    requires den > 0
    ensures -den <= 2 * (n * den - num) <= den
    ensures 2 * (n * den - num) == den || 2 * (n * den - num) == -den ==> n % 2 == 0
  {
    var q, r := num / den, num % den;
    assert q * den - num == -r;
    assert (q + 1) * den - num == den - r;
    if 2 * r < den then q
    else if 2 * r > den then q + 1
    else if q % 2 == 0 then q
    else q + 1
  }

  /** A product with a positive factor has the sign of the other factor. */
  lemma SignOfScaled(x: int, den: int)
    requires den > 0
    ensures x * den >= 0 ==> x >= 0
    ensures x * den <= 0 ==> x <= 0
  {
  }

  /** Rounding a quotient never leaves an integer interval containing it. */
  lemma {:induction false} RoundQuotientWithin(num: int, den: int, lo: int, hi: int)
    requires den > 0 && lo * den <= num <= hi * den
    ensures lo <= RoundQuotient(num, den) <= hi
  {
    var n := RoundQuotient(num, den);
    assert (2 * (n - lo) + 1) * den == 2 * (n * den - lo * den) + den;
    SignOfScaled(2 * (n - lo) + 1, den);
    assert (2 * (n - hi) - 1) * den == 2 * (n * den - hi * den) - den;
    SignOfScaled(2 * (n - hi) - 1, den);
  }

  /** Rounding a quotient is monotone in the numerator. */
  lemma {:induction false} RoundQuotientMonotone(smaller: int, larger: int, den: int)
    requires smaller <= larger && den > 0
    ensures RoundQuotient(smaller, den) <= RoundQuotient(larger, den)
  {
    var a, b := RoundQuotient(smaller, den), RoundQuotient(larger, den);
    assert (a - b - 1) * den == a * den - b * den - den;
    SignOfScaled(a - b - 1, den);
    assert a == b + 1 ==> a * den == b * den + den;
    assert a != b + 1;
  }

  /** An exact multiple of the denominator rounds to its quotient. */
  lemma {:induction false} RoundQuotientExact(k: int, den: int)
    requires den > 0
    ensures RoundQuotient(k * den, den) == k
  {
    RoundQuotientWithin(k * den, den, k, k);
  }

  /** The integer form agrees with `round` of the quotient taken as a real. */
  lemma {:induction false} RoundQuotientIsRound(num: int, den: int)
    requires den > 0
    ensures RoundQuotient(num, den) == RoundHalfEven(num as real / den as real)
  {
    var n := RoundQuotient(num, den);
    var d := den as real;
    var x := num as real / d;
    var k := 2 * (n * den - num);
    assert k as real == 2.0 * (n as real * d - num as real);
    QuotientDistance(n as real, num as real, d, k as real);
    RoundHalfEvenUnique(x, n);
  }

  lemma QuotientDistance(n: real, num: real, d: real, k: real)
    requires d > 0.0 && -d <= k <= d && k == 2.0 * (n * d - num)
    ensures n - 0.5 <= num / d <= n + 0.5
    ensures num / d == n - 0.5 ==> k == d
    ensures num / d == n + 0.5 ==> k == -d
  {
    var e := n - num / d;
    assert num / d * d == num;
    assert e * d == n * d - num;
    HalfAfterScaling(e, d);
  }

  lemma HalfAfterScaling(e: real, d: real)
    requires d > 0.0 && -d <= 2.0 * (e * d) <= d
    ensures -0.5 <= e <= 0.5
    ensures e == 0.5 ==> 2.0 * (e * d) == d
    ensures e == -0.5 ==> 2.0 * (e * d) == -d
  {
    PositiveProduct(e - 0.5, d);
    PositiveProduct(-0.5 - e, d);
  }

  lemma PositiveProduct(a: real, d: real)
    requires d > 0.0
    ensures a > 0.0 ==> a * d > 0.0
  {
  }
}
