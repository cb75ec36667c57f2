/** Facts about integer division by a positive divisor that the sample clock rests on. */
module Arithmetic {

  function Abs(x: int): nat { if x < 0 then -x else x }

  function Max(x: int, y: int): int { if x < y then y else x }

  function Min(x: int, y: int): int { if y < x then y else x }

  /** Division rounded up. */
  function CeilDiv(a: nat, b: int): nat
    requires b > 0
  {
    if a % b == 0 then a / b else a / b + 1
  }

  /** The quotient is the one integer whose multiple of b brackets a. */
  lemma QuotientUnique(a: int, b: int, q: int)
    requires b > 0
    requires q * b <= a < q * b + b
    ensures a / b == q
  {
    var d := a / b - q;
    assert a == a / b * b + a % b;
    assert d * b == a / b * b - q * b;
    assert d >= 1 ==> d * b >= b;
    assert d <= -1 ==> d * b <= -b;
  }

  lemma QuotientBounds(a: int, b: int)
    requires b > 0
    ensures a / b * b <= a < a / b * b + b
  {
    assert a == a / b * b + a % b;
  }

  /** Cancelling a positive factor. */
  lemma CancelFactor(x: int, y: int, b: int)
    requires b > 0 && x * b < y * b + b
    ensures x <= y
  {
    assert x >= y + 1 ==> x * b >= (y + 1) * b;
  }

  lemma QuotientMonotone(a: int, a': int, b: int)
    requires b > 0 && a <= a'
    ensures a / b <= a' / b
  {
    QuotientBounds(a, b);
    QuotientBounds(a', b);
    CancelFactor(a / b, a' / b, b);
  }

  /** Flooring two parts loses at most one compared with flooring the whole. */
  lemma QuotientSplit(a: int, a': int, b: int)
    requires b > 0
    ensures a / b + a' / b <= (a + a') / b <= a / b + a' / b + 1
  {
    QuotientBounds(a, b);
    QuotientBounds(a', b);
    QuotientBounds(a + a', b);
    SumBrackets(a, a', b, a / b, a' / b, (a + a') / b);
  }

  lemma SumBrackets(a: int, a': int, b: int, q: int, q': int, w: int)
    requires b > 0
    requires q * b <= a < q * b + b && q' * b <= a' < q' * b + b && w * b <= a + a' < w * b + b
    ensures q + q' <= w <= q + q' + 1
  {
    assert (q + q') * b == q * b + q' * b;
    CancelFactor(q + q', w, b);
    assert (q + q' + 1) * b == (q + q') * b + b;
    CancelFactor(w, q + q' + 1, b);
  }

  /** A whole number of divisors passes through the floor. */
  lemma QuotientShift(a: int, k: int, b: int)
    requires b > 0
    ensures (a + k * b) / b == a / b + k
  {
    QuotientBounds(a, b);
    assert (a / b + k) * b == a / b * b + k * b;
    QuotientUnique(a + k * b, b, a / b + k);
  }

  lemma CeilDivBounds(a: nat, b: int)
    requires b > 0
    ensures CeilDiv(a, b) * b >= a
    ensures CeilDiv(a, b) * b < a + b
  {
    QuotientBounds(a, b);
    assert a == a / b * b + a % b;
  }
}
