/**
 * The rounding operations the source applies to floating-point values,
 * stated over the reals: Python's int() (truncation toward zero),
 * numpy's ceil, round and clip.
 */
module Numeric {

  function Abs(r: real): (a: real)
    ensures a >= 0.0 && (a == r || a == -r)
  {
    if r < 0.0 then -r else r
  }

  function Min(a: real, b: real): (m: real)
    ensures m <= a && m <= b && (m == a || m == b)
  {
    if a <= b then a else b
  }

  function Max(a: real, b: real): (m: real)
    ensures m >= a && m >= b && (m == a || m == b)
  {
    if a >= b then a else b
  }

  /** The greatest integer not above r. */
  function Floor(r: real): (f: int)
    ensures f as real <= r < f as real + 1.0
  {
    r.Floor
  }

  /** numpy's ceil: the least integer not below r. */
  function Ceil(r: real): (c: int)
    ensures c as real - 1.0 < r <= c as real
  {
    -((-r).Floor)
  }

  /** Python's int() on a float: rounds toward zero. */
  function Trunc(r: real): (t: int)
    ensures r >= 0.0 ==> t == Floor(r)
    ensures r < 0.0 ==> t == -Floor(-r)
  {
    if r >= 0.0 then Floor(r) else -Floor(-r)
  }

  /** numpy's round, with ties rounded upward (numpy rounds ties to even). */
  function Round(r: real): (n: int)
    ensures r - 0.5 < n as real <= r + 0.5
  {
    Floor(r + 0.5)
  }

  /** numpy's clip to [lo, hi]. */
  function Clip(r: real, lo: real, hi: real): (c: real)
    requires lo <= hi
    ensures lo <= c <= hi
    ensures lo <= r <= hi ==> c == r
    ensures r < lo ==> c == lo
    ensures r > hi ==> c == hi
  {
    if r < lo then lo else if r > hi then hi else r
  }

  predicate IsInteger(r: real) {
    Floor(r) as real == r
  }

  /** Ceil and Floor meet on every real that is not an integer. */
  lemma CeilOfNonInteger(r: real)
    requires !IsInteger(r)
    ensures Ceil(r) == Floor(r) + 1
  {
  }

  /** An integer lies below r exactly when it lies below Ceil(r). */
  lemma BelowCeil(k: int, r: real)
    ensures (k as real < r) <==> k <= Ceil(r) - 1
  {
  }

  // Steps of real arithmetic the solver does not find on its own.

  /** x < r * b gives x / b < r for positive b. */
  lemma DivLess(x: real, r: real, b: real)
    requires b > 0.0 && x < r * b
    ensures x / b < r
  {
    assert x / b * b == x;
  }

  /** x / b < r gives x < r * b for positive b. */
  lemma MulLess(x: real, r: real, b: real)
    requires b > 0.0 && x / b < r
    ensures x < r * b
  {
    assert x == (x / b) * b;
  }

  /** Dividing by a positive b keeps order. */
  lemma DivMono(x: real, y: real, b: real)
    requires b > 0.0 && x <= y
    ensures x / b <= y / b
  {
    assert y / b - x / b == (y - x) / b;
  }

  /** r <= x / b gives r * b <= x for positive b. */
  lemma MulAtMost(x: real, r: real, b: real)
    requires b > 0.0 && r <= x / b
    ensures r * b <= x
  {
    assert x == (x / b) * b;
  }

  /** Multiplication distributes over a sum. */
  lemma Distribute(a: real, b: real, c: real)
    ensures (a + b) * c == a * c + b * c
  {
  }

  /** A value between f * w and (f + 1) * w exceeds f * w by less than w. */
  lemma Bracket(t: real, w: real, f: real)
    requires w > 0.0 && f * w <= t < (f + 1.0) * w
    ensures 0.0 <= t - f * w < w
  {
  }
}
