/** Java's numeric conversions as the layout engine uses them, in exact arithmetic.
    Floats become `real`, so IEEE rounding, overflow and NaN are outside this module. */
module JavaNumbers {

  /** A Java `(int)` cast of a float: truncation toward zero. */
  function Trunc(r: real): (t: int)
    ensures 0.0 <= r ==> 0 <= t && t as real <= r < t as real + 1.0
    ensures r < 0.0 ==> t <= 0 && t as real - 1.0 < r <= t as real
  {
    if r >= 0.0 then r.Floor else -((-r).Floor)
  }

  /** The least integer not below `r`. */
  function Ceil(r: real): (c: int)
    ensures c as real - 1.0 < r <= c as real
  {
    -((-r).Floor)
  }

  /** Java's `int / 2`: the quotient truncated toward zero, so the remainder takes the sign of `a`. */
  function Halve(a: int): (q: int)
    ensures 0 <= a ==> 0 <= a - 2 * q <= 1
    ensures a < 0 ==> -1 <= a - 2 * q <= 0
  {
    if a >= 0 then a / 2 else -((-a) / 2)
  }

  /** A cast leaves an integral value alone. */
  lemma TruncIntegral(k: int)
    ensures Trunc(k as real) == k
  {
  }

  /** Truncating `k - s` for an integer `k` at or above `s >= 0` removes exactly `Ceil(s)`. */
  lemma TruncBelowInteger(k: int, s: real)
    requires 0.0 <= s <= k as real
    ensures Trunc(k as real - s) == k - Ceil(s)
  {
    var t := Trunc(k as real - s);
    var c := Ceil(s);
    assert (k - t) as real - 1.0 < s <= (k - t) as real;
  }

  /** Truncating `k - s` for an integer `k` below `s >= 0` removes exactly `Floor(s)`. */
  lemma TruncAboveInteger(k: int, s: real)
    requires 0.0 <= s && k as real < s
    ensures Trunc(k as real - s) == k - s.Floor
  {
    var t := Trunc(k as real - s);
    assert t as real - 1.0 < k as real - s <= t as real;
    assert (k - t) as real <= s < (k - t) as real + 1.0;
  }
}
