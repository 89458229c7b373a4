/**
 * Exact stand-ins for the few f64 and u16 operations the engine relies on:
 * the saturating `as u16` cast, `floor(sqrt(x))` and `saturating_sub`.
 */
module Numeric {

  const U16Max: nat := 65535

  /** Rust's `x as u16` for an f64: truncates toward zero and saturates at 0 and 65535. */
  function ToU16(x: real): (r: nat)
    ensures r <= U16Max
    ensures x <= 0.0 ==> r == 0
    ensures 0.0 <= x ==> r as real <= x
    ensures 0.0 <= x < (U16Max + 1) as real ==> x < (r + 1) as real
  {
    if x <= 0.0 then 0
    else if x.Floor > U16Max then U16Max
    else x.Floor
  }

  /** The integer square root: the largest r with r * r <= n. */
  function ISqrt(n: nat): (r: nat)
    ensures r * r <= n < (r + 1) * (r + 1)
    decreases n
  {
    if n == 0 then 0
    else
      var s := ISqrt(n - 1);
      if (s + 1) * (s + 1) <= n then s + 1 else s
  }

  lemma SquareMonotone(a: nat, b: nat)
    requires a <= b
    ensures a * a <= b * b
  {
    assert a * a <= a * b by { MulLeft(a, a, b); }
    assert a * b <= b * b by { MulLeft(b, a, b); }
  }

  lemma MulLeft(c: nat, a: nat, b: nat)
    requires a <= b
    ensures c * a <= c * b
  {
  }

  /** The bounds of ISqrt pin it down: any m with m*m <= n < (m+1)*(m+1) is ISqrt(n). */
  lemma ISqrtUnique(n: nat, m: nat)
    requires m * m <= n < (m + 1) * (m + 1)
    ensures ISqrt(n) == m
  {
    var r := ISqrt(n);
    if r < m {
      SquareMonotone(r + 1, m);
    } else if m < r {
      SquareMonotone(m + 1, r);
    }
  }

  /** ISqrt is monotone. */
  lemma ISqrtMonotone(a: nat, b: nat)
    requires a <= b
    ensures ISqrt(a) <= ISqrt(b)
  {
    var ra, rb := ISqrt(a), ISqrt(b);
    if rb < ra {
      SquareMonotone(rb + 1, ra);
    }
  }

  /** ISqrt never exceeds its argument. */
  lemma ISqrtAtMost(n: nat)
    ensures ISqrt(n) <= n
  {
    var r := ISqrt(n);
    if r > 0 {
      MulLeft(r, 1, r);
    }
  }

  /** `floor(sqrt(x))` for a non-negative real, characterised without a square root. */
  function FloorSqrt(x: real): (r: nat)
    requires x >= 0.0
    ensures (r * r) as real <= x < ((r + 1) * (r + 1)) as real
  {
    ISqrt(x.Floor)
  }

  /** `a.saturating_sub(b)` on unsigned integers. */
  function SaturatingSub(a: nat, b: nat): (r: nat)
    ensures r <= a
    ensures r == 0 <==> a <= b
    ensures r > 0 ==> r + b == a
  {
    if b >= a then 0 else a - b
  }

  /** Two saturating subtractions are one subtraction of the sum. */
  lemma SaturatingSubTwice(a: nat, b: nat, c: nat)
    ensures SaturatingSub(SaturatingSub(a, b), c) == SaturatingSub(a, b + c)
  {
  }

  /** For 0 <= r < 1 and a natural n, floor(n * r) lies in 0 .. n - 1 (or is 0 when n is 0). */
  lemma FloorOfFraction(n: nat, r: real)
    requires 0.0 <= r < 1.0
    ensures 0 <= (n as real * r).Floor
    ensures n > 0 ==> (n as real * r).Floor <= n - 1
    ensures n == 0 ==> (n as real * r).Floor == 0
  {
    var x := n as real * r;
    assert 0.0 <= x;
    if n > 0 {
      assert x < n as real by {
        assert n as real * (1.0 - r) > 0.0;
      }
    }
  }

  /** n/m <= p/q exactly when q*n <= p*m. */
  lemma RatioAtMost(n: nat, m: nat, p: nat, q: nat)
    requires m > 0 && q > 0
    ensures n as real / m as real <= p as real / q as real <==> q * n <= p * m
  {
    var x, c := n as real / m as real, p as real / q as real;
    var mq := (m * q) as real;
    ScaleCompare(x, c, mq);
    assert x * mq == (q * n) as real;
    assert c * mq == (p * m) as real;
  }

  lemma ScaleCompare(x: real, c: real, m: real)
    requires m > 0.0
    ensures x <= c <==> x * m <= c * m
  {
    if x <= c {
      assert (c - x) * m >= 0.0;
    } else {
      assert (x - c) * m > 0.0;
    }
  }
}
