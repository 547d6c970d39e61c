/**
 * Exact real arithmetic standing in for the NumPy operations the tracker uses:
 * sums over weight rows, elementwise products, normalisation, Python's `round`
 * and NumPy's `round`, `clip` and float-to-int casts.
 *
 * Python's `a // 2` on integers is floor division; for the positive divisor 2
 * it coincides with Dafny's `/`, so integer code below uses `/` directly.
 */
module Numeric {

  function Abs(x: real): real { if x < 0.0 then -x else x }

  function AbsInt(x: int): int { if x < 0 then -x else x }

  /** `np.sum` of a row. */
  function Sum(v: seq<real>): real
    decreases |v|
  {
    if |v| == 0 then 0.0 else v[0] + Sum(v[1..])
  }

  /** `np.square` followed by `np.sum`. */
  function SumSq(v: seq<real>): real
    decreases |v|
  {
    if |v| == 0 then 0.0 else v[0] * v[0] + SumSq(v[1..])
  }

  predicate NonNegative(v: seq<real>)
  {
    forall i :: 0 <= i < |v| ==> v[i] >= 0.0
  }

  /** Elementwise product `a * b` of two rows of the same length. */
  function Mul(a: seq<real>, b: seq<real>): (r: seq<real>)
    requires |a| == |b|
    ensures |r| == |a|
  {
    seq(|a|, i requires 0 <= i < |a| => a[i] * b[i])
  }

  /** A row divided elementwise by a non-zero scalar. */
  function DivAll(v: seq<real>, s: real): (r: seq<real>)
    requires s != 0.0
    ensures |r| == |v|
  {
    seq(|v|, i requires 0 <= i < |v| => v[i] / s)
  }

  /** `v /= np.sum(v)`; the source has no guard, so a zero sum is excluded. */
  function Normalize(v: seq<real>): (r: seq<real>)
    requires Sum(v) != 0.0
    ensures |r| == |v|
    ensures Sum(r) == 1.0
    ensures Sum(v) > 0.0 && NonNegative(v) ==> NonNegative(r)
  {
    SumDivAll(v, Sum(v));
    DivAll(v, Sum(v))
  }

  lemma {:induction false} SumDivAll(v: seq<real>, s: real)
    requires s != 0.0
    ensures Sum(DivAll(v, s)) == Sum(v) / s
    decreases |v|
  {
    if |v| > 0 {
      assert DivAll(v, s)[1..] == DivAll(v[1..], s);
      SumDivAll(v[1..], s);
    }
  }

  lemma {:induction false} SumAppend(a: seq<real>, b: seq<real>)
    ensures Sum(a + b) == Sum(a) + Sum(b)
    decreases |a|
  {
    if |a| > 0 {
      assert (a + b)[1..] == a[1..] + b;
      SumAppend(a[1..], b);
    } else {
      assert a + b == b;
    }
  }

  lemma {:induction false} SumNonNegative(v: seq<real>)
    requires NonNegative(v)
    ensures Sum(v) >= 0.0
    decreases |v|
  {
    if |v| > 0 {
      SumNonNegative(v[1..]);
    }
  }

  /** With non-negative entries the sum bounds every entry from above. */
  lemma {:induction false} SumBoundsEntry(v: seq<real>, k: nat)
    requires NonNegative(v) && k < |v|
    ensures v[k] <= Sum(v)
    decreases |v|
  {
    if k == 0 {
      SumNonNegative(v[1..]);
    } else {
      SumBoundsEntry(v[1..], k - 1);
    }
  }

  /** A non-negative row whose sum is zero is all zeros. */
  lemma SumZeroMeansAllZero(v: seq<real>)
    requires NonNegative(v) && Sum(v) == 0.0
    ensures forall k :: 0 <= k < |v| ==> v[k] == 0.0
  {
    forall k | 0 <= k < |v| ensures v[k] == 0.0 {
      SumBoundsEntry(v, k);
    }
  }

  /** A row holding the same value c everywhere sums to n * c. */
  lemma {:induction false} SumConstant(v: seq<real>, c: real)
    requires forall i :: 0 <= i < |v| ==> v[i] == c
    ensures Sum(v) == |v| as real * c
    decreases |v|
  {
    if |v| > 0 {
      SumConstant(v[1..], c);
    }
  }

  /** Sum of the entrywise scaled row. */
  lemma {:induction false} SumScaled(v: seq<real>, u: seq<real>, c: real)
    requires |u| == |v| && forall i :: 0 <= i < |v| ==> u[i] == c * v[i]
    ensures Sum(u) == c * Sum(v)
    decreases |v|
  {
    if |v| > 0 {
      SumScaled(v[1..], u[1..], c);
    }
  }

  /** Sum of an entrywise sum of two rows. */
  lemma {:induction false} SumPointwiseAdd(a: seq<real>, b: seq<real>, u: seq<real>)
    requires |a| == |b| == |u| && forall i :: 0 <= i < |u| ==> u[i] == a[i] + b[i]
    ensures Sum(u) == Sum(a) + Sum(b)
    decreases |u|
  {
    if |u| > 0 {
      SumPointwiseAdd(a[1..], b[1..], u[1..]);
    }
  }

  /** Summing rows that agree entrywise gives the same value (used with comprehensions). */
  lemma SumExtensional(a: seq<real>, b: seq<real>)
    requires |a| == |b| && forall i :: 0 <= i < |a| ==> a[i] == b[i]
    ensures Sum(a) == Sum(b)
  {
    assert a == b;
  }

  /** Entrywise-ordered rows have ordered sums. */
  lemma {:induction false} SumMonotone(a: seq<real>, b: seq<real>)
    requires |a| == |b| && forall i :: 0 <= i < |a| ==> a[i] <= b[i]
    ensures Sum(a) <= Sum(b)
    decreases |a|
  {
    if |a| > 0 {
      SumMonotone(a[1..], b[1..]);
    }
  }

  /** Python's `round` on the exact quotient num / den: nearest integer, ties to even. */
  function RoundHalfEven(num: int, den: int): (r: int)
    requires den > 0
    ensures 2 * AbsInt(den * r - num) <= den
    ensures 2 * AbsInt(den * r - num) == den ==> r % 2 == 0
  {
    var q, rem := num / den, num % den;
    assert num == den * q + rem && 0 <= rem < den;
    assert den * (q + 1) == den * q + den;
    if 2 * rem < den then q
    else if 2 * rem > den then q + 1
    else if q % 2 == 0 then q
    else q + 1
  }

  /** Nearest-with-ties-to-even determines the integer: RoundHalfEven is Python's `round`. */
  lemma RoundHalfEvenUnique(num: int, den: int, k: int)
    requires den > 0
    requires 2 * AbsInt(den * k - num) <= den
    requires 2 * AbsInt(den * k - num) == den ==> k % 2 == 0
    ensures k == RoundHalfEven(num, den)
  {
    NearestIsUnique(num, den, k, RoundHalfEven(num, den));
  }

  /** Two integers that are both nearest to num / den, with ties to even, coincide. */
  lemma NearestIsUnique(num: int, den: int, k: int, r: int)
    requires den > 0
    requires 2 * AbsInt(den * k - num) <= den
    requires 2 * AbsInt(den * k - num) == den ==> k % 2 == 0
    requires 2 * AbsInt(den * r - num) <= den
    requires 2 * AbsInt(den * r - num) == den ==> r % 2 == 0
    ensures k == r
  {
    Distribute(den, k, r);
    CloseMultiples(den, den * k - num, den * r - num, k - r);
  }

  lemma Distribute(den: int, k: int, r: int)
    ensures den * k - den * r == den * (k - r)
  {
  }

  /** Two offsets within den / 2 of zero that differ by den * d have |d| <= 1, and |d| = 1 only at ties. */
  lemma CloseMultiples(den: int, a: int, b: int, d: int)
    requires den > 0 && 2 * AbsInt(a) <= den && 2 * AbsInt(b) <= den
    requires a - b == den * d
    ensures -1 <= d <= 1
    ensures d != 0 ==> 2 * AbsInt(a) == den && 2 * AbsInt(b) == den
  {
    if d >= 2 {
      MulMonotone(den, 2, d);
    } else if d <= -2 {
      MulMonotone(den, 2, -d);
    } else if d == 1 {
      assert den * d == den;
    } else if d == -1 {
      assert den * d == -den;
    }
  }

  lemma MulMonotone(a: int, b: int, c: int)
    requires a > 0 && b <= c
    ensures a * b <= a * c
  {
  }

  /** NumPy's `round` on a float value: nearest integer, ties to even. */
  function RoundReal(x: real): (r: int)
    ensures 2.0 * Abs(r as real - x) <= 1.0
    ensures 2.0 * Abs(r as real - x) == 1.0 ==> r % 2 == 0
  {
    var f := x.Floor;
    var d := x - f as real;
    if 2.0 * d < 1.0 then f
    else if 2.0 * d > 1.0 then f + 1
    else if f % 2 == 0 then f
    else f + 1
  }

  /** Rounding a value that lies between two integers stays between them. */
  lemma RoundWithinIntegerBounds(x: real, lo: int, hi: int)
    requires lo as real <= x <= hi as real
    ensures lo <= RoundReal(x) <= hi
  {
    var r := RoundReal(x);
    assert r as real - x <= 0.5 && x - r as real <= 0.5;
  }

  /** `astype(int)` on a float: truncation toward zero. */
  function Trunc(x: real): (r: int)
    ensures x >= 0.0 ==> 0 <= r && r as real <= x < r as real + 1.0
    ensures x < 0.0 ==> r <= 0 && r as real - 1.0 < x <= r as real
  {
    if x >= 0.0 then x.Floor else -((-x).Floor)
  }

  /** `np.clip(x, lo, hi)`, which NumPy evaluates as `minimum(maximum(x, lo), hi)`. */
  function Clip(x: real, lo: real, hi: real): (r: real)
    ensures lo <= hi ==> lo <= r <= hi
    ensures lo <= x <= hi ==> r == x
    ensures hi < lo ==> r == hi
  {
    var m := if x < lo then lo else x;
    if m > hi then hi else m
  }
}
