/**
 * The value-level formulas of the `pfiltering` class: initial weights, the
 * effective sample size, the importance-weight updates of SIS and APF, the
 * weights left by `resample_from_index`, and the Kalman filter that APF uses
 * to characterise p(x_k | x_{k-1}).
 */
module PfAlgorithms {
  import opened Wrappers
  import opened Numeric
  import opened Matrices
  import opened Oracles
  import InitModel

  // ---------------------------------------------------------------- weights

  /** `np.ones((1, N)) / N`. */
  function UniformWeights(n: nat): (w: seq<real>)
    ensures |w| == n && NonNegative(w)
  {
    seq(n, i requires 0 <= i < n => 1.0 / n as real)
  }

  /** A fresh weight row sums to 1. */
  lemma UniformWeightsSum(n: nat)
    requires n > 0
    ensures Sum(UniformWeights(n)) == 1.0
  {
    SumConstant(UniformWeights(n), 1.0 / n as real);
  }

  /** `neff()`: the effective number of particles 1 / sum of the squared weights. */
  function Neff(w: seq<real>): real
    requires SumSq(w) != 0.0
  {
    1.0 / SumSq(w)
  }

  lemma SquareNonNegative(x: real)
    ensures x * x >= 0.0
  {
    if x < 0.0 {
      var y := -x;
      assert x * x == y * y;
    }
  }

  lemma {:induction false} SumSqNonNegative(w: seq<real>)
    ensures SumSq(w) >= 0.0
    decreases |w|
  {
    if |w| > 0 {
      SquareNonNegative(w[0]);
      SumSqNonNegative(w[1..]);
    }
  }

  /** For non-negative entries the sum of squares is at most the square of the sum. */
  lemma {:induction false} SumSqAtMostSquare(w: seq<real>)
    requires NonNegative(w)
    ensures SumSq(w) <= Sum(w) * Sum(w)
    decreases |w|
  {
    if |w| > 0 {
      var a, s := w[0], Sum(w[1..]);
      SumSqAtMostSquare(w[1..]);
      SumNonNegative(w[1..]);
      assert a * s >= 0.0;
      assert (a + s) * (a + s) == a * a + 2.0 * a * s + s * s;
    }
  }

  lemma NonNegativeProduct(x: real, n: real)
    requires n > 0.0 && n * x >= 0.0
    ensures x >= 0.0
  {
  }

  lemma PositiveFactor(x: real, n: real)
    requires n > 0.0 && n * x > 0.0
    ensures x > 0.0
  {
  }

  lemma ReciprocalBounds(q: real, n: real)
    requires 0.0 < q <= 1.0 && n * q >= 1.0
    ensures 1.0 <= 1.0 / q <= n
  {
    var r := 1.0 / q;
    assert r * q == 1.0;
  }

  /** Cauchy-Schwarz for the all-ones row: n * sum of squares >= square of the sum. */
  lemma {:induction false} SumSqAtLeastMeanSquare(w: seq<real>)
    ensures |w| as real * SumSq(w) >= Sum(w) * Sum(w)
    decreases |w|
  {
    if |w| > 0 {
      var a, s, q := w[0], Sum(w[1..]), SumSq(w[1..]);
      var n := (|w| - 1) as real;
      assert Sum(w) == a + s && SumSq(w) == a * a + q;
      SumSqAtLeastMeanSquare(w[1..]);
      SumSqNonNegative(w[1..]);
      if |w| == 1 {
        assert s == 0.0 && q == 0.0;
      } else {
        CauchySchwarzStep(n, a, s, q, |w| as real, Sum(w), SumSq(w));
      }
    }
  }

  /** The inductive step of Cauchy-Schwarz: adding one entry a to n entries with sum s and square sum q. */
  lemma CauchySchwarzStep(n: real, a: real, s: real, q: real, n1: real, s1: real, q1: real)
    requires n > 0.0 && n * q >= s * s
    requires n1 == n + 1.0 && s1 == a + s && q1 == a * a + q
    ensures n1 * q1 >= s1 * s1
  {
    var x := n * a * a + q - 2.0 * a * s;
    // n x = (n a - s)^2 + (n q - s^2) >= 0
    SquareNonNegative(n * a - s);
    assert n * x == (n * a - s) * (n * a - s) + (n * q - s * s);
    NonNegativeProduct(x, n);
    assert (n + 1.0) * (a * a + q) - (a + s) * (a + s) == x + (n * q - s * s);
  }

  /** For normalised non-negative weights, 1 <= neff <= N. */
  lemma NeffBounds(w: seq<real>)
    requires NonNegative(w) && Sum(w) == 1.0
    ensures SumSq(w) > 0.0 && 1.0 <= Neff(w) <= |w| as real
  {
    var q, n := SumSq(w), |w| as real;
    assert |w| > 0;
    SumSqAtMostSquare(w);
    SumSqAtLeastMeanSquare(w);
    PositiveFactor(q, n);
    ReciprocalBounds(q, n);
  }

  /** With uniform weights every particle counts: neff == N. */
  lemma NeffOfUniform(n: nat)
    requires n > 0
    ensures SumSq(UniformWeights(n)) > 0.0 && Neff(UniformWeights(n)) == n as real
  {
    var w := UniformWeights(n);
    var c := 1.0 / n as real;
    var squares := seq(n, i requires 0 <= i < n => c * w[i]);
    SumSqIsScaled(w, c);
    SumConstant(w, c);
    assert SumSq(w) == c * (n as real * c);
    assert n as real * c == 1.0;
  }

  /** The sum of squares of a constant row c. */
  lemma {:induction false} SumSqIsScaled(w: seq<real>, c: real)
    requires forall i :: 0 <= i < |w| ==> w[i] == c
    ensures SumSq(w) == c * Sum(w)
    decreases |w|
  {
    if |w| > 0 {
      SumSqIsScaled(w[1..], c);
    }
  }

  /**
   * The importance-weight update of SIS (and the first stage of APF): weight i
   * becomes w_i * L_i divided by the sum of all w_j * L_j.
   */
  function SisWeights(w: seq<real>, L: seq<real>): (r: seq<real>)
    requires |w| == |L| && Sum(Mul(w, L)) > 0.0
    ensures |r| == |w| && Sum(r) == 1.0
    ensures NonNegative(w) && NonNegative(L) ==> NonNegative(r)
  {
    var p := Mul(w, L);
    MulNonNegative(w, L);
    Normalize(p)
  }

  /**
   * Each updated weight is w_i * L_i over the total s; it is zero wherever L_i
   * is (the total is a parameter so that the products stay apart from the sum).
   */
  lemma SisWeightsProportional(w: seq<real>, L: seq<real>, s: real)
    requires |w| == |L| && s == Sum(Mul(w, L)) && s > 0.0
    ensures forall i :: 0 <= i < |w| ==> SisWeights(w, L)[i] * s == w[i] * L[i]
    ensures forall i :: 0 <= i < |w| && SisWeights(w, L)[i] != 0.0 ==> L[i] != 0.0
  {
    var p, r := Mul(w, L), SisWeights(w, L);
    assert r == Normalize(p) && Normalize(p) == DivAll(p, s);
    DivAllProportional(p, s);
  }

  /** Each updated weight is w_i * L_i divided by the total s. */
  lemma SisWeightsRatio(w: seq<real>, L: seq<real>, s: real)
    requires |w| == |L| && s == Sum(Mul(w, L)) && s > 0.0
    ensures forall i :: 0 <= i < |w| ==> SisWeights(w, L)[i] == w[i] * L[i] / s
  {
    assert SisWeights(w, L) == DivAll(Mul(w, L), s);
  }

  lemma DivAllProportional(p: seq<real>, s: real)
    requires s != 0.0
    ensures forall i :: 0 <= i < |p| ==> DivAll(p, s)[i] * s == p[i]
    ensures forall i :: 0 <= i < |p| && DivAll(p, s)[i] != 0.0 ==> p[i] != 0.0
  {
    forall i | 0 <= i < |p| ensures DivAll(p, s)[i] * s == p[i] {
      DivMulCancel(p[i], s);
    }
  }

  lemma MulNonNegative(w: seq<real>, L: seq<real>)
    requires |w| == |L|
    ensures NonNegative(w) && NonNegative(L) ==> NonNegative(Mul(w, L))
  {
    if NonNegative(w) && NonNegative(L) {
      forall i | 0 <= i < |w| ensures Mul(w, L)[i] >= 0.0 {
        ProductNonNegative(w[i], L[i]);
      }
    }
  }

  lemma DivMulCancel(p: real, s: real)
    requires s != 0.0
    ensures (p / s) * s == p
  {
  }

  lemma ProductNonNegative(a: real, b: real)
    requires a >= 0.0 && b >= 0.0
    ensures a * b >= 0.0
  {
  }

  lemma NonZeroProduct(c: real, s: real, t: real)
    requires c != 0.0 && s != 0.0 && t == c * s
    ensures t != 0.0
  {
  }

  lemma ScaledQuotient(c: real, x: real, s: real, y: real, t: real)
    requires c != 0.0 && s != 0.0 && y == c * x && t == c * s
    ensures t != 0.0 && y / t == x / s
  {
  }

  /** Scaling all prior weights by a positive constant leaves the updated weights unchanged. */
  lemma SisWeightsScaleFree(w: seq<real>, v: seq<real>, L: seq<real>, c: real)
    requires |w| == |v| == |L| && Sum(Mul(w, L)) > 0.0 && c > 0.0
    requires forall i :: 0 <= i < |w| ==> v[i] == c * w[i]
    ensures Sum(Mul(v, L)) > 0.0 && SisWeights(v, L) == SisWeights(w, L)
  {
    var p, q := Mul(w, L), Mul(v, L);
    MulScaled(w, v, L, c);
    NormalizeScaled(p, q, c);
  }

  lemma MulScaled(w: seq<real>, v: seq<real>, L: seq<real>, c: real)
    requires |w| == |v| == |L|
    requires forall i :: 0 <= i < |w| ==> v[i] == c * w[i]
    ensures forall i :: 0 <= i < |w| ==> Mul(v, L)[i] == c * Mul(w, L)[i]
  {
    forall i | 0 <= i < |w| ensures Mul(v, L)[i] == c * Mul(w, L)[i] {
      MulAssociative(c, w[i], L[i]);
    }
  }

  lemma PositiveProduct(c: real, s: real, t: real)
    requires c > 0.0 && s > 0.0 && t == c * s
    ensures t > 0.0
  {
  }

  lemma MulAssociative(c: real, x: real, y: real)
    ensures (c * x) * y == c * (x * y)
  {
  }

  /** Normalisation does not see a common positive factor. */
  lemma NormalizeScaled(p: seq<real>, q: seq<real>, c: real)
    requires |p| == |q| && Sum(p) > 0.0 && c > 0.0
    requires forall i :: 0 <= i < |q| ==> q[i] == c * p[i]
    ensures Sum(q) > 0.0 && Normalize(q) == Normalize(p)
  {
    var s, t := Sum(p), Sum(q);
    SumScaled(p, q, c);
    NormalizeScaledSums(p, q, c, s, t);
  }

  lemma NormalizeScaledSums(p: seq<real>, q: seq<real>, c: real, s: real, t: real)
    requires |p| == |q| && s == Sum(p) && t == Sum(q) && s > 0.0 && c > 0.0 && t == c * s
    requires forall i :: 0 <= i < |q| ==> q[i] == c * p[i]
    ensures t > 0.0 && Normalize(q) == Normalize(p)
  {
    PositiveProduct(c, s, t);
    DivAllScaled(p, q, c, s, t);
    assert Normalize(q) == DivAll(q, t) && Normalize(p) == DivAll(p, s);
  }

  lemma DivAllScaled(p: seq<real>, q: seq<real>, c: real, s: real, t: real)
    requires |p| == |q| && c != 0.0 && s != 0.0 && t == c * s
    requires forall i :: 0 <= i < |q| ==> q[i] == c * p[i]
    ensures t != 0.0 && DivAll(q, t) == DivAll(p, s)
  {
    NonZeroProduct(c, s, t);
    forall i | 0 <= i < |p| ensures DivAll(q, t)[i] == DivAll(p, s)[i] {
      ScaledQuotient(c, p[i], s, q[i], t);
    }
  }

  lemma Reciprocal(n: real)
    requires n != 0.0
    ensures n * (1.0 / n) == 1.0
  {
  }

  /** `len(self.w)`: the weights are a (1, N) array, so its length is its one row. */
  const WeightRows: nat := 1

  /** The weights `resample_from_index` leaves: every entry `1.0 / len(self.w)`. */
  function ResampledWeights(n: nat): (w: seq<real>)
    ensures |w| == n
  {
    seq(n, _ => 1.0 / WeightRows as real)
  }

  /**
   * After resampling every weight is 1.0, not 1/N: the row sums to N.  This is
   * harmless for the next update, which normalises: it gives the same weights
   * as a uniform row would.
   */
  lemma ResampledWeightsHarmless(n: nat, L: seq<real>)
    requires n > 0 && |L| == n && Sum(Mul(UniformWeights(n), L)) > 0.0
    ensures forall i :: 0 <= i < n ==> ResampledWeights(n)[i] == 1.0
    ensures Sum(ResampledWeights(n)) == n as real
    ensures Sum(Mul(ResampledWeights(n), L)) > 0.0 &&
      SisWeights(ResampledWeights(n), L) == SisWeights(UniformWeights(n), L)
  {
    var r, u := ResampledWeights(n), UniformWeights(n);
    SumConstant(r, 1.0);
    Reciprocal(n as real);
    SisWeightsScaleFree(u, r, L, n as real);
  }

  /**
   * The APF second-stage weights before normalisation: N where the first-stage
   * weight is exactly 0, else p(z_k | x_k^i) / p(z_k | u_k^i) at the same
   * position i.
   */
  function ApfSecondStage(w1: seq<real>, lxk: seq<real>, luk: seq<real>): (r: seq<real>)
    requires |w1| == |lxk| == |luk|
    requires forall i :: 0 <= i < |w1| && w1[i] != 0.0 ==> luk[i] != 0.0
    ensures |r| == |w1|
    ensures NonNegative(lxk) && NonNegative(luk) ==> NonNegative(r)
  {
    seq(|w1|, i requires 0 <= i < |w1| =>
      if w1[i] == 0.0 then |w1| as real else lxk[i] / luk[i])
  }

  /** If some first-stage weight is 0 the second-stage weights have a positive sum. */
  lemma ApfSecondStageSumPositive(w1: seq<real>, lxk: seq<real>, luk: seq<real>, i: nat)
    requires |w1| == |lxk| == |luk| && i < |w1| && w1[i] == 0.0
    requires forall i :: 0 <= i < |w1| && w1[i] != 0.0 ==> luk[i] != 0.0
    requires NonNegative(lxk) && NonNegative(luk)
    ensures Sum(ApfSecondStage(w1, lxk, luk)) > 0.0
  {
    var r := ApfSecondStage(w1, lxk, luk);
    SumBoundsEntry(r, i);
  }

  // ---------------------------------------------------------------- Kalman filter

  /** The transition matrix `kalman_filter` sets for a state of the given size. */
  function KalmanF(size: nat): (F: Matrix)
    requires 4 <= size <= 6
    ensures IsMatrix(F, size, size)
  {
    if size == 4 then
      [[1.0, 0.0, 1.0, 0.0],
       [0.0, 1.0, 0.0, 1.0],
       [0.0, 0.0, 1.0, 0.0],
       [0.0, 0.0, 0.0, 1.0]]
    else if size == 5 then
      [[1.0, 0.0, 1.0, 0.0, 0.0],
       [0.0, 1.0, 0.0, 1.0, 0.0],
       [0.0, 0.0, 1.0, 0.0, 0.0],
       [0.0, 0.0, 0.0, 1.0, 0.0],
       [0.0, 0.0, 0.0, 0.0, 1.0]]
    else
      [[1.0, 0.0, 1.0, 0.0, 0.0, 0.0],
       [0.0, 1.0, 0.0, 1.0, 0.0, 0.0],
       [0.0, 0.0, 1.0, 0.0, 0.0, 0.0],
       [0.0, 0.0, 0.0, 1.0, 0.0, 0.0],
       [0.0, 0.0, 0.0, 0.0, 1.0, 1.0],
       [0.0, 0.0, 0.0, 0.0, 0.0, 1.0]]
  }

  /** The number of measured components: `dim_z`. */
  function MeasurementSize(size: nat): nat
  {
    if size == 4 then size / 2 else if size == 5 then size / 2 + 1 else size / 2
  }

  /** The measurement function `kalman_filter` sets: it observes x, y and, beyond four variables, w. */
  function KalmanH(size: nat): (H: Matrix)
    requires 4 <= size <= 6
    ensures IsMatrix(H, MeasurementSize(size), size)
  {
    if size == 4 then
      [[1.0, 0.0, 0.0, 0.0],
       [0.0, 1.0, 0.0, 0.0]]
    else if size == 5 then
      [[1.0, 0.0, 0.0, 0.0, 0.0],
       [0.0, 1.0, 0.0, 0.0, 0.0],
       [0.0, 0.0, 0.0, 0.0, 1.0]]
    else
      [[1.0, 0.0, 0.0, 0.0, 0.0, 0.0],
       [0.0, 1.0, 0.0, 0.0, 0.0, 0.0],
       [0.0, 0.0, 0.0, 0.0, 1.0, 0.0]]
  }

  /** A Kalman filter as `kalman_filter` builds it, possibly after further steps. */
  predicate KalmanReady(kf: KalmanFilter)
  {
    KalmanShaped(kf) && 4 <= kf.dimX <= 6 && kf.dimZ == MeasurementSize(kf.dimX) &&
    kf.F == KalmanF(kf.dimX) && kf.H == KalmanH(kf.dimX)
  }

  /**
   * `kalman_filter(particles_0)`: a filter over the state size of x0, started
   * at x0, with identity covariances; other sizes leave `self.f` unset and
   * `self.f.P` raises AttributeError.
   */
  function KalmanInit(x0: seq<real>): (r: Result<KalmanFilter>)
    ensures r.Success? <==> 4 <= |x0| <= 6
    ensures r.Failure? ==> r.error == AttributeError("f")
    ensures r.Success? ==>
      KalmanReady(r.value) && r.value.dimX == |x0| && r.value.x == x0 &&
      r.value.dimZ == (if |x0| == 4 then 2 else 3) &&
      r.value.P == Identity(|x0|) && r.value.Q == Identity(|x0|) &&
      r.value.R == Identity(r.value.dimZ)
  {
    var size := |x0|;
    if 4 <= size <= 6 then
      var dimZ := MeasurementSize(size);
      Success(KalmanFilter(size, dimZ, KalmanF(size), KalmanH(size), x0,
                           Identity(size), Identity(size), Identity(dimZ)))
    else Failure(AttributeError("f"))
  }

  /** The Kalman filter's transition matrix is the motion model's (`createMovModel`) for that size. */
  lemma KalmanMatchesMotionModel(size: nat)
    requires 4 <= size <= 6
    ensures forall d, e :: 0 <= d < size && 0 <= e < size ==>
      KalmanF(size)[d][e] == InitModel.TransitionEntry(size, d, e)
  {
  }

  /**
   * The measurement z of `calc_uk_with_kf`: components 0 and 1 of the mean for
   * four variables, components 0, 1 and 4 for five or six; for any other size
   * `z` is never bound.
   */
  function Measurement(media: seq<real>, size: nat): (r: Result<seq<real>>)
    requires |media| == size
    ensures r.Success? <==> 4 <= size <= 6
    ensures r.Failure? ==> r.error == UnboundLocalError("z")
  {
    if size == 4 then Success([media[0], media[1]])
    else if size == 5 || size == 6 then Success([media[0], media[1], media[4]])
    else Failure(UnboundLocalError("z"))
  }

  /** The measurement is what the filter's measurement function H observes of the mean. */
  lemma MeasurementIsObserved(media: seq<real>, size: nat)
    requires 4 <= size <= 6 && |media| == size
    ensures Measurement(media, size) == Success(MatVec(KalmanH(size), media))
  {
    var H := KalmanH(size);
    var hm := MatVec(H, media);
    DotOneUnit(size, 0, H[0], media);
    DotOneUnit(size, 1, H[1], media);
    if size == 4 {
      assert hm == [media[0], media[1]];
    } else {
      DotOneUnit(size, 4, H[2], media);
      assert hm == [media[0], media[1], media[4]];
    }
  }

  /**
   * One u_k characterisation with an initialised filter: the mean of the
   * noise-free prediction is observed through H, the filter does one
   * predict+update with it, and N samples are drawn from the filter's
   * Gaussian N(x, P).
   */
  function UkStep(kf: KalmanFilter, particles: Matrix, n: nat, model: Model, lib: Library)
    : (r: (KalmanFilter, Matrix))
    requires KalmanReady(kf) && n > 0 && IsMatrix(particles, kf.dimX, n)
    requires ModelOk(model, kf.dimX, n) && LibraryOk(lib, n)
    ensures r.0 == lib.kalmanStep(kf, MatVec(kf.H, RowMeans(model.prediction(particles).1, n)))
    ensures KalmanReady(r.0) && r.0.dimX == kf.dimX
    ensures r.1 == lib.sampleGaussian(r.0.x, r.0.P, n) && IsMatrix(r.1, kf.dimX, n)
  {
    var media := RowMeans(model.prediction(particles).1, n);
    MeasurementIsObserved(media, kf.dimX);
    var z := Measurement(media, kf.dimX).value;
    var next := lib.kalmanStep(kf, z);
    (next, lib.sampleGaussian(next.x, next.P, n))
  }
}
