/**
 * The particle-filter engine: the `pfiltering` object that owns the weight
 * row and runs one SIS, SIR, G_PF or APF cycle, and the `particlefilter`
 * object that dispatches on the configured algorithm, resampler and
 * estimator and keeps the last estimate.
 *
 * Each cycle is specified by a function from the previous weights and
 * estimate (and the oracles of this step) to a `Cycle`: what the call
 * returns or raises, the weights it leaves and the estimate it leaves.  The
 * methods are proved to produce exactly that; the lemmas below state what the
 * cycles promise.
 */
module Engine {
  import opened Wrappers
  import opened Numeric
  import opened Matrices
  import opened Oracles
  import opened Filter
  import opened PfAlgorithms

  /** The outcome of one filter cycle. */
  datatype Cycle = Cycle(result: Result<Matrix>, weights: seq<real>, estimation: Option<seq<real>>)

  /** With normalised weights a non-empty robust slice has a positive sum, so every estimator is defined. */
  lemma NormalisedEstimationDefined(output: string, nRobust: Option<int>, w: seq<real>)
    requires NonNegative(w) && Sum(w) == 1.0
    ensures EstimationDefined(output, nRobust, w)
  {
    if nRobust.Some? && SliceStop(nRobust.value, |w|) > 0 {
      RobustKeptPositive(w, nRobust.value);
    }
  }

  /** `pf.estimate(particles, self.w)` at the end of a cycle whose weights are final. */
  function Finish(output: string, nRobust: Option<int>, estimation: Option<seq<real>>,
                  xk: Matrix, n: nat, w: seq<real>): (c: Cycle)
    requires IsMatrix(xk, |xk|, n) && |w| == n && NonNegative(w) && Sum(w) == 1.0
  {
    NormalisedEstimationDefined(output, nRobust, w);
    var o := Estimation(output, nRobust, xk, n, w);
    Cycle(if o.raised.Some? then Failure(o.raised.value) else Success(xk), w, AfterEstimate(estimation, o))
  }

  /** The division of SIS by the sum of the products w_i * L_i is defined. */
  predicate SisDefined(w: seq<real>, particles: Matrix, model: Model)
  {
    var L := model.update(model.prediction(particles).0);
    |L| == |w| && Sum(Mul(w, L)) > 0.0
  }

  /** SIS: predict, weight by the likelihoods, normalise, estimate. */
  function SisCycle(w: seq<real>, estimation: Option<seq<real>>, output: string, nRobust: Option<int>,
                    particles: Matrix, n: nat, model: Model): Cycle
    requires |w| == n && NonNegative(w) && IsMatrix(particles, |particles|, n)
    requires ModelOk(model, |particles|, n) && SisDefined(w, particles, model)
  {
    var xk := model.prediction(particles).0;
    Finish(output, nRobust, estimation, xk, n, SisWeights(w, model.update(xk)))
  }

  /** `resample` and `resample_from_index` after a cycle that returned particles. */
  function ResampleCycle(c: Cycle, argResample: Option<string>, n: nat, lib: Library): Cycle
    requires c.result.Success? && IsMatrix(c.result.value, |c.result.value|, n) && |c.weights| == n
    requires LibraryOk(lib, n)
  {
    var idx := Resample(argResample, lib, c.weights);
    if idx.Failure? then Cycle(Failure(idx.error), c.weights, c.estimation)
    else Cycle(Success(GatherColumns(c.result.value, n, idx.value)), ResampledWeights(n), c.estimation)
  }

  /** SIR: SIS followed by resampling, always. */
  function SirCycle(w: seq<real>, estimation: Option<seq<real>>, output: string, nRobust: Option<int>,
                    argResample: Option<string>, particles: Matrix, n: nat, model: Model, lib: Library): Cycle
    requires |w| == n && NonNegative(w) && IsMatrix(particles, |particles|, n)
    requires ModelOk(model, |particles|, n) && LibraryOk(lib, n) && SisDefined(w, particles, model)
  {
    var c := SisCycle(w, estimation, output, nRobust, particles, n, model);
    if c.result.Failure? then c else ResampleCycle(c, argResample, n, lib)
  }

  /** `neff() < resamplePercent`: the cloud of normalised weights has degenerated. */
  predicate Degenerate(w: seq<real>, threshold: int)
    requires NonNegative(w) && Sum(w) == 1.0
  {
    NeffBounds(w);
    Neff(w) < threshold as real
  }

  /** G_PF: SIS, then resampling only when the cloud has degenerated. */
  function GpfCycle(w: seq<real>, estimation: Option<seq<real>>, output: string, nRobust: Option<int>,
                    argResample: Option<string>, threshold: int,
                    particles: Matrix, n: nat, model: Model, lib: Library): Cycle
    requires |w| == n && NonNegative(w) && IsMatrix(particles, |particles|, n)
    requires ModelOk(model, |particles|, n) && LibraryOk(lib, n) && SisDefined(w, particles, model)
  {
    var c := SisCycle(w, estimation, output, nRobust, particles, n, model);
    if c.result.Failure? then c
    else if Degenerate(c.weights, threshold) then ResampleCycle(c, argResample, n, lib)
    else c
  }

  /**
   * The divisions of APF after u_k are defined: the first-stage products
   * w_i * p(z_k | u_k^i) have a positive sum, and so do the second-stage
   * weights once resampling succeeds.
   */
  predicate ApfStagesDefined(w: seq<real>, luk: seq<real>, argResample: Option<string>,
                             particles: Matrix, n: nat, model: Model, lib: Library)
    requires |w| == n && |luk| == n && IsMatrix(particles, |particles|, n)
    requires ModelOk(model, |particles|, n) && LibraryOk(lib, n)
  {
    Sum(Mul(w, luk)) > 0.0 &&
    var s := Sum(Mul(w, luk));
    var w1 := SisWeights(w, luk);
    var idx := Resample(argResample, lib, w1);
    idx.Success? ==>
      var lxk := model.updateApf(model.prediction(GatherColumns(particles, n, idx.value)).0);
      SisWeightsProportional(w, luk, s);
      Sum(ApfSecondStage(w1, lxk, luk)) > 0.0
  }

  /**
   * APF after u_k, from its likelihoods luk: the first-stage weights w1, the
   * previous particles gathered by the indices resampled from w1 and
   * predicted, the second-stage weights normalised, estimate.
   */
  function ApfStages(w: seq<real>, luk: seq<real>, estimation: Option<seq<real>>, output: string,
                     nRobust: Option<int>, argResample: Option<string>,
                     particles: Matrix, n: nat, model: Model, lib: Library): Cycle
    requires |w| == n && |luk| == n && NonNegative(w) && NonNegative(luk) && IsMatrix(particles, |particles|, n)
    requires ModelOk(model, |particles|, n) && LibraryOk(lib, n)
    requires ApfStagesDefined(w, luk, argResample, particles, n, model, lib)
  {
    var s := Sum(Mul(w, luk));
    var w1 := SisWeights(w, luk);
    var idx := Resample(argResample, lib, w1);
    if idx.Failure? then Cycle(Failure(idx.error), w, estimation)
    else
      var xk := model.prediction(GatherColumns(particles, n, idx.value)).0;
      SisWeightsProportional(w, luk, s);
      ApfFinish(w1, model.updateApf(xk), luk, estimation, output, nRobust, xk, n)
  }

  /** The second stage of APF: the weights from the two likelihoods, normalised, then estimate. */
  function ApfFinish(w1: seq<real>, lxk: seq<real>, luk: seq<real>, estimation: Option<seq<real>>,
                     output: string, nRobust: Option<int>, xk: Matrix, n: nat): Cycle
    requires |w1| == |lxk| == |luk| == n && IsMatrix(xk, |xk|, n) && NonNegative(lxk) && NonNegative(luk)
    requires forall i :: 0 <= i < n && w1[i] != 0.0 ==> luk[i] != 0.0
    requires Sum(ApfSecondStage(w1, lxk, luk)) > 0.0
  {
    Finish(output, nRobust, estimation, xk, n, Normalize(ApfSecondStage(w1, lxk, luk)))
  }

  /** The likelihoods of the u_k that the Kalman filter kf gives. */
  function UkLikelihoods(kf: KalmanFilter, particles: Matrix, n: nat, model: Model, lib: Library): (luk: seq<real>)
    requires KalmanReady(kf) && n > 0 && IsMatrix(particles, kf.dimX, n)
    requires ModelOk(model, kf.dimX, n) && LibraryOk(lib, n)
    ensures |luk| == n && NonNegative(luk)
  {
    model.update(UkStep(kf, particles, n, model, lib).1)
  }

  /** The divisions of APF with the Kalman filter kf are defined. */
  predicate ApfDefined(kf: KalmanFilter, w: seq<real>, argResample: Option<string>,
                       particles: Matrix, n: nat, model: Model, lib: Library)
    requires KalmanReady(kf) && n > 0 && IsMatrix(particles, kf.dimX, n) && |w| == n
    requires ModelOk(model, kf.dimX, n) && LibraryOk(lib, n)
  {
    ApfStagesDefined(w, UkLikelihoods(kf, particles, n, model, lib), argResample, particles, n, model, lib)
  }

  /** APF once the Kalman filter kf is available: u_k from the filter, then the two stages. */
  function ApfCycle(kf: KalmanFilter, w: seq<real>, estimation: Option<seq<real>>, output: string,
                    nRobust: Option<int>, argResample: Option<string>,
                    particles: Matrix, n: nat, model: Model, lib: Library): Cycle
    requires KalmanReady(kf) && n > 0 && IsMatrix(particles, kf.dimX, n) && |w| == n && NonNegative(w)
    requires ModelOk(model, kf.dimX, n) && LibraryOk(lib, n)
    requires ApfDefined(kf, w, argResample, particles, n, model, lib)
  {
    ApfStages(w, UkLikelihoods(kf, particles, n, model, lib), estimation, output, nRobust, argResample,
              particles, n, model, lib)
  }

  // ---------------------------------------------------------------- what the cycles promise

  /**
   * The end of every cycle: the weights stay as they are, the call fails
   * exactly for MAP on a state that is not six long and for the robust mean
   * without N_robust, and otherwise returns the particles it was given.
   */
  lemma FinishOutcome(output: string, nRobust: Option<int>, estimation: Option<seq<real>>,
                      xk: Matrix, n: nat, w: seq<real>)
    requires IsMatrix(xk, |xk|, n) && |w| == n && NonNegative(w) && Sum(w) == 1.0
    ensures var c := Finish(output, nRobust, estimation, xk, n, w);
      c.weights == w &&
      (c.result.Failure? <==> (output == "MAP" && |xk| != 6) || (output == "robust_mean" && nRobust.None?)) &&
      (c.result.Success? ==> c.result.value == xk) &&
      (output == "weighted_mean" ==> c.estimation == Some(WeightedMean(xk, n, w))) &&
      (output == "robust_mean" && nRobust.Some? && SliceStop(nRobust.value, n) > 0 ==>
         Sum(RobustKept(w, nRobust.value)) > 0.0) &&
      (output == "robust_mean" && nRobust.Some? ==> c.estimation == Some(RobustMean(xk, n, w, nRobust.value))) &&
      (output == "robust_mean" && nRobust.Some? && SliceStop(nRobust.value, n) == 0 ==>
         c.estimation == Some(seq(|xk|, _ => 0.0))) &&
      (output != "weighted_mean" && output != "MAP" && output != "robust_mean" ==> c.estimation == estimation)
  {
    assert |w| > 0;
    NormalisedEstimationDefined(output, nRobust, w);
    EstimationOutcomes(output, nRobust, xk, n, w);
    if output == "robust_mean" && nRobust.Some? && SliceStop(nRobust.value, n) > 0 {
      RobustKeptPositive(w, nRobust.value);
    }
  }

  /**
   * A robust percentage that rounds to no particle (0 <= percent * N < 50,
   * as the default of 20 percent does for N <= 2) leaves the robust slice
   * empty: the robust-mean cycle still succeeds, its estimate the zero vector.
   */
  lemma EmptyRobustSliceEstimatesZero(percent: int, estimation: Option<seq<real>>, xk: Matrix, n: nat, w: seq<real>)
    requires IsMatrix(xk, |xk|, n) && |w| == n && NonNegative(w) && Sum(w) == 1.0
    requires 0 <= percent * n < 50
    ensures ThresholdFromPercent(percent, n) == 0
    ensures var c := Finish("robust_mean", Some(ThresholdFromPercent(percent, n)), estimation, xk, n, w);
      c.result == Success(xk) && c.estimation == Some(seq(|xk|, _ => 0.0))
  {
    var k := ThresholdFromPercent(percent, n);
    FinishOutcome("robust_mean", Some(k), estimation, xk, n, w);
  }

  /**
   * SIS leaves normalised weights proportional to w_i * L_i, with the total
   * s of those products as the factor, and returns the predicted particles
   * without resampling.
   */
  lemma SisCycleWeights(w: seq<real>, estimation: Option<seq<real>>, output: string, nRobust: Option<int>,
                        particles: Matrix, n: nat, model: Model, s: real)
    requires |w| == n && NonNegative(w) && IsMatrix(particles, |particles|, n)
    requires ModelOk(model, |particles|, n) && SisDefined(w, particles, model)
    requires s == Sum(Mul(w, model.update(model.prediction(particles).0)))
    ensures var c := SisCycle(w, estimation, output, nRobust, particles, n, model);
      var xk := model.prediction(particles).0;
      var L := model.update(xk);
      |c.weights| == n && NonNegative(c.weights) && Sum(c.weights) == 1.0 &&
      (forall i :: 0 <= i < n ==> c.weights[i] * s == w[i] * L[i]) &&
      (c.result.Success? ==> c.result.value == xk)
  {
    var xk := model.prediction(particles).0;
    var L := model.update(xk);
    SisWeightsProportional(w, L, s);
    FinishKeepsWeights(output, nRobust, estimation, xk, n, SisWeights(w, L));
  }

  /**
   * SIR resamples whenever SIS returned particles: with a known resampler the
   * result's column j is column idx[j] of the SIS particles and every weight
   * is 1.0; without `arg_resample` the call raises AttributeError.
   */
  lemma SirCycleResamples(w: seq<real>, estimation: Option<seq<real>>, output: string, nRobust: Option<int>,
                          argResample: Option<string>, particles: Matrix, n: nat, model: Model, lib: Library)
    requires |w| == n && NonNegative(w) && IsMatrix(particles, |particles|, n)
    requires ModelOk(model, |particles|, n) && LibraryOk(lib, n) && SisDefined(w, particles, model)
    ensures var sis := SisCycle(w, estimation, output, nRobust, particles, n, model);
      var c := SirCycle(w, estimation, output, nRobust, argResample, particles, n, model, lib);
      c.estimation == sis.estimation &&
      (sis.result.Failure? ==> c == sis) &&
      (sis.result.Success? && argResample.None? ==>
         c.result == Failure(AttributeError("arg_resample")) && c.weights == sis.weights) &&
      (sis.result.Success? && argResample.Some? && argResample.value in ResamplerNames ==>
         var idx := Resampler(lib, argResample.value)(sis.weights);
         c.result.Success? && IsMatrix(c.result.value, |particles|, n) &&
         (forall i :: 0 <= i < n ==> c.weights[i] == 1.0) &&
         (forall d, j :: 0 <= d < |particles| && 0 <= j < n ==>
            c.result.value[d][j] == sis.result.value[d][idx[j]]))
  {
    var sis := SisCycle(w, estimation, output, nRobust, particles, n, model);
    var xk := model.prediction(particles).0;
    FinishKeepsWeights(output, nRobust, estimation, xk, n, SisWeights(w, model.update(xk)));
    if sis.result.Success? && argResample.Some? && argResample.value in ResamplerNames {
      var idx := Resampler(lib, argResample.value)(sis.weights);
      assert Resample(argResample, lib, sis.weights) == Success(idx);
      forall d, j | 0 <= d < |particles| && 0 <= j < n
        ensures GatherColumns(xk, n, idx)[d][j] == xk[d][idx[j]]
      {
        GatherColumnsAt(xk, n, idx, d, j);
      }
    }
  }

  /** With a threshold of at most 1 G_PF never resamples, since neff >= 1: it is SIS. */
  lemma GpfWithLowThresholdIsSis(w: seq<real>, estimation: Option<seq<real>>, output: string,
                                 nRobust: Option<int>, argResample: Option<string>, threshold: int,
                                 particles: Matrix, n: nat, model: Model, lib: Library)
    requires |w| == n && NonNegative(w) && IsMatrix(particles, |particles|, n)
    requires ModelOk(model, |particles|, n) && LibraryOk(lib, n) && SisDefined(w, particles, model)
    requires threshold <= 1
    ensures GpfCycle(w, estimation, output, nRobust, argResample, threshold, particles, n, model, lib) ==
      SisCycle(w, estimation, output, nRobust, particles, n, model)
  {
    var c := SisCycle(w, estimation, output, nRobust, particles, n, model);
    NeffBounds(c.weights);
  }

  /** With a threshold above N G_PF always resamples, since neff <= N: it is SIR. */
  lemma GpfWithHighThresholdIsSir(w: seq<real>, estimation: Option<seq<real>>, output: string,
                                  nRobust: Option<int>, argResample: Option<string>, threshold: int,
                                  particles: Matrix, n: nat, model: Model, lib: Library)
    requires |w| == n && NonNegative(w) && IsMatrix(particles, |particles|, n)
    requires ModelOk(model, |particles|, n) && LibraryOk(lib, n) && SisDefined(w, particles, model)
    requires threshold > n
    ensures GpfCycle(w, estimation, output, nRobust, argResample, threshold, particles, n, model, lib) ==
      SirCycle(w, estimation, output, nRobust, argResample, particles, n, model, lib)
  {
    var c := SisCycle(w, estimation, output, nRobust, particles, n, model);
    NeffBounds(c.weights);
  }

  /** The end of a cycle keeps its weights and returns, if anything, the particles it was given. */
  lemma FinishKeepsWeights(output: string, nRobust: Option<int>, estimation: Option<seq<real>>,
                           xk: Matrix, n: nat, w: seq<real>)
    requires IsMatrix(xk, |xk|, n) && |w| == n && NonNegative(w) && Sum(w) == 1.0
    ensures var c := Finish(output, nRobust, estimation, xk, n, w);
      c.weights == w && (c.result.Success? ==> c.result.value == xk)
  {
  }

  /**
   * APF after u_k: the first-stage weight w1_i is w_i * p(z_k | u_k^i) over
   * their total s.  If resampling from w1 fails the weights and the estimate
   * stay as they were.  Otherwise the result is the prediction of the
   * gathered previous particles, and the final weights are normalised:
   * weight i is N where w1_i is 0 and the likelihood ratio at the same
   * position i elsewhere, over the total t of those values.
   */
  lemma ApfStagesWeights(w: seq<real>, luk: seq<real>, estimation: Option<seq<real>>, output: string,
                         nRobust: Option<int>, argResample: Option<string>,
                         particles: Matrix, n: nat, model: Model, lib: Library)
    requires |w| == n && |luk| == n && NonNegative(w) && NonNegative(luk) && IsMatrix(particles, |particles|, n)
    requires ModelOk(model, |particles|, n) && LibraryOk(lib, n)
    requires ApfStagesDefined(w, luk, argResample, particles, n, model, lib)
    ensures var s := Sum(Mul(w, luk));
      var w1 := SisWeights(w, luk);
      var idx := Resample(argResample, lib, w1);
      var c := ApfStages(w, luk, estimation, output, nRobust, argResample, particles, n, model, lib);
      (forall i :: 0 <= i < n ==> w1[i] == w[i] * luk[i] / s) &&
      (idx.Failure? ==> c == Cycle(Failure(idx.error), w, estimation)) &&
      (idx.Success? ==>
         var xk := model.prediction(GatherColumns(particles, n, idx.value)).0;
         var lxk := model.updateApf(xk);
         SisWeightsProportional(w, luk, s);
         var t := Sum(ApfSecondStage(w1, lxk, luk));
         |c.weights| == n && NonNegative(c.weights) && Sum(c.weights) == 1.0 &&
         (forall i :: 0 <= i < n ==>
            c.weights[i] == (if w1[i] == 0.0 then n as real else lxk[i] / luk[i]) / t) &&
         (c.result.Success? ==> c.result.value == xk))
  {
    var s := Sum(Mul(w, luk));
    var w1 := SisWeights(w, luk);
    SisWeightsProportional(w, luk, s);
    SisWeightsRatio(w, luk, s);
    var idx := Resample(argResample, lib, w1);
    ApfStagesUnfold(w, luk, estimation, output, nRobust, argResample, particles, n, model, lib);
    if idx.Success? {
      var xk := model.prediction(GatherColumns(particles, n, idx.value)).0;
      ApfFinishWeights(w1, model.updateApf(xk), luk, estimation, output, nRobust, xk, n);
    }
  }

  /**
   * The two stages fail as resampling from w1 fails, and otherwise are the
   * second stage on the predicted particles.
   */
  lemma ApfStagesUnfold(w: seq<real>, luk: seq<real>, estimation: Option<seq<real>>, output: string,
                        nRobust: Option<int>, argResample: Option<string>,
                        particles: Matrix, n: nat, model: Model, lib: Library)
    requires |w| == n && |luk| == n && NonNegative(w) && NonNegative(luk) && IsMatrix(particles, |particles|, n)
    requires ModelOk(model, |particles|, n) && LibraryOk(lib, n)
    requires ApfStagesDefined(w, luk, argResample, particles, n, model, lib)
    ensures var w1 := SisWeights(w, luk);
      var idx := Resample(argResample, lib, w1);
      (idx.Failure? ==>
         ApfStages(w, luk, estimation, output, nRobust, argResample, particles, n, model, lib) ==
           Cycle(Failure(idx.error), w, estimation)) &&
      (idx.Success? ==>
         var xk := model.prediction(GatherColumns(particles, n, idx.value)).0;
         SisWeightsProportional(w, luk, Sum(Mul(w, luk)));
         ApfStages(w, luk, estimation, output, nRobust, argResample, particles, n, model, lib) ==
           ApfFinish(w1, model.updateApf(xk), luk, estimation, output, nRobust, xk, n))
  {
  }

  /**
   * The second stage of APF leaves normalised weights, weight i being N where
   * w1_i is 0 and the likelihood ratio elsewhere, over the total t of those
   * values, and returns, if anything, the predicted particles.
   */
  lemma ApfFinishWeights(w1: seq<real>, lxk: seq<real>, luk: seq<real>, estimation: Option<seq<real>>,
                         output: string, nRobust: Option<int>, xk: Matrix, n: nat)
    requires |w1| == |lxk| == |luk| == n && IsMatrix(xk, |xk|, n) && NonNegative(lxk) && NonNegative(luk)
    requires forall i :: 0 <= i < n && w1[i] != 0.0 ==> luk[i] != 0.0
    requires Sum(ApfSecondStage(w1, lxk, luk)) > 0.0
    ensures var c := ApfFinish(w1, lxk, luk, estimation, output, nRobust, xk, n);
      var t := Sum(ApfSecondStage(w1, lxk, luk));
      |c.weights| == n && NonNegative(c.weights) && Sum(c.weights) == 1.0 &&
      (forall i :: 0 <= i < n ==> c.weights[i] == (if w1[i] == 0.0 then n as real else lxk[i] / luk[i]) / t) &&
      (c.result.Success? ==> c.result.value == xk)
  {
    var second := ApfSecondStage(w1, lxk, luk);
    assert Normalize(second) == DivAll(second, Sum(second));
    FinishKeepsWeights(output, nRobust, estimation, xk, n, Normalize(second));
  }

  // ---------------------------------------------------------------- pfiltering

  /** The `pfiltering` object: the weight row, the Kalman-initialised flag and the Kalman filter. */
  class PFiltering {
    const N: nat
    var w: seq<real>
    /** 0 until the Kalman filter of APF has been built, then 1. */
    var i: int
    /** `self.size`, set by `kalman_filter`; read only once i == 1. */
    var size: nat
    /** `self.f`; absent until `kalman_filter` builds it. */
    var f: Option<KalmanFilter>

    ghost predicate Valid()
      reads this
    {
      |w| == N && NonNegative(w) && (i == 0 || i == 1) &&
      (i == 1 ==> N > 0 && f.Some? && KalmanReady(f.value) && f.value.dimX == size)
    }

    constructor(n: nat)
      ensures N == n && w == UniformWeights(n) && i == 0 && f.None?
      ensures Valid()
    {
      N := n;
      w := UniformWeights(n);
      i := 0;
      size := 0;
      f := None;
    }

    /**
     * The filter `calc_uk_with_kf` steps: the stored one, or on the first
     * call the one `kalman_filter` builds from the first particle column.
     */
    function KalmanForStep(particles: Matrix): (r: Result<KalmanFilter>)
      reads this
      requires Valid() && IsMatrix(particles, |particles|, N) && (i == 1 ==> |particles| == size)
      ensures r.Success? ==> KalmanReady(r.value) && r.value.dimX == |particles| && N > 0
      ensures i == 1 ==> r == Success(f.value)
      ensures i == 0 && N == 0 ==> r.Failure? && r.error.IndexError?
      ensures i == 0 && N > 0 ==> r == KalmanInit(Column(particles, 0))
    {
      if i == 1 then Success(f.value)
      else if N == 0 then Failure(IndexError("index 0 is out of bounds for axis 1 with size 0"))
      else KalmanInit(Column(particles, 0))
    }

    /** `resample_from_index`: gather the particle columns, then reset every weight to 1.0 / len(self.w). */
    method ResampleFromIndex(particles: Matrix, indexes: seq<nat>) returns (r: Matrix)
      requires Valid() && IsMatrix(particles, |particles|, N)
      requires |indexes| == N && IndicesBelow(indexes, N)
      modifies this`w
      ensures Valid()
      ensures IsMatrix(r, |particles|, N)
      ensures forall d, j :: 0 <= d < |particles| && 0 <= j < N ==> r[d][j] == particles[d][indexes[j]]
      ensures r == GatherColumns(particles, N, indexes)
      ensures w == ResampledWeights(N)
    {
      r := GatherColumns(particles, N, indexes);
      w := Gather(w, indexes);
      w := ResampledWeights(N);
    }

    /**
     * `calc_uk_with_kf`: on the first call build the Kalman filter and set the
     * flag, then observe the mean of the noise-free prediction, step the
     * filter and draw N samples from it.
     */
    method CalcUkWithKf(particles: Matrix, model: Model, lib: Library) returns (r: Result<Matrix>)
      requires Valid() && IsMatrix(particles, |particles|, N) && (i == 1 ==> |particles| == size)
      requires ModelOk(model, |particles|, N) && LibraryOk(lib, N)
      modifies this`i, this`size, this`f
      ensures Valid()
      ensures var k0 := old(KalmanForStep(particles));
        (k0.Failure? ==> r == Failure(k0.error) && i == old(i) && f == old(f)) &&
        (k0.Success? ==>
          var step := UkStep(k0.value, particles, N, model, lib);
          r == Success(step.1) && i == 1 && f == Some(step.0))
      ensures size == if old(i) == 0 && N > 0 then |particles| else old(size)
    {
      if i == 0 {
        if N == 0 {
          return Failure(IndexError("index 0 is out of bounds for axis 1 with size 0"));
        }
        size := |particles|;
        var started := KalmanInit(Column(particles, 0));
        if started.Failure? {
          return Failure(started.error);
        }
        f := Some(started.value);
        i := 1;
      }
      var kf := f.value;
      var muk := model.prediction(particles).1;
      var media := RowMeans(muk, N);
      MeasurementIsObserved(media, size);
      var z := Measurement(media, size).value;
      var next := lib.kalmanStep(kf, z);
      f := Some(next);
      r := Success(lib.sampleGaussian(next.x, next.P, N));
    }

    /** SIS. */
    method SIS(pf: ParticleFilter, particles: Matrix, model: Model) returns (r: Result<Matrix>)
      requires Valid() && IsMatrix(particles, |particles|, N) && ModelOk(model, |particles|, N)
      requires SisDefined(w, particles, model)
      modifies this`w, pf`estimation
      ensures Valid()
      ensures Cycle(r, w, pf.estimation) ==
        SisCycle(old(w), old(pf.estimation), pf.argOutput, pf.nRobust, particles, N, model)
    {
      var xk := model.prediction(particles).0;
      var likelihood := model.update(xk);
      var products := Mul(w, likelihood);
      MulNonNegative(w, likelihood);
      w := products;
      w := Normalize(w);
      NormalisedEstimationDefined(pf.argOutput, pf.nRobust, w);
      var raised := pf.Estimate(xk, w);
      r := if raised.Some? then Failure(raised.value) else Success(xk);
    }

    /** SIR: SIS, then resampling from the new weights. */
    method SIR(pf: ParticleFilter, particles: Matrix, model: Model, lib: Library) returns (r: Result<Matrix>)
      requires Valid() && IsMatrix(particles, |particles|, N)
      requires ModelOk(model, |particles|, N) && LibraryOk(lib, N)
      requires SisDefined(w, particles, model)
      modifies this`w, pf`estimation
      ensures Valid()
      ensures Cycle(r, w, pf.estimation) ==
        SirCycle(old(w), old(pf.estimation), pf.argOutput, pf.nRobust, pf.argResample, particles, N, model, lib)
    {
      r := SIS(pf, particles, model);
      if r.Failure? {
        return;
      }
      var xk := r.value;
      var indexes := Resample(pf.argResample, lib, w);
      if indexes.Failure? {
        return Failure(indexes.error);
      }
      var moved := ResampleFromIndex(xk, indexes.value);
      r := Success(moved);
    }

    /** G_PF: SIS, then resampling only if neff() falls below the threshold. */
    method GPF(pf: ParticleFilter, particles: Matrix, resamplePercent: int, model: Model, lib: Library)
      returns (r: Result<Matrix>)
      requires Valid() && IsMatrix(particles, |particles|, N)
      requires ModelOk(model, |particles|, N) && LibraryOk(lib, N)
      requires SisDefined(w, particles, model)
      modifies this`w, pf`estimation
      ensures Valid()
      ensures Cycle(r, w, pf.estimation) ==
        GpfCycle(old(w), old(pf.estimation), pf.argOutput, pf.nRobust, pf.argResample, resamplePercent,
                 particles, N, model, lib)
    {
      r := SIS(pf, particles, model);
      if r.Failure? {
        return;
      }
      var xk := r.value;
      NeffBounds(w);
      if Neff(w) < resamplePercent as real {
        var indexes := Resample(pf.argResample, lib, w);
        if indexes.Failure? {
          return Failure(indexes.error);
        }
        var moved := ResampleFromIndex(xk, indexes.value);
        r := Success(moved);
      }
    }

    /**
     * The loop of APF: weight k becomes N where the first-stage weight is
     * exactly 0, else the ratio of the two likelihoods at position k.
     */
    method SecondStageWeights(w1: seq<real>, lxk: seq<real>, luk: seq<real>)
      requires |w| == N && |w1| == |lxk| == |luk| == N
      requires forall k :: 0 <= k < N && w1[k] != 0.0 ==> luk[k] != 0.0
      modifies this`w
      ensures w == ApfSecondStage(w1, lxk, luk)
    {
      ghost var second := ApfSecondStage(w1, lxk, luk);
      var k := 0;
      while k < N
        invariant 0 <= k <= N && |w| == N
        invariant forall j :: 0 <= j < k ==> w[j] == second[j]
      {
        if w1[k] == 0.0 {
          w := w[k := N as real];
        } else {
          w := w[k := lxk[k] / luk[k]];
        }
        k := k + 1;
      }
    }

    /**
     * APF.  The second-stage loop writes weight k from the first-stage weight
     * and the two likelihoods at the same position k.
     */
    method APF(pf: ParticleFilter, particles: Matrix, model: Model, lib: Library) returns (r: Result<Matrix>)
      requires Valid() && IsMatrix(particles, |particles|, N) && (i == 1 ==> |particles| == size)
      requires ModelOk(model, |particles|, N) && LibraryOk(lib, N)
      requires var k0 := KalmanForStep(particles);
        k0.Success? ==> ApfDefined(k0.value, w, pf.argResample, particles, N, model, lib)
      modifies this`w, this`i, this`size, this`f, pf`estimation
      ensures Valid()
      ensures var k0 := old(KalmanForStep(particles));
        (k0.Failure? ==>
          r == Failure(k0.error) && w == old(w) && pf.estimation == old(pf.estimation) &&
          i == old(i) && f == old(f)) &&
        (k0.Success? ==>
          Cycle(r, w, pf.estimation) ==
            ApfCycle(k0.value, old(w), old(pf.estimation), pf.argOutput, pf.nRobust, pf.argResample,
                     particles, N, model, lib) &&
          i == 1 && f == Some(UkStep(k0.value, particles, N, model, lib).0))
      ensures size == if old(i) == 0 && N > 0 then |particles| else old(size)
    {
      ghost var k0 := KalmanForStep(particles);
      r := CalcUkWithKf(particles, model, lib);
      if r.Failure? {
        return;
      }
      var uk := r.value;
      var likelihoodUk := model.update(uk);
      r := ApfStagesFrom(pf, particles, likelihoodUk, model, lib);
    }

    /** APF after u_k: the two weighting stages, resampling, prediction and the estimate. */
    method ApfStagesFrom(pf: ParticleFilter, particles: Matrix, likelihoodUk: seq<real>, model: Model, lib: Library)
      returns (r: Result<Matrix>)
      requires Valid() && IsMatrix(particles, |particles|, N) && |likelihoodUk| == N && NonNegative(likelihoodUk)
      requires ModelOk(model, |particles|, N) && LibraryOk(lib, N)
      requires ApfStagesDefined(w, likelihoodUk, pf.argResample, particles, N, model, lib)
      modifies this`w, pf`estimation
      ensures Valid()
      ensures Cycle(r, w, pf.estimation) ==
        ApfStages(old(w), likelihoodUk, old(pf.estimation), pf.argOutput, pf.nRobust, pf.argResample,
                  particles, N, model, lib)
    {
      ghost var s := Sum(Mul(w, likelihoodUk));
      var w1 := Mul(w, likelihoodUk);
      w1 := Normalize(w1);
      assert w1 == SisWeights(w, likelihoodUk);
      SisWeightsProportional(w, likelihoodUk, s);
      var indexes := Resample(pf.argResample, lib, w1);
      if indexes.Failure? {
        return Failure(indexes.error);
      }
      var moved := GatherColumns(particles, N, indexes.value);
      var xk := model.prediction(moved).0;
      var likelihoodXk := model.updateApf(xk);
      r := ApfSecondStageFrom(pf, w1, likelihoodXk, likelihoodUk, xk);
    }

    /** The second stage of APF: the loop over the particles, the normalisation and the estimate. */
    method ApfSecondStageFrom(pf: ParticleFilter, w1: seq<real>, likelihoodXk: seq<real>, likelihoodUk: seq<real>,
                              xk: Matrix) returns (r: Result<Matrix>)
      requires Valid() && |w1| == |likelihoodXk| == |likelihoodUk| == N && IsMatrix(xk, |xk|, N)
      requires NonNegative(likelihoodXk) && NonNegative(likelihoodUk)
      requires forall k :: 0 <= k < N && w1[k] != 0.0 ==> likelihoodUk[k] != 0.0
      requires Sum(ApfSecondStage(w1, likelihoodXk, likelihoodUk)) > 0.0
      modifies this`w, pf`estimation
      ensures Valid()
      ensures Cycle(r, w, pf.estimation) ==
        ApfFinish(w1, likelihoodXk, likelihoodUk, old(pf.estimation), pf.argOutput, pf.nRobust, xk, N)
    {
      SecondStageWeights(w1, likelihoodXk, likelihoodUk);
      w := Normalize(w);
      NormalisedEstimationDefined(pf.argOutput, pf.nRobust, w);
      var raised := pf.Estimate(xk, w);
      r := if raised.Some? then Failure(raised.value) else Success(xk);
    }
  }

  // ---------------------------------------------------------------- particlefilter

  /** The `particlefilter` object with its configuration and its last estimate. */
  class ParticleFilter {
    const N: nat
    const algorithm: string
    const argOutput: string
    /** `self.arg_resample`; the attribute is not set when the constructor got None. */
    const argResample: Option<string>
    /** `self.resamplePercent`, the G_PF threshold; not set when the constructor got None. */
    const resamplePercent: Option<int>
    /** `self.N_robust`; not set when the constructor got None. */
    const nRobust: Option<int>
    var estimation: Option<seq<real>>
    const pfiltering: PFiltering

    ghost predicate Valid()
      reads this, pfiltering
    {
      pfiltering.N == N && pfiltering.Valid()
    }

    /** `particlefilter.__init__`: the percentages become particle counts; no estimate yet. */
    constructor(algorithm: string, n: nat, output: string, resample: Option<string>,
                resamplePercent: Option<int>, robustPercent: Option<int>)
      ensures N == n && this.algorithm == algorithm && argOutput == output && argResample == resample
      ensures this.resamplePercent ==
        if resamplePercent.Some? then Some(ThresholdFromPercent(resamplePercent.value, n)) else None
      ensures nRobust == if robustPercent.Some? then Some(ThresholdFromPercent(robustPercent.value, n)) else None
      ensures estimation.None? && GetEstimate().None?
      ensures fresh(pfiltering) && pfiltering.w == UniformWeights(n) && pfiltering.i == 0
      ensures Valid()
    {
      N := n;
      this.algorithm := algorithm;
      argOutput := output;
      argResample := resample;
      this.resamplePercent :=
        if resamplePercent.Some? then Some(ThresholdFromPercent(resamplePercent.value, n)) else None;
      nRobust := if robustPercent.Some? then Some(ThresholdFromPercent(robustPercent.value, n)) else None;
      estimation := None;
      pfiltering := new PFiltering(n);
    }

    /** `get_estimate`. */
    function GetEstimate(): Option<seq<real>>
      reads this
    {
      estimation
    }

    /** `estimate`: writes `self.estimation` (MAP writes it before its reshape can fail). */
    method Estimate(particles: Matrix, weights: seq<real>) returns (raised: Option<Error>)
      requires IsMatrix(particles, |particles|, |weights|) && EstimationDefined(argOutput, nRobust, weights)
      modifies this`estimation
      ensures var o := Estimation(argOutput, nRobust, particles, |weights|, weights);
        GetEstimate() == AfterEstimate(old(GetEstimate()), o) && raised == o.raised
    {
      var o := Estimation(argOutput, nRobust, particles, |weights|, weights);
      if o.written.Some? {
        estimation := o.written;
      }
      raised := o.raised;
    }

    /** `filtering(pf, particles)` with pf this object: the cycle named by `algorithm`. */
    method Filtering(particles: Matrix, model: Model, lib: Library) returns (r: Result<Matrix>)
      requires Valid() && IsMatrix(particles, |particles|, N)
      requires ModelOk(model, |particles|, N) && LibraryOk(lib, N)
      requires algorithm == "SIS" || algorithm == "SIR" || (algorithm == "G_PF" && resamplePercent.Some?) ==>
        SisDefined(pfiltering.w, particles, model)
      requires algorithm == "APF" ==>
        (pfiltering.i == 1 ==> |particles| == pfiltering.size) &&
        var k0 := pfiltering.KalmanForStep(particles);
        k0.Success? ==> ApfDefined(k0.value, pfiltering.w, argResample, particles, N, model, lib)
      modifies this`estimation, pfiltering`w, pfiltering`i, pfiltering`size, pfiltering`f
      ensures Valid()
      ensures algorithm != "APF" ==> unchanged(pfiltering`i, pfiltering`size, pfiltering`f)
      ensures algorithm == "SIS" ==>
        Cycle(r, pfiltering.w, estimation) ==
        SisCycle(old(pfiltering.w), old(estimation), argOutput, nRobust, particles, N, model)
      ensures algorithm == "SIR" ==>
        Cycle(r, pfiltering.w, estimation) ==
        SirCycle(old(pfiltering.w), old(estimation), argOutput, nRobust, argResample, particles, N, model, lib)
      ensures algorithm == "G_PF" && resamplePercent.None? ==>
        r == Failure(AttributeError("resamplePercent")) && unchanged(this, pfiltering)
      ensures algorithm == "G_PF" && resamplePercent.Some? ==>
        Cycle(r, pfiltering.w, estimation) ==
        GpfCycle(old(pfiltering.w), old(estimation), argOutput, nRobust, argResample, resamplePercent.value,
                 particles, N, model, lib)
      ensures algorithm == "APF" ==>
        var k0 := old(pfiltering.KalmanForStep(particles));
        (k0.Failure? ==> r == Failure(k0.error) && pfiltering.w == old(pfiltering.w) &&
                         estimation == old(estimation)) &&
        (k0.Success? ==>
           Cycle(r, pfiltering.w, estimation) ==
           ApfCycle(k0.value, old(pfiltering.w), old(estimation), argOutput, nRobust, argResample,
                    particles, N, model, lib))
      ensures algorithm != "SIS" && algorithm != "SIR" && algorithm != "G_PF" && algorithm != "APF" ==>
        r == Success(particles) && unchanged(this, pfiltering)
    {
      if algorithm == "SIS" {
        r := pfiltering.SIS(this, particles, model);
      } else if algorithm == "SIR" {
        r := pfiltering.SIR(this, particles, model, lib);
      } else if algorithm == "G_PF" {
        if resamplePercent.None? {
          return Failure(AttributeError("resamplePercent"));
        }
        r := pfiltering.GPF(this, particles, resamplePercent.value, model, lib);
      } else if algorithm == "APF" {
        r := pfiltering.APF(this, particles, model, lib);
      } else {
        r := Success(particles);
      }
    }
  }
}
