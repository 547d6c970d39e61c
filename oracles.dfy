/**
 * The collaborators of the filter engine whose code is not part of this model,
 * as function-valued inputs with the contracts the engine relies on:
 *
 *  - the target model's `prediction`, `update` and `update_apf` (the face
 *    model with its random motion noise and its observation likelihoods);
 *  - filterpy's four resamplers and its Kalman filter `predict`/`update`;
 *  - NumPy's `multivariate_normal` sampler.
 *
 * A `Model` or `Library` value describes how these behave during one filter
 * step; the engine receives them as parameters.
 */
module Oracles {
  import opened Numeric
  import opened Matrices

  /** The parts of filterpy's KalmanFilter object that the tracker sets or reads. */
  datatype KalmanFilter = KalmanFilter(
    dimX: nat, dimZ: nat, F: Matrix, H: Matrix, x: seq<real>, P: Matrix, Q: Matrix, R: Matrix)

  predicate KalmanShaped(kf: KalmanFilter)
  {
    IsMatrix(kf.F, kf.dimX, kf.dimX) && IsMatrix(kf.H, kf.dimZ, kf.dimX) && |kf.x| == kf.dimX &&
    IsMatrix(kf.P, kf.dimX, kf.dimX) && IsMatrix(kf.Q, kf.dimX, kf.dimX) &&
    IsMatrix(kf.R, kf.dimZ, kf.dimZ)
  }

  /**
   * The target model: `prediction` gives (x_k, u_k), `update` and `update_apf`
   * give one likelihood per particle.
   */
  datatype Model = Model(
    prediction: Matrix -> (Matrix, Matrix),
    update: Matrix -> seq<real>,
    updateApf: Matrix -> seq<real>)

  /** On a rows x cols particle set the model keeps the shape and likelihoods are non-negative. */
  ghost predicate ModelOk(m: Model, rows: nat, cols: nat)
  {
    forall x :: IsMatrix(x, rows, cols) ==>
      IsMatrix(m.prediction(x).0, rows, cols) && IsMatrix(m.prediction(x).1, rows, cols) &&
      |m.update(x)| == cols && NonNegative(m.update(x)) &&
      |m.updateApf(x)| == cols && NonNegative(m.updateApf(x))
  }

  /** The library routines: resamplers, one Kalman predict+update step, the Gaussian sampler. */
  datatype Library = Library(
    systematic: seq<real> -> seq<nat>,
    stratified: seq<real> -> seq<nat>,
    residual: seq<real> -> seq<nat>,
    multinomial: seq<real> -> seq<nat>,
    kalmanStep: (KalmanFilter, seq<real>) -> KalmanFilter,
    sampleGaussian: (seq<real>, Matrix, nat) -> Matrix)

  /** A resampler returns n particle indices, each below n. */
  ghost predicate ResamplerOk(resampler: seq<real> -> seq<nat>, n: nat)
  {
    forall w: seq<real> {:trigger resampler(w)} :: |w| == n ==>
      |resampler(w)| == n && IndicesBelow(resampler(w), n)
  }

  ghost predicate LibraryOk(lib: Library, n: nat)
  {
    ResamplerOk(lib.systematic, n) && ResamplerOk(lib.stratified, n) &&
    ResamplerOk(lib.residual, n) && ResamplerOk(lib.multinomial, n) &&
    // predict(F, Q) followed by update(z, R, H) keeps the filter's matrices and shapes
    (forall kf, z {:trigger lib.kalmanStep(kf, z)} :: KalmanShaped(kf) && |z| == kf.dimZ ==>
      KalmanShaped(lib.kalmanStep(kf, z)) &&
      lib.kalmanStep(kf, z).dimX == kf.dimX && lib.kalmanStep(kf, z).dimZ == kf.dimZ &&
      lib.kalmanStep(kf, z).F == kf.F && lib.kalmanStep(kf, z).H == kf.H &&
      lib.kalmanStep(kf, z).Q == kf.Q && lib.kalmanStep(kf, z).R == kf.R) &&
    // multivariate_normal(mean, cov, n).T has one column per sample
    (forall mean, cov {:trigger lib.sampleGaussian(mean, cov, n)} :: IsMatrix(cov, |mean|, |mean|) ==>
      IsMatrix(lib.sampleGaussian(mean, cov, n), |mean|, n))
  }
}
