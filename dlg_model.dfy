/**
 * The discrete-time linear Gaussian motion model `dlg`: particles move as
 * x_k = F x_{k-1} + w with w drawn from N(muW, SigmaW).  The Gaussian draw is
 * an input of the model (see README).
 */
module DlgModel {
  import opened Numeric
  import opened Matrices

  /** `dlg(F, muW, SigmaW)`; the constructor only stores its arguments. */
  datatype Dlg = Dlg(F: Matrix, muW: seq<real>, sigmaW: Matrix)

  /**
   * `move_particles(xk_1, N)`: returns (xk, muk) where muk = F xk_1 is the
   * noise-free move and xk = muk + noise.  `noise` is the (size, N) matrix
   * `multivariate_normal(muW, SigmaW, N).T`.
   */
  function MoveParticles(model: Dlg, xk_1: Matrix, n: nat, noise: Matrix): (r: (Matrix, Matrix))
    requires IsMatrix(model.F, |model.F|, |xk_1|) && IsMatrix(xk_1, |xk_1|, n)
    requires IsMatrix(noise, |model.F|, n)
    ensures IsMatrix(r.0, |model.F|, n) && IsMatrix(r.1, |model.F|, n)
    ensures forall d, j :: 0 <= d < |model.F| && 0 <= j < n ==>
      r.1[d][j] == Dot(model.F[d], Column(xk_1, j))
    ensures forall d, j :: 0 <= d < |model.F| && 0 <= j < n ==>
      r.0[d][j] - r.1[d][j] == noise[d][j]
  {
    var muk := MatMul(model.F, xk_1, n);
    (Add(muk, noise, n), muk)
  }

  /** The two outputs differ only by the noise draw: without noise they coincide. */
  lemma ZeroNoiseMovesToMean(model: Dlg, xk_1: Matrix, n: nat)
    requires IsMatrix(model.F, |model.F|, |xk_1|) && IsMatrix(xk_1, |xk_1|, n)
    ensures var r := MoveParticles(model, xk_1, n, Zeros(|model.F|, n)); r.0 == r.1
  {
    var r := MoveParticles(model, xk_1, n, Zeros(|model.F|, n));
    assert forall d :: 0 <= d < |model.F| ==> r.0[d] == r.1[d];
  }
}
