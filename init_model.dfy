/**
 * `createMovModel`: the constant-velocity motion model for each of the three
 * state spaces [x, y, Vx, Vy], [x, y, Vx, Vy, w] and [x, y, Vx, Vy, w, Vw].
 */
module InitModel {
  import opened Wrappers
  import opened Numeric
  import opened Matrices
  import opened DlgModel

  /** The state vector size of each supported state space, 0 for any other name. */
  function StateSize(stateVar: string): nat
  {
    if stateVar == "dynamic_bbox" then 4
    else if stateVar == "5_variables" then 5
    else if stateVar == "6_variables" then 6
    else 0
  }

  /**
   * Entry (d, e) of the transition matrix of an n-variable state: the
   * identity, plus the velocity terms x += Vx, y += Vy and, with six
   * variables, w += Vw.
   */
  function TransitionEntry(n: nat, d: nat, e: nat): real
  {
    if d == e || (d == 0 && e == 2) || (d == 1 && e == 3) || (n == 6 && d == 4 && e == 5)
    then 1.0 else 0.0
  }

  /** Process-noise variances of x, y, Vx, Vy, w and Vw. */
  const SigmaVariances: seq<real> := [80.0, 80.0, 10.0, 10.0, 1.0, 0.01]

  /** The transition matrix `createMovModel` writes out for a state of the given size. */
  function MotionF(size: nat): (F: Matrix)
    requires 4 <= size <= 6
    ensures IsMatrix(F, size, size)
  {
    if size == 4 then
      [[1.0, 0.0, 1.0, 0.0],
       [0.0, 1.0, 0.0, 1.0],
       [0.0, 0.0, 1.0, 0.0],
       [0.0, 0.0, 0.0, 1.0]]
    else if size == 5 then
      [[1.0, 0.0, 1.0, 0.0, 0.0],
       [0.0, 1.0, 0.0, 1.0, 0.0],
       [0.0, 0.0, 1.0, 0.0, 0.0],
       [0.0, 0.0, 0.0, 1.0, 0.0],
       [0.0, 0.0, 0.0, 0.0, 1.0]]
    else
      [[1.0, 0.0, 1.0, 0.0, 0.0, 0.0],
       [0.0, 1.0, 0.0, 1.0, 0.0, 0.0],
       [0.0, 0.0, 1.0, 0.0, 0.0, 0.0],
       [0.0, 0.0, 0.0, 1.0, 0.0, 0.0],
       [0.0, 0.0, 0.0, 0.0, 1.0, 1.0],
       [0.0, 0.0, 0.0, 0.0, 0.0, 1.0]]
  }

  /** The written-out matrices are the identity plus the velocity terms. */
  lemma MotionFEntries(size: nat)
    requires 4 <= size <= 6
    ensures forall d, e :: 0 <= d < size && 0 <= e < size ==>
      MotionF(size)[d][e] == TransitionEntry(size, d, e)
  {
    if size == 4 {
      MotionFEntries4();
    } else if size == 5 {
      MotionFEntries5();
    } else {
      MotionFEntries6();
    }
  }

  lemma MotionFEntries4()
    ensures forall d, e :: 0 <= d < 4 && 0 <= e < 4 ==> MotionF(4)[d][e] == TransitionEntry(4, d, e)
  {
  }

  lemma MotionFEntries5()
    ensures forall d, e :: 0 <= d < 5 && 0 <= e < 5 ==> MotionF(5)[d][e] == TransitionEntry(5, d, e)
  {
  }

  lemma MotionFEntries6()
    ensures forall d, e :: 0 <= d < 6 && 0 <= e < 6 ==> MotionF(6)[d][e] == TransitionEntry(6, d, e)
  {
  }

  /**
   * `createMovModel(estate_var)`: the (dlg, size_ve) pair, or the
   * UnboundLocalError raised at `len(F)` when the name is not a state space.
   * The covariance is the diagonal of the first size_ve process-noise variances.
   */
  function CreateMovModel(stateVar: string): (r: Result<(Dlg, nat)>)
    ensures r.Success? <==> StateSize(stateVar) != 0
    ensures r.Failure? ==> r.error == UnboundLocalError("F")
    ensures r.Success? ==>
      var (m, size) := r.value;
      size == StateSize(stateVar) && size == |m.F| &&
      IsMatrix(m.F, size, size) && IsMatrix(m.sigmaW, size, size) &&
      (forall d, e :: 0 <= d < size && 0 <= e < size ==> m.F[d][e] == TransitionEntry(size, d, e)) &&
      (forall d, e :: 0 <= d < size && 0 <= e < size ==>
        m.sigmaW[d][e] == if d == e then SigmaVariances[d] else 0.0) &&
      m.muW == seq(size, _ => 0.0) && m == MovModel(size)
  {
    var size := StateSize(stateVar);
    if size == 0 then Failure(UnboundLocalError("F"))
    else
      MotionFEntries(size);
      Success((MovModel(size), size))
  }

  /** The motion model of a state of the given size: zero-mean noise, diagonal covariance. */
  function MovModel(size: nat): (m: Dlg)
    requires 4 <= size <= 6
  {
    Dlg(MotionF(size), seq(size, _ => 0.0), Diag(SigmaVariances[..size]))
  }

  /** Row d of the transition matrix applied to a state v. */
  lemma TransitionRowDot(n: nat, d: nat, row: seq<real>, v: seq<real>)
    requires 4 <= n <= 6 && d < n && |row| == n && |v| == n
    requires forall e :: 0 <= e < n ==> row[e] == TransitionEntry(n, d, e)
    ensures Dot(row, v) ==
      if d == 0 then v[0] + v[2]
      else if d == 1 then v[1] + v[3]
      else if d == 4 && n == 6 then v[4] + v[5]
      else v[d]
  {
    if d == 0 {
      DotTwoUnits(n, 0, 2, row, v);
    } else if d == 1 {
      DotTwoUnits(n, 1, 3, row, v);
    } else if d == 4 && n == 6 {
      DotTwoUnits(n, 4, 5, row, v);
    } else {
      DotOneUnit(n, d, row, v);
    }
  }

  /** The noise-free move of one particle v under the motion model of the given size. */
  lemma ColumnMove(size: nat, F: Matrix, v: seq<real>, mu: seq<real>)
    requires 4 <= size <= 6 && IsMatrix(F, size, size) && |v| == size && |mu| == size
    requires forall d, e :: 0 <= d < size && 0 <= e < size ==> F[d][e] == TransitionEntry(size, d, e)
    requires forall d :: 0 <= d < size ==> mu[d] == Dot(F[d], v)
    ensures mu[0] == v[0] + v[2] && mu[1] == v[1] + v[3] && mu[2] == v[2] && mu[3] == v[3]
    ensures size >= 5 ==> mu[4] == v[4] + (if size == 6 then v[5] else 0.0)
    ensures size == 6 ==> mu[5] == v[5]
  {
    TransitionRowDot(size, 0, F[0], v);
    TransitionRowDot(size, 1, F[1], v);
    TransitionRowDot(size, 2, F[2], v);
    TransitionRowDot(size, 3, F[3], v);
    if size >= 5 {
      TransitionRowDot(size, 4, F[4], v);
    }
    if size == 6 {
      TransitionRowDot(size, 5, F[5], v);
    }
  }

  /**
   * The noise-free move of every state space is constant-velocity motion:
   * positions advance by their velocities (and, with six variables, the
   * width by its rate), every other component stays.
   */
  lemma ConstantVelocityMove(size: nat, xk_1: Matrix, n: nat, noise: Matrix)
    requires 4 <= size <= 6 && IsMatrix(xk_1, size, n) && IsMatrix(noise, size, n)
    ensures var muk := MoveParticles(MovModel(size), xk_1, n, noise).1;
      forall j :: 0 <= j < n ==>
        muk[0][j] == xk_1[0][j] + xk_1[2][j] &&
        muk[1][j] == xk_1[1][j] + xk_1[3][j] &&
        muk[2][j] == xk_1[2][j] &&
        muk[3][j] == xk_1[3][j] &&
        (size >= 5 ==> muk[4][j] == xk_1[4][j] + (if size == 6 then xk_1[5][j] else 0.0)) &&
        (size == 6 ==> muk[5][j] == xk_1[5][j])
  {
    var m := MovModel(size);
    var muk := MoveParticles(m, xk_1, n, noise).1;
    MotionFEntries(size);
    forall j | 0 <= j < n
      ensures muk[0][j] == xk_1[0][j] + xk_1[2][j]
      ensures muk[1][j] == xk_1[1][j] + xk_1[3][j]
      ensures muk[2][j] == xk_1[2][j] && muk[3][j] == xk_1[3][j]
      ensures size >= 5 ==> muk[4][j] == xk_1[4][j] + (if size == 6 then xk_1[5][j] else 0.0)
      ensures size == 6 ==> muk[5][j] == xk_1[5][j]
    {
      ColumnMove(size, m.F, Column(xk_1, j), Column(muk, j));
    }
  }
}
