/**
 * The value-level formulas of the `particlefilter` class: the percentage
 * thresholds of its constructor, the resampler dispatch of `resample`, and
 * the three estimators of `estimate` (weighted mean, MAP, robust mean).
 */
module Filter {
  import opened Wrappers
  import opened Numeric
  import opened Matrices
  import opened Oracles

  /**
   * `round(percent * N / 100)`: the integer nearest to percent * N / 100,
   * ties to the even neighbour, as Python's `round` does.
   */
  function ThresholdFromPercent(percent: int, n: nat): (r: int)
    ensures 2 * AbsInt(100 * r - percent * n) <= 100
    ensures 2 * AbsInt(100 * r - percent * n) == 100 ==> r % 2 == 0
  {
    RoundHalfEven(percent * n, 100)
  }

  /** Half-way cases go to the even neighbour: round(2.5) == 2, round(3.5) == 4, round(0.5) == 0. */
  lemma ThresholdTiesToEven()
    ensures ThresholdFromPercent(50, 5) == 2
    ensures ThresholdFromPercent(70, 5) == 4
    ensures ThresholdFromPercent(10, 5) == 0
    ensures ThresholdFromPercent(50, 100) == 50
  {
  }

  // ---------------------------------------------------------------- weighted mean

  /** `np.sum(particles * weights, axis=1)`: row d is the weighted sum of component d. */
  function WeightedMean(particles: Matrix, n: nat, w: seq<real>): (r: seq<real>)
    requires IsMatrix(particles, |particles|, n) && |w| == n
    ensures |r| == |particles|
  {
    seq(|particles|, d requires 0 <= d < |particles| => Dot(particles[d], w))
  }

  lemma ScaleLe(a: real, b: real, c: real)
    requires a <= b && c >= 0.0
    ensures a * c <= b * c
  {
  }

  /** With non-negative weights, a row that is entrywise larger has the larger inner product. */
  lemma DotMonotone(a: seq<real>, b: seq<real>, w: seq<real>)
    requires |a| == |b| == |w| && NonNegative(w)
    requires forall j :: 0 <= j < |a| ==> a[j] <= b[j]
    ensures Dot(a, w) <= Dot(b, w)
  {
    var pa, pb := Mul(a, w), Mul(b, w);
    forall j | 0 <= j < |w| ensures pa[j] <= pb[j] {
      ScaleLe(a[j], b[j], w[j]);
    }
    SumMonotone(pa, pb);
  }

  /** The inner product of a constant row c with w is c times the total of w. */
  lemma DotConstant(c: real, w: seq<real>, s: real)
    requires s == Sum(w)
    ensures Dot(seq(|w|, _ => c), w) == c * s
  {
    SumScaled(w, Mul(seq(|w|, _ => c), w), c);
  }

  /** With non-negative weights summing to 1, a row's inner product with them lies within the row's bounds. */
  lemma DotWithinBounds(row: seq<real>, w: seq<real>, lo: real, hi: real)
    requires |row| == |w| && NonNegative(w) && Sum(w) == 1.0
    requires forall j :: 0 <= j < |row| ==> lo <= row[j] <= hi
    ensures lo <= Dot(row, w) <= hi
  {
    var los, his := seq(|w|, _ => lo), seq(|w|, _ => hi);
    DotMonotone(los, row, w);
    DotMonotone(row, his, w);
    DotConstant(lo, w, 1.0);
    DotConstant(hi, w, 1.0);
  }

  /**
   * With normalised non-negative weights the weighted mean of a component is a
   * convex combination: it lies within any bounds of that component over the set.
   */
  lemma WeightedMeanWithinBounds(particles: Matrix, n: nat, w: seq<real>, d: nat, lo: real, hi: real)
    requires IsMatrix(particles, |particles|, n) && |w| == n && d < |particles|
    requires NonNegative(w) && Sum(w) == 1.0
    requires forall j :: 0 <= j < n ==> lo <= particles[d][j] <= hi
    ensures lo <= WeightedMean(particles, n, w)[d] <= hi
  {
    DotWithinBounds(particles[d], w, lo, hi);
  }

  /** A set whose particles all agree on a component estimates exactly that value. */
  lemma WeightedMeanOfAgreeingSet(particles: Matrix, n: nat, w: seq<real>, d: nat, c: real)
    requires IsMatrix(particles, |particles|, n) && |w| == n && d < |particles|
    requires NonNegative(w) && Sum(w) == 1.0
    requires forall j :: 0 <= j < n ==> particles[d][j] == c
    ensures WeightedMean(particles, n, w)[d] == c
  {
    WeightedMeanWithinBounds(particles, n, w, d, c, c);
  }

  // ---------------------------------------------------------------- MAP

  /** `np.argmax(weights)`: the first index of a maximal weight. */
  function ArgMax(w: seq<real>): (k: nat)
    requires |w| > 0
    ensures k < |w|
    ensures forall j :: 0 <= j < |w| ==> w[j] <= w[k]
    ensures forall j :: 0 <= j < k ==> w[j] < w[k]
    decreases |w|
  {
    if |w| == 1 then 0
    else
      var k := ArgMax(w[..|w| - 1]);
      if w[|w| - 1] > w[k] then |w| - 1 else k
  }

  // ---------------------------------------------------------------- robust mean

  /** The indices 0, 1, ..., n - 1. */
  function Range(n: nat): (r: seq<nat>)
    ensures |r| == n && IndicesBelow(r, n)
    ensures forall k :: 0 <= k < n ==> r[k] == k
  {
    seq(n, k => k)
  }

  /** The positions in `order` are by non-increasing weight. */
  predicate SortedDesc(w: seq<real>, order: seq<nat>)
    requires IndicesBelow(order, |w|)
  {
    forall a, b :: 0 <= a < b < |order| ==> w[order[a]] >= w[order[b]]
  }

  /** Inserts index x before the first index whose weight is not larger than w[x]. */
  function InsertDesc(w: seq<real>, x: nat, l: seq<nat>): (r: seq<nat>)
    requires x < |w| && IndicesBelow(l, |w|)
    ensures |r| == |l| + 1 && IndicesBelow(r, |w|)
    ensures multiset(r) == multiset(l) + multiset{x}
    decreases |l|
  {
    if |l| == 0 || w[l[0]] <= w[x] then [x] + l
    else
      assert l == [l[0]] + l[1..];
      [l[0]] + InsertDesc(w, x, l[1..])
  }

  lemma {:induction false} InsertDescSorted(w: seq<real>, x: nat, l: seq<nat>)
    requires x < |w| && IndicesBelow(l, |w|) && SortedDesc(w, l)
    ensures SortedDesc(w, InsertDesc(w, x, l))
    decreases |l|
  {
    if |l| > 0 && w[l[0]] > w[x] {
      var tail := l[1..];
      InsertDescSorted(w, x, tail);
      assert forall c :: 0 <= c < |tail| ==> w[tail[c]] <= w[l[0]] by {
        forall c | 0 <= c < |tail| ensures w[tail[c]] <= w[l[0]] {
          assert tail[c] == l[c + 1];
        }
      }
      InsertDescBounded(w, x, tail, w[l[0]]);
      assert InsertDesc(w, x, l) == [l[0]] + InsertDesc(w, x, tail);
    }
  }

  /** Inserting an index whose weight is within a bound keeps every weight within it. */
  lemma {:induction false} InsertDescBounded(w: seq<real>, x: nat, l: seq<nat>, bound: real)
    requires x < |w| && IndicesBelow(l, |w|) && w[x] <= bound
    requires forall c :: 0 <= c < |l| ==> w[l[c]] <= bound
    ensures forall c :: 0 <= c < |l| + 1 ==> w[InsertDesc(w, x, l)[c]] <= bound
    decreases |l|
  {
    if |l| > 0 && w[l[0]] > w[x] {
      InsertDescBounded(w, x, l[1..], bound);
      assert InsertDesc(w, x, l) == [l[0]] + InsertDesc(w, x, l[1..]);
    }
  }

  /** Insertion sort of the indices l by non-increasing weight; ties keep their order in l. */
  function SortDesc(w: seq<real>, l: seq<nat>): (r: seq<nat>)
    requires IndicesBelow(l, |w|)
    ensures |r| == |l| && IndicesBelow(r, |w|)
    ensures multiset(r) == multiset(l)
    ensures SortedDesc(w, r)
    decreases |l|
  {
    if |l| == 0 then []
    else
      var rest := SortDesc(w, l[1..]);
      InsertDescSorted(w, l[0], rest);
      MultisetCons(l);
      InsertDesc(w, l[0], rest)
  }

  lemma MultisetCons(l: seq<nat>)
    requires |l| > 0
    ensures multiset(l) == multiset(l[1..]) + multiset{l[0]}
  {
    assert l == [l[0]] + l[1..];
  }

  /** `np.argsort(-weights)`: the particle indices by non-increasing weight. */
  function ArgsortDesc(w: seq<real>): (r: seq<nat>)
    ensures |r| == |w| && IndicesBelow(r, |w|)
    ensures multiset(r) == multiset(Range(|w|))
    ensures SortedDesc(w, r)
  {
    SortDesc(w, Range(|w|))
  }

  /** Every particle index occurs in the argsort. */
  lemma ArgsortCovers(w: seq<real>, j: nat)
    requires j < |w|
    ensures exists b :: 0 <= b < |w| && ArgsortDesc(w)[b] == j
  {
    var r := ArgsortDesc(w);
    assert Range(|w|)[j] == j;
    assert j in multiset(Range(|w|));
    assert j in multiset(r);
    assert j in r;
  }

  lemma SumCons(h: real, t: seq<real>)
    ensures Sum([h] + t) == h + Sum(t)
  {
    assert ([h] + t)[1..] == t;
  }

  /** Gathering splits off the first index. */
  lemma SumGatherCons(v: seq<real>, l: seq<nat>)
    requires |l| > 0 && IndicesBelow(l, |v|)
    ensures Sum(Gather(v, l)) == v[l[0]] + Sum(Gather(v, l[1..]))
  {
    assert Gather(v, l) == [v[l[0]]] + Gather(v, l[1..]);
    SumCons(v[l[0]], Gather(v, l[1..]));
  }

  lemma {:induction false} SumGatherInsert(w: seq<real>, v: seq<real>, x: nat, l: seq<nat>)
    requires |v| == |w| && x < |w| && IndicesBelow(l, |w|)
    ensures Sum(Gather(v, InsertDesc(w, x, l))) == v[x] + Sum(Gather(v, l))
    decreases |l|
  {
    var r := InsertDesc(w, x, l);
    SumGatherCons(v, r);
    if |l| == 0 || w[l[0]] <= w[x] {
      assert r == [x] + l && r[1..] == l;
    } else {
      var rest := InsertDesc(w, x, l[1..]);
      assert r == [l[0]] + rest && r[1..] == rest;
      SumGatherInsert(w, v, x, l[1..]);
      SumGatherCons(v, l);
    }
  }

  /** Reordering the indices does not change the sum of the gathered entries. */
  lemma {:induction false} SumGatherSort(w: seq<real>, v: seq<real>, l: seq<nat>)
    requires |v| == |w| && IndicesBelow(l, |w|)
    ensures Sum(Gather(v, SortDesc(w, l))) == Sum(Gather(v, l))
    decreases |l|
  {
    if |l| > 0 {
      var rest := SortDesc(w, l[1..]);
      assert SortDesc(w, l) == InsertDesc(w, l[0], rest);
      SumGatherSort(w, v, l[1..]);
      SumGatherInsert(w, v, l[0], rest);
      SumGatherCons(v, l);
    }
  }

  /** Summing any row in argsort order gives its sum. */
  lemma SumInArgsortOrder(w: seq<real>, v: seq<real>)
    requires |v| == |w|
    ensures Sum(Gather(v, ArgsortDesc(w))) == Sum(v)
  {
    SumGatherSort(w, v, Range(|w|));
    assert Gather(v, Range(|w|)) == v;
  }

  /** The length of the Python slice `a[:k]` of a sequence of length n. */
  function SliceStop(k: int, n: nat): (s: nat)
    ensures s <= n
    ensures 0 <= k <= n ==> s == k
    ensures k > n ==> s == n
    ensures k < 0 ==> s == if n + k > 0 then n + k else 0
  {
    if k >= 0 then (if k < n then k else n)
    else if n + k > 0 then n + k else 0
  }

  /** `idx_sort[0, :N_robust]`: the indices of the kept particles. */
  function RobustOrder(w: seq<real>, k: int): (r: seq<nat>)
    ensures |r| == SliceStop(k, |w|) && IndicesBelow(r, |w|)
  {
    ArgsortDesc(w)[..SliceStop(k, |w|)]
  }

  /** `weights_sort[0, :N_robust]`: the kept weights, largest first. */
  function RobustKept(w: seq<real>, k: int): (r: seq<real>)
    ensures |r| == SliceStop(k, |w|)
  {
    Gather(w, RobustOrder(w, k))
  }

  /**
   * The robust mean: the weighted mean of the N_robust particles of largest
   * weight, with their weights renormalised to sum 1.  An empty slice (an
   * N_robust of 0, or one at or below -N) sums no column, and the estimate is
   * the zero vector.
   */
  function RobustMean(particles: Matrix, n: nat, w: seq<real>, k: int): (r: seq<real>)
    requires IsMatrix(particles, |particles|, n) && |w| == n
    requires SliceStop(k, n) > 0 ==> Sum(RobustKept(w, k)) != 0.0
    ensures |r| == |particles|
    ensures SliceStop(k, n) == 0 ==> forall d :: 0 <= d < |r| ==> r[d] == 0.0
  {
    var order := RobustOrder(w, k);
    if |order| == 0 then seq(|particles|, _ => 0.0)
    else WeightedMean(GatherColumns(particles, n, order), |order|, Normalize(RobustKept(w, k)))
  }

  /** Every kept weight is at least every weight that was left out. */
  lemma RobustKeepsLargest(w: seq<real>, k: int, a: nat, j: nat)
    requires a < SliceStop(k, |w|) && j < |w| && j !in RobustOrder(w, k)
    ensures RobustKept(w, k)[a] >= w[j]
  {
    var p := ArgsortDesc(w);
    var s := SliceStop(k, |w|);
    ArgsortCovers(w, j);
    var b :| 0 <= b < |w| && p[b] == j;
    if b < s {
      assert false;
    }
  }

  lemma {:induction false} PositiveEntryGivesPositiveSum(v: seq<real>, i: nat)
    requires NonNegative(v) && i < |v| && v[i] > 0.0
    ensures Sum(v) > 0.0
    decreases |v|
  {
    if i == 0 {
      SumNonNegative(v[1..]);
    } else {
      PositiveEntryGivesPositiveSum(v[1..], i - 1);
    }
  }

  /**
   * With normalised non-negative weights and at least one kept particle, the
   * kept weights have a positive sum, so the renormalisation is defined.
   */
  lemma RobustKeptPositive(w: seq<real>, k: int)
    requires NonNegative(w) && Sum(w) == 1.0 && SliceStop(k, |w|) > 0
    ensures Sum(RobustKept(w, k)) > 0.0
  {
    var p := ArgsortDesc(w);
    var kept := RobustKept(w, k);
    // some weight is positive, and the first kept weight is the largest
    var i := PositiveEntry(w);
    ArgsortCovers(w, i);
    var b :| 0 <= b < |w| && p[b] == i;
    assert w[p[0]] >= w[i] by {
      if b > 0 { assert SortedDesc(w, p); }
    }
    assert kept[0] == w[p[0]];
    GatherNonNegative(w, RobustOrder(w, k));
    PositiveEntryGivesPositiveSum(kept, 0);
  }

  /** A non-negative row with a positive sum has a positive entry. */
  lemma {:induction false} PositiveEntry(v: seq<real>) returns (i: nat)
    requires NonNegative(v) && Sum(v) > 0.0
    ensures i < |v| && v[i] > 0.0
    decreases |v|
  {
    if v[0] > 0.0 {
      i := 0;
    } else {
      var j := PositiveEntry(v[1..]);
      i := j + 1;
    }
  }

  lemma GatherNonNegative(v: seq<real>, idx: seq<nat>)
    requires NonNegative(v) && IndicesBelow(idx, |v|)
    ensures NonNegative(Gather(v, idx))
  {
  }

  /** Pairing a row with the weights in argsort order keeps their inner product. */
  lemma DotInArgsortOrder(w: seq<real>, row: seq<real>)
    requires |row| == |w|
    ensures
      var p := ArgsortDesc(w);
      Dot(Gather(row, p), Gather(w, p)) == Dot(row, w)
  {
    var p := ArgsortDesc(w);
    var lhs, rhs := Mul(Gather(row, p), Gather(w, p)), Gather(Mul(row, w), p);
    forall b | 0 <= b < |p| ensures lhs[b] == rhs[b] {
    }
    assert lhs == rhs;
    SumInArgsortOrder(w, Mul(row, w));
  }

  /** Dividing by a sum of 1 changes nothing. */
  lemma NormalizeUnitSum(v: seq<real>)
    requires Sum(v) == 1.0
    ensures Normalize(v) == v
  {
  }

  /**
   * With normalised weights and N_robust >= N every particle is kept, and the
   * robust mean is the weighted mean.
   */
  lemma RobustMeanKeepingAll(particles: Matrix, n: nat, w: seq<real>, k: int)
    requires IsMatrix(particles, |particles|, n) && |w| == n
    requires Sum(w) == 1.0 && k >= n
    ensures Sum(RobustKept(w, k)) == 1.0 &&
      RobustMean(particles, n, w, k) == WeightedMean(particles, n, w)
  {
    var p := ArgsortDesc(w);
    assert RobustOrder(w, k) == p;
    var kept := Gather(w, p);
    SumInArgsortOrder(w, w);
    NormalizeUnitSum(kept);
    var moved := GatherColumns(particles, n, p);
    var robust := RobustMean(particles, n, w, k);
    var mean := WeightedMean(particles, n, w);
    forall d | 0 <= d < |particles| ensures robust[d] == mean[d] {
      assert moved[d] == Gather(particles[d], p);
      DotInArgsortOrder(w, particles[d]);
    }
  }

  // ---------------------------------------------------------------- estimate

  /**
   * What one `estimate` call does: the value it assigns to `self.estimation`
   * (if any) and the exception it raises (if any).  MAP assigns the column
   * before the reshape to length 6 fails.
   */
  datatype EstimateOutcome = EstimateOutcome(written: Option<seq<real>>, raised: Option<Error>)

  /** The renormalisation of a non-empty robust slice does not divide by zero. */
  predicate EstimationDefined(output: string, nRobust: Option<int>, w: seq<real>)
  {
    output == "robust_mean" && nRobust.Some? && SliceStop(nRobust.value, |w|) > 0 ==>
      Sum(RobustKept(w, nRobust.value)) != 0.0
  }

  /** The dispatch of `estimate` on `arg_output`. */
  function Estimation(output: string, nRobust: Option<int>, particles: Matrix, n: nat, w: seq<real>)
    : (o: EstimateOutcome)
    requires IsMatrix(particles, |particles|, n) && |w| == n
    requires EstimationDefined(output, nRobust, w)
  {
    if output == "weighted_mean" then
      EstimateOutcome(Some(WeightedMean(particles, n, w)), None)
    else if output == "MAP" then
      if n == 0 then EstimateOutcome(None, Some(ValueError("attempt to get argmax of an empty sequence")))
      else
        var column := Column(particles, ArgMax(w));
        if |particles| == 6 then EstimateOutcome(Some(column), None)
        else EstimateOutcome(Some(column), Some(ValueError("cannot reshape array into shape (6,)")))
    else if output == "robust_mean" then
      if nRobust.None? then EstimateOutcome(None, Some(AttributeError("N_robust")))
      else EstimateOutcome(Some(RobustMean(particles, n, w, nRobust.value)), None)
    else EstimateOutcome(None, None)
  }

  /**
   * What each estimator writes and raises: the weighted mean and the robust
   * mean always succeed when their attributes exist; MAP writes the column of
   * the first maximal weight and raises unless the state is six long; any
   * other name does nothing.
   */
  lemma EstimationOutcomes(output: string, nRobust: Option<int>, particles: Matrix, n: nat, w: seq<real>)
    requires IsMatrix(particles, |particles|, n) && |w| == n
    requires EstimationDefined(output, nRobust, w)
    ensures var o := Estimation(output, nRobust, particles, n, w);
      (output == "weighted_mean" ==> o == EstimateOutcome(Some(WeightedMean(particles, n, w)), None)) &&
      (output == "MAP" && n > 0 ==>
         exists k :: 0 <= k < n && o.written == Some(Column(particles, k)) &&
           (forall j :: 0 <= j < n ==> w[j] <= w[k]) &&
           (forall j :: 0 <= j < k ==> w[j] < w[k])) &&
      (output == "MAP" ==> (o.raised.None? <==> n > 0 && |particles| == 6)) &&
      (output == "robust_mean" ==> (o.raised.None? <==> nRobust.Some?)) &&
      (output == "robust_mean" && nRobust.Some? ==>
         o.written == Some(RobustMean(particles, n, w, nRobust.value))) &&
      (output != "weighted_mean" && output != "MAP" && output != "robust_mean" ==>
         o == EstimateOutcome(None, None)) &&
      (o.written.Some? ==> |o.written.value| == |particles|)
  {
    if output == "MAP" && n > 0 {
      var k := ArgMax(w);
      assert Estimation(output, nRobust, particles, n, w).written == Some(Column(particles, k));
    }
  }

  /** `self.estimation` after an `estimate` call with the given outcome. */
  function AfterEstimate(previous: Option<seq<real>>, o: EstimateOutcome): Option<seq<real>>
  {
    if o.written.Some? then o.written else previous
  }

  // ---------------------------------------------------------------- resample

  const ResamplerNames: seq<string> := ["systematic", "stratified", "residual", "multinomial"]

  /** The filterpy resampler called by each name. */
  function Resampler(lib: Library, name: string): seq<real> -> seq<nat>
    requires name in ResamplerNames
  {
    if name == "systematic" then lib.systematic
    else if name == "stratified" then lib.stratified
    else if name == "residual" then lib.residual
    else lib.multinomial
  }

  /**
   * `resample(weights)`: the indices from the resampler named by
   * `arg_resample`; the attribute is missing when the constructor got None,
   * and an unknown name leaves `indixes` unbound.
   */
  function Resample(argResample: Option<string>, lib: Library, w: seq<real>): (r: Result<seq<nat>>)
    ensures argResample.None? ==> r == Failure(AttributeError("arg_resample"))
    ensures argResample.Some? ==> (r.Success? <==> argResample.value in ResamplerNames)
    ensures argResample.Some? && argResample.value !in ResamplerNames ==>
      r == Failure(UnboundLocalError("indixes"))
    ensures r.Success? ==>
      (argResample.Some? && argResample.value in ResamplerNames &&
       r.value == Resampler(lib, argResample.value)(w))
    ensures r.Success? && LibraryOk(lib, |w|) ==> |r.value| == |w| && IndicesBelow(r.value, |w|)
  {
    if argResample.None? then Failure(AttributeError("arg_resample"))
    else if argResample.value in ResamplerNames then Success(Resampler(lib, argResample.value)(w))
    else Failure(UnboundLocalError("indixes"))
  }
}
