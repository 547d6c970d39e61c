/**
 * `calc_PrecRecall`: precision, recall and F1-score of detected face boxes
 * against ground-truth boxes, frame by frame.  Boxes are integer corner
 * boxes [startX, startY, endX, endY].
 *
 * NumPy turns 0/0 into NaN; the model returns `None` for it.
 */
module PrecRecall {
  import opened Wrappers

  /** A box in corner form [startX, startY, endX, endY]. */
  datatype Box = Box(startX: int, startY: int, endX: int, endY: int)

  /** A row of `inters` after line 43: start of the overlap and its width and height, negatives set to 0. */
  datatype Overlap = Overlap(x: int, y: int, width: int, height: int)

  /** The `eps` added to the F1 denominator, 1e-7. */
  const Eps: real := 0.0000001

  function Max(a: int, b: int): int { if a >= b then a else b }

  function Min(a: int, b: int): int { if a <= b then a else b }

  /** `inters[inters < 0] = 0` on one entry. */
  function ClampNegative(a: int): (r: int)
    ensures r >= 0 && (a >= 0 ==> r == a)
  {
    if a < 0 then 0 else a
  }

  /**
   * The overlap of the two boxes: start at the componentwise max of the
   * starts, end at the componentwise min of the ends, width and height end
   * minus start, every negative entry clamped to 0.
   */
  function Intersection(det: Box, gt: Box): (o: Overlap)
    ensures o.x >= 0 && o.y >= 0 && o.width >= 0 && o.height >= 0
    ensures o.width == Max(Min(det.endX, gt.endX) - Max(det.startX, gt.startX), 0)
    ensures o.height == Max(Min(det.endY, gt.endY) - Max(det.startY, gt.startY), 0)
  {
    var sx, sy := Max(det.startX, gt.startX), Max(det.startY, gt.startY);
    var ex, ey := Min(det.endX, gt.endX), Min(det.endY, gt.endY);
    Overlap(ClampNegative(sx), ClampNegative(sy), ClampNegative(ex - sx), ClampNegative(ey - sy))
  }

  /** `TPArea`: area of the overlap. */
  function TPArea(det: Box, gt: Box): (a: int)
    ensures a >= 0
  {
    var o := Intersection(det, gt);
    o.width * o.height
  }

  /** Width times height of a box, as `wh[:,0] * wh[:,1]` (negative extents are not corrected). */
  function Area(b: Box): int
  {
    (b.endX - b.startX) * (b.endY - b.startY)
  }

  /** A box whose end lies strictly after its start on both axes. */
  predicate Proper(b: Box)
  {
    b.startX < b.endX && b.startY < b.endY
  }

  /** `num / den` on NumPy integer arrays; 0 / 0 is NaN, modelled as `None`. */
  function Ratio(num: int, den: int): (q: Option<real>)
    ensures q.None? <==> den == 0
    ensures q.Some? ==> q.value * den as real == num as real
  {
    if den == 0 then None else Some(num as real / den as real)
  }

  /** TPArea / area(det). */
  function Precision(det: Box, gt: Box): (p: Option<real>)
    ensures p.None? <==> Area(det) == 0
    ensures p.Some? ==> p.value * Area(det) as real == TPArea(det, gt) as real
  {
    Ratio(TPArea(det, gt), Area(det))
  }

  /** TPArea / area(gt). */
  function Recall(det: Box, gt: Box): (r: Option<real>)
    ensures r.None? <==> Area(gt) == 0
    ensures r.Some? ==> r.value * Area(gt) as real == TPArea(det, gt) as real
  {
    Ratio(TPArea(det, gt), Area(gt))
  }

  /** A defined score in [0, 1]. */
  predicate InUnitInterval(p: Option<real>)
  {
    p.Some? ==> 0.0 <= p.value <= 1.0
  }

  /** 2 p r / (p + r + eps); NaN in either operand gives NaN. */
  function F1(p: Option<real>, r: Option<real>): (f: Option<real>)
    requires InUnitInterval(p) && InUnitInterval(r)
    ensures f.Some? <==> p.Some? && r.Some?
    ensures f.Some? ==> 0.0 <= f.value < 1.0
  {
    if p.None? || r.None? then None
    else
      var pv, rv := p.value, r.value;
      F1Bounds(pv, rv);
      Some(2.0 * pv * rv / (pv + rv + Eps))
  }

  /** The F1-score of one frame. */
  function F1Score(det: Box, gt: Box): (f: Option<real>)
    ensures f.Some? <==> Area(det) != 0 && Area(gt) != 0
    ensures f.Some? ==> 0.0 <= f.value < 1.0
  {
    PrecisionInUnitInterval(det, gt);
    RecallInUnitInterval(det, gt);
    F1(Precision(det, gt), Recall(det, gt))
  }

  /** TPArea is at most the area of a proper box it is the overlap with. */
  lemma TPAreaAtMostArea(det: Box, gt: Box)
    requires Proper(det)
    ensures TPArea(det, gt) <= Area(det)
  {
    var o := Intersection(det, gt);
    MulMonotone(o.width, o.height, det.endX - det.startX, det.endY - det.startY);
  }

  lemma MulMonotone(a: int, b: int, c: int, d: int)
    requires 0 <= a <= c && 0 <= b <= d
    ensures a * b <= c * d
  {
    assert a * b <= c * b;
    assert c * b <= c * d;
  }

  /** If the detection is not proper on one axis, it overlaps nothing. */
  lemma ImproperOverlapsNothing(det: Box, gt: Box)
    requires !Proper(det)
    ensures TPArea(det, gt) == 0
  {
    var o := Intersection(det, gt);
    assert o.width == 0 || o.height == 0;
  }

  /** Precision lies in [0, 1] whenever it is defined. */
  lemma PrecisionInUnitInterval(det: Box, gt: Box)
    ensures var p := Precision(det, gt); p.Some? ==> 0.0 <= p.value <= 1.0
  {
    if Area(det) != 0 {
      var p := Precision(det, gt).value;
      if Proper(det) {
        TPAreaAtMostArea(det, gt);
        assert Area(det) > 0 by {
          MulMonotone(1, 1, det.endX - det.startX, det.endY - det.startY);
        }
        DivideWithin(TPArea(det, gt) as real, Area(det) as real, p);
      } else {
        ImproperOverlapsNothing(det, gt);
        assert p * Area(det) as real == 0.0;
      }
    }
  }

  /** Recall lies in [0, 1] whenever it is defined. */
  lemma RecallInUnitInterval(det: Box, gt: Box)
    ensures var r := Recall(det, gt); r.Some? ==> 0.0 <= r.value <= 1.0
  {
    TPAreaSymmetric(det, gt);
    PrecisionInUnitInterval(gt, det);
  }

  /** Numerator in [0, denominator] gives a quotient in [0, 1]. */
  lemma DivideWithin(num: real, den: real, q: real)
    requires 0.0 <= num <= den && den > 0.0 && q * den == num
    ensures 0.0 <= q <= 1.0
  {
    FactorSign(q, den, num);
    FactorSign(1.0 - q, den, den - num);
  }

  /** For p, r in [0, 1] the F1 formula lies in [0, 1). */
  lemma F1Bounds(p: real, r: real)
    requires 0.0 <= p <= 1.0 && 0.0 <= r <= 1.0
    ensures p + r + Eps > 0.0
    ensures 0.0 <= 2.0 * p * r / (p + r + Eps) < 1.0
  {
    var den := p + r + Eps;
    MulNonNegative(p, 1.0 - r);
    MulNonNegative(r, 1.0 - p);
    MulNonNegative(p, r);
    var f := 2.0 * p * r / den;
    assert f * den == 2.0 * p * r;
    FactorSign(f, den, 2.0 * p * r);
    assert (1.0 - f) * den == den - 2.0 * p * r;
    FactorSign(1.0 - f, den, den - 2.0 * p * r);
    assert den - 2.0 * p * r > 0.0;
  }

  lemma MulNonNegative(x: real, y: real)
    requires x >= 0.0 && y >= 0.0
    ensures x * y >= 0.0
  {
  }

  /** A product with a positive factor has the sign of the other factor. */
  lemma FactorSign(x: real, y: real, z: real)
    requires y > 0.0 && x * y == z
    ensures z >= 0.0 ==> x >= 0.0
    ensures z > 0.0 ==> x > 0.0
  {
  }

  /** The overlap area does not depend on which box is the detection. */
  lemma TPAreaSymmetric(det: Box, gt: Box)
    ensures TPArea(det, gt) == TPArea(gt, det)
  {
  }

  /** Boxes separated on either axis have no overlap. */
  lemma DisjointBoxesHaveNoOverlap(det: Box, gt: Box)
    requires det.endX <= gt.startX || gt.endX <= det.startX ||
             det.endY <= gt.startY || gt.endY <= det.startY
    ensures TPArea(det, gt) == 0
    ensures Area(det) != 0 ==> Precision(det, gt) == Some(0.0)
    ensures Area(gt) != 0 ==> Recall(det, gt) == Some(0.0)
  {
    var o := Intersection(det, gt);
    assert o.width == 0 || o.height == 0;
  }

  /** A proper box compared with itself has precision and recall 1. */
  lemma IdenticalBoxesScoreOne(b: Box)
    requires Proper(b)
    ensures Precision(b, b) == Some(1.0) && Recall(b, b) == Some(1.0)
  {
    var o := Intersection(b, b);
    assert o.width == b.endX - b.startX && o.height == b.endY - b.startY;
    var a := Area(b);
    assert TPArea(b, b) == a;
    assert a > 0 by {
      MulMonotone(1, 1, b.endX - b.startX, b.endY - b.startY);
    }
    SelfRatio(a);
  }

  lemma SelfRatio(a: int)
    requires a != 0
    ensures Ratio(a, a) == Some(1.0)
  {
    var x := a as real;
    assert x / x == 1.0;
  }

  /**
   * `calc_PrecRecall(det, gt)`: the `inters` array is filled row by row
   * (start at the max of the starts, end at the min of the ends, extent end
   * minus start, negatives to 0), then precision, recall and F1 are computed
   * for every frame.
   */
  method CalcPrecRecall(det: seq<Box>, gt: seq<Box>)
    returns (precision: seq<Option<real>>, recall: seq<Option<real>>, f1: seq<Option<real>>)
    requires |det| == |gt|
    ensures |precision| == |recall| == |f1| == |det|
    ensures forall i :: 0 <= i < |det| ==>
      precision[i] == Precision(det[i], gt[i]) && recall[i] == Recall(det[i], gt[i]) &&
      f1[i] == F1Score(det[i], gt[i])
  {
    var n := |det|;
    var inters := Overlaps(det, gt);
    precision, recall, f1 := [], [], [];
    var i := 0;
    while i < n
      modifies {}
      invariant 0 <= i <= n
      invariant |precision| == |recall| == |f1| == i
      invariant forall k :: 0 <= k < i ==>
        precision[k] == Precision(det[k], gt[k]) && recall[k] == Recall(det[k], gt[k]) &&
        f1[k] == F1Score(det[k], gt[k])
    {
      var tp := inters[i, 2] * inters[i, 3];
      assert tp == TPArea(det[i], gt[i]);
      var detArea := (det[i].endX - det[i].startX) * (det[i].endY - det[i].startY);
      var gtArea := (gt[i].endX - gt[i].startX) * (gt[i].endY - gt[i].startY);
      var p, r := Ratio(tp, detArea), Ratio(tp, gtArea);
      assert p == Precision(det[i], gt[i]) && r == Recall(det[i], gt[i]);
      PrecisionInUnitInterval(det[i], gt[i]);
      RecallInUnitInterval(det[i], gt[i]);
      precision, recall, f1 := precision + [p], recall + [r], f1 + [F1(p, r)];
      i := i + 1;
    }
  }

  /**
   * The `inters` array of `calc_PrecRecall`, row by row: start at the max of
   * the starts, end at the min of the ends, extent end minus start, then
   * every negative entry set to 0.
   */
  method Overlaps(det: seq<Box>, gt: seq<Box>) returns (inters: array2<int>)
    requires |det| == |gt|
    ensures fresh(inters) && inters.Length0 == |det| && inters.Length1 == 4
    ensures forall k :: 0 <= k < |det| ==>
      var o := Intersection(det[k], gt[k]);
      inters[k, 0] == o.x && inters[k, 1] == o.y && inters[k, 2] == o.width && inters[k, 3] == o.height
  {
    var n := |det|;
    inters := new int[n, 4];
    var i := 0;
    while i < n
      invariant 0 <= i <= n
      invariant forall k :: 0 <= k < i ==>
        var o := Intersection(det[k], gt[k]);
        inters[k, 0] == o.x && inters[k, 1] == o.y && inters[k, 2] == o.width && inters[k, 3] == o.height
    {
      inters[i, 0] := Max(det[i].startX, gt[i].startX);
      inters[i, 1] := Max(det[i].startY, gt[i].startY);
      inters[i, 2] := Min(det[i].endX, gt[i].endX);
      inters[i, 3] := Min(det[i].endY, gt[i].endY);
      inters[i, 2] := inters[i, 2] - inters[i, 0];
      inters[i, 3] := inters[i, 3] - inters[i, 1];
      if inters[i, 0] < 0 { inters[i, 0] := 0; }
      if inters[i, 1] < 0 { inters[i, 1] := 0; }
      if inters[i, 2] < 0 { inters[i, 2] := 0; }
      if inters[i, 3] < 0 { inters[i, 3] := 0; }
      i := i + 1;
    }
  }
}
