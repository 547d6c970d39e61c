/**
 * `eval_2DFace.error`: the track of estimates (x, y, w, h) and the lines of a
 * ground-truth file are turned into corner boxes, compared frame by frame
 * with `calc_PrecRecall`, and averaged.  Reading the file is not modelled:
 * its lines are an input.
 *
 * The source unpacks the three results of `calc_PrecRecall` into two names,
 * which always raises; `EvaluateTrackAsWritten` models that and
 * `EvaluateTrack` the evident intent (the F1 scores are dropped).
 */
module EvalFace {
  import opened Wrappers
  import opened Numeric
  import opened Text
  import opened FaceModel
  import opened PrecRecall

  /** The results kept from `error`: per-frame precision and recall and their means. */
  datatype Evaluation = Evaluation(
    precision: seq<Option<real>>, recall: seq<Option<real>>,
    precisionMean: Option<real>, recallMean: Option<real>)

  const UnpackError: Error := ValueError("too many values to unpack (expected 2)")

  /** The error of assigning a list that is neither one value nor four to a 4-entry row. */
  const BroadcastError: Error := ValueError("could not broadcast input array into shape (4,)")

  /**
   * An estimate (x, y, w, h) in corner form: the half extents are floor
   * divisions `w // 2`, `h // 2` of the float values, and the float corners
   * are truncated when stored in the int array `det`.
   */
  function DetCorners(p: TrackPoint): Box
  {
    var hw, hh := (p.width / 2) as real, (p.height / 2) as real;
    Box(Trunc(p.x - hw), Trunc(p.y - hh), Trunc(p.x + hw), Trunc(p.y + hh))
  }

  /** A ground-truth row (cx, cy, w, h) of ints in corner form, with floor division. */
  function GtCorners(row: seq<int>): (b: Box)
    requires |row| == 4
    ensures row[2] >= 0 ==> b.endX - b.startX == row[2] - row[2] % 2 && b.startX + b.endX == 2 * row[0]
    ensures row[3] >= 0 ==> b.endY - b.startY == row[3] - row[3] % 2 && b.startY + b.endY == 2 * row[1]
  {
    Box(row[0] - row[2] / 2, row[1] - row[3] / 2, row[0] + row[2] / 2, row[1] + row[3] / 2)
  }

  /** On an estimate with integer coordinates both conversions agree. */
  lemma DetCornersOfIntegers(cx: int, cy: int, w: int, h: int)
    ensures DetCorners(TrackPoint(cx as real, cy as real, w, h)) == GtCorners([cx, cy, w, h])
  {
  }

  /** `int(f)` of every field, the first failure raising. */
  function ParseFields(fields: seq<string>): (r: Result<seq<int>>)
    ensures r.Success? ==> |r.value| == |fields|
    ensures r.Success? ==> forall k :: 0 <= k < |fields| ==> ParseInt(fields[k]) == Success(r.value[k])
    ensures r.Success? <==> forall k :: 0 <= k < |fields| ==> ParseInt(fields[k]).Success?
    decreases |fields|
  {
    if |fields| == 0 then Success([])
    else
      var head := ParseInt(fields[0]);
      if head.Failure? then Failure(head.error)
      else
        var tail := ParseFields(fields[1..]);
        if tail.Failure? then tail
        else Success([head.value] + tail.value)
  }

  /**
   * The assignment of a list of text fields to the 4-entry int row
   * `gt_temp[i]`: four fields are converted one by one, a single field is
   * broadcast to all four entries, any other count cannot be broadcast.
   */
  function AssignRow(fields: seq<string>): (r: Result<seq<int>>)
    ensures r.Success? ==> |r.value| == 4
    ensures |fields| == 4 ==> (r.Success? <==> forall k :: 0 <= k < 4 ==> ParseInt(fields[k]).Success?)
    ensures |fields| == 4 && r.Success? ==> forall k :: 0 <= k < 4 ==> ParseInt(fields[k]) == Success(r.value[k])
    ensures |fields| == 1 ==> (r.Success? <==> ParseInt(fields[0]).Success?)
    ensures |fields| == 1 && r.Success? ==> forall k :: 0 <= k < 4 ==> r.value[k] == ParseInt(fields[0]).value
    ensures |fields| != 1 && |fields| != 4 ==> r == Failure(BroadcastError)
  {
    if |fields| == 4 then ParseFields(fields)
    else if |fields| == 1 then
      var v := ParseInt(fields[0]);
      if v.Failure? then Failure(v.error) else Success([v.value, v.value, v.value, v.value])
    else Failure(BroadcastError)
  }

  /**
   * The row `gt_temp[i]` read from one ground-truth line: more than four
   * comma-separated fields use fields [2:-2], exactly four use all of them,
   * and with fewer the row keeps its zeros.
   */
  function GtRow(line: string): (r: Result<seq<int>>)
    ensures r.Success? ==> |r.value| == 4
    ensures |Split(line, ',')| < 4 ==> r == Success([0, 0, 0, 0])
    ensures var f := Split(line, ','); |f| == 5 ==> (r.Success? <==> ParseInt(f[2]).Success?)
    ensures var f := Split(line, ','); |f| == 5 && r.Success? ==>
      forall k :: 0 <= k < 4 ==> r.value[k] == ParseInt(f[2]).value
    ensures var f := Split(line, ','); |f| == 6 || |f| == 7 || |f| > 8 ==> r == Failure(BroadcastError)
    ensures var f := Split(line, ','); |f| == 8 ==> (r.Success? <==> forall k :: 2 <= k < 6 ==> ParseInt(f[k]).Success?)
    ensures var f := Split(line, ','); |f| == 8 && r.Success? ==>
      forall k :: 2 <= k < 6 ==> ParseInt(f[k]) == Success(r.value[k - 2])
  {
    var fields := Split(line, ',');
    if |fields| > 4 then
      var middle := fields[2..|fields| - 2];
      assert forall k :: 0 <= k < |middle| ==> middle[k] == fields[k + 2];
      AssignRow(middle)
    else if |fields| == 4 then AssignRow(fields)
    else Success([0, 0, 0, 0])
  }

  /** A line reader whose rows all have the four entries (cx, cy, w, h). */
  ghost predicate RowsOfFour(readRow: string -> Result<seq<int>>)
  {
    forall line :: readRow(line).Success? ==> |readRow(line).value| == 4
  }

  /**
   * The first n boxes of the lines, each line read by `readRow`: a missing
   * line raises `IndexError`, a line that cannot be read its error.
   */
  function ReadBoxes(readRow: string -> Result<seq<int>>, lines: seq<string>, n: nat): (r: Result<seq<Box>>)
    requires RowsOfFour(readRow)
    ensures r.Success? ==> |r.value| == n && n <= |lines|
    decreases n
  {
    if n == 0 then Success([])
    else
      var front := ReadBoxes(readRow, lines, n - 1);
      if front.Failure? then front
      else if n - 1 >= |lines| then Failure(IndexError("list index out of range"))
      else
        var row := readRow(lines[n - 1]);
        if row.Failure? then Failure(row.error)
        else Success(front.value + [GtCorners(row.value)])
  }

  lemma GtRowsOfFour()
    ensures RowsOfFour(GtRow)
  {
  }

  /** The first n ground-truth boxes. */
  function GtBoxes(lines: seq<string>, n: nat): (r: Result<seq<Box>>)
    ensures r.Success? ==> |r.value| == n && n <= |lines|
  {
    GtRowsOfFour();
    ReadBoxes(GtRow, lines, n)
  }

  /** Box i of a successful read is the corner form of line i's row. */
  lemma {:induction false} ReadBoxesRows(readRow: string -> Result<seq<int>>, lines: seq<string>, n: nat)
    requires RowsOfFour(readRow)
    ensures var r := ReadBoxes(readRow, lines, n);
      r.Success? ==> forall i :: 0 <= i < n ==>
        readRow(lines[i]).Success? && r.value[i] == GtCorners(readRow(lines[i]).value)
    decreases n
  {
    if n > 0 {
      ReadBoxesRows(readRow, lines, n - 1);
    }
  }

  /** Lines beyond the number of compared frames are never read. */
  lemma {:induction false} ReadBoxesIgnoresExtraLines(readRow: string -> Result<seq<int>>, lines: seq<string>,
                                                     extra: seq<string>, n: nat)
    requires RowsOfFour(readRow) && n <= |lines|
    ensures ReadBoxes(readRow, lines + extra, n) == ReadBoxes(readRow, lines, n)
    decreases n
  {
    if n > 0 {
      ReadBoxesIgnoresExtraLines(readRow, lines, extra, n - 1);
      assert (lines + extra)[n - 1] == lines[n - 1];
    }
  }

  /** Once a line fails, every longer prefix fails with the same error. */
  lemma {:induction false} ReadBoxesFailurePersists(readRow: string -> Result<seq<int>>, lines: seq<string>,
                                                   m: nat, n: nat)
    requires RowsOfFour(readRow) && m <= n && ReadBoxes(readRow, lines, m).Failure?
    ensures ReadBoxes(readRow, lines, n) == ReadBoxes(readRow, lines, m)
    decreases n - m
  {
    if m < n {
      ReadBoxesFailurePersists(readRow, lines, m, n - 1);
    }
  }

  /** NumPy's `np.sum(v) / len(v)`: NaN (None) for an empty row or a NaN entry. */
  function Mean(v: seq<Option<real>>): (m: Option<real>)
    ensures m.Some? <==> |v| > 0 && forall k :: 0 <= k < |v| ==> v[k].Some?
    ensures m.Some? && (forall k :: 0 <= k < |v| ==> InUnitInterval(v[k])) ==> 0.0 <= m.value <= 1.0
  {
    if |v| == 0 || exists k :: 0 <= k < |v| && v[k].None? then None
    else
      var values := seq(|v|, k requires 0 <= k < |v| => v[k].value);
      MeanOfUnitValues(values);
      Some(Sum(values) / |v| as real)
  }

  /** The mean of values in [0, 1] lies in [0, 1]. */
  lemma MeanOfUnitValues(values: seq<real>)
    requires |values| > 0
    ensures (forall k :: 0 <= k < |values| ==> 0.0 <= values[k] <= 1.0) ==>
      0.0 <= Sum(values) / |values| as real <= 1.0
  {
    if forall k :: 0 <= k < |values| ==> 0.0 <= values[k] <= 1.0 {
      UnitSumBounds(values);
      QuotientWithin(Sum(values), |values| as real);
    }
  }

  /** A sum of values in [0, 1] lies between 0 and the number of values. */
  lemma UnitSumBounds(values: seq<real>)
    requires forall k :: 0 <= k < |values| ==> 0.0 <= values[k] <= 1.0
    ensures 0.0 <= Sum(values) <= |values| as real
  {
    var ones := seq(|values|, _ => 1.0);
    SumMonotone(values, ones);
    SumConstant(ones, 1.0);
    assert NonNegative(values);
    SumNonNegative(values);
  }

  lemma QuotientWithin(num: real, den: real)
    requires 0.0 <= num <= den && den > 0.0
    ensures 0.0 <= num / den <= 1.0
  {
    var q := num / den;
    assert q * den == num;
    DivideWithin(num, den, q);
  }


  /** The corner boxes of the estimates and of the first |track| ground-truth lines. */
  function CornerBoxes(track: seq<TrackPoint>, lines: seq<string>): (r: Result<(seq<Box>, seq<Box>)>)
    ensures r.Success? ==> |r.value.0| == |track| == |r.value.1|
  {
    var gt := GtBoxes(lines, |track|);
    if gt.Failure? then Failure(gt.error)
    else Success((seq(|track|, j requires 0 <= j < |track| => DetCorners(track[j])), gt.value))
  }

  /** What `error` returns when the two precision/recall results are taken from `calc_PrecRecall`. */
  function Evaluate(track: seq<TrackPoint>, lines: seq<string>): (r: Result<Evaluation>)
    ensures r.Success? ==> |r.value.precision| == |r.value.recall| == |track|
  {
    var boxes := CornerBoxes(track, lines);
    if boxes.Failure? then Failure(boxes.error)
    else
      var det, gt := boxes.value.0, boxes.value.1;
      var p := seq(|det|, i requires 0 <= i < |det| => Precision(det[i], gt[i]));
      var r := seq(|det|, i requires 0 <= i < |det| => Recall(det[i], gt[i]));
      Success(Evaluation(p, r, Mean(p), Mean(r)))
  }

  /** What the source as written returns: the unpacking on line 69 always raises. */
  function EvaluateAsWritten(track: seq<TrackPoint>, lines: seq<string>): (r: Result<Evaluation>)
    ensures r.Failure?
  {
    var boxes := CornerBoxes(track, lines);
    if boxes.Failure? then Failure(boxes.error) else Failure(UnpackError)
  }

  /** The precision and recall means of a successful evaluation lie in [0, 1]. */
  lemma EvaluationMeansInUnitInterval(track: seq<TrackPoint>, lines: seq<string>)
    ensures var r := Evaluate(track, lines);
      r.Success? ==>
        (r.value.precisionMean.Some? ==> 0.0 <= r.value.precisionMean.value <= 1.0) &&
        (r.value.recallMean.Some? ==> 0.0 <= r.value.recallMean.value <= 1.0)
  {
    var boxes := CornerBoxes(track, lines);
    if boxes.Success? {
      var det, gt := boxes.value.0, boxes.value.1;
      var p := seq(|det|, i requires 0 <= i < |det| => Precision(det[i], gt[i]));
      var r := seq(|det|, i requires 0 <= i < |det| => Recall(det[i], gt[i]));
      forall i | 0 <= i < |det| ensures InUnitInterval(p[i]) && InUnitInterval(r[i]) {
        PrecisionInUnitInterval(det[i], gt[i]);
        RecallInUnitInterval(det[i], gt[i]);
      }
      assert Evaluate(track, lines) == Success(Evaluation(p, r, Mean(p), Mean(r)));
    }
  }

  /** The ground-truth line "cx,cy,w,h" written from an estimate with natural coordinates. */
  function GtLineOf(cx: nat, cy: nat, w: nat, h: nat): string
  {
    Join([NatToString(cx), NatToString(cy), NatToString(w), NatToString(h)], ',')
  }

  /** Such a line reads back as the row (cx, cy, w, h). */
  lemma GtLineOfReadsBack(cx: nat, cy: nat, w: nat, h: nat)
    ensures GtRow(GtLineOf(cx, cy, w, h)) == Success([cx, cy, w, h])
  {
    var line := GtLineOf(cx, cy, w, h);
    var parts := [NatToString(cx), NatToString(cy), NatToString(w), NatToString(h)];
    GtLineFields(cx, cy, w, h);
    GtRowOfFourFields(line);
    NatFieldsParse(cx, cy, w, h);
  }

  /** The comma-separated fields of the line are the four decimal numbers. */
  lemma GtLineFields(cx: nat, cy: nat, w: nat, h: nat)
    ensures Split(GtLineOf(cx, cy, w, h), ',') == [NatToString(cx), NatToString(cy), NatToString(w), NatToString(h)]
  {
    var parts := [NatToString(cx), NatToString(cy), NatToString(w), NatToString(h)];
    forall k | 0 <= k < 4 ensures ',' !in parts[k] {
      NoCommaInDigits(parts[k]);
    }
    JoinSplit(parts, ',');
  }

  /** A line of exactly four fields is read field by field. */
  lemma GtRowOfFourFields(line: string)
    requires |Split(line, ',')| == 4
    ensures GtRow(line) == ParseFields(Split(line, ','))
  {
  }

  /**
   * A line in the eight-field format "name, [ignore], x, y, w, h, [ignore],
   * [ignore]" documented for `error` is read from its fields 2 to 5.
   */
  lemma GtRowOfEightFields(name: string, a: string, cx: nat, cy: nat, w: nat, h: nat, b: string, c: string)
    requires ',' !in name && ',' !in a && ',' !in b && ',' !in c
    ensures GtRow(Join([name, a, NatToString(cx), NatToString(cy), NatToString(w), NatToString(h), b, c], ','))
      == Success([cx, cy, w, h])
  {
    var parts := [name, a, NatToString(cx), NatToString(cy), NatToString(w), NatToString(h), b, c];
    forall k | 2 <= k < 6 ensures ',' !in parts[k] {
      NoCommaInDigits(parts[k]);
    }
    JoinSplit(parts, ',');
    assert parts[2..6] == [NatToString(cx), NatToString(cy), NatToString(w), NatToString(h)];
    NatFieldsParse(cx, cy, w, h);
  }

  /** The four decimal numbers convert back to their values. */
  lemma NatFieldsParse(cx: nat, cy: nat, w: nat, h: nat)
    ensures ParseFields([NatToString(cx), NatToString(cy), NatToString(w), NatToString(h)]) == Success([cx, cy, w, h])
  {
    ParseIntOfNatToString(cx);
    ParseIntOfNatToString(cy);
    ParseIntOfNatToString(w);
    ParseIntOfNatToString(h);
    ParseFieldsAllSucceed([NatToString(cx), NatToString(cy), NatToString(w), NatToString(h)], [cx, cy, w, h]);
  }

  /** When every field converts, the row is the list of their values. */
  lemma {:induction false} ParseFieldsAllSucceed(fields: seq<string>, values: seq<int>)
    requires |fields| == |values|
    requires forall k :: 0 <= k < |fields| ==> ParseInt(fields[k]) == Success(values[k])
    ensures ParseFields(fields) == Success(values)
    decreases |fields|
  {
    if |fields| > 0 {
      var head := ParseInt(fields[0]);
      assert head == Success(values[0]);
      forall k | 0 <= k < |fields| - 1 ensures ParseInt(fields[1..][k]) == Success(values[1..][k]) {
        assert fields[1..][k] == fields[k + 1];
      }
      ParseFieldsAllSucceed(fields[1..], values[1..]);
      assert values == [values[0]] + values[1..];
    }
  }

  lemma NoCommaInDigits(s: string)
    requires forall k :: 0 <= k < |s| ==> IsDigit(s[k])
    ensures ',' !in s
  {
    forall k | 0 <= k < |s| ensures s[k] != ',' {
      assert IsDigit(s[k]);
    }
  }

  /** A one-frame track scored against its own ground-truth line has precision and recall 1. */
  lemma OwnGroundTruthScoresOne(cx: nat, cy: nat, w: nat, h: nat, extra: seq<string>)
    requires w >= 2 && h >= 2
    ensures var r := Evaluate([TrackPoint(cx as real, cy as real, w, h)], [GtLineOf(cx, cy, w, h)] + extra);
      r.Success? && r.value.precision == [Some(1.0)] && r.value.recall == [Some(1.0)] &&
      r.value.precisionMean == Some(1.0) && r.value.recallMean == Some(1.0)
  {
    var track := [TrackPoint(cx as real, cy as real, w, h)];
    var lines := [GtLineOf(cx, cy, w, h)] + extra;
    var b := GtCorners([cx, cy, w, h]);
    OwnGroundTruthBoxes(cx, cy, w, h, extra);
    assert Proper(b);
    IdenticalBoxesScoreOne(b);
    EvaluateOneFrame(track, lines, b);
  }

  /** The corner boxes of that track and that line are the same box. */
  lemma OwnGroundTruthBoxes(cx: nat, cy: nat, w: nat, h: nat, extra: seq<string>)
    ensures var b := GtCorners([cx, cy, w, h]);
      CornerBoxes([TrackPoint(cx as real, cy as real, w, h)], [GtLineOf(cx, cy, w, h)] + extra) == Success(([b], [b]))
  {
    var track := [TrackPoint(cx as real, cy as real, w, h)];
    GtLineOfReadsBack(cx, cy, w, h);
    FirstGtBox(GtLineOf(cx, cy, w, h), [cx, cy, w, h], extra);
    DetCornersOfIntegers(cx, cy, w, h);
    assert seq(|track|, j requires 0 <= j < |track| => DetCorners(track[j])) == [GtCorners([cx, cy, w, h])];
  }

  /** The first ground-truth box is the corner form of the first line's row. */
  lemma FirstGtBox(line: string, row: seq<int>, extra: seq<string>)
    requires GtRow(line) == Success(row)
    ensures GtBoxes([line] + extra, 1) == Success([GtCorners(row)])
  {
    var lines := [line] + extra;
    GtRowsOfFour();
    assert lines[0] == line;
    assert ReadBoxes(GtRow, lines, 0) == Success([]);
    assert GtRow(lines[0]) == Success(row);
    assert [] + [GtCorners(row)] == [GtCorners(row)];
  }

  /** One frame whose boxes score 1 evaluates to precision and recall 1. */
  lemma EvaluateOneFrame(track: seq<TrackPoint>, lines: seq<string>, b: Box)
    requires CornerBoxes(track, lines) == Success(([b], [b]))
    requires Precision(b, b) == Some(1.0) && Recall(b, b) == Some(1.0)
    ensures var r := Evaluate(track, lines);
      r.Success? && r.value.precision == [Some(1.0)] && r.value.recall == [Some(1.0)] &&
      r.value.precisionMean == Some(1.0) && r.value.recallMean == Some(1.0)
  {
    var det, gt := [b], [b];
    assert seq(|det|, i requires 0 <= i < |det| => Precision(det[i], gt[i])) == [Some(1.0)];
    assert seq(|det|, i requires 0 <= i < |det| => Recall(det[i], gt[i])) == [Some(1.0)];
    MeanOfOne();
  }

  lemma MeanOfOne()
    ensures Mean([Some(1.0)]) == Some(1.0)
  {
    var v := [Some(1.0)];
    assert seq(|v|, k requires 0 <= k < |v| => v[k].value) == [1.0];
    assert Sum([1.0]) == 1.0;
  }

  /** Even that input fails in the source as written, with the unpacking error. */
  lemma AsWrittenFailsOnOwnGroundTruth()
    ensures EvaluateAsWritten([TrackPoint(10.0, 10.0, 4, 4)], [GtLineOf(10, 10, 4, 4)]) == Failure(UnpackError)
    ensures Evaluate([TrackPoint(10.0, 10.0, 4, 4)], [GtLineOf(10, 10, 4, 4)]).Success?
  {
    OwnGroundTruthScoresOne(10, 10, 4, 4, []);
    assert [GtLineOf(10, 10, 4, 4)] + [] == [GtLineOf(10, 10, 4, 4)];
  }

  /**
   * Lines 48-66 of `error`: the `det` and `gt` arrays are filled row by row.
   * A missing or malformed ground-truth line raises.
   */
  method CornerArrays(track: seq<TrackPoint>, lines: seq<string>) returns (r: Result<(seq<Box>, seq<Box>)>)
    ensures r == CornerBoxes(track, lines)
  {
    var det := DetArray(track);
    GtRowsOfFour();
    var gt := ReadBoxArray(GtRow, lines, |track|);
    if gt.Failure? {
      return Failure(gt.error);
    }
    r := Success((det, gt.value));
  }

  /** Lines 50-53: the corner box of every estimate. */
  method DetArray(track: seq<TrackPoint>) returns (det: seq<Box>)
    ensures det == seq(|track|, j requires 0 <= j < |track| => DetCorners(track[j]))
  {
    var n := |track|;
    var a := new Box[n](_ => Box(0, 0, 0, 0));
    var j := 0;
    while j < n
      invariant 0 <= j <= n
      invariant forall k :: 0 <= k < j ==> a[k] == DetCorners(track[k])
    {
      a[j] := DetCorners(track[j]);
      j := j + 1;
    }
    det := a[..];
  }

  /** Lines 59-65: the corner box of each of the first n lines, each read by `readRow`. */
  method ReadBoxArray(readRow: string -> Result<seq<int>>, lines: seq<string>, n: nat) returns (r: Result<seq<Box>>)
    requires RowsOfFour(readRow)
    ensures r == ReadBoxes(readRow, lines, n)
  {
    var a := new Box[n](_ => Box(0, 0, 0, 0));
    var i := 0;
    while i < n
      invariant 0 <= i <= n
      invariant ReadBoxes(readRow, lines, i).Success?
      invariant forall k :: 0 <= k < i ==> a[k] == ReadBoxes(readRow, lines, i).value[k]
    {
      if i >= |lines| {
        ReadBoxesFailurePersists(readRow, lines, i + 1, n);
        return Failure(IndexError("list index out of range"));
      }
      var row := readRow(lines[i]);
      if row.Failure? {
        ReadBoxesFailurePersists(readRow, lines, i + 1, n);
        return Failure(row.error);
      }
      a[i] := GtCorners(row.value);
      i := i + 1;
    }
    assert a[..] == ReadBoxes(readRow, lines, n).value;
    r := Success(a[..]);
  }



  /** `error` with the evident intent: precision and recall per frame, and their means. */
  method EvaluateTrack(track: seq<TrackPoint>, lines: seq<string>) returns (r: Result<Evaluation>)
    ensures r == Evaluate(track, lines)
  {
    var boxes := CornerArrays(track, lines);
    if boxes.Failure? {
      return Failure(boxes.error);
    }
    var det, gt := boxes.value.0, boxes.value.1;
    var p, rec, f1 := CalcPrecRecall(det, gt);
    assert p == seq(|det|, i requires 0 <= i < |det| => Precision(det[i], gt[i]));
    assert rec == seq(|det|, i requires 0 <= i < |det| => Recall(det[i], gt[i]));
    r := Success(Evaluation(p, rec, Mean(p), Mean(rec)));
  }

  /** `error` as written: the same arrays, then the failing two-name unpacking. */
  method EvaluateTrackAsWritten(track: seq<TrackPoint>, lines: seq<string>) returns (r: Result<Evaluation>)
    ensures r == EvaluateAsWritten(track, lines)
  {
    var boxes := CornerArrays(track, lines);
    if boxes.Failure? {
      return Failure(boxes.error);
    }
    var det, gt := boxes.value.0, boxes.value.1;
    var p, rec, f1 := CalcPrecRecall(det, gt);
    // three results, two names
    r := Failure(UnpackError);
  }
}
