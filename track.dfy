/**
 * The top level `Track`: the input video path is checked when the tracker is
 * built; `run` checks the paths of the ground-truth, error, estimates and
 * output-video files, then runs the particle-filter tracker once on the
 * webcam or up to `iterations` times on a video file, naming one output
 * video per run, and counts the runs that were not cut short by a closed
 * window.
 *
 * The tracking runs themselves are not modelled: each run's outcome (the
 * caught exception that ended it, with the recorded track, or an exception
 * that escaped it) is given by `outcome` for the run index.
 */
module PfTrack {
  import opened Wrappers
  import opened Text
  import opened FaceModel
  import opened EvalFace

  /** The text of the exception that ends a run whose video or window was closed. */
  const VideoClosedText: string := "video closed"

  const VideoPathError: string :=
    "Path to the input video file should contain .mp4 or .avi extension at the end.\n" +
    "\t\t\t\tExample: Track(video=\"pftracker\\input\\Aaron_Guiel\\Aaron_Guiel5.avi\")"
  const GtPathError: string :=
    "Path to the ground truth file should contain the .txt extension at the end.\n" +
    "\tExample: pf.run(gt=\"pftracker\\input\\Aaron_Guiel\\Aaron_Guiel5.labeled_faces.txt\")"
  const ErrorPathError: string :=
    "Path to the error file should contain the .txt extension at the end.\n" +
    "\tExample: pf.run(errorFile=\"pftracker\\output\\pf_error.txt\")"
  const TrackPathError: string :=
    "Path to the estimates file should contain the .txt extension at the end.\n" +
    "\tExample: pf.run(saveTrackFile=\"pftracker\\output\\pf_estimates.txt\")"
  const OutputVideoPathError: string :=
    "Path to the output video file should contain the .avi extension at the end.\n" +
    "\tExample: pf.run(saveVideo=\"pftracker\\output\\pf_output.txt\")"

  /** `np.zeros((i, 1))` with a negative number of runs. */
  const NegativeDimensions: Error := ValueError("negative dimensions are not allowed")

  /** The list index error of `saveVideo.split(".avi")[:-1][0]` when ".avi" does not occur. */
  const NoAviPrefix: Error := IndexError("list index out of range")

  /** No video means the webcam; a video file must end in ".avi" or ".mp4". */
  predicate AcceptedVideo(video: Option<string>)
  {
    video.None? || HasExtension(video.value, "avi") || HasExtension(video.value, "mp4")
  }

  /** An optional path passes its check when it is absent or has the extension. */
  predicate PathOk(path: Option<string>, ext: string)
  {
    path.None? || HasExtension(path.value, ext)
  }

  /** The first failing path check of `run`, in the order gt, errorFile, saveTrackFile, saveVideo. */
  function PathError(gt: Option<string>, errorFile: Option<string>, saveTrackFile: Option<string>,
                     saveVideo: Option<string>): (e: Option<Error>)
    ensures e.None? <==>
      PathOk(gt, "txt") && PathOk(errorFile, "txt") && PathOk(saveTrackFile, "txt") && PathOk(saveVideo, "avi")
    ensures !PathOk(gt, "txt") ==> e == Some(AssertionError(GtPathError))
    ensures PathOk(gt, "txt") && !PathOk(errorFile, "txt") ==> e == Some(AssertionError(ErrorPathError))
    ensures PathOk(gt, "txt") && PathOk(errorFile, "txt") && !PathOk(saveTrackFile, "txt") ==>
      e == Some(AssertionError(TrackPathError))
    ensures (PathOk(gt, "txt") && PathOk(errorFile, "txt") && PathOk(saveTrackFile, "txt") &&
             !PathOk(saveVideo, "avi")) ==> e == Some(AssertionError(OutputVideoPathError))
  {
    if !PathOk(gt, "txt") then Some(AssertionError(GtPathError))
    else if !PathOk(errorFile, "txt") then Some(AssertionError(ErrorPathError))
    else if !PathOk(saveTrackFile, "txt") then Some(AssertionError(TrackPathError))
    else if !PathOk(saveVideo, "avi") then Some(AssertionError(OutputVideoPathError))
    else None
  }

  /** Runs are numbered when a video is saved over more than one iteration. */
  predicate Numbered(saveVideo: Option<string>, iterations: int)
  {
    saveVideo.Some? && iterations != 1
  }

  /**
   * The output video passed to run j (counted from 0): the prefix, the run
   * number j + 1 padded to four digits and ".avi" when runs are numbered,
   * otherwise the saveVideo argument as given.
   */
  function OutputName(saveVideo: Option<string>, iterations: int, prefix: string, j: nat): Option<string>
  {
    if Numbered(saveVideo, iterations) then Some(prefix + ZFill(NatToString(j + 1), 4) + ".avi")
    else saveVideo
  }

  /**
   * How one tracking call (`pf.face_tracking`) ends.  The loop of
   * runFilter.py catches a NameError (an UnboundLocalError included), and
   * the call returns the exception's text together with the track the face
   * model recorded; any other exception escapes the call.
   */
  datatype RunEnd = Caught(text: string, track: seq<TrackPoint>) | Escaped(error: Error)

  /** A run that is counted: it ended with a caught exception other than "video closed". */
  predicate Completed(e: RunEnd)
  {
    e.Caught? && e.text != VideoClosedText
  }

  /**
   * The index of the run at which the loop over a video file stops, from run
   * `start` on with `remaining` runs left: the first run that is not
   * counted, the first counted run when it is evaluated against a ground
   * truth file, or the index after the last run.
   */
  function StopFrom(outcome: nat -> RunEnd, evaluated: bool, start: nat, remaining: nat): nat
    decreases remaining
  {
    if remaining == 0 || !Completed(outcome(start)) || evaluated then start
    else StopFrom(outcome, evaluated, start + 1, remaining - 1)
  }

  /**
   * The exception with which the run that stops the loop leaves `run`: an
   * escaped one; none for "video closed"; for a counted run with a ground
   * truth file, the exception its evaluation raises (line 328).
   */
  function RunError(e: RunEnd, gt: Option<string>, gtLines: seq<string>): (raised: Option<Error>)
    ensures e.Escaped? ==> raised == Some(e.error)
    ensures e.Caught? ==> (raised.Some? <==> gt.Some? && e.text != VideoClosedText)
    ensures Completed(e) && gt.Some? ==> raised == Some(EvaluateAsWritten(e.track, gtLines).error)
  {
    if e.Escaped? then Some(e.error)
    else if e.text == VideoClosedText || gt.None? then None
    else Some(EvaluateAsWritten(e.track, gtLines).error)
  }

  /** The exception, if any, that ends the runs on a video file. */
  function LoopError(outcome: nat -> RunEnd, gt: Option<string>, gtLines: seq<string>, iterations: nat): Option<Error>
  {
    var stop := StopFrom(outcome, gt.Some?, 0, iterations);
    if stop < iterations then RunError(outcome(stop), gt, gtLines) else None
  }

  /** The number of tracking calls: the counted runs, plus the run that broke the loop. */
  function Calls(counted: nat, iterations: nat): nat
  {
    if counted < iterations then counted + 1 else counted
  }

  class Track {
    const video: Option<string>
    const algorithm: string
    const nParticles: int
    const detector: string
    const estimate: string
    const resample: string
    const resamplePercent: int
    const robustPercent: int
    const obsmodel: string
    const stateSpace: string
    /** The iterations of the last run. */
    var ii: int
    /** The number of counted runs of the last run. */
    var idx: nat
    /** Whether the error plot has data. */
    var plot: bool

    /** The fields of `__init__` once the video path has passed its check. */
    constructor(video: Option<string>, algorithm: string, nParticles: int, detector: string,
                estimate: string, resample: string, resamplePercent: int,
                robustPercent: int, obsmodel: string, stateSpace: string)
      ensures this.video == video && this.algorithm == algorithm && this.nParticles == nParticles
      ensures this.detector == detector && this.estimate == estimate && this.resample == resample
      ensures this.resamplePercent == resamplePercent && this.robustPercent == robustPercent
      ensures this.obsmodel == obsmodel && this.stateSpace == stateSpace
    {
      this.video := video;
      this.algorithm := algorithm;
      this.nParticles := nParticles;
      this.detector := detector;
      this.estimate := estimate;
      this.resample := resample;
      this.resamplePercent := resamplePercent;
      this.robustPercent := robustPercent;
      this.obsmodel := obsmodel;
      this.stateSpace := stateSpace;
      ii := 0;
      idx := 0;
      plot := true;
    }

    /**
     * `run`: the per-run bookkeeping.  A negative number of iterations raises
     * when the result arrays are allocated; then the paths are checked; the
     * webcam is tracked once with the given output name; a video file is
     * tracked until `iterations` runs are counted, a run ends with
     * "video closed", or an exception leaves `run` (one escaping a tracking
     * call, or the evaluation of a counted run against the ground-truth file
     * `gt`, whose lines are `gtLines`).  The result lists the output name of
     * every tracking call.
     */
    method Run(iterations: int, gt: Option<string>, gtLines: seq<string>, errorFile: Option<string>,
               saveTrackFile: Option<string>, saveVideo: Option<string>, outcome: nat -> RunEnd)
      returns (r: Result<seq<Option<string>>>)
      modifies this`ii, this`idx, this`plot
      ensures ii == iterations
      ensures iterations < 0 ==> r == Failure(NegativeDimensions) && idx == old(idx) && plot == old(plot)
      ensures iterations >= 0 ==> PathError(gt, errorFile, saveTrackFile, saveVideo).Some? ==>
        r == Failure(PathError(gt, errorFile, saveTrackFile, saveVideo).value) && idx == 0 && plot
      ensures iterations >= 0 ==> PathError(gt, errorFile, saveTrackFile, saveVideo).None? ==> video.None? ==>
        r == (if outcome(0).Escaped? then Failure(outcome(0).error) else Success([saveVideo])) && idx == 0 && plot
      ensures iterations >= 0 ==> PathError(gt, errorFile, saveTrackFile, saveVideo).None? ==> video.Some? ==>
        Numbered(saveVideo, iterations) && BeforeFirst(saveVideo.value, ".avi").None? ==>
        r == Failure(NoAviPrefix) && idx == 0 && plot
      ensures iterations >= 0 ==> PathError(gt, errorFile, saveTrackFile, saveVideo).None? ==> video.Some? ==>
        !(Numbered(saveVideo, iterations) && BeforeFirst(saveVideo.value, ".avi").None?) ==>
        var prefix := if Numbered(saveVideo, iterations) then BeforeFirst(saveVideo.value, ".avi").value else "";
        var raised := LoopError(outcome, gt, gtLines, iterations);
        idx == StopFrom(outcome, gt.Some?, 0, iterations) &&
        (raised.Some? ==> r == Failure(raised.value) && plot) &&
        (raised.None? ==>
           plot == (idx != 0) && r.Success? && |r.value| == Calls(idx, iterations) &&
           forall j :: 0 <= j < |r.value| ==> r.value[j] == OutputName(saveVideo, iterations, prefix, j))
      ensures video.Some? && gt.Some? && iterations > 0 && Completed(outcome(0)) ==> r.Failure?
      ensures video.Some? && gt.Some? && r.Success? ==> idx == 0 && !plot
    {
      ii := iterations;
      if iterations < 0 {
        return Failure(NegativeDimensions);
      }
      idx := 0;
      plot := true;
      var e := PathError(gt, errorFile, saveTrackFile, saveVideo);
      if e.Some? {
        return Failure(e.value);
      }
      if video.None? {
        var webcam := outcome(0);
        if webcam.Escaped? {
          return Failure(webcam.error);
        }
        return Success([saveVideo]);
      }
      // The second check of errorFile (line 298) cannot fail after the first.
      var prefix := "";
      if Numbered(saveVideo, ii) {
        var before := BeforeFirst(saveVideo.value, ".avi");
        if before.None? {
          return Failure(NoAviPrefix);
        }
        prefix := before.value;
      }
      var names, raised := RunLoop(iterations, gt, gtLines, saveVideo, prefix, outcome);
      if raised.Some? {
        return Failure(raised.value);
      }
      if ii == 1 || idx == 0 {
        if idx == 0 {
          plot := false;
        }
      }
      r := Success(names);
    }

    /**
     * Lines 309-374: the runs on a video file, up to `iterations` of them.
     * The loop leaves at the first run that ends with "video closed", and
     * `raised` is the exception that an escaping run or the evaluation of a
     * counted run raises.
     */
    method RunLoop(iterations: nat, gt: Option<string>, gtLines: seq<string>, saveVideo: Option<string>,
                   prefix: string, outcome: nat -> RunEnd)
      returns (names: seq<Option<string>>, raised: Option<Error>)
      requires ii == iterations
      modifies this`idx
      ensures idx == StopFrom(outcome, gt.Some?, 0, iterations)
      ensures raised == LoopError(outcome, gt, gtLines, iterations)
      ensures |names| == Calls(idx, iterations)
      ensures forall j :: 0 <= j < |names| ==> names[j] == OutputName(saveVideo, iterations, prefix, j)
    {
      var i := iterations;
      idx := 0;
      names := [];
      while i > 0
        invariant 0 <= i <= iterations && idx == iterations - i
        invariant |names| == idx
        invariant forall j :: 0 <= j < idx ==> names[j] == OutputName(saveVideo, iterations, prefix, j)
        invariant StopFrom(outcome, gt.Some?, idx, i) == StopFrom(outcome, gt.Some?, 0, iterations)
      {
        var output := OutputName(saveVideo, ii, prefix, idx);
        names := names + [output];
        assert forall j :: 0 <= j < |names| ==> names[j] == OutputName(saveVideo, iterations, prefix, j);
        var run := outcome(idx);
        if run.Escaped? {
          return names, Some(run.error);
        }
        if run.text == VideoClosedText {
          return names, None;
        }
        if gt.Some? {
          var evaluation := EvaluateAsWritten(run.track, gtLines);
          return names, Some(evaluation.error);
        }
        i := i - 1;
        idx := idx + 1;
      }
      raised := None;
    }
  }

  /**
   * `__init__`: a video path without the ".avi" or ".mp4" extension raises;
   * otherwise the tracker stores its settings.
   */
  method NewTrack(video: Option<string>, algorithm: string, nParticles: int, detector: string,
                  estimate: string, resample: string, resamplePercent: int,
                  robustPercent: int, obsmodel: string, stateSpace: string)
    returns (r: Result<Track>)
    ensures r.Failure? <==> !AcceptedVideo(video)
    ensures r.Failure? ==> r.error == AssertionError(VideoPathError)
    ensures r.Success? ==> fresh(r.value)
    ensures r.Success? ==> r.value.video == video && r.value.algorithm == algorithm
    ensures r.Success? ==> r.value.nParticles == nParticles && r.value.detector == detector
    ensures r.Success? ==> r.value.estimate == estimate && r.value.resample == resample
    ensures r.Success? ==> r.value.resamplePercent == resamplePercent && r.value.robustPercent == robustPercent
    ensures r.Success? ==> r.value.obsmodel == obsmodel && r.value.stateSpace == stateSpace
  {
    if video.Some? {
      var aviFile := LastSegment(video.value, '.') == "avi";
      var mp4File := LastSegment(video.value, '.') == "mp4";
      if !(aviFile || mp4File) {
        return Failure(AssertionError(VideoPathError));
      }
    }
    var t := new Track(video, algorithm, nParticles, detector, estimate, resample,
                       resamplePercent, robustPercent, obsmodel, stateSpace);
    r := Success(t);
  }

  /**
   * The loop stops at the first run that is not counted, or at once when a
   * counted run is evaluated: every run before the stop is counted, and the
   * stop is at most the runs left.
   */
  lemma {:induction false} StopIsFirstUncounted(outcome: nat -> RunEnd, evaluated: bool, start: nat, remaining: nat)
    ensures var k := StopFrom(outcome, evaluated, start, remaining);
      start <= k <= start + remaining &&
      (forall j :: start <= j < k ==> Completed(outcome(j))) &&
      (k < start + remaining && !evaluated ==> !Completed(outcome(k))) &&
      (evaluated ==> k == start)
    decreases remaining
  {
    if remaining > 0 && Completed(outcome(start)) && !evaluated {
      StopIsFirstUncounted(outcome, evaluated, start + 1, remaining - 1);
    }
  }

  /**
   * Counted runs from the start: bounded by iterations, exactly iterations
   * when every run is counted and none is evaluated, and none when the first
   * run is not counted or a ground-truth file is given.
   */
  lemma CountedRuns(outcome: nat -> RunEnd, evaluated: bool, iterations: nat)
    ensures StopFrom(outcome, evaluated, 0, iterations) <= iterations
    ensures !evaluated && (forall j :: 0 <= j < iterations ==> Completed(outcome(j))) ==>
      StopFrom(outcome, evaluated, 0, iterations) == iterations
    ensures iterations > 0 && !Completed(outcome(0)) ==> StopFrom(outcome, evaluated, 0, iterations) == 0
    ensures evaluated ==> StopFrom(outcome, evaluated, 0, iterations) == 0
  {
    StopIsFirstUncounted(outcome, evaluated, 0, iterations);
  }

  /**
   * When every run ends with "video closed" (as every run on a video file
   * does, the end of the video raising the same exception), no run is
   * counted, nothing is raised and the error plot is disabled.
   */
  lemma AlwaysClosedCountsNothing(outcome: nat -> RunEnd, gt: Option<string>, gtLines: seq<string>, iterations: nat)
    requires forall j :: outcome(j).Caught? && outcome(j).text == VideoClosedText
    ensures StopFrom(outcome, gt.Some?, 0, iterations) == 0
    ensures LoopError(outcome, gt, gtLines, iterations).None?
    ensures Calls(StopFrom(outcome, gt.Some?, 0, iterations), iterations) == if iterations == 0 then 0 else 1
  {
    CountedRuns(outcome, gt.Some?, iterations);
  }

  /**
   * Without a ground-truth file, the runs on a video file raise exactly when
   * the run that stops the loop escapes with an exception.
   */
  lemma WithoutGroundTruthOnlyEscapesRaise(outcome: nat -> RunEnd, gtLines: seq<string>, iterations: nat)
    ensures var stop := StopFrom(outcome, false, 0, iterations);
      LoopError(outcome, None, gtLines, iterations).Some? <==> stop < iterations && outcome(stop).Escaped?
  {
    CountedRuns(outcome, false, iterations);
  }

  /**
   * With a ground-truth file, a first run that is counted is evaluated and
   * raises the evaluation's exception (the unpacking error of line 69 of
   * eval_2DFace.py when the ground-truth lines parse).
   */
  lemma GroundTruthRunRaises(outcome: nat -> RunEnd, gt: Option<string>, gtLines: seq<string>, iterations: nat)
    requires gt.Some? && iterations > 0 && Completed(outcome(0))
    ensures LoopError(outcome, gt, gtLines, iterations) == Some(EvaluateAsWritten(outcome(0).track, gtLines).error)
    ensures CornerBoxes(outcome(0).track, gtLines).Success? ==>
      LoopError(outcome, gt, gtLines, iterations) == Some(UnpackError)
  {
  }

  /** The numbered output names of distinct runs below 9999 are distinct. */
  lemma NumberedNamesDistinct(saveVideo: Option<string>, iterations: int, prefix: string, j1: nat, j2: nat)
    requires Numbered(saveVideo, iterations)
    requires j1 < 9999 && j2 < 9999 && j1 != j2
    ensures OutputName(saveVideo, iterations, prefix, j1) != OutputName(saveVideo, iterations, prefix, j2)
  {
    var d1, d2 := ZFill(NatToString(j1 + 1), 4), ZFill(NatToString(j2 + 1), 4);
    ZFill4RoundTrip(j1 + 1);
    ZFill4RoundTrip(j2 + 1);
    DistinctMiddles(prefix, d1, d2, ".avi");
  }

  /** Two strings that differ only in equally long middles differ. */
  lemma DistinctMiddles(prefix: string, a: string, b: string, suffix: string)
    requires |a| == |b| && a != b
    ensures prefix + a + suffix != prefix + b + suffix
  {
    var k :| 0 <= k < |a| && a[k] != b[k];
    assert (prefix + a + suffix)[|prefix| + k] == a[k];
    assert (prefix + b + suffix)[|prefix| + k] == b[k];
  }

  /** The runs of the example path "pf_output.avi" write pf_output0001.avi, pf_output0002.avi, ... */
  lemma ExampleOutputNames()
    ensures BeforeFirst("pf_output.avi", ".avi") == Some("pf_output")
    ensures OutputName(Some("pf_output.avi"), 2, "pf_output", 0) == Some("pf_output0001.avi")
    ensures OutputName(Some("pf_output.avi"), 2, "pf_output", 1) == Some("pf_output0002.avi")
    ensures OutputName(Some("pf_output.avi"), 1, "", 0) == Some("pf_output.avi")
  {
    ExamplePrefix();
    ExampleFirstName();
    ExampleSecondName();
  }

  lemma ExampleFirstName()
    ensures OutputName(Some("pf_output.avi"), 2, "pf_output", 0) == Some("pf_output0001.avi")
  {
    ExampleRunName(0, '1');
    assert "pf_output000" + ['1'] + ".avi" == "pf_output0001.avi";
  }

  lemma ExampleSecondName()
    ensures OutputName(Some("pf_output.avi"), 2, "pf_output", 1) == Some("pf_output0002.avi")
  {
    ExampleRunName(1, '2');
    assert "pf_output000" + ['2'] + ".avi" == "pf_output0002.avi";
  }

  lemma ExampleRunName(j: nat, d: char)
    requires j < 9 && d == Digit(j + 1)
    ensures OutputName(Some("pf_output.avi"), 2, "pf_output", j) == Some("pf_output000" + [d] + ".avi")
  {
    SingleDigitRunNumber(j + 1);
    assert "pf_output" + ("000" + [d]) + ".avi" == "pf_output000" + [d] + ".avi";
  }

  /** A run number below 10 is padded with three zeros. */
  lemma SingleDigitRunNumber(n: nat)
    requires n < 10
    ensures ZFill(NatToString(n), 4) == "000" + [Digit(n)]
  {
    assert seq(3, _ => '0') == "000";
  }

  lemma ExamplePrefix()
    ensures BeforeFirst("pf_output.avi", ".avi") == Some("pf_output")
  {
    var p := "pf_output";
    assert p + ".avi" == "pf_output.avi";
    forall i | 0 <= i <= |p| - 4 ensures !OccursAt(p, ".avi", i) {
      assert p[i] != '.';
    }
    BeforeFirstAvi(p);
  }

  /**
   * The bare name "avi" passes the output-video check (its last segment is
   * "avi") but contains no ".avi", so numbering its runs raises.
   */
  lemma BareAviNamePassesCheckButHasNoPrefix()
    ensures PathError(None, None, None, Some("avi")).None?
    ensures BeforeFirst("avi", ".avi").None?
  {
    LastSegmentWithoutSeparator("avi", '.');
  }
}
