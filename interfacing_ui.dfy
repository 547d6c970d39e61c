/**
 * `particle_tracker.__init__`: the settings chosen in the user interface are
 * stored, and the resample, estimate, detector and state-space labels shown
 * to the user are replaced by the internal names the filter, the detectors
 * and the motion model use.  Any other value is kept as given.
 */
module InterfacingUI {
  import opened Wrappers
  import opened Filter
  import opened InitModel

  /** The resample labels the interface shows, with the resampler each one names. */
  const ResampleLabels: map<string, string> := map[
    "Systematic" := "systematic", "Stratified" := "stratified",
    "Residual" := "residual", "Multinomial" := "multinomial"]

  /** The estimate labels, with the estimator each one names. */
  const EstimateLabels: map<string, string> := map[
    "Weighted mean" := "weighted_mean", "Maximum weight" := "MAP", "Robust mean" := "robust_mean"]

  /** The face-detector labels, with the detector each one names. */
  const DetectorLabels: map<string, string> := map[
    "Viola and Jones (V&J)" := "HaarCascade", "Single Shot Detector (SSD)" := "CaffeModel",
    "Histogram of Oriented Gradient (HOG)" := "dlib", "Non-Max Suppression" := "nms"]

  /** The state-space labels, with the state space each one names. */
  const StateSpaceLabels: map<string, string> := map[
    "[x, y, Vx, Vy] (dynamic bbox)" := "dynamic_bbox", "[x, y, Vx, Vy, w]" := "5_variables",
    "[x, y, Vx, Vy, w, Vw]" := "6_variables"]

  /** The estimator names the filter dispatches on. */
  const EstimatorNames: seq<string> := ["weighted_mean", "MAP", "robust_mean"]

  /** The internal name of a label in a table; a value that is no label is kept. */
  function Normalise(table: map<string, string>, x: string): string
  {
    if x in table then table[x] else x
  }

  /** No internal name is itself a label of the same table. */
  predicate NamesAreNotLabels(table: map<string, string>)
  {
    forall k :: k in table ==> table[k] !in table
  }

  class ParticleTracker {
    var video: Option<string>
    var algorithm: string
    var nParticles: int
    var obsmodel: string
    var detector: string
    var estimate: string
    var resample: string
    var resamplePercent: int
    var robustPercent: int
    var stateSpace: string

    /**
     * `__init__`: every setting is stored, then the four label fields are
     * rewritten by their if/elif chains.
     */
    constructor(video: Option<string>, algorithm: string, nParticles: int, detector: string,
                estimate: string, resample: string, resamplePercent: int,
                robustPercent: int, obsmodel: string, stateSpace: string)
      ensures this.video == video && this.algorithm == algorithm && this.nParticles == nParticles
      ensures this.obsmodel == obsmodel && this.resamplePercent == resamplePercent
      ensures this.robustPercent == robustPercent
      ensures this.resample == Normalise(ResampleLabels, resample)
      ensures this.estimate == Normalise(EstimateLabels, estimate)
      ensures this.detector == Normalise(DetectorLabels, detector)
      ensures this.stateSpace == Normalise(StateSpaceLabels, stateSpace)
    {
      this.video := video;
      this.algorithm := algorithm;
      this.nParticles := nParticles;
      this.obsmodel := obsmodel;
      this.detector := detector;
      this.estimate := estimate;
      this.resample := resample;
      this.resamplePercent := resamplePercent;
      this.robustPercent := robustPercent;
      this.stateSpace := stateSpace;
      new;
      NormaliseResample();
      NormaliseEstimate();
      NormaliseDetector();
      NormaliseStateSpace();
    }

    /** Lines 89-96: the resample label becomes the resampler's name. */
    method NormaliseResample()
      modifies this`resample
      ensures resample == Normalise(ResampleLabels, old(resample))
    {
      if resample == "Systematic" {
        resample := "systematic";
      } else if resample == "Stratified" {
        resample := "stratified";
      } else if resample == "Residual" {
        resample := "residual";
      } else if resample == "Multinomial" {
        resample := "multinomial";
      }
    }

    /** Lines 98-103: the estimate label becomes the estimator's name. */
    method NormaliseEstimate()
      modifies this`estimate
      ensures estimate == Normalise(EstimateLabels, old(estimate))
    {
      if estimate == "Weighted mean" {
        estimate := "weighted_mean";
      } else if estimate == "Maximum weight" {
        estimate := "MAP";
      } else if estimate == "Robust mean" {
        estimate := "robust_mean";
      }
    }

    /** Lines 105-112: the detector label becomes the detector's name. */
    method NormaliseDetector()
      modifies this`detector
      ensures detector == Normalise(DetectorLabels, old(detector))
    {
      if detector == "Viola and Jones (V&J)" {
        detector := "HaarCascade";
      } else if detector == "Single Shot Detector (SSD)" {
        detector := "CaffeModel";
      } else if detector == "Histogram of Oriented Gradient (HOG)" {
        detector := "dlib";
      } else if detector == "Non-Max Suppression" {
        detector := "nms";
      }
    }

    /** Lines 114-119: the state-space label becomes the state space's name. */
    method NormaliseStateSpace()
      modifies this`stateSpace
      ensures stateSpace == Normalise(StateSpaceLabels, old(stateSpace))
    {
      if stateSpace == "[x, y, Vx, Vy] (dynamic bbox)" {
        stateSpace := "dynamic_bbox";
      } else if stateSpace == "[x, y, Vx, Vy, w]" {
        stateSpace := "5_variables";
      } else if stateSpace == "[x, y, Vx, Vy, w, Vw]" {
        stateSpace := "6_variables";
      }
    }
  }

  /** Normalising with a table whose names are not labels is idempotent. */
  lemma NormaliseIdempotent(table: map<string, string>, x: string)
    requires NamesAreNotLabels(table)
    ensures Normalise(table, Normalise(table, x)) == Normalise(table, x)
  {
  }

  /** None of the four tables maps a label to another label. */
  lemma TablesNamesAreNotLabels()
    ensures NamesAreNotLabels(ResampleLabels) && NamesAreNotLabels(EstimateLabels)
    ensures NamesAreNotLabels(DetectorLabels) && NamesAreNotLabels(StateSpaceLabels)
  {
    ResampleNamesAreNotLabels();
    EstimateNamesAreNotLabels();
    DetectorNamesAreNotLabels();
    StateSpaceNamesAreNotLabels();
  }

  lemma ResampleNamesAreNotLabels()
    ensures NamesAreNotLabels(ResampleLabels)
  {
    assert ResampleLabels.Keys == {"Systematic", "Stratified", "Residual", "Multinomial"};
    assert ResampleLabels.Values == {"systematic", "stratified", "residual", "multinomial"};
    KeysApartFromValues(ResampleLabels);
  }

  lemma EstimateNamesAreNotLabels()
    ensures NamesAreNotLabels(EstimateLabels)
  {
    assert EstimateLabels.Keys == {"Weighted mean", "Maximum weight", "Robust mean"};
    assert EstimateLabels.Values == {"weighted_mean", "MAP", "robust_mean"};
    KeysApartFromValues(EstimateLabels);
  }

  lemma DetectorNamesAreNotLabels()
    ensures NamesAreNotLabels(DetectorLabels)
  {
    assert DetectorLabels.Keys ==
      {"Viola and Jones (V&J)", "Single Shot Detector (SSD)", "Histogram of Oriented Gradient (HOG)", "Non-Max Suppression"};
    assert DetectorLabels.Values == {"HaarCascade", "CaffeModel", "dlib", "nms"};
    KeysApartFromValues(DetectorLabels);
  }

  lemma StateSpaceNamesAreNotLabels()
    ensures NamesAreNotLabels(StateSpaceLabels)
  {
    assert StateSpaceLabels.Keys == {"[x, y, Vx, Vy] (dynamic bbox)", "[x, y, Vx, Vy, w]", "[x, y, Vx, Vy, w, Vw]"};
    assert StateSpaceLabels.Values == {"dynamic_bbox", "5_variables", "6_variables"};
    KeysApartFromValues(StateSpaceLabels);
  }

  /** A table whose labels and names are disjoint sets maps no label to a label. */
  lemma KeysApartFromValues(table: map<string, string>)
    requires table.Keys !! table.Values
    ensures NamesAreNotLabels(table)
  {
    forall k | k in table ensures table[k] !in table {
      assert table[k] in table.Values;
    }
  }

  /**
   * Building a tracker from the fields of another gives the same fields: the
   * normalisation done twice is the normalisation done once.
   */
  lemma ConstructorIdempotent(resample: string, estimate: string, detector: string, stateSpace: string)
    ensures Normalise(ResampleLabels, Normalise(ResampleLabels, resample)) == Normalise(ResampleLabels, resample)
    ensures Normalise(EstimateLabels, Normalise(EstimateLabels, estimate)) == Normalise(EstimateLabels, estimate)
    ensures Normalise(DetectorLabels, Normalise(DetectorLabels, detector)) == Normalise(DetectorLabels, detector)
    ensures Normalise(StateSpaceLabels, Normalise(StateSpaceLabels, stateSpace)) ==
            Normalise(StateSpaceLabels, stateSpace)
  {
    TablesNamesAreNotLabels();
    NormaliseIdempotent(ResampleLabels, resample);
    NormaliseIdempotent(EstimateLabels, estimate);
    NormaliseIdempotent(DetectorLabels, detector);
    NormaliseIdempotent(StateSpaceLabels, stateSpace);
  }

  /**
   * A value changes exactly when it is one of the listed labels, and then it
   * becomes the listed internal name.
   */
  lemma NormaliseChangesOnlyLabels(table: map<string, string>, x: string)
    requires NamesAreNotLabels(table)
    ensures Normalise(table, x) != x <==> x in table
    ensures x in table ==> Normalise(table, x) == table[x]
  {
  }

  /**
   * Every label the interface offers normalises to a name the rest of the
   * tracker accepts: a filterpy resampler, an estimator of the filter, and a
   * state space the motion model is built for.
   */
  lemma LabelsReachSupportedNames(resample: string, estimate: string, stateSpace: string)
    ensures resample in ResampleLabels ==> Normalise(ResampleLabels, resample) in ResamplerNames
    ensures estimate in EstimateLabels ==> Normalise(EstimateLabels, estimate) in EstimatorNames
    ensures stateSpace in StateSpaceLabels ==> StateSize(Normalise(StateSpaceLabels, stateSpace)) != 0
  {
  }
}
