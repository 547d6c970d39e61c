# pftracker particle-filter face tracker: a Dafny model

pftracker tracks one face through a video or a webcam stream with a
particle filter. Each particle is a state vector: [x, y, Vx, Vy], or that
vector with the box width w, or with w and its rate Vw. Each filter cycle
does four things:

- moves the particles with a constant-velocity linear Gaussian model;
- weighs them with an observation model;
- optionally resamples them;
- reports an estimate (weighted mean, maximum weight or robust mean).

Four algorithms are supported: SIS, SIR, the generic particle filter G_PF,
and the auxiliary particle filter APF (helped by a Kalman filter). Around the
engine sit three smaller parts:

- the face target model, which builds the initial particles from a detector
  box, clips predictions to the frame and records the track;
- the evaluation, which compares the track with ground-truth boxes by
  precision, recall and F1;
- the configuration, which normalises interface labels, checks file
  extensions and names one output video per run.

The model is one Dafny module per source file, plus four shared modules:

- `Wrappers`: `Option`, `Result` and the Python exceptions.
- `Numeric`: sums, normalisation, and Python/NumPy rounding, truncation and
  clipping.
- `Matrices`: matrices as `seq<seq<real>>`, with column gather, product and
  row means.
- `Text`: `split`, `join`, `zfill`, `str`, `strip` and `int` on strings.

The modules for the source files are:

- `PfAlgorithms` and `Engine`: `pfAlgorithms.py` and `Filter.py`. Each
  filter cycle is a pure `Cycle` function. The class methods of `PFiltering`
  and `ParticleFilter` are proved to compute exactly those functions, and
  lemmas state what the cycles promise.
- `Filter`: the estimators and the resampler dispatch.
- `Oracles`: the collaborators whose code is not modelled, written as
  function-valued inputs with stated contracts:
  - the face model's `prediction` and `update` (shape kept, likelihoods
    non-negative);
  - filterpy's resamplers (N indices, each below N) and its Kalman
    predict/update;
  - NumPy's Gaussian sampler.
- `InitModel`, `DlgModel`: the motion model.
- `FaceModel`: `FaceTracking_2D`.
- `PrecRecall`, `EvalFace`: the evaluation.
- `InterfacingUI`: `particle_tracker.__init__`.
- `PfTrack`: `Track`.

Randomness enters as parameters:

- the Gaussian motion noise is a `noise` matrix;
- the sampled u_k comes from the `sampleGaussian` oracle;
- the resampled indices come from the resampler oracles.

File reading and video I/O are inputs too:

- the lines of the ground-truth file;
- whether a frame could be read;
- the likelihoods;
- how each tracking run ended: the caught exception text with the recorded track, or an exception that escaped.

## Model

| member | source | states |
|---|---|---|
| Engine.PFiltering.constructor | pftracker/modules/filter/pfAlgorithms.py:29-34 | a fresh filter has N weights, each 1/N; the Kalman flag is 0 and no Kalman filter exists |
| Engine.PFiltering.ResampleFromIndex | pftracker/modules/filter/pfAlgorithms.py:45-57 | column j of the result is column indexes[j] of the input; the weights become the reset weights, 1.0 / len(self.w) of the (1, N) row |
| Engine.PFiltering.KalmanForStep | pftracker/modules/filter/pfAlgorithms.py:142-145 | the Kalman filter of a step: the stored one once the flag is 1; on the first call, the one built from particle column 0 (IndexError with no particles) |
| Engine.PFiltering.CalcUkWithKf | pftracker/modules/filter/pfAlgorithms.py:122-166 | the filter is built only while the flag is 0, and the flag becomes 1; `size` is set only then; u_k is the Gaussian draw after one Kalman step observed on the mean noise-free prediction; a failed build leaves the flag and the filter as they were |
| Engine.PFiltering.SIS | pftracker/modules/filter/pfAlgorithms.py:168-195 | the returned particles, the new weights and the estimate are exactly the SIS cycle's: predict, weigh by w_i * L_i, normalise, estimate |
| Engine.PFiltering.SIR | pftracker/modules/filter/pfAlgorithms.py:197-223 | the result is exactly the SIR cycle: SIS, then resampling from the new weights every time |
| Engine.PFiltering.GPF | pftracker/modules/filter/pfAlgorithms.py:225-251 | the result is exactly the G_PF cycle: SIS, then resampling iff neff() < resamplePercent (strict) |
| Engine.PFiltering.SecondStageWeights | pftracker/modules/filter/pfAlgorithms.py:305-309 | the loop leaves weight i equal to N where w1[i] == 0, else L_xk[i] / L_uk[i], both at the same position i |
| Engine.PFiltering.APF | pftracker/modules/filter/pfAlgorithms.py:253-317 | a failed Kalman start changes no weight, estimate or flag; otherwise the result is the APF cycle with that filter, and the flag is 1 with the stepped filter stored |
| Engine.PFiltering.ApfStagesFrom | pftracker/modules/filter/pfAlgorithms.py:283-317 | after u_k the result is the two-stage cycle: w1 normalised, previous particles gathered by the indices drawn from w1, predicted, second-stage weights, estimate |
| Engine.PFiltering.ApfSecondStageFrom | pftracker/modules/filter/pfAlgorithms.py:301-315 | the second stage: the loop's weights normalised to sum 1, then the estimate |
| Engine.UkLikelihoods | pftracker/modules/filter/pfAlgorithms.py:280-283 | the likelihoods of u_k: N of them, non-negative |
| Engine.FinishOutcome | pftracker/modules/filter/pfAlgorithms.py:193-195 | the end of a cycle keeps its weights; it fails exactly for MAP on a state that is not six long and for the robust mean without N_robust; otherwise it returns the particles; the weighted and robust means write their estimates, an empty robust slice writing the zero vector, and any other name keeps the old one |
| Engine.EmptyRobustSliceEstimatesZero | pftracker/modules/filter/Filter.py:206-220 | a robust percentage with 0 <= percent * N < 50 rounds N_robust to 0, and the robust-mean cycle then succeeds with the zero vector as its estimate |
| Engine.FinishKeepsWeights | pftracker/modules/filter/pfAlgorithms.py:193-195 | estimating changes no weight and returns, if anything, the particles it was given |
| Engine.SisCycleWeights | pftracker/modules/filter/pfAlgorithms.py:181-195 | after SIS the weights are non-negative and sum to 1; weight i times s equals w_i * L_i, where s is the sum of the products; the returned particles are the unresampled prediction |
| Engine.SirCycleResamples | pftracker/modules/filter/pfAlgorithms.py:217-223 | SIR always resamples after a successful SIS: column j is SIS column idx[j] and every weight is 1.0; without a resampler it raises AttributeError; the estimate is SIS's |
| Engine.GpfWithLowThresholdIsSis | pftracker/modules/filter/pfAlgorithms.py:242-251 | with a threshold of at most 1, G_PF is exactly SIS, because neff >= 1 |
| Engine.GpfWithHighThresholdIsSir | pftracker/modules/filter/pfAlgorithms.py:242-251 | with a threshold above N, G_PF is exactly SIR, because neff <= N |
| Engine.ApfStagesWeights | pftracker/modules/filter/pfAlgorithms.py:286-312 | w1_i = w_i * L_uk[i] / s; a failed resampling leaves the weights and the estimate; otherwise the final weights sum to 1, weight i is N where w1_i == 0 and L_xk[i] / L_uk[i] elsewhere, divided by the total t of those values, and the particles are the prediction of the gathered set |
| Engine.ApfFinishWeights | pftracker/modules/filter/pfAlgorithms.py:305-315 | the second stage leaves N non-negative weights summing to 1, weight i being N where w1_i == 0 and L_xk[i] / L_uk[i] elsewhere, over their total, and returns, if anything, the predicted particles |
| Engine.ParticleFilter.constructor | pftracker/modules/filter/Filter.py:49-63 | the G_PF threshold is round(resamplePercent * N / 100) and N_robust is round(robustPercent * N / 100), each set only when its argument is given; there is no estimate yet; the pfiltering object is fresh with uniform weights |
| Engine.ParticleFilter.Estimate | pftracker/modules/filter/Filter.py:189-222 | only `estimation` changes; `get_estimate` then returns what the estimator wrote (MAP writes before its reshape raises), and the exception raised is the estimator's |
| Engine.ParticleFilter.Filtering | pftracker/modules/filter/Filter.py:136-163 | runs exactly the cycle named by `algorithm` (G_PF without its threshold raises AttributeError); any other name returns the particles unchanged and changes nothing |
| PfAlgorithms.UniformWeights | pftracker/modules/filter/pfAlgorithms.py:33 | N non-negative weights |
| PfAlgorithms.UniformWeightsSum | pftracker/modules/filter/pfAlgorithms.py:33 | the initial weights sum to 1 |
| PfAlgorithms.NeffBounds | pftracker/modules/filter/pfAlgorithms.py:36-43 | for normalised non-negative weights, 1 <= 1 / sum w_i^2 <= N |
| PfAlgorithms.NeffOfUniform | pftracker/modules/filter/pfAlgorithms.py:36-43 | for the uniform weights 1/N, neff is exactly N |
| PfAlgorithms.SisWeights | pftracker/modules/filter/pfAlgorithms.py:187-190 | the updated weights sum to 1 and are non-negative for non-negative inputs |
| PfAlgorithms.SisWeightsProportional | pftracker/modules/filter/pfAlgorithms.py:187-190 | weight i times the total is w_i * L_i; a non-zero weight has a non-zero likelihood |
| PfAlgorithms.SisWeightsRatio | pftracker/modules/filter/pfAlgorithms.py:187-190 | weight i is w_i * L_i divided by the total of the products |
| PfAlgorithms.SisWeightsScaleFree | pftracker/modules/filter/pfAlgorithms.py:187-190 | scaling the prior weights by a positive constant does not change the updated weights |
| PfAlgorithms.ResampledWeights | pftracker/modules/filter/pfAlgorithms.py:56 | one weight per particle |
| PfAlgorithms.ResampledWeightsHarmless | pftracker/modules/filter/pfAlgorithms.py:56 | every reset weight is 1.0 and they sum to N; because the next update normalises, they give the same result as uniform 1/N weights |
| PfAlgorithms.ApfSecondStage | pftracker/modules/filter/pfAlgorithms.py:305-309 | one non-negative second-stage weight per particle |
| PfAlgorithms.ApfSecondStageSumPositive | pftracker/modules/filter/pfAlgorithms.py:305-312 | a zero first-stage weight (which gets weight N) makes the second-stage sum positive, so the normalisation is defined |
| PfAlgorithms.KalmanF | pftracker/modules/filter/pfAlgorithms.py:76-111 | the transition matrix is size x size |
| PfAlgorithms.KalmanMatchesMotionModel | pftracker/modules/filter/pfAlgorithms.py:76-111 | the Kalman transition matrix equals the motion model's, entry by entry |
| PfAlgorithms.KalmanH | pftracker/modules/filter/pfAlgorithms.py:82-116 | the measurement function has dim_z = 2 rows for four variables and 3 for five or six |
| PfAlgorithms.KalmanInit | pftracker/modules/filter/pfAlgorithms.py:59-120 | it succeeds iff the state has 4 to 6 components, starting at x0 with identity P, Q and R; any other size raises AttributeError on `self.f` |
| PfAlgorithms.Measurement | pftracker/modules/filter/pfAlgorithms.py:152-155 | z is defined iff the size is 4 to 6; otherwise UnboundLocalError |
| PfAlgorithms.MeasurementIsObserved | pftracker/modules/filter/pfAlgorithms.py:150-161 | z is H times the mean: rows 0, 1 for four variables, rows 0, 1, 4 for five or six |
| PfAlgorithms.UkStep | pftracker/modules/filter/pfAlgorithms.py:149-164 | the filter steps once on H times the row means of the noise-free prediction; u_k is N draws from N(x, P) of the stepped filter |
| Filter.ThresholdFromPercent | pftracker/modules/filter/Filter.py:59-61 | the result is within 1/2 of percent * N / 100, and even at a tie (Python's round) |
| Filter.ThresholdTiesToEven | pftracker/modules/filter/Filter.py:59-61 | worked examples of the general Numeric.RoundHalfEvenUnique: round(2.5) == 2, round(3.5) == 4, round(0.5) == 0, and an exact 50 stays 50 |
| Numeric.RoundHalfEvenUnique | pftracker/modules/filter/Filter.py:59 | any integer nearest to num / den with ties to even is the rounded value |
| Filter.WeightedMeanWithinBounds | pftracker/modules/filter/Filter.py:197-199 | with normalised non-negative weights, component d of the weighted mean lies within the bounds of row d |
| Filter.WeightedMeanOfAgreeingSet | pftracker/modules/filter/Filter.py:197-199 | particles that agree on a component give that value as the estimate |
| Filter.ArgMax | pftracker/modules/filter/Filter.py:203 | an index of a maximal weight, and the first one |
| Filter.ArgsortDesc | pftracker/modules/filter/Filter.py:211-214 | a permutation of 0..N-1 ordered by non-increasing weight |
| Filter.ArgsortCovers | pftracker/modules/filter/Filter.py:214 | every particle index occurs in the argsort |
| Filter.SumInArgsortOrder | pftracker/modules/filter/Filter.py:211-217 | reordering by the argsort keeps the sum of any row |
| Filter.SliceStop | pftracker/modules/filter/Filter.py:217 | the length of the Python slice a[:k], negative k included |
| Filter.RobustKeepsLargest | pftracker/modules/filter/Filter.py:211-220 | every kept weight is at least every weight left out |
| Filter.RobustKeptPositive | pftracker/modules/filter/Filter.py:217 | keeping at least one normalised weight gives a positive sum, so the renormalisation is defined |
| Filter.RobustMeanKeepingAll | pftracker/modules/filter/Filter.py:207-222 | with normalised weights and N_robust >= N, the robust mean equals the weighted mean |
| Filter.EstimationOutcomes | pftracker/modules/filter/Filter.py:197-222 | the weighted mean always succeeds; MAP writes the column of the first maximal weight and raises unless N > 0 and the state has 6 rows; the robust mean raises iff N_robust is unset; any other name does nothing |
| Filter.Resample | pftracker/modules/filter/Filter.py:165-187 | `arg_resample` unset raises AttributeError; a known name forwards the weights to that resampler and gives N indices below N; an unknown name leaves `indixes` unbound (UnboundLocalError) |
| DlgModel.MoveParticles | pftracker/modules/models/dlgModel.py:47-50 | muk[d][j] = F row d . column j of x_{k-1}; xk - muk is the noise draw; both have the input's shape |
| DlgModel.ZeroNoiseMovesToMean | pftracker/modules/models/dlgModel.py:47-49 | with zero noise the two outputs coincide, so the noise draw is their only difference |
| InitModel.CreateMovModel | pftracker/modules/models/InitModel.py:40-95 | it succeeds iff the name is one of the three state spaces, with size 4, 5 or 6; F is the identity plus the velocity terms; mu is zero; Sigma is diagonal 80, 80, 10, 10, 1, 0.01; an unknown name raises UnboundLocalError on F |
| InitModel.MotionF | pftracker/modules/models/InitModel.py:42-77 | the written-out transition matrix is size x size |
| InitModel.MotionFEntries | pftracker/modules/models/InitModel.py:42-77 | the three written-out matrices are the identity with F[0][2] = F[1][3] = 1, plus F[4][5] = 1 for six variables |
| InitModel.ConstantVelocityMove | pftracker/modules/models/InitModel.py:42-93 | the noise-free move advances x and y by their velocities (and w by Vw with six variables) and keeps every other component |
| FaceModel.BoxCentre | pftracker/modules/models/FaceModel_2D.py:80-86 | the floor-division centre lies inside the detector box |
| FaceModel.InitialState | pftracker/modules/models/FaceModel_2D.py:86-101 | the initial particle has size_v components |
| FaceModel.InitialStateInsideBox | pftracker/modules/models/FaceModel_2D.py:80-101 | the initial particle sits inside the box; component 4 is w when size_v != 4; every other component is 0 |
| FaceModel.ClipRound | pftracker/modules/models/FaceModel_2D.py:130-131 | a clipped and rounded entry lies in [0, hi], and an integral entry already inside is kept |
| FaceModel.ClipRoundRow | pftracker/modules/models/FaceModel_2D.py:130-131 | a clipped row keeps its length and lies in [0, hi] |
| FaceModel.ClipRoundKeepsPixels | pftracker/modules/models/FaceModel_2D.py:130-131 | clipping is the identity on pixel positions already inside the frame |
| FaceModel.RoundRow | pftracker/modules/models/FaceModel_2D.py:132 | every rounded entry is integral |
| Numeric.RoundReal | pftracker/modules/models/FaceModel_2D.py:130-132 | np.round: within 1/2 of the value, even at a tie |
| Numeric.Clip | pftracker/modules/models/FaceModel_2D.py:130-131 | np.clip: within [lo, hi] and the identity inside it |
| Numeric.Trunc | pftracker/modules/models/FaceModel_2D.py:250 | astype(int): truncation toward zero |
| FaceModel.FaceTracking2D.constructor | pftracker/modules/models/FaceModel_2D.py:38-62 | upthreshold is (frame width - 1, frame height - 1); no frame is counted and no track is written |
| FaceModel.FaceTracking2D.Initialization | pftracker/modules/models/FaceModel_2D.py:64-106 | bbox = w; every particle is the initial state; a size_v x N matrix is returned; the track is exactly [(x0, y0, w, w)]; with N = 0 the track read raises IndexError |
| FaceModel.FaceTracking2D.Prediction | pftracker/modules/models/FaceModel_2D.py:109-134 | row 0 is clipped into [0, width - 1] and row 1 into [0, height - 1], both rounded; the last row is rounded; the middle rows are the move's; uk is the noise-free move |
| FaceModel.FaceTracking2D.Update | pftracker/modules/models/FaceModel_2D.py:149-162 | a missing frame raises NameError("video closed"); otherwise the likelihoods are returned |
| FaceModel.FaceTracking2D.Visualizations | pftracker/modules/models/FaceModel_2D.py:239-253 | the frame counter grows by 1; bbox = int(estimate[4]) for size_v != 4; the self-updated width from the second frame on for size_v = 4; exactly one track entry is appended unless the window was closed |
| FaceModel.FaceTracking2D.CloseE | pftracker/modules/models/FaceModel_2D.py:332-341 | always NameError("video closed") |
| PrecRecall.ClampNegative | pftracker/modules/metrics/PrecRecall.py:43 | the clamped entry is non-negative and keeps non-negative values |
| PrecRecall.Intersection | pftracker/modules/metrics/PrecRecall.py:31-43 | the overlap's width and height are min of the ends minus max of the starts, clamped at 0; every entry is non-negative |
| PrecRecall.Overlaps | pftracker/modules/metrics/PrecRecall.py:31-43 | a fresh |det| x 4 `inters` array whose row k is the clamped overlap of detection k with ground truth k |
| PrecRecall.TPArea | pftracker/modules/metrics/PrecRecall.py:46 | the overlap area is non-negative |
| PrecRecall.TPAreaSymmetric | pftracker/modules/metrics/PrecRecall.py:34-46 | the overlap area does not depend on which box is the detection |
| PrecRecall.DisjointBoxesHaveNoOverlap | pftracker/modules/metrics/PrecRecall.py:34-61 | boxes separated on an axis have area 0 overlap, and precision and recall 0 where defined |
| PrecRecall.ImproperOverlapsNothing | pftracker/modules/metrics/PrecRecall.py:40-46 | a detection empty on one axis overlaps nothing |
| PrecRecall.TPAreaAtMostArea | pftracker/modules/metrics/PrecRecall.py:46-55 | the overlap area is at most the area of a proper box |
| PrecRecall.Ratio | pftracker/modules/metrics/PrecRecall.py:56-61 | the quotient is undefined (NaN) iff the denominator is 0, otherwise quotient * den = num |
| PrecRecall.Precision | pftracker/modules/metrics/PrecRecall.py:55-56 | TPArea / area(det); NaN iff area(det) = 0 |
| PrecRecall.Recall | pftracker/modules/metrics/PrecRecall.py:60-61 | TPArea / area(gt); NaN iff area(gt) = 0 |
| PrecRecall.PrecisionInUnitInterval | pftracker/modules/metrics/PrecRecall.py:50-56 | a defined precision lies in [0, 1] |
| PrecRecall.RecallInUnitInterval | pftracker/modules/metrics/PrecRecall.py:50-61 | a defined recall lies in [0, 1] |
| PrecRecall.IdenticalBoxesScoreOne | pftracker/modules/metrics/PrecRecall.py:34-61 | a proper box compared with itself has precision = recall = 1 |
| PrecRecall.F1 | pftracker/modules/metrics/PrecRecall.py:64-65 | 2pr / (p + r + 1e-7) is defined iff both operands are, and lies in [0, 1) |
| PrecRecall.F1Bounds | pftracker/modules/metrics/PrecRecall.py:64-65 | for p, r in [0, 1] the denominator is positive and the score lies in [0, 1) |
| PrecRecall.F1Score | pftracker/modules/metrics/PrecRecall.py:64-65 | a frame's F1 is defined iff both box areas are non-zero, and lies in [0, 1) |
| PrecRecall.CalcPrecRecall | pftracker/modules/metrics/PrecRecall.py:10-67 | one precision, recall and F1 per frame, each the frame's TPArea / area(det), TPArea / area(gt) and F1 |
| EvalFace.GtCorners | pftracker/modules/metrics/eval_2DFace.py:64-65 | the corner box of (cx, cy, w, h) has width w - w % 2 and is centred on cx, and likewise on y (floor division) |
| EvalFace.DetCornersOfIntegers | pftracker/modules/metrics/eval_2DFace.py:50-65 | for integral estimates the estimate and ground-truth conversions agree |
| EvalFace.DetArray | pftracker/modules/metrics/eval_2DFace.py:50-53 | the loop fills `det` with the corner box of every estimate |
| EvalFace.ParseFields | pftracker/modules/metrics/eval_2DFace.py:61-63 | the conversion succeeds iff every field's `int()` does, and then has one int per field, each that field's `int()` |
| EvalFace.AssignRow | pftracker/modules/metrics/eval_2DFace.py:61-63 | an assigned gt_temp row has four entries; four fields succeed iff each converts, entry k being field k's `int()`; one field succeeds iff it converts and is broadcast to all four entries; any other count raises NumPy's broadcast ValueError |
| EvalFace.GtRow | pftracker/modules/metrics/eval_2DFace.py:59-63 | a successfully read row has four entries; fewer than four fields keep the zero row; five fields broadcast field 2; six, seven or more than eight fields raise the broadcast ValueError; eight fields succeed iff fields 2 to 5 convert, and are then those values |
| EvalFace.GtRowOfEightFields | pftracker/modules/metrics/eval_2DFace.py:59-63 | a line in the format documented at line 26, "name, [ignore], x, y, w, h, [ignore], [ignore]" with comma-free outer fields reads back as (x, y, w, h) |
| EvalFace.GtRowOfFourFields | pftracker/modules/metrics/eval_2DFace.py:62-63 | a line of exactly four fields is converted field by field |
| EvalFace.GtLineOfReadsBack | pftracker/modules/metrics/eval_2DFace.py:59-63 | the line "cx,cy,w,h" written from natural numbers reads back as (cx, cy, w, h) |
| EvalFace.ReadBoxes | pftracker/modules/metrics/eval_2DFace.py:57-65 | a successful read gives exactly n boxes and needs at least n lines |
| EvalFace.ReadBoxArray | pftracker/modules/metrics/eval_2DFace.py:59-65 | the loop filling `gt` row by row gives exactly the boxes read, or the first error |
| EvalFace.ReadBoxesRows | pftracker/modules/metrics/eval_2DFace.py:59-65 | box i is the corner form of line i's row |
| EvalFace.ReadBoxesIgnoresExtraLines | pftracker/modules/metrics/eval_2DFace.py:57-59 | lines beyond the number of estimates are never read |
| EvalFace.ReadBoxesFailurePersists | pftracker/modules/metrics/eval_2DFace.py:59-65 | once a line fails, every longer read fails with the same error |
| EvalFace.GtBoxes | pftracker/modules/metrics/eval_2DFace.py:55-66 | exactly n ground-truth boxes, from at least n lines |
| EvalFace.CornerBoxes | pftracker/modules/metrics/eval_2DFace.py:48-66 | as many ground-truth boxes as estimates |
| EvalFace.CornerArrays | pftracker/modules/metrics/eval_2DFace.py:48-66 | the two loops give exactly the corner boxes of the estimates and of the first |track| lines |
| EvalFace.Mean | pftracker/modules/metrics/eval_2DFace.py:75-76 | sum / len is defined iff the row is non-empty with no NaN, and lies in [0, 1] for scores in [0, 1] |
| EvalFace.MeanOfUnitValues | pftracker/modules/metrics/eval_2DFace.py:75-76 | the mean of values in [0, 1] lies in [0, 1] |
| EvalFace.Evaluate | pftracker/modules/metrics/eval_2DFace.py:69-76 | one precision and one recall per estimate |
| EvalFace.EvaluationMeansInUnitInterval | pftracker/modules/metrics/eval_2DFace.py:69-76 | the mean precision and the mean recall, where defined, lie in [0, 1] |
| EvalFace.OwnGroundTruthScoresOne | pftracker/modules/metrics/eval_2DFace.py:48-76 | a track scored against its own ground-truth line has precision, recall and their means equal to 1 |
| EvalFace.EvaluateTrack | pftracker/modules/metrics/eval_2DFace.py:48-76 | `error` with the two-name unpacking corrected computes exactly Evaluate |
| EvalFace.EvaluateAsWritten | pftracker/modules/metrics/eval_2DFace.py:69 | as written, `error` raises on every input |
| EvalFace.EvaluateTrackAsWritten | pftracker/modules/metrics/eval_2DFace.py:48-69 | the method as written computes exactly EvaluateAsWritten |
| EvalFace.AsWrittenFailsOnOwnGroundTruth | pftracker/modules/metrics/eval_2DFace.py:69 | on a track and its own ground truth, the source raises "too many values to unpack" while the corrected evaluation succeeds |
| Text.Split | pftracker/modules/metrics/eval_2DFace.py:60 | at least one piece, and no piece contains the separator |
| Text.SplitJoin | pftracker/modules/metrics/eval_2DFace.py:60 | joining the pieces of a split gives back the string |
| Text.JoinSplit | pftracker/modules/metrics/eval_2DFace.py:60 | splitting joined separator-free pieces gives back the pieces |
| Text.Strip | pftracker/modules/metrics/eval_2DFace.py:61 | the stripped text is no longer and neither starts nor ends with whitespace |
| Text.StripIsTrimmedSlice | pftracker/modules/metrics/eval_2DFace.py:61 | the stripped text is the slice s[i..j] of the text, everything before i and from j on being whitespace |
| Text.ParseIntOfNatToString | pftracker/modules/metrics/eval_2DFace.py:61-63 | int(str(n)) is n, with or without a trailing newline |
| Text.ParseIntOfStripped | pftracker/modules/metrics/eval_2DFace.py:61-63 | a text that strips to a digit string converts to that string's value |
| Text.LastSegment | pftracker/track.py:121-122 | the last piece of split(".") contains no "." |
| Text.LastSegmentIsSuffix | pftracker/track.py:121-122 | the last piece is t iff t has no separator and is the end of the string, with a separator just before it or at the start |
| Text.LastSegmentOfAppend | pftracker/track.py:255 | text in front of a part that holds the separator does not change the extension |
| Text.BeforeFirst | pftracker/track.py:305 | split(".avi")[:-1][0] is the text before the first ".avi", and it fails iff ".avi" does not occur |
| Text.BeforeFirstAvi | pftracker/track.py:305 | a name ending in its only ".avi" keeps everything in front of it |
| Text.NatToString | pftracker/track.py:313 | str(n) is a non-empty run of decimal digits |
| Text.NatToStringValue | pftracker/track.py:313 | the digits of str(n) read back as n |
| Text.ZFill | pftracker/track.py:313 | zfill pads with '0' on the left to the width and keeps the string as its suffix |
| Text.ZFill4RoundTrip | pftracker/track.py:313 | str(k).zfill(4) for k < 10000 is four digits that read back as k |
| InterfacingUI.ParticleTracker.constructor | pftracker/modules/interfacingUI.py:75-119 | every setting is stored; the resample, estimate, detector and state-space labels are replaced by their internal names; any other value is kept |
| InterfacingUI.ParticleTracker.NormaliseResample | pftracker/modules/interfacingUI.py:89-96 | the if/elif chain maps the four resample labels to their lowercase names and keeps any other value |
| InterfacingUI.ParticleTracker.NormaliseEstimate | pftracker/modules/interfacingUI.py:98-103 | the chain maps the estimate labels to weighted_mean, MAP and robust_mean |
| InterfacingUI.ParticleTracker.NormaliseDetector | pftracker/modules/interfacingUI.py:105-112 | the chain maps the detector labels to HaarCascade, CaffeModel, dlib and nms |
| InterfacingUI.ParticleTracker.NormaliseStateSpace | pftracker/modules/interfacingUI.py:114-119 | the chain maps the state-space labels to dynamic_bbox, 5_variables and 6_variables |
| InterfacingUI.NormaliseIdempotent | pftracker/modules/interfacingUI.py:89-119 | normalising twice equals normalising once when no name is a label |
| InterfacingUI.TablesNamesAreNotLabels | pftracker/modules/interfacingUI.py:89-119 | none of the four tables maps a label to another label |
| InterfacingUI.ConstructorIdempotent | pftracker/modules/interfacingUI.py:75-119 | normalising each of the four labels a second time, as a tracker built from another tracker's settings does, changes nothing |
| InterfacingUI.NormaliseChangesOnlyLabels | pftracker/modules/interfacingUI.py:89-119 | a value changes iff it is a listed label, and then it becomes that label's name |
| InterfacingUI.LabelsReachSupportedNames | pftracker/modules/interfacingUI.py:89-119 | every offered label normalises to a resampler the filter dispatches on, an estimator it implements, and a state space the motion model supports |
| PfTrack.NewTrack | pftracker/track.py:116-139 | constructing raises AssertionError with the path message iff the video is given and its last "." segment is neither "avi" nor "mp4"; otherwise the settings are stored as given |
| PfTrack.Track.constructor | pftracker/track.py:125-139 | every setting is stored as given |
| PfTrack.PathError | pftracker/track.py:250-276 | the paths pass iff gt, errorFile and saveTrackFile are absent or end in "txt" and saveVideo is absent or ends in "avi"; otherwise the first failing check's AssertionError, in source order |
| PfTrack.RunError | pftracker/track.py:315-328 | the run that stops the loop raises its escaped exception; "video closed" raises nothing; a counted run raises exactly when a ground-truth file is given, with the error of its evaluation |
| PfTrack.Track.Run | pftracker/track.py:226-397 | negative iterations raise ValueError; a bad path raises its AssertionError; the webcam is tracked once with saveVideo and raises only what escapes that call; a numbered name without ".avi" raises IndexError; otherwise idx is the run at which the loop stops, an exception escaping a run or raised by the evaluation of a counted run leaves `run` with plot still true, and without one plot is idx != 0 and every run's output name is the numbered one; with a ground-truth file a counted first run raises, and a run that returns has counted nothing |
| PfTrack.Track.RunLoop | pftracker/track.py:309-374 | the loop makes at most `iterations` calls, stops at the first run that closes the video, escapes, or is evaluated, and names run j prefix + zfill(j + 1, 4) + ".avi" when numbered; the error it leaves with is the stopping run's |
| PfTrack.StopIsFirstUncounted | pftracker/track.py:309-328 | every run before the stop is counted; the stop is at most the runs left; without evaluation the run at the stop is not counted; with evaluation the loop stops at the first run |
| PfTrack.CountedRuns | pftracker/track.py:309-374 | idx <= iterations; idx = iterations when every run is counted and none is evaluated; idx = 0 when the first run is not counted or a ground-truth file is given |
| PfTrack.AlwaysClosedCountsNothing | pftracker/track.py:318-319 | when every run ends with "video closed" (the end of a video file raises the same message), no run is counted, nothing is raised and only one tracking call is made |
| PfTrack.WithoutGroundTruthOnlyEscapesRaise | pftracker/track.py:315-326 | without a ground-truth file the runs on a video file raise exactly when the stopping run escapes with an exception |
| PfTrack.GroundTruthRunRaises | pftracker/track.py:326-328 | with a ground-truth file a counted first run raises its evaluation's error, the unpacking ValueError of eval_2DFace.py:69 when the ground-truth lines parse |
| PfTrack.NumberedNamesDistinct | pftracker/track.py:312-313 | distinct runs below 9999 get distinct output names |
| PfTrack.ExampleOutputNames | pftracker/track.py:204-214 | worked examples of the general naming lemmas: "pf_output.avi" over two runs gives pf_output0001.avi and pf_output0002.avi; a single run keeps pf_output.avi |
| PfTrack.BareAviNamePassesCheckButHasNoPrefix | pftracker/track.py:271-305 | the name "avi" passes the output-video check but contains no ".avi", so a numbered run raises |

## Left out

- Randomness: NumPy's `multivariate_normal` draws (dlgModel.py:47, pfAlgorithms.py:164) and filterpy's resamplers are inputs or oracles. Only the shapes and index bounds they guarantee are assumed.
- filterpy's `KalmanFilter.predict` and `update` are one opaque step. It keeps the filter's F, H, Q, R and shapes.
- The observation models (HSV and LBP histograms) are not modelled. `update` and `update_apf` are oracles returning N non-negative likelihoods.
- The self-updating box width (`predictBB.self_updating_bbox`) is not modelled. For the [x, y, Vx, Vy] state it is the `updatedBbox` input of `Visualizations`.
- The face detector is not part of this model; its box is an input of `Initialization`. The reference histogram it computes is not modelled either.
- Video capture, frame reading, windows, keys, drawing, the video writer (`saveOutputVideo`), writing estimates and errors to files, and printing are left out. What is kept is the frame-read outcome, the window-closed flag and how each run ended: the text of the NameError that runFilter.py:67 catches with the track recorded so far, or an exception that escapes the run.
- `face_tracking`, `save_estimation`, `eval_pf` and `get_pf_est` in interfacingUI.py are not modelled. They only build the collaborators and delegate. The same goes for the driver loop in runFilter.py with its timings.
- Floating point: all values are exact reals. NumPy's NaN from 0/0 is `None`. Rounding and truncation are written out where the source uses them.
- In-place writes (`particles[:, :] = ...`): the model returns new values. The aliasing of the caller's array is not modelled: APF overwrites the particles it was given before prediction, and the source always reassigns that array from the result.
- The argsort tie order of `np.argsort`: the model uses a stable descending sort. Where weights tie, NumPy's quicksort may order the robust-mean indices differently, so the robust mean is exactly the source's only when no kept and dropped weights tie.
- The precision and recall standard deviations (`np.std`, eval_2DFace.py:79-80, track.py:418-419) are not modelled: they need square roots. `EvalFace.Evaluate` returns the per-frame scores and their means.
- The accumulation of P, R, timings and F1 over runs in `Track.run` (track.py:321-364, 398-436) is not modelled. Neither are the plots. `PfTrack.Track.Run` keeps the run counting, the numbered names and the plot flag.
- The F1 scores that `calc_PrecRecall` returns are computed, but the corrected `error` drops them. The callers disagree on that intent: eval_2DFace.py:82, FaceModel_2D.py:329 and trackUI.py:311 pass on or unpack six values without F1, while track.py:328 unpacks eight names, F1Score_i and F1Score_std_i among them (stored at track.py:345-346).
- PfTrack.Track.Run evaluates a counted run with `error` as written, so the run raises the unpacking ValueError of eval_2DFace.py:69 (or the error of reading the ground-truth file). Even the corrected `error` would fail there: line 328 of track.py unpacks its six values into eight names and raises ValueError ("not enough values to unpack"). Either way no run with a ground-truth file is counted, and the accumulation that follows line 328 is never reached.
- `int()` of a field accepts an optional sign and ASCII digits after `strip()`. Underscore separators and non-ASCII digits are not modelled.
- Engine.PFiltering.SIS and the other cycles require that the sum being normalised is positive. The source has no guard at pfAlgorithms.py:190, 289 and 312, and NumPy would divide by zero there.
- Filter.RobustMean: an empty robust slice (N_robust = 0, as round(robustPercent * N / 100) gives for the default robustPercent of 20 and N <= 2) divides an empty array by 0 and sums no column; the model writes NumPy's result, the zero vector, without modelling the division.
- Text.Strip removes ASCII whitespace only (space, tab, line feed, carriage return, vertical tab, form feed). Python's `str.strip` also removes the separators '\x1c' to '\x1f', '\x85', '\xa0' and the other Unicode spaces; a ground-truth field surrounded by those is parsed by the source and rejected by the model.
- PrecRecall.CalcPrecRecall and PrecRecall.Overlaps require as many detections as ground-truth boxes. The source's `error` always builds them that way.
- FaceModel.FaceTracking2D.Visualizations requires that `initialization` has written the track. Before that, the source has no `self.track` to append to.
- PfTrack.NumberedNamesDistinct is stated for runs below 9999. Beyond that, zfill(4) no longer pads, and distinctness would need a length argument.
- PfTrack.Track: the attributes `ii`, `idx` and `plot` exist in the source only after the first `run`. The model gives them initial values in the constructor.
- PfTrack.Track.Run does not model the second check of `errorFile` at track.py:298. After the check at line 262 it cannot fail.
- EvalFace.GtRow: the error message of the broadcast ValueError is a fixed text. NumPy's message also names the shape of the assigned list.
- PfTrack: track.py:9 imports `ParticleTracker` from interfacingUI, which defines only the class `particle_tracker` (interfacingUI.py:22; trackUI.py:20 imports it under that name). As written, importing track.py raises ImportError, so `Track` never exists, unless a package alias that is not part of this model supplies the name. The model assumes that the import resolves to `particle_tracker` and that track.py:243 builds that class.

## Findings

| source | as written | input that shows it | evidently intended | confidence | as-written member | corrected member |
|---|---|---|---|---|---|---|
| pftracker/modules/metrics/eval_2DFace.py:69 | `P, R = calc_PrecRecall(det, gt)` unpacks the three results precision, recall and F1Score into two names, which raises ValueError on every input | one estimate (10, 10, 4, 4) with the ground-truth line "10,10,4,4" | take precision and recall and drop F1, `P, R, _ = calc_PrecRecall(det, gt)`, as the six results of line 82 and the callers at FaceModel_2D.py:329 and trackUI.py:311 expect (track.py:328 expects F1 as well; see "Left out") | not executed | EvalFace.EvaluateTrackAsWritten | EvalFace.EvaluateTrack |
