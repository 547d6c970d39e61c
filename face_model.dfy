/**
 * The 2D face target model `FaceTracking_2D`: it builds the initial particle
 * set from the face detector's box, moves particles with the motion model and
 * clips them to the frame, turns a missing frame into the "video closed"
 * signal, and keeps the track of estimates (x, y, bbox, bbox), one entry per
 * frame.
 *
 * The detector, the observation model's likelihoods, the motion noise, the
 * window and keyboard, and the self-updating box width of the [x, y, Vx, Vy]
 * state space are inputs of the operations below.
 */
module FaceModel {
  import opened Wrappers
  import opened Numeric
  import opened Matrices
  import opened DlgModel

  /** The box (startX, startY, endX, endY) the face detector returns. */
  datatype DetectorBox = DetectorBox(startX: int, startY: int, endX: int, endY: int)

  /** One track entry (x, y, w, h); the tracker writes the box width twice. */
  datatype TrackPoint = TrackPoint(x: real, y: real, width: int, height: int)

  /** The exception `close_e` raises, at the end of the video and when the window is closed. */
  const VideoClosed: Error := NameError("video closed")

  /** The supported state vectors have 4, 5 or 6 components. */
  predicate StateSizeOk(sizeV: nat)
  {
    4 <= sizeV <= 6
  }

  /** Centre of the detector box, with the floor division `w // 2`, `h // 2`. */
  function BoxCentre(box: DetectorBox): (c: (int, int))
    ensures box.startX <= box.endX ==> box.startX <= c.0 <= box.endX
    ensures box.startY <= box.endY ==> box.startY <= c.1 <= box.endY
  {
    (box.startX + (box.endX - box.startX) / 2, box.startY + (box.endY - box.startY) / 2)
  }

  /**
   * The state every initial particle gets: the box centre, zero velocities,
   * and the box width as component 4 when the state has one.
   */
  function InitialState(box: DetectorBox, sizeV: nat): (s: seq<real>)
    requires StateSizeOk(sizeV)
    ensures |s| == sizeV
  {
    var c := BoxCentre(box);
    seq(sizeV, d =>
      if d == 0 then c.0 as real
      else if d == 1 then c.1 as real
      else if d == 4 then (box.endX - box.startX) as real
      else 0.0)
  }

  /** Row `row` after `np.round(np.clip(row, 0, hi))`. */
  function ClipRoundRow(row: seq<real>, hi: int): (r: seq<real>)
    ensures |r| == |row|
    ensures hi >= 0 ==> forall j :: 0 <= j < |r| ==> 0.0 <= r[j] <= hi as real
  {
    seq(|row|, j requires 0 <= j < |row| => ClipRound(row[j], hi))
  }

  /** One entry after clipping into [0, hi] and rounding half to even. */
  function ClipRound(x: real, hi: int): (r: real)
    ensures hi >= 0 ==> 0.0 <= r <= hi as real
    ensures 0.0 <= x <= hi as real && x == x.Floor as real ==> r == x
  {
    var c := Clip(x, 0.0, hi as real);
    assert hi >= 0 ==> 0 <= RoundReal(c) <= hi by {
      if hi >= 0 {
        RoundWithinIntegerBounds(c, 0, hi);
      }
    }
    RoundIntegral(c);
    RoundReal(c) as real
  }

  /** `np.round(row)` of a whole row. */
  function RoundRow(row: seq<real>): (r: seq<real>)
    ensures |r| == |row|
    ensures forall j :: 0 <= j < |r| ==> r[j] == r[j].Floor as real
  {
    seq(|row|, j requires 0 <= j < |row| => RoundReal(row[j]) as real)
  }

  lemma RoundIntegral(x: real)
    ensures x == x.Floor as real ==> RoundReal(x) == x.Floor
  {
  }

  class FaceTracking2D {
    /** Number of particles. */
    const N: nat
    /** Size of the state vector. */
    const sizeV: nat
    /** The motion model `dlg`. */
    const movModel: Dlg
    /** (frame width - 1, frame height - 1): the largest x and y a particle may take. */
    const upthreshold: (int, int)
    /** True once `initialization` has written the track. */
    var hasTrack: bool
    /** Width and height of the face box drawn around the estimate. */
    var bbox: int
    /** The estimates, one per frame: (x, y, bbox, bbox). */
    var track: seq<TrackPoint>
    /** Number of `visualizations` calls. */
    var frameCounter: nat
    /** The initial particles as the source stores them, one row per particle. */
    var particles0: Matrix

    ghost predicate Valid()
    {
      StateSizeOk(sizeV) && IsMatrix(movModel.F, sizeV, sizeV)
    }

    /** `__init__` with the first frame's width and height. */
    constructor(movModel: Dlg, n: nat, sizeV: nat, frameWidth: nat, frameHeight: nat)
      requires StateSizeOk(sizeV) && IsMatrix(movModel.F, sizeV, sizeV)
      ensures Valid()
      ensures this.movModel == movModel && N == n && this.sizeV == sizeV
      ensures upthreshold == (frameWidth - 1, frameHeight - 1)
      ensures frameCounter == 0 && !hasTrack && track == []
    {
      this.movModel := movModel;
      N := n;
      this.sizeV := sizeV;
      upthreshold := (frameWidth - 1, frameHeight - 1);
      frameCounter := 0;
      hasTrack := false;
      track := [];
      bbox := 0;
      particles0 := [];
    }

    /** `getEstimation`: the track written so far. */
    function GetEstimation(): seq<TrackPoint>
      reads this
    {
      track
    }

    /**
     * `initialization` for the detector's box: every particle starts at the
     * box centre; the result is the sizeV x N particle matrix.  With no
     * particles reading the first particle for the track raises.
     */
    method Initialization(box: DetectorBox) returns (r: Result<Matrix>)
      requires Valid()
      modifies this`bbox, this`particles0, this`track, this`hasTrack
      ensures bbox == box.endX - box.startX
      ensures IsMatrix(particles0, N, sizeV)
      ensures forall j :: 0 <= j < N ==> particles0[j] == InitialState(box, sizeV)
      ensures N == 0 ==>
        r == Failure(IndexError("index 0 is out of bounds for axis 1 with size 0")) &&
        track == old(track) && hasTrack == old(hasTrack)
      ensures N > 0 ==> r.Success? && IsMatrix(r.value, sizeV, N) && hasTrack
      ensures N > 0 ==>
        forall d, j :: 0 <= d < sizeV && 0 <= j < N ==> r.value[d][j] == InitialState(box, sizeV)[d]
      ensures N > 0 ==>
        var c := BoxCentre(box);
        track == [TrackPoint(c.0 as real, c.1 as real, bbox, bbox)]
    {
      var w := box.endX - box.startX;
      bbox := w;
      var state := InitialState(box, sizeV);
      var rows: Matrix := [];
      var j := 0;
      while j < N
        invariant 0 <= j <= N
        invariant |rows| == j
        invariant forall k :: 0 <= k < j ==> rows[k] == state
      {
        rows := rows + [state];
        j := j + 1;
      }
      particles0 := rows;
      if N == 0 {
        return Failure(IndexError("index 0 is out of bounds for axis 1 with size 0"));
      }
      var particles := Transpose(particles0, sizeV);
      track := [TrackPoint(particles[0][0], particles[1][0], bbox, bbox)];
      hasTrack := true;
      r := Success(particles);
    }

    /**
     * `prediction`: move the particles with the motion model and the noise
     * draw, clip x into [0, width - 1] and y into [0, height - 1] and round
     * them, round the last state component, and pass u_k through.
     */
    method Prediction(particles: Matrix, noise: Matrix) returns (xk: Matrix, uk: Matrix)
      requires Valid() && IsMatrix(particles, sizeV, N) && IsMatrix(noise, sizeV, N)
      ensures var moved := MoveParticles(movModel, particles, N, noise);
        uk == moved.1 && IsMatrix(xk, sizeV, N) &&
        (forall j :: 0 <= j < N ==>
          xk[0][j] == ClipRound(moved.0[0][j], upthreshold.0) &&
          xk[1][j] == ClipRound(moved.0[1][j], upthreshold.1) &&
          xk[sizeV - 1][j] == RoundReal(moved.0[sizeV - 1][j]) as real) &&
        (forall d :: 2 <= d < sizeV - 1 ==> xk[d] == moved.0[d])
      ensures upthreshold.0 >= 0 ==> forall j :: 0 <= j < N ==> 0.0 <= xk[0][j] <= upthreshold.0 as real
      ensures upthreshold.1 >= 0 ==> forall j :: 0 <= j < N ==> 0.0 <= xk[1][j] <= upthreshold.1 as real
    {
      var moved := MoveParticles(movModel, particles, N, noise);
      xk, uk := moved.0, moved.1;
      xk := xk[0 := ClipRoundRow(xk[0], upthreshold.0)];
      xk := xk[1 := ClipRoundRow(xk[1], upthreshold.1)];
      xk := xk[sizeV - 1 := RoundRow(xk[sizeV - 1])];
    }

    /**
     * `update` (and the frame handling of the run): a frame that could not be
     * read ends the video with the "video closed" exception; otherwise the
     * observation model's likelihoods are returned.
     */
    method Update(grabbed: bool, likelihood: seq<real>) returns (r: Result<seq<real>>)
      ensures r.Failure? <==> !grabbed
      ensures r.Failure? ==> r.error == VideoClosed
      ensures r.Success? ==> r.value == likelihood
    {
      if !grabbed {
        var e := CloseE();
        return Failure(e);
      }
      r := Success(likelihood);
    }

    /**
     * The bookkeeping of `visualizations` for one frame's estimate: count the
     * frame, update the box width, append one track entry.  With the
     * [x, y, Vx, Vy] state the box width comes from the self-updating model
     * (`updatedBbox`), except on the first frame; otherwise it is the
     * estimated width truncated to an int.  A closed window raises before the
     * entry is appended.
     */
    method Visualizations(estimate: seq<real>, updatedBbox: int, windowClosed: bool)
      returns (raised: Option<Error>)
      requires Valid() && hasTrack && |estimate| == sizeV
      modifies this`frameCounter, this`bbox, this`track
      ensures frameCounter == old(frameCounter) + 1
      ensures raised == if windowClosed then Some(VideoClosed) else None
      ensures sizeV != 4 ==> bbox == Trunc(estimate[4])
      ensures sizeV == 4 ==>
        bbox == if windowClosed || old(frameCounter) == 0 then old(bbox) else updatedBbox
      ensures track == if windowClosed then old(track)
                       else old(track) + [TrackPoint(estimate[0], estimate[1], bbox, bbox)]
    {
      frameCounter := frameCounter + 1;
      if sizeV == 4 {
        if windowClosed {
          var e := CloseE();
          return Some(e);
        }
        if frameCounter != 1 {
          bbox := updatedBbox;
        }
      } else {
        bbox := Trunc(estimate[4]);
        if windowClosed {
          var e := CloseE();
          return Some(e);
        }
      }
      track := track + [TrackPoint(estimate[0], estimate[1], bbox, bbox)];
      raised := None;
    }

    /** `close_e`: always the "video closed" exception. */
    method CloseE() returns (e: Error)
      ensures e == NameError("video closed")
    {
      e := VideoClosed;
    }
  }

  /** The initial particle sits inside the detector box and carries its width. */
  lemma InitialStateInsideBox(box: DetectorBox, sizeV: nat)
    requires StateSizeOk(sizeV)
    requires box.startX <= box.endX && box.startY <= box.endY
    ensures var s := InitialState(box, sizeV);
      box.startX as real <= s[0] <= box.endX as real &&
      box.startY as real <= s[1] <= box.endY as real &&
      (sizeV != 4 ==> s[4] == (box.endX - box.startX) as real) &&
      forall d :: 2 <= d < sizeV && d != 4 ==> s[d] == 0.0
  {
  }

  /** Clipping and rounding is the identity on pixel positions already inside the frame. */
  lemma ClipRoundKeepsPixels(row: seq<real>, hi: int)
    requires forall j :: 0 <= j < |row| ==> 0.0 <= row[j] <= hi as real && row[j] == row[j].Floor as real
    ensures ClipRoundRow(row, hi) == row
  {
  }
}
