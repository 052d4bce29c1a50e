/** The values the exporter produces: one snapshot of the active camera per
    sampled frame, and the three-field document that holds them. The sweep the
    operator runs over the scene is specified here as pure functions of the
    camera's per-frame state. */
module Sampling {

  /** A floating-point value of the host. The model never computes with one. */
  type Float(==)

  /** A `mathutils.Vector` or `mathutils.Euler` read as its three components. */
  datatype Vec3 = Vec3(x: Float, y: Float, z: Float)

  /** What the host reports for the camera once the scene has been evaluated at
      some frame: the object's own `location` and `rotation_euler` properties
      (not its world matrix) and the lens `angle` in radians. */
  datatype CameraState = CameraState(location: Vec3, rotationEuler: Vec3, angle: Float)

  /** One entry of `camera_animation`. */
  datatype Snapshot = Snapshot(frame: int, location: Vec3, rotationEuler: Vec3, fovDegrees: Float)

  /** The document handed to the writer: `{start_frame, end_frame, camera_animation}`. */
  datatype ExportDocument = ExportDocument(startFrame: int, endFrame: int, cameraAnimation: seq<Snapshot>)

  /** The snapshot appended for `frame` when the camera reads `state`; `degrees`
      stands for `math.degrees`. */
  function Capture(frame: int, state: CameraState, degrees: Float -> Float): Snapshot
  {
    Snapshot(frame, state.location, state.rotationEuler, degrees(state.angle))
  }

  /** The number of integers in `lo .. hi - 1`. */
  function Count(lo: int, hi: int): nat
  {
    if hi <= lo then 0 else hi - lo
  }

  /** Python's `range(lo, hi)`: the integers `lo, lo + 1, ..., hi - 1`. */
  function Range(lo: int, hi: int): (r: seq<int>)
    decreases hi - lo
    ensures |r| == Count(lo, hi)
  {
    if hi <= lo then [] else Range(lo, hi - 1) + [hi - 1]
  }

  /** The snapshots collected by visiting the frames of `Range(lo, hi)` in order,
      the camera reading `stateAt(f)` at frame `f`. */
  function Sweep(stateAt: int -> CameraState, degrees: Float -> Float, lo: int, hi: int): (r: seq<Snapshot>)
    decreases hi - lo
    ensures |r| == Count(lo, hi)
  {
    if hi <= lo then [] else Sweep(stateAt, degrees, lo, hi - 1) + [Capture(hi - 1, stateAt(hi - 1), degrees)]
  }

  lemma {:induction false} RangeAt(lo: int, hi: int)
    decreases hi - lo
    ensures |Range(lo, hi)| == Count(lo, hi)
    ensures forall i :: 0 <= i < |Range(lo, hi)| ==> Range(lo, hi)[i] == lo + i
  {
    if lo < hi {
      RangeAt(lo, hi - 1);
    }
  }

  /** A frame occurs in `Range(lo, hi)` exactly when `lo <= f < hi`. */
  lemma RangeMembership(lo: int, hi: int)
    ensures forall f :: f in Range(lo, hi) <==> lo <= f < hi
  {
    RangeAt(lo, hi);
    var r := Range(lo, hi);
    forall f | lo <= f < hi
      ensures f in r
    {
      assert r[f - lo] == f;
    }
  }

  /** Frames are visited in strictly ascending order, so none repeats. */
  lemma RangeStrictlyAscending(lo: int, hi: int)
    ensures forall i, j :: 0 <= i < j < |Range(lo, hi)| ==> Range(lo, hi)[i] < Range(lo, hi)[j]
  {
    RangeAt(lo, hi);
  }

  /** The sweep holds one snapshot per frame of `Range(lo, hi)`, and the i-th is
      the camera's state at frame `lo + i`. */
  lemma {:induction false} SweepAt(stateAt: int -> CameraState, degrees: Float -> Float, lo: int, hi: int)
    decreases hi - lo
    ensures |Sweep(stateAt, degrees, lo, hi)| == Count(lo, hi)
    ensures forall i :: 0 <= i < Count(lo, hi) ==>
      Sweep(stateAt, degrees, lo, hi)[i] == Capture(lo + i, stateAt(lo + i), degrees)
  {
    if lo < hi {
      SweepAt(stateAt, degrees, lo, hi - 1);
    }
  }

  /** The sweep's frame numbers are exactly the frames visited. */
  lemma SweepFrames(stateAt: int -> CameraState, degrees: Float -> Float, lo: int, hi: int)
    ensures |Sweep(stateAt, degrees, lo, hi)| == |Range(lo, hi)|
    ensures forall i :: 0 <= i < |Range(lo, hi)| ==> Sweep(stateAt, degrees, lo, hi)[i].frame == Range(lo, hi)[i]
  {
    SweepAt(stateAt, degrees, lo, hi);
    RangeAt(lo, hi);
  }

  /** The shape the on-disk format promises: one entry per integer frame of
      `[startFrame, endFrame]`, the i-th for frame `startFrame + i`. */
  ghost predicate WellFormed(doc: ExportDocument)
  {
    |doc.cameraAnimation| == Count(doc.startFrame, doc.endFrame + 1) &&
    forall i :: 0 <= i < |doc.cameraAnimation| ==> doc.cameraAnimation[i].frame == doc.startFrame + i
  }

  /** The document `execute` writes for a scene whose range is `startFrame ..
      endFrame` and whose camera reads `stateAt(f)` at frame `f`. */
  function Export(stateAt: int -> CameraState, degrees: Float -> Float, startFrame: int, endFrame: int): (doc: ExportDocument)
    ensures doc.startFrame == startFrame && doc.endFrame == endFrame
    ensures WellFormed(doc)
    ensures |doc.cameraAnimation| == if startFrame <= endFrame then endFrame - startFrame + 1 else 0
    ensures forall i :: 0 <= i < |doc.cameraAnimation| ==>
      doc.cameraAnimation[i] == Capture(startFrame + i, stateAt(startFrame + i), degrees)
  {
    SweepAt(stateAt, degrees, startFrame, endFrame + 1);
    ExportDocument(startFrame, endFrame, Sweep(stateAt, degrees, startFrame, endFrame + 1))
  }

  /** The frame numbers a document's entries carry. */
  ghost function FramesOf(doc: ExportDocument): set<int>
  {
    set i | 0 <= i < |doc.cameraAnimation| :: doc.cameraAnimation[i].frame
  }

  /** In a well-formed document the frames ascend strictly and are exactly the
      integers of `[startFrame, endFrame]`: none outside, none missing. */
  lemma WellFormedFrames(doc: ExportDocument)
    requires WellFormed(doc)
    ensures forall i, j :: 0 <= i < j < |doc.cameraAnimation| ==>
      doc.cameraAnimation[i].frame < doc.cameraAnimation[j].frame
    ensures forall f :: f in FramesOf(doc) <==> doc.startFrame <= f <= doc.endFrame
  {
    forall f | doc.startFrame <= f <= doc.endFrame
      ensures f in FramesOf(doc)
    {
      var i := f - doc.startFrame;
      assert doc.cameraAnimation[i].frame == f;
    }
  }

  /** A range with `start > end` yields no snapshot at all. */
  lemma InvertedRangeIsEmpty(stateAt: int -> CameraState, degrees: Float -> Float, startFrame: int, endFrame: int)
    requires startFrame > endFrame
    ensures Export(stateAt, degrees, startFrame, endFrame).cameraAnimation == []
    ensures Range(startFrame, endFrame + 1) == []
  {
  }

  /** A one-frame range yields exactly one snapshot, for that frame. */
  lemma SingleFrame(stateAt: int -> CameraState, degrees: Float -> Float, frame: int)
    ensures Export(stateAt, degrees, frame, frame).cameraAnimation == [Capture(frame, stateAt(frame), degrees)]
  {
  }
}
