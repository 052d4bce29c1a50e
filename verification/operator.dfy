/** The `export.camera_animation` operator: `execute` sweeps the scene's frame
    range, sampling the active camera at every frame, and writes the result;
    `invoke` fills in a default destination before the file picker opens. */
module CameraExport {
  import opened Sampling
  import opened Host

  datatype Status = Finished | Cancelled | RunningModal

  datatype Level = Error | Info

  /** A message passed to `self.report`. */
  datatype Report = Report(level: Level, message: string)

  const NoCameraMessage := "No active camera in the scene."
  const ExportedMessage := "Camera animation exported to: "

  /** The destination used when none has been chosen, relative to the blend file. */
  const DefaultPath := "//camera_animation.json"

  /** The directory is created only when the destination names one and nothing
      exists there yet. */
  predicate NeedsDirectory(outDir: string, present: bool)
  {
    outDir != "" && !present
  }

  /** The filepath `invoke` leaves behind: an empty one is replaced by the
      resolved default, any other is kept. */
  function DefaultedPath(filepath: string, resolvedDefault: string): (p: string)
    ensures filepath != "" ==> p == filepath
    ensures filepath == "" ==> p == resolvedDefault
    ensures p == "" <==> filepath == "" && resolvedDefault == ""
  {
    if filepath == "" then resolvedDefault else filepath
  }

  /** A second `invoke` with the same default changes nothing. */
  lemma DefaultedPathIdempotent(filepath: string, resolvedDefault: string)
    ensures DefaultedPath(DefaultedPath(filepath, resolvedDefault), resolvedDefault)
         == DefaultedPath(filepath, resolvedDefault)
  {
  }

  class ExportCameraAnimation {
    var filepath: string
    var reports: seq<Report>

    constructor ()
      ensures filepath == "" && reports == []
    {
      filepath := "";
      reports := [];
    }

    /** `execute`: cancel when the scene has no camera; otherwise visit every
        frame of `frame_start .. frame_end` in order, reading the camera after
        moving the cursor there, then create the directory if needed and write
        the document. */
    method Execute(scene: Scene, fs: FileSystem, lib: Library) returns (status: Status)
      modifies this`reports, scene`currentFrame, scene`trace, fs`dirs, fs`files
      // no camera: an error report and nothing else happens
      ensures !old(scene.hasCamera) ==>
        && status == Cancelled
        && reports == old(reports) + [Report(Error, NoCameraMessage)]
        && scene.currentFrame == old(scene.currentFrame)
        && scene.trace == old(scene.trace)
        && fs.dirs == old(fs.dirs) && fs.files == old(fs.files)
      // a camera: every frame of the range is visited in order, then the document is written
      ensures old(scene.hasCamera) ==>
        var start, end := old(scene.frameStart), old(scene.frameEnd);
        var outPath := lib.abspath(filepath);
        var outDir := lib.dirname(outPath);
        && status == Finished
        && scene.trace == old(scene.trace) + SweepTrace(start, end + 1)
        && scene.currentFrame == (if start <= end then end else old(scene.currentFrame))
        && fs.dirs == (if NeedsDirectory(outDir, old(fs.Exists(outDir))) then old(fs.dirs) + {outDir} else old(fs.dirs))
        && fs.files == old(fs.files)[outPath := Export(scene.stateAt, lib.degrees, start, end)]
        && reports == old(reports) + [Report(Info, ExportedMessage + outPath)]
    {
      if !scene.hasCamera {
        reports := reports + [Report(Error, NoCameraMessage)];
        return Cancelled;
      }

      var startFrame := scene.frameStart;
      var endFrame := scene.frameEnd;
      var cameraData: seq<Snapshot> := [];

      var frame := startFrame;
      while frame < endFrame + 1
        invariant startFrame <= frame && (frame <= endFrame + 1 || frame == startFrame)
        invariant cameraData == Sweep(scene.stateAt, lib.degrees, startFrame, frame)
        invariant scene.trace == old(scene.trace) + SweepTrace(startFrame, frame)
        invariant scene.currentFrame == if frame == startFrame then old(scene.currentFrame) else frame - 1
        invariant scene.frameStart == startFrame && scene.frameEnd == endFrame
        invariant fs.dirs == old(fs.dirs) && fs.files == old(fs.files)
        invariant reports == old(reports)
        decreases endFrame + 1 - frame
      {
        scene.FrameSet(frame);
        var state := scene.ReadCamera();
        cameraData := cameraData + [Capture(frame, state, lib.degrees)];
        frame := frame + 1;
      }

      var outPath := lib.abspath(filepath);
      var outDir := lib.dirname(outPath);
      if outDir != "" && !fs.Exists(outDir) {
        fs.MakeDirs(outDir);
      }

      fs.Write(outPath, ExportDocument(startFrame, endFrame, cameraData));
      reports := reports + [Report(Info, ExportedMessage + outPath)];
      return Finished;
    }

    /** `invoke`: fill in the default destination when none is set, then hand
        over to the file picker. */
    method Invoke(lib: Library) returns (status: Status)
      modifies this`filepath
      ensures filepath == DefaultedPath(old(filepath), lib.abspath(DefaultPath))
      ensures old(filepath) != "" ==> filepath == old(filepath)
      ensures status == RunningModal
    {
      if filepath == "" {
        filepath := lib.abspath(DefaultPath);
      }
      return RunningModal;
    }
  }
}
