/** The host collaborators the exporter drives: the scene, with its current-frame
    cursor and its per-frame camera evaluation, the filesystem it writes to, and
    the library functions it calls. */
module Host {
  import opened Sampling

  /** Library functions the operator calls and whose behaviour is not modelled:
      `bpy.path.abspath`, `os.path.dirname` and `math.degrees`. */
  datatype Library = Library(abspath: string -> string, dirname: string -> string, degrees: Float -> Float)

  /** One interaction with the scene: `frame_set(f)`, or a read of the camera
      while the cursor is on frame `f`. */
  datatype Event = Set(frame: int) | Read(frame: int)

  /** The interactions of a sweep over `Range(lo, hi)`: for each frame in turn,
      move the cursor there, then read the camera. */
  function SweepTrace(lo: int, hi: int): (t: seq<Event>)
    decreases hi - lo
    ensures |t| == 2 * Count(lo, hi)
  {
    if hi <= lo then [] else SweepTrace(lo, hi - 1) + [Set(hi - 1), Read(hi - 1)]
  }

  /** A sweep alternates strictly: event `2i` moves the cursor to `lo + i` and
      event `2i + 1` reads the camera there, so every read of frame `f` comes
      right after `frame_set(f)` and before the next `frame_set`. */
  lemma {:induction false} SweepTraceAt(lo: int, hi: int)
    decreases hi - lo
    ensures forall k :: 0 <= k < |SweepTrace(lo, hi)| ==>
      SweepTrace(lo, hi)[k] == if k % 2 == 0 then Set(lo + k / 2) else Read(lo + k / 2)
  {
    if lo < hi {
      SweepTraceAt(lo, hi - 1);
    }
  }

  /** A Blender scene as the exporter sees it. `stateAt(f)` is what reading the
      camera gives once the scene has been set to frame `f` and the view layer
      updated; it stands for the host's evaluation engine. */
  class Scene {
    var hasCamera: bool
    var frameStart: int
    var frameEnd: int
    /** The scene's shared current-frame cursor. */
    var currentFrame: int
    /** Every `frame_set` and camera read, in order; kept only for the proofs. */
    ghost var trace: seq<Event>
    const stateAt: int -> CameraState

    constructor (hasCamera: bool, frameStart: int, frameEnd: int, currentFrame: int, stateAt: int -> CameraState)
      ensures this.hasCamera == hasCamera && this.frameStart == frameStart && this.frameEnd == frameEnd
      ensures this.currentFrame == currentFrame && this.stateAt == stateAt && trace == []
    {
      this.hasCamera := hasCamera;
      this.frameStart := frameStart;
      this.frameEnd := frameEnd;
      this.currentFrame := currentFrame;
      this.stateAt := stateAt;
      trace := [];
    }

    /** `scene.frame_set(frame)`: moves the cursor and nothing else. */
    method FrameSet(frame: int)
      modifies this`currentFrame, this`trace
      ensures currentFrame == frame
      ensures trace == old(trace) + [Set(frame)]
    {
      currentFrame := frame;
      trace := trace + [Set(frame)];
    }

    /** `view_layer.update()` followed by reading the camera: the state at the
        frame the cursor is on now. */
    method ReadCamera() returns (state: CameraState)
      modifies this`trace
      ensures state == stateAt(currentFrame)
      ensures trace == old(trace) + [Read(currentFrame)]
    {
      state := stateAt(currentFrame);
      trace := trace + [Read(currentFrame)];
    }
  }

  /** The directories and files on disk, as far as the exporter can tell. */
  class FileSystem {
    var dirs: set<string>
    var files: map<string, ExportDocument>

    constructor (dirs: set<string>, files: map<string, ExportDocument>)
      ensures this.dirs == dirs && this.files == files
    {
      this.dirs := dirs;
      this.files := files;
    }

    /** `os.path.exists(path)`: true for a directory and for a file. */
    predicate Exists(path: string)
      reads this
    {
      path in dirs || path in files
    }

    /** `os.makedirs(dir)` when it succeeds. */
    method MakeDirs(dir: string)
      modifies this`dirs
      ensures dirs == old(dirs) + {dir}
    {
      dirs := dirs + {dir};
    }

    /** Opening `path` for writing and dumping `doc` into it, when that succeeds:
        whatever was at `path` is replaced. */
    method Write(path: string, doc: ExportDocument)
      modifies this`files
      ensures files == old(files)[path := doc]
    {
      files := files[path := doc];
    }
  }
}
