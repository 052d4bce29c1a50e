# Camera animation exporter, modelled in Dafny

This is a model of the Blender add-on "Export Camera Animation". Its operator
`export.camera_animation` steps the scene's current-frame cursor through the
playback range `frame_start .. frame_end` and samples the active camera at each
frame. A sample holds the camera's location, its Euler rotation and its lens
angle in degrees. The operator collects one snapshot per frame and writes the
document `{start_frame, end_frame, camera_animation}` to a JSON file. It first
creates the file's parent directory if that is missing. Before the file picker
opens, `invoke` fills in a default destination, `//camera_animation.json`.

Files:

- `sampling.dfy` (module `Sampling`) holds the values: a snapshot, the export
  document, Python's `range`, and the sweep as a pure function of the camera's
  per-frame state (`Sweep`, `Export`). It also holds the lemmas about them.
- `host.dfy` (module `Host`) holds the collaborators. `Scene` is a class with a
  mutable cursor, a ghost trace of `frame_set` calls and camera reads, and a
  per-frame camera-state oracle `stateAt`. `FileSystem` is a class of directories and files. `Library`
  bundles the library functions, which are left abstract.
- `operator.dfy` (module `CameraExport`) holds the operator class.
  `ExportCameraAnimation.Execute` is the frame sweep, a `while` loop over the
  scene object. `Invoke` is the default-path rule.

The camera read inside the loop is `Scene.ReadCamera()`, which returns
`stateAt(currentFrame)`. Each `frame_set` and each camera read is recorded in
the scene's ghost event trace. The postcondition of `Execute` says two things.
The trace grows by `SweepTrace(start, end + 1)`, which is `Set(f), Read(f)` for
each frame `f` in turn. Snapshot `i` is `stateAt(start + i)`. So every read of
frame `f` happens right after `frame_set(f)` and before the next `frame_set`.

Behaviour of the code worth noting:

- The code reads the camera object's own `location` and `rotation_euler`, not a
  world-space transform.
- A range with `frame_start > frame_end` is not rejected. The loop runs zero
  times, the document holds an empty `camera_animation`, the cursor is not
  moved, and the file is still written.
- The directory is skipped when anything at all exists at that path (a file
  too), because the guard uses `os.path.exists`.

## Model

| member | source | states |
|---|---|---|
| Sampling.Range | export_camera_animation.py:40 | `range(start, end + 1)` as a sequence of frames; it has `Count(start, end + 1)` elements, none when `start > end` |
| Sampling.RangeAt | export_camera_animation.py:40 | `range(start, end + 1)` has `end - start + 1` elements when `start <= end` and none otherwise; element `i` is `start + i` |
| Sampling.RangeMembership | export_camera_animation.py:40 | a frame is visited exactly when `start <= f <= end`, in both directions |
| Sampling.RangeStrictlyAscending | export_camera_animation.py:40 | frames are visited in strictly ascending order, so none is visited twice |
| Sampling.Capture | export_camera_animation.py:44-53 | the snapshot appended for a frame: that frame's number, the camera's `location` and `rotation_euler` as read, and `degrees` of its lens angle |
| Sampling.Sweep | export_camera_animation.py:40-53 | the list the loop accumulates, as a function: one `Capture` per frame of the range, appended in frame order; its length is the number of frames |
| Sampling.SweepAt | export_camera_animation.py:40-53 | the sweep has one snapshot per visited frame; snapshot `i` carries frame `start + i`, and the location, rotation and `degrees(angle)` of the camera state at that same frame |
| Sampling.SweepFrames | export_camera_animation.py:40-49 | the snapshots' `frame` fields are exactly the sequence of frames passed to `frame_set` |
| Sampling.Export | export_camera_animation.py:36-65 | the document's `start_frame` and `end_frame` are the range bounds read before the sweep. `camera_animation` has exactly `end - start + 1` entries (none if `start > end`), entry `i` is the camera's state at frame `start + i`, and the document is well-formed |
| Sampling.WellFormedFrames | export_camera_animation.py:48-49 | in a well-formed document the frames ascend strictly, and the set of frames equals the integers of `[start_frame, end_frame]`, with none missing and none outside |
| Sampling.InvertedRangeIsEmpty | export_camera_animation.py:40 | with `start > end` the loop visits no frame and `camera_animation` is empty |
| Sampling.SingleFrame | export_camera_animation.py:40-53 | a one-frame range gives exactly one snapshot, for that frame |
| Host.SweepTrace | export_camera_animation.py:40-46 | the scene interactions of the loop: for each frame in order, `frame_set(f)` and then one camera read at `f`; two events per frame |
| Host.SweepTraceAt | export_camera_animation.py:40-46 | in a sweep's trace, event `2i` is `frame_set(start + i)` and event `2i + 1` is the camera read at `start + i`, so each read follows its own `frame_set` and precedes the next |
| Host.Scene.FrameSet | export_camera_animation.py:41 | `frame_set(f)` leaves the cursor at `f` and appends `Set(f)` to the trace, changing nothing else |
| Host.Scene.ReadCamera | export_camera_animation.py:42-46 | `view_layer.update()` and the camera reads return the camera state at the frame the cursor is on, append `Read` of that frame to the trace, and move nothing |
| Host.FileSystem.Exists | export_camera_animation.py:57 | `os.path.exists`: true when a directory or a file is at the path |
| Host.FileSystem.MakeDirs | export_camera_animation.py:58 | a successful `os.makedirs(d)` adds `d` to the directories and leaves the files alone |
| Host.FileSystem.Write | export_camera_animation.py:60-65 | writing replaces whatever was at the path with the document and leaves the directories alone |
| CameraExport.NeedsDirectory | export_camera_animation.py:57 | the guard `out_dir and not os.path.exists(out_dir)`: the directory name is non-empty and nothing is at that path |
| CameraExport.ExportCameraAnimation.Execute | export_camera_animation.py:29-68 | with no camera, it returns CANCELLED after one error report; the scene trace is unchanged (no `frame_set`, no read), and there is no directory and no file. With a camera, the scene trace grows by `SweepTrace(start, end + 1)`: `frame_set(f)` then a read at `f`, for `f` from `start` to `end` in ascending order. The cursor ends at `end`, or stays put when `start > end`. The written file holds `Export(...)` of the bounds read before the sweep. The directory is created exactly when its name is non-empty and nothing exists there. It returns FINISHED after one info report |
| CameraExport.DefaultedPath | export_camera_animation.py:71-72 | a non-empty filepath is kept unchanged; an empty one becomes the resolved default; the result is empty only if both are |
| CameraExport.DefaultedPathIdempotent | export_camera_animation.py:71-72 | a second `invoke` with the same default leaves the filepath as the first one set it |
| CameraExport.ExportCameraAnimation.Invoke | export_camera_animation.py:70-74 | the filepath becomes `DefaultedPath(old filepath, abspath("//camera_animation.json"))` and the result is RUNNING_MODAL |

## Left out

- Blender internals are abstract. `scene.frame_set` is a cursor update. `view_layer.update()` together with the reads of `camera.location`, `camera.rotation_euler` and `camera.data.angle` is the pure oracle `stateAt` at the current frame. `bpy.path.abspath` and `os.path.dirname` are the uninterpreted functions `Library.abspath` and `Library.dirname`.
- Floating-point values are the abstract type `Float`, and `math.degrees` is the uninterpreted function `Library.degrees`. No numeric property of the conversion is modelled.
- JSON text (`json.dump`, `indent=4`) and opening, writing and closing the file are left out. The file's content is the `ExportDocument` value.
- Host.FileSystem.MakeDirs: the model records only the leaf directory, not the missing ancestors that `os.makedirs` also creates.
- `os.makedirs` failures and I/O errors on open or write are left out, because they are filesystem behaviour outside the add-on. So is the case where a file, not a directory, sits at the directory path and the open then fails.
- CameraExport.ExportCameraAnimation.Execute: its contract states the final state of the scene and the filesystem. It does not state when the filesystem changed relative to the sweep. The loop invariant keeps the filesystem unchanged during the sweep. The written document already contains every snapshot, so the write follows the whole sweep.
- `fileselect_add`, `menu_func_export`, `register`, `unregister` and `bl_info` are host registration and UI glue. They are not modelled.
- Concurrent or re-entrant use of the scene cursor is left out. The add-on is single-threaded.
