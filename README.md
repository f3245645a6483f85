# Camera web app: a verified model of its frame pipeline

The repository serves a Raspberry Pi camera over HTTP (`cameraControl.py`).
Six routes choose what is done to the picture by storing a code in the
global `cameraAction`: 0 plain, 1 rotate left, 2 rotate right, 3 flip (a half
turn), 4 greyscale, 5 motion-detection overlay.  A background producer loop
(`detect_motion`) reads a frame, resizes it, derives a blurred greyscale copy
for a motion detector, asks the detector for a motion box once a warm-up of
`frameCount` frames is over, draws the box when the overlay code is selected,
folds the frame into the detector's background model, counts the frame,
applies the transform the code selects and publishes the result into the
single slot `outputFrame`.  Every streaming client runs `generate`, which
JPEG-encodes the slot and yields it as one part of a
`multipart/x-mixed-replace; boundary=frame` response.

The Dafny model:

- `basics.dfy` — `Option` (Python's `None`) and `byte`.
- `images.dfy` — a frame is a rectangular `seq<seq<P>>` (`Grid`); `cv2.rotate`
  is built the way OpenCV builds it (transpose, then flip) and its contract
  gives OpenCV's index definition of each rotation code.
- `vision.dfy` — pixels, frames, the motion box, the detector state, the
  constants of the source (width 400, 7x7 blur with sigma 0, red box of
  thickness 2, `.jpg`, default warm-up 32) and `Toolkit`, a record of the
  library calls (`imutils.resize`, `cv2.cvtColor`, `cv2.GaussianBlur`,
  `md.detect`, `cv2.rectangle`, `cv2.imencode`) as arbitrary functions.
- `multipart.dfy` — the bytes of one streamed part and their inverse.
- `actions.dfy` — the routes and the code each one stores.
- `pipeline.dfy` — the shared state and one producer iteration as a function
  (`Cycle`), with the transform dispatch and a log of detector and drawing
  calls.
- `streaming.dfy` — one `generate` iteration (`Iteration`) and the parts a
  reader yields over a run of iterations (`Emitted`).
- `schedule.dfy` — bounded traces mixing route visits, producer cycles and
  reader iterations, and the properties that hold over them.
- `camera_control.dfy` — class `Camera` holding `cameraAction`,
  `outputFrame`, `total` and the detector as fields, with the route handlers,
  one producer iteration (`DetectMotionStep`), the producer loop over a
  finite list of captures (`DetectMotion`), one reader iteration
  (`GenerateStep`) and the reader loop over the slot values it finds
  (`Generate`).

The detector's state is its smoothing weight (0.1) and the list of frames
folded into it; its running average is a function of those, so `detect` is
an arbitrary function of that state and the current frame, and `update`
appends the frame.  Whatever the library functions compute, the properties
below hold.

The warm-up is one cycle longer than "`frameCount` frames" suggests, and
the model follows the code: it compares `total > frameCount` before `total`
is incremented, so the first `frameCount + 1` cycles never call `detect`
(`Schedule.WarmUpQuiet`, `Schedule.WarmedClosedForm`).

## Model

| member | source | states |
|---|---|---|
| `Actions.Code` | cameraControl.py:120-153 | each route stores one fixed code, always in 0..5 |
| `Actions.RouteFor` | cameraControl.py:120-153 | every code 0..5 is stored by some route, so any state can reach any other |
| `Actions.CodesAreOneToOne` | cameraControl.py:120-153 | different routes store different codes |
| `Images.Rotate` | cameraControl.py:71-78 | OpenCV's index laws for `ROTATE_90_CLOCKWISE`, `ROTATE_90_COUNTERCLOCKWISE` and `ROTATE_180`; quarter turns swap height and width, the half turn keeps them |
| `Images.ClockwiseUndoesCounterclockwise` | cameraControl.py:71-75 | a counterclockwise then a clockwise quarter turn give back the original frame |
| `Images.CounterclockwiseUndoesClockwise` | cameraControl.py:71-75 | a clockwise then a counterclockwise quarter turn give back the original frame |
| `Images.HalfTurnInvolution` | cameraControl.py:77-78 | a half turn applied twice gives back the original frame |
| `Images.HalfTurnIsTwoClockwise` | cameraControl.py:74-78 | a half turn equals two clockwise quarter turns |
| `Images.HalfTurnIsTwoCounterclockwise` | cameraControl.py:71-78 | a half turn equals two counterclockwise quarter turns |
| `Multipart.Chunk` | cameraControl.py:110-111 | a part is as long as header, image and terminator together |
| `Multipart.Unchunk` | cameraControl.py:110-111 | a recognised part yields image bytes 39 bytes shorter than the part |
| `Multipart.FramingLengths` | cameraControl.py:110-111 | the header is 37 bytes and the terminator is CR LF |
| `Multipart.UnchunkChunk` | cameraControl.py:110-111 | stripping header and terminator from a part gives back exactly the image bytes |
| `Multipart.ChunkUnchunk` | cameraControl.py:110-111 | any byte string that unframes to some image bytes is the part of those bytes |
| `Multipart.BoundaryAgrees` | cameraControl.py:110-118 | the delimiter opening each part is `--` plus the boundary named in the response's media type plus CR LF |
| `Pipeline.ApplyRoute` | cameraControl.py:120-153 | each route handler (these five, and `/` at lines 23-28) sets the action code to its own code and changes nothing else |
| `Pipeline.Dispatch` | cameraControl.py:69-81 | codes 1 and 2 swap height and width, code 3 keeps them, codes outside 1..4 return the frame unchanged |
| `Pipeline.Cycle` | cameraControl.py:41-87 | a cycle keeps the action code, raises the counter by exactly one, fills the slot, folds exactly this cycle's detection frame into the detector and only appends to the call log |
| `Pipeline.CycleCallOrder` | cameraControl.py:49-67 | a cycle calls `update` once, last, on its detection frame; calls `detect` iff the counter exceeds `frameCount`, first, on the detector before this cycle's update; draws the box iff detection ran, found motion and the code is 5 |
| `Pipeline.CyclePublishes` | cameraControl.py:56-81 | the published frame is the resized capture with exactly one operation: the rotation or greyscale of codes 1 to 4, the box for code 5 when motion was found, nothing otherwise; a box never comes with a rotation or greyscale |
| `Pipeline.DispatchUndo` | cameraControl.py:71-78 | dispatching the inverse code undoes codes 1, 2 and 3, and code 3 equals code 2 twice |
| `Streaming.Iteration` | cameraControl.py:94-111 | an iteration yields a part iff the slot holds a frame and the encoder reports success, and that part unframes to the encoder's bytes |
| `Streaming.Emitted` | cameraControl.py:89-111 | a reader yields at most one part per iteration and every part unframes to image bytes |
| `Streaming.EmittedConcat` | cameraControl.py:94-111 | parts are yielded in iteration order: two stretches of iterations yield the parts of the first, then those of the second |
| `Streaming.EmittedNothing` | cameraControl.py:97-107 | a reader yields nothing iff every iteration found an empty slot or a failed encoding |
| `Schedule.WarmedClosedForm` | cameraControl.py:52 | none of the counter values 0..frameCount passes the warm-up test and every later one does |
| `Schedule.RunAction` | cameraControl.py:120-153 | after any trace the action code is the code of the last route visited, or the initial code if none was |
| `Schedule.RunActionInRange` | cameraControl.py:14 | starting from a code in 0..5 (the initial 0), the code stays in 0..5 |
| `Schedule.RunActionForgets` | cameraControl.py:120-153 | once a route has been visited, the earlier code has no influence on the current one |
| `Schedule.RunTotal` | cameraControl.py:38-67 | the counter rises by exactly one per producer cycle and by nothing else |
| `Schedule.RunSlotEmpty` | cameraControl.py:86-87 | the slot is empty after a trace iff it was empty before and no producer cycle ran: nothing resets it |
| `Schedule.RunSlotLatest` | cameraControl.py:86-87 | the slot holds the frame published by the most recent producer cycle |
| `Schedule.StepCalls` | cameraControl.py:52-66 | route visits and reader iterations make no detector or drawing call; a cycle adds one update, one detect iff warm, and a box only if warm |
| `Schedule.RunUpdates` | cameraControl.py:64-67 | over a trace, `update` is called exactly once per producer cycle |
| `Schedule.RunDetections` | cameraControl.py:49-62 | over a trace, `detect` is called exactly once per cycle whose counter is past the warm-up |
| `Schedule.RunBoxes` | cameraControl.py:56-62 | over a trace, the box is drawn at most as often as `detect` is called |
| `Schedule.WarmUpQuiet` | cameraControl.py:49-62 | from start-up, the first `frameCount + 1` cycles never call `detect` and never draw a box, whatever the frames |
| `Schedule.DefaultWarmUpQuiet` | cameraControl.py:163-164 | with the default `frameCount` of 32 and the warm-up test at line 52, the first 33 cycles never call `detect` and never draw a box |
| `Schedule.RunSent` | cameraControl.py:94-111 | what the reader sends over a trace is what `generate` yields on the slot values its iterations found |
| `Schedule.RunSilentBeforePublish` | cameraControl.py:97-100 | before the first producer cycle the reader sends nothing |
| `CameraControl.Camera.constructor` | cameraControl.py:13-38 | start-up state: code 0, empty slot, counter 0, fresh detector with weight 0.1 |
| `CameraControl.Camera.Index` | cameraControl.py:23-28 | `/` sets the code to 0 and changes nothing else |
| `CameraControl.Camera.RotateLeft` | cameraControl.py:120-125 | `/rotate-left` sets the code to 1 and changes nothing else |
| `CameraControl.Camera.RotateRight` | cameraControl.py:127-132 | `/rotate-right` sets the code to 2 and changes nothing else |
| `CameraControl.Camera.FlipImage` | cameraControl.py:134-139 | `/flip-image` sets the code to 3 and changes nothing else |
| `CameraControl.Camera.GreyScale` | cameraControl.py:141-146 | `/grey-scale/` sets the code to 4 and changes nothing else |
| `CameraControl.Camera.MotionDetection` | cameraControl.py:148-153 | `/motion-detection/` sets the code to 5 and changes nothing else |
| `CameraControl.Camera.DetectMotionStep` | cameraControl.py:41-87 | one iteration of the producer loop leaves the fields exactly as `Pipeline.Cycle` says |
| `CameraControl.Camera.DetectMotion` | cameraControl.py:30-87 | the producer loop over a list of captures reaches the state of the corresponding trace, and the counter rises by the number of captures |
| `CameraControl.Camera.GenerateStep` | cameraControl.py:94-111 | one reader iteration yields a part iff the slot holds a frame the encoder accepts, and the part unframes to the encoder's bytes |
| `CameraControl.Generate` | cameraControl.py:89-111 | over a bounded run of iterations, the parts yielded are, in order, those of the iterations that found a frame the encoder accepted |

## Left out

- Flask routing, `render_template`, `Response` and `app.run`: web framework I/O. Only the assignment each handler makes to `cameraAction` is modelled; `/video_feed` only wraps `generate` in a response with the media type `Multipart.Mimetype`.
- `VideoStream` capture, `time.sleep(2.0)` and `vs.stop()`: device I/O and timing. The captured frame is an input of each producer cycle. A failed capture (a `None` frame, on which `imutils.resize` raises and the producer thread dies) is not modelled.
- The internals of `SingleMotionDetector` (running average with weight 0.1, threshold, contour search): floating point, in a package that is not part of this model. `detect` is an arbitrary function of the detector state and the frame.
- `imutils.resize`, `cv2.cvtColor`, `cv2.GaussianBlur`, the pixel values of `cv2.rectangle` and `cv2.imencode`: library numerics, arbitrary functions here, with `imencode` returning a flag and bytes.
- `threading.Lock`, the daemon thread and encoding under the lock: concurrency. Each loop iteration is one atomic event of a trace. Consequently the two reads of `cameraAction` in one producer cycle (lines 60 and 71) see the same value. In the source a route handler can run between them, and that cycle could then draw the box and also rotate; `Pipeline.CyclePublishes` holds only under the atomic view.
- More than one streaming client: a trace has one reader. Every further reader runs the same `Iteration` on the same slot.
- The busy-wait of `generate` on an empty slot: no notion of time. An empty slot just yields nothing for that iteration.
- `frame.copy()`: frames are values, so the copy is the frame itself.
- `argparse`: `frameCount` is a parameter (default `Vision.DEFAULT_FRAME_COUNT`, 32); address and port are not modelled.
- The unbounded `while True` loops: the model runs them over finite lists of captured frames and of observed slot values.
