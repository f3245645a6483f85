/**
 * One iteration of the producer loop of `detect_motion`, as a function of
 * the shared state before it: capture, resize, derive the detection frame,
 * run the warm-up-gated detector, draw the motion box in overlay mode,
 * update the background model, count the frame, apply the transform the
 * action code selects, and publish the result into the single output slot.
 */
module Pipeline {
  import opened Basics
  import opened Images
  import opened Vision
  import opened Actions

  /** The calls into the motion detector and the drawing routine, in the order they are made. */
  datatype Call = Detect(detector: Detector, gray: Frame) | Update(gray: Frame) | Rectangle(box: Box)

  datatype CallKind = DetectCall | UpdateCall | RectangleCall

  function Kind(c: Call): CallKind {
    match c
    case Detect(_, _) => DetectCall
    case Update(_) => UpdateCall
    case Rectangle(_) => RectangleCall
  }

  /** How many calls of one kind a log holds. */
  function Count(calls: seq<Call>, k: CallKind): nat
    decreases |calls|
  {
    if |calls| == 0 then 0
    else Count(calls[..|calls| - 1], k) + (if Kind(calls[|calls| - 1]) == k then 1 else 0)
  }

  /**
   * The state shared by the route handlers, the producer and the readers:
   * the `cameraAction` and `outputFrame` globals, the producer's frame
   * counter `total` and motion detector, and the log of detector and
   * drawing calls.
   */
  datatype AppState = AppState(action: int, total: nat, output: Option<Frame>, detector: Detector, calls: seq<Call>)

  /** At start-up: code 0, an empty slot, no frame read, a fresh detector. */
  const INIT: AppState := AppState(0, 0, None, NewDetector, [])

  /** What a route handler does to the shared state. */
  function ApplyRoute(st: AppState, r: Route): (s: AppState)
    ensures s.action == Code(r)
    ensures s.(action := st.action) == st
  {
    st.(action := Code(r))
  }

  /** The producer has seen enough frames for a stable background model. */
  predicate Warm(total: nat, frameCount: int) {
    total > frameCount
  }

  /** The resized colour frame of a capture. */
  function Resized(tk: Toolkit, raw: Frame): Frame {
    tk.resize(raw, WORKING_WIDTH)
  }

  /** The greyscale, blurred frame the detector works on. */
  function DetectionFrame(tk: Toolkit, raw: Frame): Frame {
    tk.gaussianBlur(tk.cvtGrey(Resized(tk, raw)), BLUR_KERNEL, BLUR_KERNEL, BLUR_SIGMA)
  }

  /** The detector's answer in this cycle: it is asked only after the warm-up. */
  function Detected(tk: Toolkit, frameCount: int, st: AppState, raw: Frame): Option<Motion> {
    if Warm(st.total, frameCount) then tk.detect(st.detector, DetectionFrame(tk, raw)) else None
  }

  /** The box is drawn when motion was found and the overlay mode is selected. */
  predicate Boxed(tk: Toolkit, frameCount: int, st: AppState, raw: Frame) {
    Detected(tk, frameCount, st, raw).Some? && st.action == OVERLAY_CODE
  }

  /** The frame handed to the transform: the resized capture, with the box drawn on it when `Boxed`. */
  function Marked(tk: Toolkit, frameCount: int, st: AppState, raw: Frame): Frame {
    if Boxed(tk, frameCount, st, raw)
    then tk.rectangle(Resized(tk, raw), Detected(tk, frameCount, st, raw).value.box, BOX_COLOUR, BOX_THICKNESS)
    else Resized(tk, raw)
  }

  /**
   * The transform chain on the action code.  Codes 1 to 3 have inverse
   * codes among themselves and 4 replaces the frame by its greyscale
   * conversion; every other code leaves the frame alone.
   */
  function Dispatch(tk: Toolkit, code: int, frame: Frame): (r: Frame)
    ensures code == 1 || code == 2 ==> Rows(r) == Cols(frame) && Cols(r) == Rows(frame)
    ensures code == 3 ==> Rows(r) == Rows(frame) && Cols(r) == Cols(frame)
    ensures !(1 <= code <= 4) ==> r == frame
  {
    if code == 1 then Rotate(frame, Rotate90Counterclockwise)
    else if code == 2 then Rotate(frame, Rotate90Clockwise)
    else if code == 3 then Rotate(frame, Rotate180)
    else if code == 4 then tk.cvtGrey(frame)
    else frame
  }

  /** The calls one cycle makes, in order. */
  function CycleCalls(tk: Toolkit, frameCount: int, st: AppState, raw: Frame): seq<Call> {
    var gray := DetectionFrame(tk, raw);
    (if Warm(st.total, frameCount) then [Detect(st.detector, gray)] else [])
    + (if Boxed(tk, frameCount, st, raw) then [Rectangle(Detected(tk, frameCount, st, raw).value.box)] else [])
    + [Update(gray)]
  }

  /** One iteration of the producer loop. */
  function Cycle(tk: Toolkit, frameCount: int, st: AppState, raw: Frame): (r: AppState)
    ensures r.action == st.action
    ensures r.total == st.total + 1
    ensures r.output.Some?
    ensures r.detector.accumWeight == st.detector.accumWeight
    ensures r.detector.folded == st.detector.folded + [DetectionFrame(tk, raw)]
    ensures |r.calls| > |st.calls| && r.calls[..|st.calls|] == st.calls
  {
    AppState(
      st.action,
      st.total + 1,
      Some(Dispatch(tk, st.action, Marked(tk, frameCount, st, raw))),
      st.detector.Update(DetectionFrame(tk, raw)),
      st.calls + CycleCalls(tk, frameCount, st, raw))
  }

  lemma {:induction false} CountConcat(a: seq<Call>, b: seq<Call>, k: CallKind)
    ensures Count(a + b, k) == Count(a, k) + Count(b, k)
    decreases |b|
  {
    if |b| == 0 {
      assert a + b == a;
    } else {
      assert (a + b)[..|a + b| - 1] == a + b[..|b| - 1];
      assert (a + b)[|a + b| - 1] == b[|b| - 1];
      CountConcat(a, b[..|b| - 1], k);
    }
  }

  /**
   * Each cycle calls `update` exactly once, as its last detector call and
   * on the cycle's detection frame; it calls `detect` iff the warm-up is
   * over, first, and on the detector as it stood before this cycle's
   * update; it draws the box iff detection ran, found motion and the
   * overlay code is selected.
   */
  lemma CycleCallOrder(tk: Toolkit, frameCount: int, st: AppState, raw: Frame)
    ensures var added := CycleCalls(tk, frameCount, st, raw);
      && Cycle(tk, frameCount, st, raw).calls == st.calls + added
      && Count(added, UpdateCall) == 1
      && added[|added| - 1] == Update(DetectionFrame(tk, raw))
      && (Count(added, DetectCall) == 1 <==> Warm(st.total, frameCount))
      && (Count(added, DetectCall) == 0 <==> !Warm(st.total, frameCount))
      && (Warm(st.total, frameCount) ==> added[0] == Detect(st.detector, DetectionFrame(tk, raw)))
      && (Count(added, RectangleCall) == 1 <==>
            Warm(st.total, frameCount) && tk.detect(st.detector, DetectionFrame(tk, raw)).Some? && st.action == OVERLAY_CODE)
      && (Count(added, RectangleCall) == 0 <==> !Boxed(tk, frameCount, st, raw))
  {
    var gray := DetectionFrame(tk, raw);
    var probe: seq<Call> := if Warm(st.total, frameCount) then [Detect(st.detector, gray)] else [];
    var box: seq<Call> := if Boxed(tk, frameCount, st, raw) then [Rectangle(Detected(tk, frameCount, st, raw).value.box)] else [];
    assert CycleCalls(tk, frameCount, st, raw) == probe + box + [Update(gray)];
    forall k
      ensures Count(CycleCalls(tk, frameCount, st, raw), k) == Count(probe, k) + Count(box, k) + Count([Update(gray)], k)
    {
      CountConcat(probe + box, [Update(gray)], k);
      CountConcat(probe, box, k);
    }
    assert Count(probe, RectangleCall) == 0 && Count(probe, UpdateCall) == 0;
    assert Count(box, DetectCall) == 0 && Count(box, UpdateCall) == 0;
    assert Count([Update(gray)], UpdateCall) == 1;
  }

  /**
   * The frame a cycle publishes is the resized capture with exactly one
   * operation applied: the rotation or the greyscale conversion its code
   * selects, the motion box in overlay mode when motion was found, or
   * nothing.  A box never comes together with a rotation or greyscale.
   */
  lemma CyclePublishes(tk: Toolkit, frameCount: int, st: AppState, raw: Frame)
    ensures var out := Cycle(tk, frameCount, st, raw).output.value; var f := tk.resize(raw, WORKING_WIDTH);
      && (st.action == 1 ==> out == Rotate(f, Rotate90Counterclockwise))
      && (st.action == 2 ==> out == Rotate(f, Rotate90Clockwise))
      && (st.action == 3 ==> out == Rotate(f, Rotate180))
      && (st.action == 4 ==> out == tk.cvtGrey(f))
      && (st.action == 5 && Warm(st.total, frameCount) && tk.detect(st.detector, DetectionFrame(tk, raw)).Some? ==>
            out == tk.rectangle(f, tk.detect(st.detector, DetectionFrame(tk, raw)).value.box, BOX_COLOUR, BOX_THICKNESS))
      && (st.action == 5 && !(Warm(st.total, frameCount) && tk.detect(st.detector, DetectionFrame(tk, raw)).Some?) ==> out == f)
      && (!(1 <= st.action <= 5) ==> out == f)
  {
  }

  /** Selecting the inverse code undoes every geometric transform. */
  lemma {:induction false} DispatchUndo(tk: Toolkit, frame: Frame)
    ensures Dispatch(tk, 2, Dispatch(tk, 1, frame)) == frame
    ensures Dispatch(tk, 1, Dispatch(tk, 2, frame)) == frame
    ensures Dispatch(tk, 3, Dispatch(tk, 3, frame)) == frame
    ensures Dispatch(tk, 3, frame) == Dispatch(tk, 2, Dispatch(tk, 2, frame))
  {
    ClockwiseUndoesCounterclockwise(frame);
    CounterclockwiseUndoesClockwise(frame);
    HalfTurnInvolution(frame);
    HalfTurnIsTwoClockwise(frame);
  }
}
