/**
 * The web app's mutable state and its loops.  `Camera` holds the globals
 * `cameraAction` and `outputFrame` together with the producer's counter
 * `total` and detector `md`; its methods are the route handlers, one
 * iteration of the producer loop and one iteration of the reader loop,
 * each proved against the functions of Pipeline and Streaming.
 */
module CameraControl {
  import opened Basics
  import opened Images
  import opened Vision
  import opened Multipart
  import opened Actions
  import opened Pipeline
  import opened Streaming
  import opened Schedule

  class Camera {
    /** The image-processing calls the loops make. */
    const tk: Toolkit
    /** The warm-up length passed to `detect_motion`. */
    const frameCount: int

    var cameraAction: int
    var outputFrame: Option<Frame>
    var total: nat
    var md: Detector
    /** The detector and drawing calls made so far, in order. */
    ghost var calls: seq<Call>

    ghost function State(): AppState
      reads this
    {
      AppState(cameraAction, total, outputFrame, md, calls)
    }

    /** Module load and the start of the producer thread. */
    constructor (tk: Toolkit, frameCount: int)
      ensures this.tk == tk && this.frameCount == frameCount
      ensures State() == INIT
    {
      this.tk := tk;
      this.frameCount := frameCount;
      outputFrame := None;
      cameraAction := 0;
      md := NewDetector;
      total := 0;
      calls := [];
    }

    /** `/`: back to the plain feed. */
    method Index()
      modifies this`cameraAction
      ensures State() == ApplyRoute(old(State()), Route.Index)
    {
      cameraAction := 0;
    }

    /** `/rotate-left` */
    method RotateLeft()
      modifies this`cameraAction
      ensures State() == ApplyRoute(old(State()), Route.RotateLeft)
    {
      cameraAction := 1;
    }

    /** `/rotate-right` */
    method RotateRight()
      modifies this`cameraAction
      ensures State() == ApplyRoute(old(State()), Route.RotateRight)
    {
      cameraAction := 2;
    }

    /** `/flip-image` */
    method FlipImage()
      modifies this`cameraAction
      ensures State() == ApplyRoute(old(State()), Route.FlipImage)
    {
      cameraAction := 3;
    }

    /** `/grey-scale/` */
    method GreyScale()
      modifies this`cameraAction
      ensures State() == ApplyRoute(old(State()), Route.GreyScale)
    {
      cameraAction := 4;
    }

    /** `/motion-detection/` */
    method MotionDetection()
      modifies this`cameraAction
      ensures State() == ApplyRoute(old(State()), Route.MotionDetection)
    {
      cameraAction := 5;
    }

    /** One iteration of the `detect_motion` loop on the frame the camera delivered. */
    method DetectMotionStep(captured: Frame)
      modifies this`total, this`md, this`outputFrame, this`calls
      ensures State() == Cycle(tk, frameCount, old(State()), captured)
    {
      var frame := tk.resize(captured, WORKING_WIDTH);
      var gray := tk.cvtGrey(frame);
      gray := tk.gaussianBlur(gray, BLUR_KERNEL, BLUR_KERNEL, BLUR_SIGMA);

      if total > frameCount {
        calls := calls + [Detect(md, gray)];
        var motion := tk.detect(md, gray);
        if motion.Some? {
          var box := motion.value.box;
          if cameraAction == 5 {
            calls := calls + [Rectangle(box)];
            frame := tk.rectangle(frame, box, BOX_COLOUR, BOX_THICKNESS);
          }
        }
      }

      calls := calls + [Update(gray)];
      md := md.Update(gray);
      total := total + 1;

      frame := Dispatch(tk, cameraAction, frame);

      outputFrame := Some(frame);
    }

    /** The producer loop over the frames the camera delivers, in order. */
    method DetectMotion(captured: seq<Frame>)
      modifies this`total, this`md, this`outputFrame, this`calls
      ensures State() == Run(tk, frameCount, old(State()), CapturesOf(captured)).state
      ensures total == old(total) + |captured|
    {
      ghost var start := State();
      for i := 0 to |captured|
        invariant State() == Run(tk, frameCount, start, CapturesOf(captured[..i])).state
      {
        ghost var done := CapturesOf(captured[..i]);
        assert CapturesOf(captured[..i + 1]) == done + [Capture(captured[i])];
        RunCapture(tk, frameCount, start, done, captured[i]);
        DetectMotionStep(captured[i]);
      }
      assert captured[..|captured|] == captured;
      RunTotal(tk, frameCount, start, CapturesOf(captured));
      CapturesCount(captured);
    }

    /** One iteration of the `generate` loop: the part it yields, if any. */
    method GenerateStep() returns (part: Option<seq<byte>>)
      ensures part == Iteration(tk, outputFrame)
      ensures part.Some? <==> outputFrame.Some? && tk.imencode(JPEG_EXTENSION, outputFrame.value).0
      ensures part.Some? ==> Unchunk(part.value) == Some(tk.imencode(JPEG_EXTENSION, outputFrame.value).1)
    {
      if outputFrame.None? {
        return None;
      }
      var encoded := tk.imencode(JPEG_EXTENSION, outputFrame.value);
      var flag, encodedImage := encoded.0, encoded.1;
      if !flag {
        return None;
      }
      part := Some(PartHeader + encodedImage + Crlf);
    }
  }

  /** A trace of producer cycles only. */
  function CapturesOf(frames: seq<Frame>): (events: seq<Event>)
    ensures |events| == |frames|
    ensures forall i :: 0 <= i < |frames| ==> events[i] == Capture(frames[i])
  {
    seq(|frames|, i requires 0 <= i < |frames| => Capture(frames[i]))
  }

  lemma {:induction false} CapturesCount(frames: seq<Frame>)
    ensures Captures(CapturesOf(frames)) == |frames|
    decreases |frames|
  {
    if |frames| > 0 {
      var front := frames[..|frames| - 1];
      assert CapturesOf(frames)[..|frames| - 1] == CapturesOf(front);
      CapturesCount(front);
    }
  }

  /**
   * The `generate` loop over a bounded number of iterations, given the
   * slot value each iteration finds: the parts it yields are, in order,
   * those of the iterations that found a frame the encoder accepted.
   */
  method Generate(tk: Toolkit, observed: seq<Option<Frame>>) returns (parts: seq<seq<byte>>)
    ensures parts == Emitted(tk, observed)
  {
    parts := [];
    var i := 0;
    while i < |observed|
      invariant 0 <= i <= |observed|
      invariant parts == Emitted(tk, observed[..i])
    {
      assert observed[..i + 1][..i] == observed[..i];
      var slot := observed[i];
      i := i + 1;
      if slot.None? {
        continue;
      }
      var encoded := tk.imencode(JPEG_EXTENSION, slot.value);
      if !encoded.0 {
        continue;
      }
      parts := parts + [Chunk(encoded.1)];
    }
    assert observed[..i] == observed;
  }
}
