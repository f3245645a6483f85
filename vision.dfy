/**
 * The image-processing collaborators of the web app.  Their internals
 * (OpenCV, imutils, the pyimagesearch motion detector) are floating point
 * or not part of this model, so each call is a field of `Toolkit` holding
 * an arbitrary function: every property proved below holds whatever those
 * functions compute.
 */
module Vision {
  import opened Basics
  import opened Images

  /** A colour pixel in OpenCV's blue-green-red order, or a single-channel one. */
  datatype Pixel = Bgr(blue: byte, green: byte, red: byte) | Luma(level: byte)

  type Frame = Grid<Pixel>

  /** Corners of a detected region of change. */
  datatype Box = Box(minX: int, minY: int, maxX: int, maxY: int)

  /** What `SingleMotionDetector.detect` returns when it finds motion: the threshold image and the box. */
  datatype Motion = Motion(thresh: Frame, box: Box)

  /**
   * The state of a `SingleMotionDetector`: its smoothing weight and the
   * frames folded into its running average so far.  The average itself is
   * a function of these, so they determine everything `detect` can see.
   */
  datatype Detector = Detector(accumWeight: real, folded: seq<Frame>) {
    /** `md.update(gray)`: fold one more frame into the background average. */
    function Update(gray: Frame): Detector {
      this.(folded := folded + [gray])
    }
  }

  /** `SingleMotionDetector(accumWeight=0.1)`: nothing folded yet. */
  const NewDetector: Detector := Detector(0.1, [])

  /** The library calls the pipeline makes, taken as arbitrary functions. */
  datatype Toolkit = Toolkit(
    resize: (Frame, int) -> Frame,                  // imutils.resize(frame, width=...)
    cvtGrey: Frame -> Frame,                        // cv2.cvtColor(frame, cv2.COLOR_BGR2GRAY)
    gaussianBlur: (Frame, int, int, int) -> Frame,  // cv2.GaussianBlur(gray, (kw, kh), sigma)
    detect: (Detector, Frame) -> Option<Motion>,    // md.detect(gray), which leaves md unchanged
    rectangle: (Frame, Box, Pixel, int) -> Frame,   // cv2.rectangle(frame, corners, colour, thickness)
    imencode: (string, Frame) -> (bool, seq<byte>)  // cv2.imencode(ext, frame)
  )

  /** Width every captured frame is resized to. */
  const WORKING_WIDTH: int := 400
  /** Side of the Gaussian blur kernel, and its sigma. */
  const BLUR_KERNEL: int := 7
  const BLUR_SIGMA: int := 0
  /** Colour (red, in BGR order) and thickness of the motion box. */
  const BOX_COLOUR: Pixel := Bgr(0, 0, 255)
  const BOX_THICKNESS: int := 2
  /** File extension that selects the JPEG encoder. */
  const JPEG_EXTENSION: string := ".jpg"
  /** Default of the `--frame-count` option. */
  const DEFAULT_FRAME_COUNT: int := 32
}
