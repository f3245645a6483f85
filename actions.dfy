/**
 * The process-wide `cameraAction` code and the routes that set it.  Each
 * route overwrites the code with its own constant, whatever it was before.
 */
module Actions {

  /** The routes that change `cameraAction`; `/video_feed` does not. */
  datatype Route = Index | RotateLeft | RotateRight | FlipImage | GreyScale | MotionDetection

  /** The code each route stores. */
  function Code(r: Route): (c: int)
    ensures 0 <= c <= 5
  {
    match r
    case Index => 0
    case RotateLeft => 1
    case RotateRight => 2
    case FlipImage => 3
    case GreyScale => 4
    case MotionDetection => 5
  }

  /** The code of the motion-overlay route, the one the producer tests before drawing. */
  const OVERLAY_CODE: int := 5

  /** The route that stores a given code: every code 0..5 is reachable from any state. */
  function RouteFor(c: int): (r: Route)
    requires 0 <= c <= 5
    ensures Code(r) == c
  {
    if c == 0 then Index else if c == 1 then RotateLeft else if c == 2 then RotateRight
    else if c == 3 then FlipImage else if c == 4 then GreyScale else MotionDetection
  }

  /** Different routes store different codes. */
  lemma CodesAreOneToOne()
    ensures forall r1, r2 :: Code(r1) == Code(r2) ==> r1 == r2
    ensures forall r :: RouteFor(Code(r)) == r
  {
  }
}
