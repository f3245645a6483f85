/**
 * Images as OpenCV stores them: a rectangular grid of pixels, indexed
 * row first.  `cv2.rotate` is modelled by the way OpenCV implements it,
 * a transpose followed by a flip, and its contract states the index
 * definition of each rotation code.
 */
module Images {

  /** Every row has the width of the first one. */
  predicate Rectangular<P>(g: seq<seq<P>>) {
    forall i :: 0 <= i < |g| ==> |g[i]| == |g[0]|
  }

  /** An OpenCV matrix: rectangular, and either empty or at least one row and one column. */
  type Grid<P> = g: seq<seq<P>> | Rectangular(g) && (|g| > 0 ==> |g[0]| > 0) witness []

  function Rows<P>(g: Grid<P>): nat {
    |g|
  }

  function Cols<P>(g: Grid<P>): nat {
    if |g| == 0 then 0 else |g[0]|
  }

  /** `cv::transpose`: row i of the result is column i of the input. */
  function Transpose<P>(g: Grid<P>): (t: Grid<P>)
    ensures Rows(t) == Cols(g) && Cols(t) == Rows(g)
    ensures forall i, j :: 0 <= i < Rows(t) && 0 <= j < Cols(t) ==> t[i][j] == g[j][i]
  {
    var t := seq(Cols(g), i requires 0 <= i < Cols(g) =>
      seq(Rows(g), j requires 0 <= j < Rows(g) => g[j][i]));
    assert |t| > 0 ==> |t[0]| == Rows(g) > 0;
    t
  }

  /** Reverses the order of the rows (a mirror around the x axis). */
  function MirrorRows<P>(g: Grid<P>): (f: Grid<P>)
    ensures Rows(f) == Rows(g) && Cols(f) == Cols(g)
    ensures forall i, j :: 0 <= i < Rows(f) && 0 <= j < Cols(f) ==> f[i][j] == g[Rows(g) - 1 - i][j]
  {
    seq(Rows(g), i requires 0 <= i < Rows(g) => g[Rows(g) - 1 - i])
  }

  /** Reverses every row (a mirror around the y axis). */
  function MirrorCols<P>(g: Grid<P>): (f: Grid<P>)
    ensures Rows(f) == Rows(g) && Cols(f) == Cols(g)
    ensures forall i, j :: 0 <= i < Rows(f) && 0 <= j < Cols(f) ==> f[i][j] == g[i][Cols(g) - 1 - j]
  {
    var h, w := Rows(g), Cols(g);
    var f := seq(h, i requires 0 <= i < h => seq(w, j requires 0 <= j < w => g[i][w - 1 - j]));
    assert forall i :: 0 <= i < h ==> |f[i]| == w;
    f
  }

  /**
   * `cv::flip`: code 0 mirrors around the x axis, a positive code around
   * the y axis, a negative code around both.
   */
  function Flip<P>(g: Grid<P>, flipCode: int): (f: Grid<P>)
    ensures Rows(f) == Rows(g) && Cols(f) == Cols(g)
    ensures flipCode == 0 ==>
      forall i, j :: 0 <= i < Rows(f) && 0 <= j < Cols(f) ==> f[i][j] == g[Rows(g) - 1 - i][j]
    ensures flipCode > 0 ==>
      forall i, j :: 0 <= i < Rows(f) && 0 <= j < Cols(f) ==> f[i][j] == g[i][Cols(g) - 1 - j]
    ensures flipCode < 0 ==>
      forall i, j :: 0 <= i < Rows(f) && 0 <= j < Cols(f) ==> f[i][j] == g[Rows(g) - 1 - i][Cols(g) - 1 - j]
  {
    if flipCode == 0 then MirrorRows(g)
    else if flipCode > 0 then MirrorCols(g)
    else MirrorRows(MirrorCols(g))
  }

  /** The three codes `cv2.rotate` accepts. */
  datatype RotateCode = Rotate90Clockwise | Rotate180 | Rotate90Counterclockwise

  /**
   * `cv2.rotate(src, code)`.  A quarter turn swaps height and width; the
   * index laws are OpenCV's definitions of the three codes.
   */
  function Rotate<P>(g: Grid<P>, code: RotateCode): (r: Grid<P>)
    ensures code != Rotate180 ==> Rows(r) == Cols(g) && Cols(r) == Rows(g)
    ensures code == Rotate180 ==> Rows(r) == Rows(g) && Cols(r) == Cols(g)
    ensures code == Rotate90Clockwise ==>
      forall i, j :: 0 <= i < Rows(r) && 0 <= j < Cols(r) ==> r[i][j] == g[Rows(g) - 1 - j][i]
    ensures code == Rotate90Counterclockwise ==>
      forall i, j :: 0 <= i < Rows(r) && 0 <= j < Cols(r) ==> r[i][j] == g[j][Cols(g) - 1 - i]
    ensures code == Rotate180 ==>
      forall i, j :: 0 <= i < Rows(r) && 0 <= j < Cols(r) ==> r[i][j] == g[Rows(g) - 1 - i][Cols(g) - 1 - j]
  {
    match code
    case Rotate90Clockwise => Flip(Transpose(g), 1)
    case Rotate180 => Flip(g, -1)
    case Rotate90Counterclockwise => Flip(Transpose(g), 0)
  }

  /** Two grids of one shape that agree at every index are equal. */
  lemma GridExtensionality<P>(a: Grid<P>, b: Grid<P>)
    requires Rows(a) == Rows(b) && Cols(a) == Cols(b)
    requires forall i, j :: 0 <= i < Rows(a) && 0 <= j < Cols(a) ==> a[i][j] == b[i][j]
    ensures a == b
  {
    forall i | 0 <= i < |a|
      ensures a[i] == b[i]
    {
      assert |a[i]| == Cols(a) && |b[i]| == Cols(b);
    }
  }

  /** A clockwise quarter turn undoes a counterclockwise one. */
  lemma ClockwiseUndoesCounterclockwise<P>(g: Grid<P>)
    ensures Rotate(Rotate(g, Rotate90Counterclockwise), Rotate90Clockwise) == g
  {
    var q := Rotate(g, Rotate90Counterclockwise);
    var back := Rotate(q, Rotate90Clockwise);
    forall i, j | 0 <= i < Rows(back) && 0 <= j < Cols(back)
      ensures back[i][j] == g[i][j]
    {
      assert back[i][j] == q[Rows(q) - 1 - j][i];
    }
    GridExtensionality(back, g);
  }

  /** A counterclockwise quarter turn undoes a clockwise one. */
  lemma CounterclockwiseUndoesClockwise<P>(g: Grid<P>)
    ensures Rotate(Rotate(g, Rotate90Clockwise), Rotate90Counterclockwise) == g
  {
    var q := Rotate(g, Rotate90Clockwise);
    var back := Rotate(q, Rotate90Counterclockwise);
    forall i, j | 0 <= i < Rows(back) && 0 <= j < Cols(back)
      ensures back[i][j] == g[i][j]
    {
      assert back[i][j] == q[j][Cols(q) - 1 - i];
    }
    GridExtensionality(back, g);
  }

  /** Flipping twice gives back the original image. */
  lemma HalfTurnInvolution<P>(g: Grid<P>)
    ensures Rotate(Rotate(g, Rotate180), Rotate180) == g
  {
    var h := Rotate(g, Rotate180);
    var back := Rotate(h, Rotate180);
    forall i, j | 0 <= i < Rows(back) && 0 <= j < Cols(back)
      ensures back[i][j] == g[i][j]
    {
      assert back[i][j] == h[Rows(h) - 1 - i][Cols(h) - 1 - j];
    }
    GridExtensionality(back, g);
  }

  /** A half turn is two clockwise quarter turns. */
  lemma HalfTurnIsTwoClockwise<P>(g: Grid<P>)
    ensures Rotate(g, Rotate180) == Rotate(Rotate(g, Rotate90Clockwise), Rotate90Clockwise)
  {
    var half, q := Rotate(g, Rotate180), Rotate(g, Rotate90Clockwise);
    var twice := Rotate(q, Rotate90Clockwise);
    forall i, j | 0 <= i < Rows(half) && 0 <= j < Cols(half)
      ensures half[i][j] == twice[i][j]
    {
      assert twice[i][j] == q[Rows(q) - 1 - j][i];
    }
    GridExtensionality(half, twice);
  }

  /** A half turn is two counterclockwise quarter turns. */
  lemma HalfTurnIsTwoCounterclockwise<P>(g: Grid<P>)
    ensures Rotate(g, Rotate180) == Rotate(Rotate(g, Rotate90Counterclockwise), Rotate90Counterclockwise)
  {
    var half, q := Rotate(g, Rotate180), Rotate(g, Rotate90Counterclockwise);
    var twice := Rotate(q, Rotate90Counterclockwise);
    forall i, j | 0 <= i < Rows(half) && 0 <= j < Cols(half)
      ensures half[i][j] == twice[i][j]
    {
      assert twice[i][j] == q[j][Cols(q) - 1 - i];
    }
    GridExtensionality(half, twice);
  }
}
