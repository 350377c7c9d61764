/**
  Centre <-> corner conversion of box coordinates: `xywh2xyxy_np` and the
  inverse formulas written inline at the end of `ImgAug.__call__`.
 */
module Convert {
  import opened Samples

  /** The four coordinate columns of a row, `boxes[:, 1:]`. Read as
      (cx, cy, w, h) in centre format or (x1, y1, x2, y2) in corner format. */
  datatype Quad = Quad(q0: real, q1: real, q2: real, q3: real)

  /** The coordinate columns 1..4 of a box. */
  function Coords(b: Box): Quad
  {
    Quad(b.c1, b.c2, b.c3, b.c4)
  }

  /** A box with the given class label in column 0 and coordinates in columns 1..4. */
  function WithCoords(classLabel: real, q: Quad): (b: Box)
    ensures b.classLabel == classLabel && Coords(b) == q
  {
    Box(classLabel, q.q0, q.q1, q.q2, q.q3)
  }

  /** Centre format to corner format for one row. The corners are the unique
      pair whose midpoint is the centre and whose difference is the size. */
  function XywhToXyxy(q: Quad): (r: Quad)
    ensures (r.q0 + r.q2) / 2.0 == q.q0 && (r.q1 + r.q3) / 2.0 == q.q1
    ensures r.q2 - r.q0 == q.q2 && r.q3 - r.q1 == q.q3
  {
    Quad(q.q0 - q.q2 / 2.0, q.q1 - q.q3 / 2.0, q.q0 + q.q2 / 2.0, q.q1 + q.q3 / 2.0)
  }

  /** Corner format to centre format for one row, as `ImgAug` rebuilds its
      output rows from the augmented corner boxes. */
  function XyxyToXywh(q: Quad): (r: Quad)
    ensures r.q0 - r.q2 / 2.0 == q.q0 && r.q1 - r.q3 / 2.0 == q.q1
    ensures r.q0 + r.q2 / 2.0 == q.q2 && r.q1 + r.q3 / 2.0 == q.q3
  {
    Quad((q.q0 + q.q2) / 2.0, (q.q1 + q.q3) / 2.0, q.q2 - q.q0, q.q3 - q.q1)
  }

  /** `xywh2xyxy_np`: the conversion applied to every row of an N x 4 array,
      row count kept. */
  function XywhToXyxyRows(xs: seq<Quad>): (ys: seq<Quad>)
    ensures |ys| == |xs|
    ensures forall i :: 0 <= i < |xs| ==> ys[i] == XywhToXyxy(xs[i])
  {
    if |xs| == 0 then []
    else [XywhToXyxy(xs[0])] + XywhToXyxyRows(xs[1..])
  }

  /** Centre to corner and back to centre is the identity. */
  lemma CornerRoundTrip(q: Quad)
    ensures XyxyToXywh(XywhToXyxy(q)) == q
  {
  }

  /** Corner to centre and back to corner is the identity. */
  lemma CentreRoundTrip(q: Quad)
    ensures XywhToXyxy(XyxyToXywh(q)) == q
  {
  }

  /** The corners come out ordered exactly when the width and the height are
      not negative. */
  lemma CornersOrdered(q: Quad)
    ensures XywhToXyxy(q).q0 <= XywhToXyxy(q).q2 <==> q.q2 >= 0.0
    ensures XywhToXyxy(q).q1 <= XywhToXyxy(q).q3 <==> q.q3 >= 0.0
  {
  }
}
