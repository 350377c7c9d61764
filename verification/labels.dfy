/**
  `AbsoluteLabels` and `RelativeLabels`: rescaling the box table between
  fractions of the image and pixels. Both read `h, w, _ = img.shape`, then
  scale columns 1 and 3 by the width and columns 2 and 4 by the height,
  whatever the table holds in those columns.
 */
module Labels {
  import opened Samples

  /** The two leading dimensions of the image shape, which both scalers take
      to be the height and the width. On a tensor these are in fact the
      channel count and the height. */
  function ReadHeight(img: Image): real { img.d0 as real }
  function ReadWidth(img: Image): real { img.d1 as real }

  /** The effect of `boxes[:, [1, 3]] *= w; boxes[:, [2, 4]] *= h` on an N x 5
      table, returned as a new table. */
  function Absolute(bs: seq<Box>, w: real, h: real): (r: seq<Box>)
    ensures |r| == |bs|
    ensures forall i :: 0 <= i < |bs| ==> r[i].classLabel == bs[i].classLabel
    ensures forall i :: 0 <= i < |bs| ==>
      r[i].c1 == bs[i].c1 * w && r[i].c3 == bs[i].c3 * w &&
      r[i].c2 == bs[i].c2 * h && r[i].c4 == bs[i].c4 * h
  {
    seq(|bs|, i requires 0 <= i < |bs| =>
      Box(bs[i].classLabel, bs[i].c1 * w, bs[i].c2 * h, bs[i].c3 * w, bs[i].c4 * h))
  }

  /** The effect of `boxes[:, [1, 3]] /= w; boxes[:, [2, 4]] /= h` on an N x 5
      table, returned as a new table. */
  function Relative(bs: seq<Box>, w: real, h: real): (r: seq<Box>)
    requires w != 0.0 && h != 0.0
    ensures |r| == |bs|
    ensures forall i :: 0 <= i < |bs| ==> r[i].classLabel == bs[i].classLabel
    ensures forall i :: 0 <= i < |bs| ==>
      r[i].c1 * w == bs[i].c1 && r[i].c3 * w == bs[i].c3 &&
      r[i].c2 * h == bs[i].c2 && r[i].c4 * h == bs[i].c4
  {
    seq(|bs|, i requires 0 <= i < |bs| =>
      Box(bs[i].classLabel, bs[i].c1 / w, bs[i].c2 / h, bs[i].c3 / w, bs[i].c4 / h))
  }

  /** The same column scaling on the N x 6 target tensor: there columns 1 and
      3 hold the class label and the second coordinate, columns 2 and 4 the
      first and third coordinates, and columns 0 and 5 are left alone. */
  function AbsoluteTargets(ts: seq<Target>, w: real, h: real): (r: seq<Target>)
    ensures |r| == |ts|
    ensures forall i :: 0 <= i < |ts| ==>
      r[i].index == ts[i].index && r[i].c4 == ts[i].c4 &&
      r[i].classLabel == ts[i].classLabel * w && r[i].c2 == ts[i].c2 * w &&
      r[i].c1 == ts[i].c1 * h && r[i].c3 == ts[i].c3 * h
  {
    seq(|ts|, i requires 0 <= i < |ts| =>
      Target(ts[i].index, ts[i].classLabel * w, ts[i].c1 * h, ts[i].c2 * w, ts[i].c3 * h, ts[i].c4))
  }

  /** Division counterpart of `AbsoluteTargets`. */
  function RelativeTargets(ts: seq<Target>, w: real, h: real): (r: seq<Target>)
    requires w != 0.0 && h != 0.0
    ensures |r| == |ts|
    ensures forall i :: 0 <= i < |ts| ==>
      r[i].index == ts[i].index && r[i].c4 == ts[i].c4 &&
      r[i].classLabel * w == ts[i].classLabel && r[i].c2 * w == ts[i].c2 &&
      r[i].c1 * h == ts[i].c1 && r[i].c3 * h == ts[i].c3
  {
    seq(|ts|, i requires 0 <= i < |ts| =>
      Target(ts[i].index, ts[i].classLabel / w, ts[i].c1 / h, ts[i].c2 / w, ts[i].c3 / h, ts[i].c4))
  }

  /** `AbsoluteLabels.__call__`: the image is untouched, the table keeps its
      kind and its row count, and its columns are scaled by the width and the
      height read from the image shape. */
  function AbsoluteLabels(s: Sample): (r: Sample)
    ensures r.img == s.img
    ensures r.rows.Plain? == s.rows.Plain? && Count(r.rows) == Count(s.rows)
    ensures s.rows.Plain? ==>
      r.rows == Plain(Absolute(s.rows.boxes, ReadWidth(s.img), ReadHeight(s.img)))
    ensures s.rows.Packed? ==>
      r.rows == Packed(AbsoluteTargets(s.rows.targets, ReadWidth(s.img), ReadHeight(s.img)))
  {
    var h, w := ReadHeight(s.img), ReadWidth(s.img);
    match s.rows
    case Plain(bs) => Sample(s.img, Plain(Absolute(bs, w, h)))
    case Packed(ts) => Sample(s.img, Packed(AbsoluteTargets(ts, w, h)))
  }

  /** `RelativeLabels.__call__`. A zero height or width makes the floating-point
      division produce infinities or NaNs as soon as there is a row to divide;
      reals have no such values, so that case is the `NonFinite` error. */
  function RelativeLabels(s: Sample): (r: Result<Sample>)
    ensures r.Success? <==> Count(s.rows) == 0 || (s.img.d0 > 0 && s.img.d1 > 0)
    ensures r.Success? ==> r.value.img == s.img
    ensures r.Success? ==> r.value.rows.Plain? == s.rows.Plain? && Count(r.value.rows) == Count(s.rows)
    ensures s.img.d0 > 0 && s.img.d1 > 0 && s.rows.Plain? ==>
      r == Success(Sample(s.img, Plain(Relative(s.rows.boxes, ReadWidth(s.img), ReadHeight(s.img)))))
    ensures s.img.d0 > 0 && s.img.d1 > 0 && s.rows.Packed? ==>
      r == Success(Sample(s.img, Packed(RelativeTargets(s.rows.targets, ReadWidth(s.img), ReadHeight(s.img)))))
  {
    var h, w := ReadHeight(s.img), ReadWidth(s.img);
    if h == 0.0 || w == 0.0 then
      if Count(s.rows) == 0 then Success(s) else Failure(NonFinite)
    else
      match s.rows
      case Plain(bs) => Success(Sample(s.img, Plain(Relative(bs, w, h))))
      case Packed(ts) => Success(Sample(s.img, Packed(RelativeTargets(ts, w, h))))
  }

  /** Worked examples on a 100 x 200 (height x width) image: the relative box
      (1, 0.25, 0.5, 0.1, 0.1) becomes (1, 50, 50, 20, 10) in pixels, and
      (1, 50, 50, 20, 10) becomes (1, 10000, 5000, 4000, 1000), so the x
      columns go with the width and the y columns with the height. */
  lemma AbsoluteExample()
    ensures AbsoluteLabels(Sample(NdArray(100, 200, 3), Plain([Box(1.0, 0.25, 0.5, 0.1, 0.1)])))
         == Sample(NdArray(100, 200, 3), Plain([Box(1.0, 50.0, 50.0, 20.0, 10.0)]))
    ensures AbsoluteLabels(Sample(NdArray(100, 200, 3), Plain([Box(1.0, 50.0, 50.0, 20.0, 10.0)])))
         == Sample(NdArray(100, 200, 3), Plain([Box(1.0, 10000.0, 5000.0, 4000.0, 1000.0)]))
  {
  }

  /** Multiplying and dividing by the same non-zero factor cancel, in
      either order. */
  lemma Cancels(x: real, k: real)
    requires k != 0.0
    ensures (x * k) / k == x && (x / k) * k == x
  {
  }

  /** With the same non-zero factors, dividing then multiplying, and
      multiplying then dividing, both give back the original table. */
  lemma AbsoluteRelativeInverse(bs: seq<Box>, w: real, h: real)
    requires w != 0.0 && h != 0.0
    ensures Absolute(Relative(bs, w, h), w, h) == bs
    ensures Relative(Absolute(bs, w, h), w, h) == bs
  {
    var a := Absolute(Relative(bs, w, h), w, h);
    var r := Relative(Absolute(bs, w, h), w, h);
    forall i | 0 <= i < |bs|
      ensures a[i] == bs[i] && r[i] == bs[i]
    {
      Cancels(bs[i].c1, w);
      Cancels(bs[i].c2, h);
      Cancels(bs[i].c3, w);
      Cancels(bs[i].c4, h);
    }
  }

  /** The same inverse pair on the six-wide target tensor. */
  lemma AbsoluteRelativeTargetsInverse(ts: seq<Target>, w: real, h: real)
    requires w != 0.0 && h != 0.0
    ensures AbsoluteTargets(RelativeTargets(ts, w, h), w, h) == ts
    ensures RelativeTargets(AbsoluteTargets(ts, w, h), w, h) == ts
  {
    var a := AbsoluteTargets(RelativeTargets(ts, w, h), w, h);
    var r := RelativeTargets(AbsoluteTargets(ts, w, h), w, h);
    forall i | 0 <= i < |ts|
      ensures a[i] == ts[i] && r[i] == ts[i]
    {
      Cancels(ts[i].classLabel, w);
      Cancels(ts[i].c1, h);
      Cancels(ts[i].c2, w);
      Cancels(ts[i].c3, h);
    }
  }

  /** On an image with a non-zero height and width, `RelativeLabels` followed by
      `AbsoluteLabels` returns the sample unchanged, and so does the reverse
      order. */
  lemma LabelScalersInverse(s: Sample)
    requires s.img.d0 > 0 && s.img.d1 > 0
    ensures RelativeLabels(s).Success? && AbsoluteLabels(RelativeLabels(s).value) == s
    ensures RelativeLabels(AbsoluteLabels(s)) == Success(s)
  {
    var h, w := ReadHeight(s.img), ReadWidth(s.img);
    match s.rows
    case Plain(bs) =>
      AbsoluteRelativeInverse(bs, w, h);
    case Packed(ts) =>
      AbsoluteRelativeTargetsInverse(ts, w, h);
  }
}
