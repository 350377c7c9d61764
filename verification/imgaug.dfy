/**
  `ImgAug.__call__`: the adapter around an external augmentation. Boxes go
  out as labelled corner boxes, the augmentation and the out-of-image clipping
  run (both belong to the augmentation library and are parameters here), and
  the surviving boxes come back in centre format with their labels in
  column 0.
 */
module Augment {
  import opened Samples
  import opened Convert

  /** A labelled corner-format box of the augmentation library. */
  datatype Annotation = Annotation(x1: real, y1: real, x2: real, y2: real, classLabel: real)

  /** The augmentation: a new image and new annotations from the old ones. */
  type Augmenter = (Image, seq<Annotation>) -> (Image, seq<Annotation>)

  /** Out-of-image clipping of the annotations against an image. */
  type Clipper = (Image, seq<Annotation>) -> seq<Annotation>

  /** The corner coordinates of an annotation. */
  function Corners(a: Annotation): Quad
  {
    Quad(a.x1, a.y1, a.x2, a.y2)
  }

  /** Convert columns 1..4 of the table from centre to corner format, then make
      one annotation per row with column 0 as its label. Reading each
      annotation's corners back in centre format gives the row's
      coordinates. */
  function ToAnnotations(bs: seq<Box>): (anns: seq<Annotation>)
    ensures |anns| == |bs|
    ensures forall i :: 0 <= i < |bs| ==>
      anns[i].classLabel == bs[i].classLabel && XyxyToXywh(Corners(anns[i])) == Coords(bs[i])
  {
    var corners := XywhToXyxyRows(seq(|bs|, i requires 0 <= i < |bs| => Coords(bs[i])));
    var anns := seq(|bs|, i requires 0 <= i < |bs| =>
      Annotation(corners[i].q0, corners[i].q1, corners[i].q2, corners[i].q3, bs[i].classLabel));
    assert forall i :: 0 <= i < |bs| ==> Corners(anns[i]) == XywhToXyxy(Coords(bs[i]));
    forall i | 0 <= i < |bs|
      ensures XyxyToXywh(Corners(anns[i])) == Coords(bs[i])
    {
      CornerRoundTrip(Coords(bs[i]));
    }
    anns
  }

  /** One centre-format row per annotation, label in column 0. Converting each
      row back to corners gives the annotation's corners. */
  function FromAnnotations(anns: seq<Annotation>): (bs: seq<Box>)
    ensures |bs| == |anns|
    ensures forall i :: 0 <= i < |anns| ==>
      bs[i].classLabel == anns[i].classLabel && XywhToXyxy(Coords(bs[i])) == Corners(anns[i])
  {
    var bs := seq(|anns|, i requires 0 <= i < |anns| =>
      WithCoords(anns[i].classLabel, XyxyToXywh(Corners(anns[i]))));
    forall i | 0 <= i < |anns|
      ensures XywhToXyxy(Coords(bs[i])) == Corners(anns[i])
    {
      CentreRoundTrip(Corners(anns[i]));
    }
    bs
  }

  /** The annotations handed to the augmentation: one per row of a five-wide
      table, none for an empty six-wide one. */
  function Handed(rows: Rows): seq<Annotation>
  {
    match rows
    case Plain(bs) => ToAnnotations(bs)
    case Packed(_) => []
  }

  /** `ImgAug.__call__`. A six-wide row has five values after its label column,
      so the annotation constructor would receive the label twice: that fails
      unless the table is empty. Otherwise the result is the augmented image
      and one five-wide row per annotation that survives clipping, in order,
      carrying that annotation's label and corners. */
  function ImgAug(augment: Augmenter, clip: Clipper, s: Sample): (r: Result<Sample>)
    ensures r.Success? <==> s.rows.Plain? || Count(s.rows) == 0
    ensures r.Success? ==>
      var out := augment(s.img, Handed(s.rows));
      var kept := clip(out.0, out.1);
      && r.value.img == out.0
      && r.value.rows.Plain?
      && |r.value.rows.boxes| == |kept|
      && forall i :: 0 <= i < |kept| ==>
           r.value.rows.boxes[i].classLabel == kept[i].classLabel &&
           XywhToXyxy(Coords(r.value.rows.boxes[i])) == Corners(kept[i])
  {
    if s.rows.Packed? && Count(s.rows) > 0 then Failure(LabelGivenTwice)
    else
      var out := augment(s.img, Handed(s.rows));
      var kept := clip(out.0, out.1);
      Success(Sample(out.0, Plain(FromAnnotations(kept))))
  }

  /** An augmentation that changes nothing. */
  function Unchanged(img: Image, anns: seq<Annotation>): (Image, seq<Annotation>)
  {
    (img, anns)
  }

  /** A clipping that drops nothing. */
  function KeepAll(img: Image, anns: seq<Annotation>): seq<Annotation>
  {
    anns
  }

  /** Rows to annotations and back is the identity, labels included, and so
      is annotations to rows and back. */
  lemma AnnotationRoundTrip(bs: seq<Box>, anns: seq<Annotation>)
    ensures FromAnnotations(ToAnnotations(bs)) == bs
    ensures ToAnnotations(FromAnnotations(anns)) == anns
  {
    var b := FromAnnotations(ToAnnotations(bs));
    forall i | 0 <= i < |bs|
      ensures b[i] == bs[i]
    {
      CentreRoundTrip(Coords(bs[i]));
    }
    var a := ToAnnotations(FromAnnotations(anns));
    forall i | 0 <= i < |anns|
      ensures a[i] == anns[i]
    {
      CornerRoundTrip(Corners(anns[i]));
    }
  }

  /** With an augmentation that changes nothing and a clipping that drops
      nothing, the adapter returns its five-wide input unchanged. */
  lemma ImgAugIdentity(img: Image, bs: seq<Box>)
    ensures ImgAug(Unchanged, KeepAll, Sample(img, Plain(bs))) == Success(Sample(img, Plain(bs)))
  {
    AnnotationRoundTrip(bs, []);
  }
}
