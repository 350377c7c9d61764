/**
  The box side of the torch stages: `ToTensor` packs the N x 5 table into an
  N x 6 tensor with a reserved leading slot, while `Normalize` and `Resize`
  change the image only.
 */
module Tensors {
  import opened Samples

  /** Per-channel means and standard deviations handed to `Normalize`. Only
      their number, one per colour channel, matters to this model. */
  const Mean: seq<real> := [0.485, 0.456, 0.406]
  const Std: seq<real> := [0.229, 0.224, 0.225]

  /** Columns 1..5 of a target row, `bb_targets[:, 1:]`. */
  function Unpacked(t: Target): Box
  {
    Box(t.classLabel, t.c1, t.c2, t.c3, t.c4)
  }

  /** Columns 1..5 of every target row. */
  function Unpack(ts: seq<Target>): (bs: seq<Box>)
    ensures |bs| == |ts|
    ensures forall i :: 0 <= i < |ts| ==> bs[i] == Unpacked(ts[i])
  {
    seq(|ts|, i requires 0 <= i < |ts| => Unpacked(ts[i]))
  }

  /** `torch.zeros((len(boxes), 6))` with columns 1..5 filled from the boxes:
      one row per box, the reserved slot 0, then the box's five fields in
      order. */
  function Pack(bs: seq<Box>): (ts: seq<Target>)
    ensures |ts| == |bs|
    ensures forall i :: 0 <= i < |bs| ==> ts[i].index == 0.0 && Unpacked(ts[i]) == bs[i]
  {
    seq(|bs|, i requires 0 <= i < |bs| =>
      Target(0.0, bs[i].classLabel, bs[i].c1, bs[i].c2, bs[i].c3, bs[i].c4))
  }

  /** Every row of the tensor still has its reserved slot at 0. */
  ghost predicate SlotsClear(ts: seq<Target>)
  {
    forall i :: 0 <= i < |ts| ==> ts[i].index == 0.0
  }

  /** Dropping the reserved column undoes packing, and packing undoes
      dropping it as long as no slot has been filled in yet. */
  lemma PackRoundTrip(bs: seq<Box>, ts: seq<Target>)
    ensures Unpack(Pack(bs)) == bs
    ensures SlotsClear(Pack(bs))
    ensures SlotsClear(ts) ==> Pack(Unpack(ts)) == ts
  {
  }

  /** `ToTensor.__call__`. The image must still be a numpy array, which becomes
      a channels-first tensor, and the box table must still be a numpy array,
      which becomes the N x 6 target tensor; a tensor in either place is
      rejected by the conversion routine. */
  function ToTensor(s: Sample): (r: Result<Sample>)
    ensures r.Success? <==> s.img.NdArray? && s.rows.Plain?
    ensures r.Success? ==> r.value.img == Tensor(s.img.d2, s.img.d0, s.img.d1)
    ensures r.Success? ==> r.value.rows.Packed? && Unpack(r.value.rows.targets) == s.rows.boxes
    ensures r.Success? ==> SlotsClear(r.value.rows.targets)
  {
    match s.img
    case Tensor(_, _, _) => Failure(NotAnArray)
    case NdArray(h, w, c) =>
      match s.rows
      case Packed(_) => Failure(NotAnArray)
      case Plain(bs) =>
        PackRoundTrip(bs, []);
        Success(Sample(Tensor(c, h, w), Packed(Pack(bs))))
  }

  /** `Normalize.__call__`: needs a tensor image with one channel per constant;
      the sample's shape and its box table come back unchanged. */
  function Normalize(s: Sample): (r: Result<Sample>)
    ensures r.Success? <==> s.img.Tensor? && s.img.d0 == |Mean|
    ensures r.Success? ==> r.value == s
    ensures r.Failure? && s.img.Tensor? ==> r.error == ChannelMismatch
  {
    match s.img
    case NdArray(_, _, _) => Failure(NotATensor)
    case Tensor(c, _, _) =>
      if c == |Mean| && c == |Std| then Success(s) else Failure(ChannelMismatch)
  }

  /** `Resize.__call__`: nearest-neighbour interpolation of a tensor image to
      the configured height and width. The kernel refuses an input with an
      empty channel, height or width dimension and a target height or width
      of zero. The box table is not rescaled. */
  function Resize(height: nat, width: nat, s: Sample): (r: Result<Sample>)
    ensures r.Success? <==>
      s.img.Tensor? && s.img.d0 > 0 && s.img.d1 > 0 && s.img.d2 > 0 && height > 0 && width > 0
    ensures r.Failure? && s.img.Tensor? ==> r.error == EmptyResize
    ensures r.Success? ==> r.value.rows == s.rows
    ensures r.Success? ==> r.value.img == Tensor(s.img.d0, height, width)
  {
    match s.img
    case NdArray(_, _, _) => Failure(NotATensor)
    case Tensor(c, h, w) =>
      if c > 0 && h > 0 && w > 0 && height > 0 && width > 0 then
        Success(Sample(Tensor(c, height, width), s.rows))
      else
        Failure(EmptyResize)
  }

  /** `Resize.__call__` as written. `F` is bound to `torch.functional`
      (model/augment.py:4), where nearest-neighbour interpolation is not
      defined; it lives in `torch.nn.functional`. Looking up `F.interpolate`
      is the first thing the call evaluates, so it fails on every sample. */
  function ResizeAsWritten(height: nat, width: nat, s: Sample): (r: Result<Sample>)
    ensures r.Failure? && r.error == NoSuchFunction
  {
    Failure(NoSuchFunction)
  }

  /** On any non-empty tensor image and non-zero target size the written
      `Resize` fails where the intended one resizes the image and hands the
      boxes through. */
  lemma ResizeAsWrittenDiffers(height: nat, width: nat, s: Sample)
    requires s.img.Tensor? && s.img.d0 > 0 && s.img.d1 > 0 && s.img.d2 > 0
    requires height > 0 && width > 0
    ensures ResizeAsWritten(height, width, s).Failure?
    ensures Resize(height, width, s) == Success(Sample(Tensor(s.img.d0, height, width), s.rows))
  {
  }
}
