/**
  The transform stages as one tagged variant, their sequential composition
  (`transforms.Compose`), and the default `AUGMENTATION_TRANSFORMS`
  pipeline.
 */
module Pipeline {
  import opened Samples
  import Labels
  import Tensors
  import Augment

  /** One transform of augment.py. */
  datatype Stage =
    | AbsoluteLabels
    | RelativeLabels
    | ToTensor
    | Normalize
    | Resize(height: nat, width: nat)
    | ImgAug(augment: Augment.Augmenter, clip: Augment.Clipper)

  /** Apply one stage to a sample. Every stage but the augmentation adapter
      keeps the number of box rows. */
  function Apply(stage: Stage, s: Sample): (r: Result<Sample>)
    ensures r.Success? && !stage.ImgAug? ==> Count(r.value.rows) == Count(s.rows)
  {
    match stage
    case AbsoluteLabels => Success(Labels.AbsoluteLabels(s))
    case RelativeLabels => Labels.RelativeLabels(s)
    case ToTensor => Tensors.ToTensor(s)
    case Normalize => Tensors.Normalize(s)
    case Resize(height, width) => Tensors.Resize(height, width, s)  // the intended behaviour
    case ImgAug(augment, clip) => Augment.ImgAug(augment, clip, s)
  }

  /** `transforms.Compose`: each stage gets the previous stage's output; the
      first failure ends the run. Without an augmentation stage the number of
      box rows is kept from end to end. */
  function Run(stages: seq<Stage>, s: Sample): (r: Result<Sample>)
    ensures r.Success? && (forall i :: 0 <= i < |stages| ==> !stages[i].ImgAug?) ==>
      Count(r.value.rows) == Count(s.rows)
    decreases |stages|
  {
    if |stages| == 0 then Success(s)
    else
      var t :- Apply(stages[0], s);
      Run(stages[1..], t)
  }

  /** `AUGMENTATION_TRANSFORMS`, with the augmentation recipes switched off. */
  const AugmentationTransforms: seq<Stage> := [AbsoluteLabels, ToTensor, Normalize]

  /** Running two stage lists one after the other is running their
      concatenation. */
  lemma {:induction false} RunAppend(a: seq<Stage>, b: seq<Stage>, s: Sample)
    ensures Run(a + b, s) == (match Run(a, s)
                              case Success(t) => Run(b, t)
                              case Failure(e) => Failure(e))
    decreases |a|
  {
    if |a| == 0 {
      assert a + b == b;
    } else {
      assert (a + b)[1..] == a[1..] + b;
      match Apply(a[0], s)
      case Failure(_) =>
      case Success(t) =>
        RunAppend(a[1..], b, t);
    }
  }

  /** The default pipeline accepts exactly a three-channel numpy image with a
      five-wide numpy box table, and then its effect on the boxes is
      `pack(absolute(boxes, w, h))` with the height and width read from the
      image before packing; the image becomes a channels-first tensor. */
  lemma DefaultPipeline(s: Sample)
    ensures Run(AugmentationTransforms, s).Success? <==>
      s.img.NdArray? && s.rows.Plain? && s.img.d2 == 3
    ensures Run(AugmentationTransforms, s).Success? ==>
      Run(AugmentationTransforms, s).value ==
        Sample(Tensor(3, s.img.d0, s.img.d1),
               Packed(Tensors.Pack(Labels.Absolute(s.rows.boxes, s.img.d1 as real, s.img.d0 as real))))
  {
  }

  /** An empty five-wide table flows through the default pipeline: the
      result is an empty target tensor beside the channels-first image. */
  lemma DefaultPipelineEmptyTable(h: nat, w: nat)
    ensures Run(AugmentationTransforms, Sample(NdArray(h, w, 3), Plain([])))
         == Success(Sample(Tensor(3, h, w), Packed([])))
  {
    DefaultPipeline(Sample(NdArray(h, w, 3), Plain([])));
  }

  /** Stages that only touch the image. */
  predicate ImageOnly(stage: Stage)
  {
    stage.Normalize? || stage.Resize?
  }

  /** Any run of image-only stages that succeeds hands back the box table
      exactly as it received it. */
  lemma {:induction false} ImageOnlyKeepsBoxes(stages: seq<Stage>, s: Sample)
    requires forall i :: 0 <= i < |stages| ==> ImageOnly(stages[i])
    ensures Run(stages, s).Success? ==> Run(stages, s).value.rows == s.rows
    decreases |stages|
  {
    if |stages| > 0 {
      match Apply(stages[0], s)
      case Failure(_) =>
      case Success(t) =>
        assert t.rows == s.rows;
        ImageOnlyKeepsBoxes(stages[1..], t);
    }
  }

  /** The stage order carries the coordinate convention. Placed after
      `ToTensor`, `AbsoluteLabels` reads the channel count and the height as
      height and width, and scales the class-label column of every target
      row by the image height. */
  lemma MisplacedAbsoluteLabels(h: nat, w: nat, c: nat, bs: seq<Box>)
    ensures Run([ToTensor, AbsoluteLabels], Sample(NdArray(h, w, c), Plain(bs))).Success?
    ensures var r := Run([ToTensor, AbsoluteLabels], Sample(NdArray(h, w, c), Plain(bs))).value;
      r.img == Tensor(c, h, w) && r.rows.Packed? && |r.rows.targets| == |bs| &&
      forall i :: 0 <= i < |bs| ==> r.rows.targets[i].classLabel == bs[i].classLabel * (h as real)
  {
  }
}
