# Bounding-box bookkeeping of the detection preprocessing pipeline

This project models the part of `model/augment.py` that the repository
writes itself. That code is the bounding-box side of the transform pipeline
applied to every `(image, boxes)` training sample. Floats are modelled as
Dafny `real`s.

- **Samples** (`samples.dfy`): an image known by its shape. It is either a
  numpy array `NdArray(h, w, c)` or, after `ToTensor`, a torch tensor
  `Tensor(c, h, w)`. The box table is either the numpy N x 5 table of
  `Box(classLabel, c1, c2, c3, c4)` rows or the torch N x 6 target tensor of
  `Target(index, classLabel, c1, c2, c3, c4)` rows. A stage either returns a
  new sample or fails with an `Error`. Each error except `NonFinite` stands
  for an exception the Python code would raise; `NonFinite` stands for the
  inf or NaN values a division by zero produces.
- **Convert** (`convert.dfy`): `xywh2xyxy_np` and the corner-to-centre formulas
  at the end of `ImgAug.__call__`, with both round trips.
- **Labels** (`labels.dfy`): `AbsoluteLabels` and `RelativeLabels`. Both read
  `h, w, _ = img.shape`. They scale columns 1 and 3 by the width and columns
  2 and 4 by the height, on whichever table they are given.
- **Tensors** (`tensors.dfy`): the box side of `ToTensor`, which prepends a
  reserved 0 column. `Normalize` and `Resize` leave the boxes alone. The
  stage-order preconditions these stages impose on the image are modelled
  too.
- **Augment** (`imgaug.dfy`): the `ImgAug` adapter. The augmentation and the
  out-of-image clipping belong to the imgaug library. They are
  function-valued parameters here.
- **Pipeline** (`pipeline.dfy`): the stages as one tagged variant. It also
  holds `transforms.Compose` as `Run` and the default
  `AUGMENTATION_TRANSFORMS`, which is `[AbsoluteLabels, ToTensor, Normalize]`.

An empty N x 5 table flows through every stage of the default pipeline
(`Pipeline.DefaultPipelineEmptyTable`).

## Model

| member | source | states |
|---|---|---|
| Convert.XywhToXyxy | model/augment.py:63-69 | the corners' midpoint is the centre and their difference is the width and height |
| Convert.XyxyToXywh | model/augment.py:52-57 | the centre plus or minus half the size gives back the corners it was computed from |
| Convert.XywhToXyxyRows | model/augment.py:63-69 | one output row per input row, each the centre-to-corner conversion of that row |
| Convert.CornerRoundTrip | model/augment.py:54-69 | centre to corner to centre is the identity |
| Convert.CentreRoundTrip | model/augment.py:54-69 | corner to centre to corner is the identity |
| Convert.CornersOrdered | model/augment.py:65-68 | x1 <= x2 exactly when w >= 0, and y1 <= y2 exactly when h >= 0 |
| Labels.Absolute | model/augment.py:105-106 | same row count and labels; columns 1,3 multiplied by the width, 2,4 by the height |
| Labels.Relative | model/augment.py:92-93 | same row count and labels; columns 1,3 times the width and 2,4 times the height give back the input |
| Labels.AbsoluteTargets | model/augment.py:105-106 | on a six-wide tensor, columns 1,3 (label, second coordinate) scaled by the width, 2,4 by the height, 0 and 5 untouched |
| Labels.RelativeTargets | model/augment.py:92-93 | the division counterpart on a six-wide tensor |
| Labels.AbsoluteLabels | model/augment.py:101-108 | the image is unchanged; the table keeps its kind and row count and is scaled by the width and height read as the first two entries of the image shape |
| Labels.RelativeLabels | model/augment.py:89-94 | succeeds exactly when there are no rows or both leading dimensions are non-zero; then the image, table kind and row count are kept, and with non-zero dimensions the table is divided by the width and height read from the shape |
| Labels.AbsoluteExample | model/augment.py:103-106 | on a 100 x 200 image, (1, 0.25, 0.5, 0.1, 0.1) becomes (1, 50, 50, 20, 10), and (1, 50, 50, 20, 10) becomes (1, 10000, 5000, 4000, 1000) |
| Labels.AbsoluteRelativeInverse | model/augment.py:91-106 | with the same non-zero factors, relative-then-absolute and absolute-then-relative are both the identity on a box table |
| Labels.AbsoluteRelativeTargetsInverse | model/augment.py:91-106 | the same inverse pair on the target tensor |
| Labels.LabelScalersInverse | model/augment.py:89-108 | on an image with non-zero height and width the two stages undo each other in either order |
| Tensors.Unpack | model/augment.py:131 | dropping column 0 keeps the row count and gives each row's five remaining fields |
| Tensors.Pack | model/augment.py:130-131 | one row per box, column 0 is 0, columns 1..5 are the box's fields in order |
| Tensors.PackRoundTrip | model/augment.py:130-131 | unpacking undoes packing; packing undoes unpacking while every reserved slot is 0 |
| Tensors.ToTensor | model/augment.py:125-132 | succeeds exactly on a numpy image with a numpy table; the image becomes channels-first and the unpacked targets are the input boxes |
| Tensors.Normalize | model/augment.py:138-141 | succeeds exactly on a tensor image with three channels, and then returns the sample unchanged |
| Tensors.Resize | model/augment.py:148-151 | the intended resize: succeeds exactly on a tensor image with no empty dimension and a non-zero target height and width; the image gets the target size, the box table is returned unchanged |
| Tensors.ResizeAsWritten | model/augment.py:148-151 | the written resize looks up `interpolate` in `torch.functional` and fails on every sample |
| Tensors.ResizeAsWrittenDiffers | model/augment.py:148-151 | on every non-empty tensor image and non-zero target size the written resize fails where the intended one succeeds with the boxes untouched |
| Augment.ToAnnotations | model/augment.py:25-30 | one annotation per row with the row's label, whose corners read back in centre format are the row's coordinates |
| Augment.FromAnnotations | model/augment.py:44-57 | one row per annotation with its label, whose coordinates converted to corners are the annotation's corners |
| Augment.ImgAug | model/augment.py:14-60 | fails exactly on a non-empty six-wide table; otherwise gives the augmented image and one row per surviving annotation, in order, with its label and corners |
| Augment.AnnotationRoundTrip | model/augment.py:25-57 | rows to annotations to rows, and annotations to rows to annotations, are identities |
| Augment.ImgAugIdentity | model/augment.py:14-60 | with an augmentation that changes nothing and a clipping that drops nothing, the input sample comes back unchanged |
| Pipeline.Apply | model/augment.py:89-151 | every stage other than the augmentation adapter keeps the number of box rows |
| Pipeline.Run | model/augment.py:153-160 | a composition without an augmentation stage keeps the number of box rows |
| Pipeline.RunAppend | model/augment.py:153-160 | running a concatenation of stage lists is running one list after the other |
| Pipeline.DefaultPipeline | model/augment.py:153-160 | succeeds exactly on a three-channel numpy image with a five-wide table; the result is the channels-first image and pack(absolute(boxes, w, h)) |
| Pipeline.DefaultPipelineEmptyTable | model/augment.py:153-160 | an empty five-wide table with a three-channel image comes out as an empty target tensor beside the channels-first image |
| Pipeline.ImageOnlyKeepsBoxes | model/augment.py:134-151 | any successful run of Normalize and Resize stages returns the box table unchanged |
| Pipeline.MisplacedAbsoluteLabels | model/augment.py:101-132 | AbsoluteLabels placed after ToTensor multiplies every target's class label by the image height |

## Left out

- The imgaug calls: building `BoundingBoxesOnImage`, `self.augmentations(...)` and `clip_out_of_image`. They are library behaviour and appear as the `Augmenter` and `Clipper` parameters. The `BoundingBox` constructor is taken to keep the corners as given; any reordering of swapped corners inside imgaug is not modelled.
- Augment.ImgAug: "the adapter never adds boxes" is not promised. The output has one row per annotation that survives clipping, and how many survive is decided by the library.
- Labels.AbsoluteLabels / Labels.RelativeLabels: the Python code scales the caller's array in place and returns that same object, so the dataset's own label array is rescaled too. The model returns a new table and does not model this aliasing. `ImgAug` avoids it by copying at model/augment.py:19.
- `DefaultAug` and `PadSquare` (model/augment.py:72-118): `DefaultAug` draws random sharpen, affine, brightness, hue and flip parameters; `PadSquare` deterministically pads the image to a square, centred. Both are instances of the `ImgAug` stage with a particular augmenter.
- Augment.ImgAug: the constructor's default `augmentations=[]` (model/augment.py:11-12) is not modelled. It stores a list, which is not callable, so every call of an `ImgAug()` built with it raises at model/augment.py:34. The `Augmenter` parameter is always a function; the identity augmentation such a default most likely meant is covered by `Augment.ImgAugIdentity`.
- Pixel work: the ToTensor pixel conversion, which divides `uint8` images by 255, the mean/std arithmetic of `Normalize`, and nearest-neighbour interpolation. Only image shapes are modelled. `Normalize`'s constants appear only through their count of three.
- Tensors.Resize: the pipeline uses the intended resize, not the written one (see Findings). A single integer `size` is not modelled; the target is a (height, width) pair.
- Labels.RelativeLabels: with a zero height or width and at least one row, numpy yields inf or NaN values instead of raising. Reals have no such values, so the model reports the `NonFinite` error.
- Floating-point rounding and dtypes are not modelled: the float32 target tensor, `zeros_like` truncating on integer arrays, and in-place `/=` refusing integer arrays. All coordinates are exact reals.
- One-dimensional box input, i.e. a single box not wrapped in a table. The guard that would reshape it is commented out (model/augment.py:21-22), and such input fails at model/augment.py:25. Every row in the model has exactly five or six fields.
- How imgaug treats a torch tensor image is left to the `Augmenter` parameter.
- The Faster R-CNN weight imports (model/augment.py:8) are unused by this code.

## Findings

| source | as written | input that shows it | evidently intended | confidence | as-written member | corrected member |
|---|---|---|---|---|---|---|
| model/augment.py:4 | `import torch.functional as F`, then `F.interpolate` at line 150; `torch.functional` defines no `interpolate` | any sample, e.g. a `Tensor(3, 10, 10)` image with any boxes | `torch.nn.functional.interpolate`: nearest-neighbour resize of a non-empty tensor image to a non-zero size, boxes passed through | medium; not executed; torch is not part of this model | Tensors.ResizeAsWritten | Tensors.Resize |
