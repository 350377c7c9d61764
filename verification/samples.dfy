/**
  The data that flows through the transform pipeline of model/augment.py:
  an image, known here only by its shape, and a table of bounding-box rows.
  Floating-point values are modelled as reals.
 */
module Samples {

  /** An image by its shape. Before `ToTensor` it is a numpy array laid out
      (height, width, channels); afterwards a torch tensor laid out
      (channels, height, width). Pixel values are not modelled. */
  datatype Image =
    | NdArray(d0: nat, d1: nat, d2: nat)
    | Tensor(d0: nat, d1: nat, d2: nat)

  /** One row of the N x 5 box table: a class label and four coordinates whose
      meaning (centre or corner format, pixels or fractions) depends on the
      pipeline stage. */
  datatype Box = Box(classLabel: real, c1: real, c2: real, c3: real, c4: real)

  /** One row of the N x 6 target tensor built by `ToTensor`: a reserved
      sample-index slot followed by the five fields of a box. */
  datatype Target = Target(index: real, classLabel: real, c1: real, c2: real, c3: real, c4: real)

  /** The box table: a numpy N x 5 array, or the torch N x 6 tensor. */
  datatype Rows =
    | Plain(boxes: seq<Box>)
    | Packed(targets: seq<Target>)

  /** Number of rows of the table, whatever its width. */
  function Count(rows: Rows): nat
  {
    match rows
    case Plain(bs) => |bs|
    case Packed(ts) => |ts|
  }

  /** The `(img, boxes)` pair every transform consumes and returns. */
  datatype Sample = Sample(img: Image, rows: Rows)

  /** The exceptions (or non-finite results) a stage can run into. */
  datatype Error =
    | NotAnArray         // a numpy-only conversion was handed a torch tensor
    | NotATensor         // a torch-only operation was handed a numpy array
    | ChannelMismatch    // per-channel constants do not match the channel count
    | NonFinite          // a division by a zero image dimension (inf or NaN)
    | LabelGivenTwice    // a six-wide row passed to the annotation constructor
    | NoSuchFunction     // a library module lacks the function looked up in it
    | EmptyResize        // interpolation from or to a size with a zero dimension

  /** Outcome of a stage, usable with `:-`. */
  datatype Result<+T> = Success(value: T) | Failure(error: Error) {

    predicate IsFailure() {
      Failure?
    }

    function PropagateFailure<U>(): Result<U>
      requires Failure?
    {
      Failure(error)
    }

    function Extract(): T
      requires Success?
    {
      value
    }
  }
}
