/**
 * Tensor sizes and the shapes model_summary records for them: the input
 * normalisation, the batch-dimension rewrite and the element count of a
 * parameter tensor.
 */
module Shapes {
  import opened Wrappers

  /** A tensor's `size()`: its dimensions, each at least zero. */
  type Dims = seq<nat>

  /** A recorded shape: a size whose first entry was overwritten (with the batch size or -1). */
  type Shape = seq<int>

  /** The `input_size` argument: one tuple of dims, or a list of them (one per network input). */
  datatype InputSize = Tuple(dims: Dims) | List(sizes: seq<Dims>)

  /** `if isinstance(input_size, tuple): input_size = [input_size]`. */
  function Normalize(input: InputSize): (sizes: seq<Dims>)
    ensures input.Tuple? ==> sizes == [input.dims]
    ensures input.List? ==> sizes == input.sizes
  {
    match input
    case Tuple(dims) => [dims]
    case List(sizes) => sizes
  }

  /** The shape of `torch.rand(2, *in_size)`: a batch of two in front of the declared dims. */
  function SyntheticShape(size: Dims): (shape: Dims)
  {
    [2] + size
  }

  /** The synthetic inputs built from `input_size`, one per normalised entry. */
  function SyntheticInputs(input: InputSize): (shapes: seq<Dims>)
    ensures |shapes| == |Normalize(input)|
    ensures forall i :: 0 <= i < |shapes| ==> |shapes[i]| >= 1 && shapes[i][0] == 2 && shapes[i][1..] == Normalize(input)[i]
  {
    var sizes := Normalize(input);
    seq(|sizes|, i requires 0 <= i < |sizes| => SyntheticShape(sizes[i]))
  }

  /** The failure of `shape[0] = batch_size` on a zero-dimensional tensor: Python's IndexError. */
  datatype ShapeError = IndexOutOfRange

  /**
   * `shape = list(t.size()); shape[0] = batch`: the size with its first entry
   * replaced, which fails when the tensor has no dimension at all.
   */
  function WithBatch(dims: Dims, batch: int): (r: Result<Shape, ShapeError>)
    ensures r.Ok? <==> |dims| > 0
    ensures r.Ok? ==> |r.value| == |dims| && r.value[0] == batch
    ensures r.Ok? ==> forall i :: 1 <= i < |dims| ==> r.value[i] == dims[i]
  {
    if |dims| == 0 then Err(IndexOutOfRange) else Ok([batch] + dims[1..])
  }

  /**
   * `[-1] + list(o.size())[1:]`, the shape of one element of a list or tuple
   * output: never fails, and a zero-dimensional element still gets `[-1]`.
   */
  function ListElementShape(dims: Dims): (shape: Shape)
    ensures |shape| == if |dims| == 0 then 1 else |dims|
    ensures shape[0] == -1
    ensures forall i :: 1 <= i < |dims| ==> shape[i] == dims[i]
  {
    var head: Shape := [-1];
    if |dims| == 0 then head else head + dims[1..]
  }

  /** `torch.prod(torch.LongTensor(dims))`: the element count, 1 for an empty size. */
  function Product(dims: Dims): nat
  {
    if dims == [] then 1 else dims[0] * Product(dims[1..])
  }

  /** The element count is zero exactly when some dimension is zero. */
  lemma {:induction false} ProductZero(dims: Dims)
    ensures Product(dims) == 0 <==> exists i :: 0 <= i < |dims| && dims[i] == 0
  {
    if dims != [] {
      ProductZero(dims[1..]);
      if Product(dims[1..]) == 0 {
        var i :| 0 <= i < |dims[1..]| && dims[1..][i] == 0;
        assert dims[i + 1] == 0;
      }
      if dims[0] != 0 && Product(dims[1..]) != 0 {
        forall i | 0 <= i < |dims| ensures dims[i] != 0 {
          if i > 0 { assert dims[i] == dims[1..][i - 1]; }
        }
      }
    }
  }
}
