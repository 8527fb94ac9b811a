/** The quantized-tensor runtime as the convolution module sees it: plain
    tensors (used as one-element containers for the output scale and zero
    point), affine-quantized tensors, `.item()` and `_empty_affine_quantized`.
    Python exceptions become a `Result` failure. */
module Runtime {

  datatype Option<+T> = None | Some(value: T)

  datatype Result<+T, +E> = Success(value: T) | Failure(error: E)

  /** The exceptions the module can raise, by Python class. */
  datatype PyError =
    | NotImplementedError(msg: string)
    | ValueError(msg: string)
    | RuntimeError(msg: string)
    | BackendError(msg: string)

  /** A Python number as `.item()` returns it: an `int` for an integer
      tensor, a `float` (abstracted to a real) for a floating-point one. */
  datatype Number = IntNum(i: int) | FloatNum(x: real)

  /** A plain (non-quantized) tensor, by its elements in row-major order.
      The element kind carries the dtype: `IntNum` for `torch.int`,
      `FloatNum` for the default floating-point dtype. */
  datatype Tensor = Tensor(elems: seq<Number>)

  /** `torch.Tensor([x])`, and `torch.Tensor([x]).to(torch.int)` when `x` is
      an `IntNum`: a one-element tensor holding `x`. */
  function ScalarTensor(x: Number): (t: Tensor)
  {
    Tensor([x])
  }

  const ItemMessage := "only one element tensors can be converted to Python scalars"

  /** `Tensor.item()`: the single element, or an error when the tensor does
      not hold exactly one element. */
  function Item(t: Tensor): (r: Result<Number, PyError>)
  {
    if |t.elems| == 1 then Success(t.elems[0]) else Failure(ValueError(ItemMessage))
  }

  /** Integer dtypes of quantized tensors. */
  datatype QDType = QInt8 | QUInt8 | QInt32

  /** An affine-quantized tensor: the element at each position represents
      `qscale * (value - qzeroPoint)`. `shape` is its size per dimension, so
      `|shape|` is its rank. */
  datatype QTensor = QTensor(
    dtype: QDType,
    shape: seq<nat>,
    qscale: real,
    qzeroPoint: int,
    values: seq<int>)

  /** Number of elements of a tensor of the given shape. */
  function Numel(shape: seq<nat>): (n: nat)
  {
    if shape == [] then 1 else shape[0] * Numel(shape[1..])
  }

  /** A shape of rank 1 or 4 holds the product of its sizes. */
  lemma NumelOfShape(a: nat, b: nat, c: nat, d: nat)
    ensures Numel([a]) == a
    ensures Numel([a, b, c, d]) == a * b * c * d
  {
    assert [a][1..] == [];
    assert [a, b, c, d][1..] == [b, c, d];
    assert [b, c, d][1..] == [c, d];
    assert [c, d][1..] == [d];
    assert [d][1..] == [];
    assert Numel([d]) == d;
    assert Numel([c, d]) == c * d;
    assert Numel([b, c, d]) == b * (c * d);
    assert Numel([a, b, c, d]) == a * (b * (c * d));
  }

  /** `torch._empty_affine_quantized(shape, scale, zero_point, dtype)`: a
      quantized tensor of that shape and quantization parameters. Its
      contents are uninitialised memory in the runtime; the model fills them
      with zeros. */
  function EmptyAffineQuantized(shape: seq<nat>, scale: real, zeroPoint: int, dtype: QDType): (t: QTensor)
  {
    QTensor(dtype, shape, scale, zeroPoint, seq(Numel(shape), _ => 0))
  }
}
