/** The quantized 2-D convolution module: the output-size formula and the
    `Conv2d` module, whose only stored form of the weight is the packed
    buffer produced by the backend. */
module QuantizedConv {
  import opened Runtime
  import opened Fbgemm

  // ---------------------------------------------------------------------
  // Output-size formula
  // ---------------------------------------------------------------------

  /** `_conv_output_shape`, as written: the floor of the division becomes
      Euclidean division, which agrees with it because the stride is
      positive. */
  function ConvOutputShape(inputSize: int, kernelSize: int, padding: int, stride: int,
                           dilation: int, outputPadding: int): (size: int)
    requires stride > 0
  {
    (inputSize + 2 * padding - kernelSize - (kernelSize - 1) * (dilation - 1)) / stride
      + 2 * outputPadding + 1
  }

  /** With no output padding the formula is the standard one,
      `(input + 2*padding - dilation*(kernel-1) - 1) / stride + 1`. */
  lemma ConvOutputShapeStandard(inputSize: int, kernelSize: int, padding: int, stride: int, dilation: int)
    requires stride > 0
    ensures ConvOutputShape(inputSize, kernelSize, padding, stride, dilation, 0)
            == (inputSize + 2 * padding - dilation * (kernelSize - 1) - 1) / stride + 1
  {
  }

  /** Reference count of output positions: windows of `span` elements,
      slid from offset 0 by `stride`, that fit in `length` elements. */
  function WindowCount(length: int, span: int, stride: int): (n: nat)
    requires stride > 0
    decreases length - span
  {
    if length < span then 0 else 1 + WindowCount(length - stride, span, stride)
  }

  lemma DivUnique(a: int, stride: int, q: int, r: int)
    requires stride > 0 && 0 <= r < stride && a == q * stride + r
    ensures a / stride == q
  {
    var q', r' := a / stride, a % stride;
    assert (q - q') * stride == r' - r;
    if q > q' {
      MulAtLeast(q - q', stride);
    } else if q < q' {
      MulAtLeast(q' - q, stride);
    }
  }

  lemma MulAtLeast(k: int, stride: int)
    requires k >= 1 && stride > 0
    ensures k * stride >= stride
  {
    assert k * stride == (k - 1) * stride + stride;
  }

  lemma DivStep(a: int, stride: int)
    requires stride > 0
    ensures (a - stride) / stride == a / stride - 1
  {
    DivUnique(a - stride, stride, a / stride - 1, a % stride);
  }

  lemma {:induction false} WindowCountClosedForm(length: int, span: int, stride: int)
    requires stride > 0
    ensures length >= span ==> WindowCount(length, span, stride) == (length - span) / stride + 1
    decreases length - span
  {
    if length >= span {
      WindowCountClosedForm(length - stride, span, stride);
      DivStep(length - span, stride);
    }
  }

  /** What the formula counts: whenever a dilated kernel, spanning
      `dilation * (kernel - 1) + 1` elements, fits in the padded input, the
      output size is the number of positions, `stride` apart, at which it
      fits. When it does not fit there is no such position, and the formula
      gives zero or a negative size. */
  lemma OutputCountsWindows(inputSize: int, kernelSize: int, padding: int, stride: int, dilation: int)
    requires stride > 0
    ensures dilation * (kernelSize - 1) + 1 <= inputSize + 2 * padding ==>
              ConvOutputShape(inputSize, kernelSize, padding, stride, dilation, 0)
              == WindowCount(inputSize + 2 * padding, dilation * (kernelSize - 1) + 1, stride)
    ensures dilation * (kernelSize - 1) + 1 > inputSize + 2 * padding ==>
              && ConvOutputShape(inputSize, kernelSize, padding, stride, dilation, 0) <= 0
              && WindowCount(inputSize + 2 * padding, dilation * (kernelSize - 1) + 1, stride) == 0
  {
    ConvOutputShapeStandard(inputSize, kernelSize, padding, stride, dilation);
    WindowCountClosedForm(inputSize + 2 * padding, dilation * (kernelSize - 1) + 1, stride);
  }

  /** The output is non-empty exactly when one dilated kernel fits in the
      padded input. */
  lemma OutputNonEmpty(inputSize: int, kernelSize: int, padding: int, stride: int, dilation: int)
    requires stride > 0
    ensures ConvOutputShape(inputSize, kernelSize, padding, stride, dilation, 0) >= 1
            <==> dilation * (kernelSize - 1) + 1 <= inputSize + 2 * padding
  {
    OutputCountsWindows(inputSize, kernelSize, padding, stride, dilation);
  }

  /** Two worked cases: 8 with kernel 3, padding 1, stride 1 stays 8; 7 with
      kernel 3, no padding, stride 2 becomes 3. */
  lemma WorkedExamples()
    ensures ConvOutputShape(8, 3, 1, 1, 1, 0) == 8
    ensures ConvOutputShape(7, 3, 0, 2, 1, 0) == 3
  {
  }

  // ---------------------------------------------------------------------
  // Construction arguments
  // ---------------------------------------------------------------------

  /** A convolution argument given either as one integer or as a pair. */
  datatype IntOrPair = Scalar(n: int) | Pair(first: int, second: int)

  /** `_pair`: a single integer is used for both spatial dimensions. */
  function ToPair(x: IntOrPair): (r: (int, int))
  {
    match x
    case Scalar(n) => (n, n)
    case Pair(a, b) => (a, b)
  }

  /** A value for the `scale` or `zero_point` setter: a plain Python number
      or an already wrapped tensor (the `isinstance(_, torch.Tensor)` test). */
  datatype ScalarArg<T> = Plain(value: T) | Wrapped(tensor: Tensor)

  /** What the `scale` setter stores: a wrapped tensor as it is, a plain
      number in a new one-element floating-point tensor. */
  function StoredScale(s: ScalarArg<real>): (t: Tensor)
    ensures s.Wrapped? ==> t == s.tensor
    ensures s.Plain? ==> Item(t) == Success(FloatNum(s.value))
  {
    match s
    case Plain(x) => ScalarTensor(FloatNum(x))
    case Wrapped(w) => w
  }

  /** What the `zero_point` setter stores: a wrapped tensor as it is, a
      plain integer in a new one-element integer tensor. */
  function StoredZeroPoint(zp: ScalarArg<int>): (t: Tensor)
    ensures zp.Wrapped? ==> t == zp.tensor
    ensures zp.Plain? ==> Item(t) == Success(IntNum(zp.value))
  {
    match zp
    case Plain(z) => ScalarTensor(IntNum(z))
    case Wrapped(w) => w
  }

  /** Setting the zero point to the integer `z`, or to a wrapped tensor
      whose one element is the integer `z`, reads back the same. */
  lemma ZeroPointPathsAgree(z: int, t: Tensor)
    requires Item(t) == Success(IntNum(z))
    ensures Item(StoredZeroPoint(Plain(z))) == Item(StoredZeroPoint(Wrapped(t))) == Success(IntNum(z))
  {
  }

  const ZeroPaddingOnly := "Currently only zero-padding is supported!"
  const RankMessage := "Input shape must be `(N, C, H, W)`!"

  /** What the model requires for the parent convolution class to succeed:
      a positive group count dividing both channel counts, at least one
      input and one output channel, and a kernel of at least one element per
      dimension, so that the parent's weight initialisation can index the
      weight's first filter and has a non-zero fan-in. */
  predicate ParentAccepts(inChannels: nat, outChannels: nat, kernelSize: (int, int), groups: nat)
  {
    && groups > 0
    && inChannels % groups == 0
    && outChannels % groups == 0
    && inChannels >= 1
    && outChannels >= 1
    && kernelSize.0 >= 1
    && kernelSize.1 >= 1
  }

  /** The placeholder weight built at construction: layout
      `[out_channels, kh, kw, in_channels / groups]`, 8-bit, scale 1, zero
      point 0. */
  function PlaceholderWeight(inChannels: nat, outChannels: nat, kernelSize: (int, int), groups: nat): (w: QTensor)
    requires ParentAccepts(inChannels, outChannels, kernelSize, groups)
  {
    EmptyAffineQuantized([outChannels, kernelSize.0, kernelSize.1, inChannels / groups], 1.0, 0, QInt8)
  }

  /** The placeholder bias: `out_channels` 32-bit values, scale 1, zero
      point 0. */
  function PlaceholderBias(outChannels: nat): (b: QTensor)
  {
    EmptyAffineQuantized([outChannels], 1.0, 0, QInt32)
  }

  // ---------------------------------------------------------------------
  // The module
  // ---------------------------------------------------------------------

  /** `Conv2d`: the packed weight, the bias, and the one-element tensors
      holding the output scale and zero point are its state. The logical
      weight is not stored: it is read by unpacking `packedWeight`. */
  class Conv2d<P> {
    const backend: Backend<P>
    const inChannels: nat
    const outChannels: nat
    const kernelSize: (int, int)
    const stride: (int, int)
    const padding: (int, int)
    const dilation: (int, int)
    const transposed: bool
    const outputPadding: (int, int)
    const groups: nat
    const paddingMode: string

    var packedWeight: P
    var bias: QTensor
    var scaleBuffer: Tensor
    var zeroPointBuffer: Tensor

    /** The state `__init__` leaves behind for these arguments. */
    ghost predicate Built(backend: Backend<P>, inChannels: nat, outChannels: nat, kernelSize: IntOrPair,
                    stride: IntOrPair, padding: IntOrPair, dilation: IntOrPair, groups: nat)
      reads this
    {
      && this.backend == backend
      && this.inChannels == inChannels
      && this.outChannels == outChannels
      && this.kernelSize == ToPair(kernelSize)
      && this.stride == ToPair(stride)
      && this.padding == ToPair(padding)
      && this.dilation == ToPair(dilation)
      && this.groups == groups
      && !this.transposed
      && this.outputPadding == (0, 0)
      && this.paddingMode == "zeros"
      && ParentAccepts(inChannels, outChannels, this.kernelSize, groups)
      && packedWeight == backend.prepack(PlaceholderWeight(inChannels, outChannels, this.kernelSize, groups), groups)
      && bias == PlaceholderBias(outChannels)
      && scaleBuffer == ScalarTensor(FloatNum(1.0))
      && zeroPointBuffer == ScalarTensor(IntNum(0))
    }

    /** `__init__` once the padding mode has been accepted (see `Create`).
        The `bias` argument is ignored: a bias is always present. */
    constructor(backend: Backend<P>, inChannels: nat, outChannels: nat, kernelSize: IntOrPair,
                stride: IntOrPair, padding: IntOrPair, dilation: IntOrPair, groups: nat,
                biasRequested: bool, paddingMode: string)
      requires paddingMode == "zeros"
      requires ParentAccepts(inChannels, outChannels, ToPair(kernelSize), groups)
      ensures Built(backend, inChannels, outChannels, kernelSize, stride, padding, dilation, groups)
    {
      this.backend := backend;
      this.inChannels := inChannels;
      this.outChannels := outChannels;
      this.kernelSize := ToPair(kernelSize);
      this.stride := ToPair(stride);
      this.padding := ToPair(padding);
      this.dilation := ToPair(dilation);
      this.transposed := false;
      this.outputPadding := ToPair(Scalar(0));
      this.groups := groups;
      this.paddingMode := paddingMode;
      var qweight := PlaceholderWeight(inChannels, outChannels, ToPair(kernelSize), groups);
      var qbias := PlaceholderBias(outChannels);
      this.packedWeight := backend.prepack(qweight, groups);
      this.bias := qbias;
      this.scaleBuffer := ScalarTensor(FloatNum(1.0));
      this.zeroPointBuffer := ScalarTensor(IntNum(0));
    }

    /** The `weight` property: the logical weight, unpacked on each read. */
    function Weight(): (w: QTensor)
      reads this
    {
      backend.unpack(packedWeight)
    }

    /** The `scale` property: `.item()` of the stored scale tensor. */
    function Scale(): (s: Result<Number, PyError>)
      reads this
    {
      Item(scaleBuffer)
    }

    /** The `zero_point` property: `.item()` of the stored zero-point tensor. */
    function ZeroPoint(): (zp: Result<Number, PyError>)
      reads this
    {
      Item(zeroPointBuffer)
    }

    /** The `weight` setter: re-packs `w` with the module's group count and
        replaces the packed buffer, and nothing else. Under the backend's
        round-trip law, reading the weight back gives `w`. */
    method SetWeight(w: QTensor)
      modifies this`packedWeight
      ensures packedWeight == backend.prepack(w, groups)
      ensures unchanged(this`bias, this`scaleBuffer, this`zeroPointBuffer)
      ensures RoundTrips(backend) ==> Weight() == w
    {
      packedWeight := backend.prepack(w, groups);
    }

    /** The `scale` setter. A plain number reads back as itself; a wrapped
        tensor is stored unchanged. */
    method SetScale(s: ScalarArg<real>)
      modifies this`scaleBuffer
      ensures scaleBuffer == StoredScale(s)
      ensures unchanged(this`packedWeight, this`bias, this`zeroPointBuffer)
      ensures s.Plain? ==> Scale() == Success(FloatNum(s.value))
      ensures s.Wrapped? ==> scaleBuffer == s.tensor
    {
      if s.Wrapped? {
        scaleBuffer := s.tensor;
      } else {
        scaleBuffer := ScalarTensor(FloatNum(s.value));
      }
    }

    /** The `zero_point` setter. A plain integer reads back as that integer
        (the stored tensor is integer-typed); a wrapped tensor is stored
        unchanged, without conversion. */
    method SetZeroPoint(zp: ScalarArg<int>)
      modifies this`zeroPointBuffer
      ensures zeroPointBuffer == StoredZeroPoint(zp)
      ensures unchanged(this`packedWeight, this`bias, this`scaleBuffer)
      ensures zp.Plain? ==> ZeroPoint() == Success(IntNum(zp.value))
      ensures zp.Wrapped? ==> zeroPointBuffer == zp.tensor
    {
      if zp.Wrapped? {
        zeroPointBuffer := zp.tensor;
      } else {
        zeroPointBuffer := ScalarTensor(IntNum(zp.value));
      }
    }

    /** `forward`. `call` is the kernel invocation made, if any. An input of
        rank other than 4 fails before any kernel call; so does a stored
        scale or zero point that is not a one-element tensor. Otherwise the
        kernel receives exactly the module's current state, and its result,
        success or error, is returned unchanged. The module is not modified. */
    method Forward(input: QTensor) returns (out: Result<QTensor, PyError>, call: Option<KernelCall<P>>)
      ensures call.Some? <==> |input.shape| == 4 && Scale().Success? && ZeroPoint().Success?
      ensures |input.shape| != 4 ==> out == Failure(ValueError(RankMessage))
      ensures |input.shape| == 4 && (Scale().Failure? || ZeroPoint().Failure?) ==>
                out == Failure(ValueError(ItemMessage))
      ensures call.Some? ==>
                && call.value == KernelCall(input, packedWeight, bias, stride, padding, dilation, groups,
                                            Scale().value, ZeroPoint().value)
                && out == backend.conv2d(call.value)
    {
      if |input.shape| != 4 {
        return Failure(ValueError(RankMessage)), None;
      }
      var s := Scale();
      if s.Failure? {
        return Failure(s.error), None;
      }
      var z := ZeroPoint();
      if z.Failure? {
        return Failure(z.error), None;
      }
      var c := KernelCall(input, packedWeight, bias, stride, padding, dilation, groups, s.value, z.value);
      call := Some(c);
      out := backend.conv2d(c);
    }
  }

  /** What a freshly built module exposes: pairs for every spatial argument,
      a scale reading 1 and a zero point reading 0, a bias of
      `out_channels` values and, under the round-trip law, a placeholder
      weight of layout `[out_channels, kh, kw, in_channels / groups]` with
      scale 1 and zero point 0. */
  lemma BuiltState<P>(m: Conv2d<P>, backend: Backend<P>, inChannels: nat, outChannels: nat,
                      kernelSize: IntOrPair, stride: IntOrPair, padding: IntOrPair,
                      dilation: IntOrPair, groups: nat)
    requires m.Built(backend, inChannels, outChannels, kernelSize, stride, padding, dilation, groups)
    ensures stride.Scalar? ==> m.stride == (stride.n, stride.n)
    ensures padding.Scalar? ==> m.padding == (padding.n, padding.n)
    ensures dilation.Scalar? ==> m.dilation == (dilation.n, dilation.n)
    ensures kernelSize.Scalar? ==> m.kernelSize == (kernelSize.n, kernelSize.n)
    ensures m.Scale() == Success(FloatNum(1.0))
    ensures m.ZeroPoint() == Success(IntNum(0))
    ensures m.bias.shape == [outChannels] && m.bias.dtype == QInt32 && |m.bias.values| == outChannels
    ensures RoundTrips(backend) ==>
              && m.Weight().shape == [outChannels, m.kernelSize.0, m.kernelSize.1, inChannels / groups]
              && m.Weight().dtype == QInt8
              && m.Weight().qscale == 1.0
              && m.Weight().qzeroPoint == 0
              && |m.Weight().values| == outChannels * m.kernelSize.0 * m.kernelSize.1 * (inChannels / groups)
  {
    NumelOfShape(outChannels, m.kernelSize.0, m.kernelSize.1, inChannels / groups);
  }

  /** `Conv2d(...)`: any padding mode other than `'zeros'` is rejected with
      `NotImplementedError` before anything is built; otherwise a new
      module in its initial state. */
  method Create<P>(backend: Backend<P>, inChannels: nat, outChannels: nat, kernelSize: IntOrPair,
                   stride: IntOrPair, padding: IntOrPair, dilation: IntOrPair, groups: nat,
                   biasRequested: bool, paddingMode: string)
    returns (r: Result<Conv2d<P>, PyError>)
    requires paddingMode == "zeros" ==> ParentAccepts(inChannels, outChannels, ToPair(kernelSize), groups)
    ensures r.Failure? <==> paddingMode != "zeros"
    ensures r.Failure? ==> r.error == NotImplementedError(ZeroPaddingOnly)
    ensures r.Success? ==>
              && fresh(r.value)
              && r.value.Built(backend, inChannels, outChannels, kernelSize, stride, padding, dilation, groups)
  {
    if paddingMode != "zeros" {
      return Failure(NotImplementedError(ZeroPaddingOnly));
    }
    var m := new Conv2d(backend, inChannels, outChannels, kernelSize, stride, padding, dilation, groups,
                        biasRequested, paddingMode);
    r := Success(m);
  }
}
