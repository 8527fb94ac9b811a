# Quantized Conv2d, modelled in Dafny

This project models PyTorch's quantized 2-D convolution module
(`torch/nn/quantized/modules/conv.py`). It has three modules:

- `Runtime` (`runtime.dfy`): the parts of the quantized-tensor runtime that the
  module uses.
  - Plain tensors, used as the one-element containers of the output scale and
    zero point.
  - `Tensor.item()`.
  - Affine-quantized tensors and `torch._empty_affine_quantized`.
  - Python exceptions, returned as `Result` failures.
- `Fbgemm` (`fbgemm.dfy`): the fbgemm backend. It is foreign code, so the
  model takes it as a value `Backend<P>` of three functions (`prepack`,
  `unpack`, `conv2d`), generic in the packed representation `P`.
  - The pack/unpack round-trip law, `unpack(prepack(w, g)) == w`, is the
    predicate `RoundTrips`. It is never assumed. Each property that depends on
    it is stated as `RoundTrips(backend) ==> …`.
  - `KeepingBackend` is an example backend that satisfies the law.
- `QuantizedConv` (`conv.dfy`):
  - the output-size formula `_conv_output_shape`;
  - the class `Conv2d`. Its state is the packed weight, the bias and the
    one-element scale and zero-point tensors. Its structural parameters are
    `const` fields.

The logical weight is never stored. `Weight()` unpacks `packedWeight`, and
`SetWeight` re-packs the weight and replaces `packedWeight`, touching nothing
else. Construction can fail, so it is the method `Create`. `Create` returns a
`Result`, and it rejects any padding mode other than `'zeros'` before it
allocates anything. `Forward` returns two values: the module's result, and
the kernel call it made (`None` when it made no backend call).

The `zero_point` setter stores a wrapped tensor exactly as given; only a
plain number is converted to an integer tensor, so a wrapped floating-point
tensor reads back as a float.

## Model

| member | source | states |
|---|---|---|
| `QuantizedConv.ConvOutputShapeStandard` | torch/nn/quantized/modules/conv.py:18-21 | with output padding 0 the formula equals `(input + 2*padding - dilation*(kernel-1) - 1) / stride + 1`, floor division with a positive stride |
| `QuantizedConv.OutputCountsWindows` | torch/nn/quantized/modules/conv.py:18-21 | if a dilated kernel, spanning `dilation*(kernel-1)+1` elements, fits in the padded input, the output size (output padding 0) equals `WindowCount`. `WindowCount` counts one by one the positions, `stride` apart, at which the kernel fits. If the kernel does not fit, there is no such position, and the formula gives 0 or a negative size |
| `QuantizedConv.WindowCountClosedForm` | torch/nn/quantized/modules/conv.py:18-21 | the positions counted one by one by `WindowCount` number `(length - span) / stride + 1` whenever the window fits at all, the division form the formula uses |
| `QuantizedConv.OutputNonEmpty` | torch/nn/quantized/modules/conv.py:18-21 | the output size is at least 1 exactly when one dilated kernel fits in the padded input |
| `QuantizedConv.WorkedExamples` | torch/nn/quantized/modules/conv.py:18-21 | input 8, kernel 3, padding 1, stride 1 gives 8; input 7, kernel 3, padding 0, stride 2 gives 3 |
| `QuantizedConv.Create` | torch/nn/quantized/modules/conv.py:26-63 | fails with `NotImplementedError` exactly when the padding mode is not `'zeros'`, for every other argument, before anything is allocated; otherwise returns a fresh module in its initial state (`Built`) |
| `QuantizedConv.Conv2d.constructor` | torch/nn/quantized/modules/conv.py:32-63 | pairs for the spatial arguments, `transposed` false, output padding `(0, 0)`; packed weight is the packing of the placeholder weight with `groups`; placeholder bias; scale tensor `[1.0]`; integer zero-point tensor `[0]` |
| `QuantizedConv.BuiltState` | torch/nn/quantized/modules/conv.py:52-63 | a newly built module: scalar arguments become pairs; `scale` reads 1.0 and `zero_point` reads the integer 0; bias is a 32-bit vector of `out_channels` values; under the round-trip law the weight has shape `[out_channels, kh, kw, in_channels // groups]` and that many values in all, is 8-bit, and has scale 1 and zero point 0 |
| `QuantizedConv.Conv2d.SetWeight` | torch/nn/quantized/modules/conv.py:65-71 | the packed buffer becomes `prepack(w, groups)`; bias, scale and zero point are unchanged; under the round-trip law reading `weight` back gives `w` |
| `QuantizedConv.StoredScale` | torch/nn/quantized/modules/conv.py:77-82 | a wrapped tensor is stored unchanged; a plain number is stored so that `.item()` returns it as a float |
| `QuantizedConv.Conv2d.SetScale` | torch/nn/quantized/modules/conv.py:73-82 | only the scale tensor changes; after a plain `s`, `scale` reads `s`; a wrapped tensor is stored as given |
| `QuantizedConv.StoredZeroPoint` | torch/nn/quantized/modules/conv.py:88-93 | a wrapped tensor is stored unchanged; a plain integer is stored so that `.item()` returns it as an integer |
| `QuantizedConv.Conv2d.SetZeroPoint` | torch/nn/quantized/modules/conv.py:84-93 | only the zero-point tensor changes; after a plain `zp`, `zero_point` reads the integer `zp`; a wrapped tensor is stored as given |
| `QuantizedConv.ZeroPointPathsAgree` | torch/nn/quantized/modules/conv.py:84-93 | setting the integer `z` and setting a wrapped one-element tensor holding `z` read back the same value, `z` |
| `QuantizedConv.Conv2d.Forward` | torch/nn/quantized/modules/conv.py:95-103 | rank other than 4: `ValueError` and no kernel call. Rank 4: a stored scale or zero point that is not a one-element tensor makes `.item()` raise `ValueError`, with no call. Otherwise exactly one kernel call, whose arguments are the input and the module's current packed weight, bias, stride, padding, dilation, groups, scale and zero point; the kernel's result or error is returned unchanged; no state changes |

## Left out

- The fbgemm backend is a parameter. Its convolution arithmetic, accumulation
  and requantization are not modelled.
  - The model does not show that the output tensor carries the module's scale
    and zero point. It does not show that the output's spatial size follows
    `ConvOutputShape`. Both are promises of the kernel. The model shows only
    that the kernel receives the module's current values.
  - `prepack` and `unpack` are total functions. Backend errors they might
    raise are not modelled. Only `conv2d` may fail.
  - The round-trip law is a hypothesis on each property that needs it, not a
    fact.
- Create: the parent class `_ConvNd` (torch/nn/modules/conv.py) is not part
  of this model, and its rejections are not modelled as failures. The model
  requires, as conditions under which the parent succeeds, that groups is
  positive and divides both channel counts, that there is at least one input
  and at least one output channel, and that each kernel size is at least 1
  (so that its weight initialisation can index the first filter and has a
  non-zero fan-in). The parent may reject further arguments; those are not
  modelled.
  This assumption is a precondition of `Create` that applies only when the
  padding mode is `'zeros'`, since the padding mode is checked first.
- `_pair` (torch/nn/modules/utils.py) is not part of this model; `ToPair`
  covers only a scalar or a pair.
- SetScale and SetZeroPoint store a wrapped tensor by value, not by reference.
  The source stores the caller's tensor object itself, so a later in-place
  change to that tensor changes what `scale` and `zero_point` read and what
  `forward` passes to the kernel; the model cannot show this aliasing.
- Floating point is not modelled.
  - Scales are reals.
  - The float32 storage of `torch.Tensor([zp])` before its cast to `int` is
    not modelled. Neither is the truncation of a non-integer zero point: the
    plain zero-point argument is an integer.
  - `ConvOutputShape` returns an integer, where `np.floor` returns a float.
- Plain tensors are modelled by their elements only. Their shape is not
  modelled, because `.item()` depends only on the element count.
- The contents of `_empty_affine_quantized` are uninitialised memory in the
  runtime. The model fills them with zeros.
- The `bias` constructor argument is accepted and ignored, as in the source: a
  bias is always present.
- Buffer registration and serialization (`register_buffer`) are not modelled,
  and neither are the JIT decorators `weak_module` and `weak_script_method`.
  Concurrent use of one module is not modelled either.
- `aten/src/ATen/native/cpu/BinaryOpsKernel.cpp` (SIMD arithmetic kernels) and
  `torch/nn/quantized/modules/__init__.py` (re-exports) are not part of this
  model.
