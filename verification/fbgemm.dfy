/** The fbgemm quantized-convolution backend, seen only through its
    interface: `fbgemm_conv_prepack`, `fbgemm_conv_unpack` and
    `fbgemm_conv2d`. The backend is foreign code, so the model takes it as a
    parameter, generic in the packed-weight representation `P`; what the
    module relies on is stated as the predicate `RoundTrips`. */
module Fbgemm {
  import opened Runtime

  /** The arguments of one `fbgemm_conv2d` invocation, in the order the
      module passes them. */
  datatype KernelCall<P> = KernelCall(
    input: QTensor,
    packedWeight: P,
    bias: QTensor,
    stride: (int, int),
    padding: (int, int),
    dilation: (int, int),
    groups: int,
    outputScale: Number,
    outputZeroPoint: Number)

  /** The three backend operations. `prepack(w, groups)` rearranges a
      logical weight into the packed form, `unpack` recovers it, and
      `conv2d` runs the quantized convolution (it may fail with a backend
      error, which the module propagates unchanged). */
  datatype Backend<!P> = Backend(
    prepack: (QTensor, int) -> P,
    unpack: P -> QTensor,
    conv2d: KernelCall<P> -> Result<QTensor, PyError>)

  /** The pack/unpack law: unpacking a packed weight gives back exactly the
      weight that was packed. */
  ghost predicate RoundTrips<P>(b: Backend<P>)
  {
    forall w: QTensor, groups: int :: b.unpack(b.prepack(w, groups)) == w
  }

  /** A backend whose packed form keeps the logical weight and the group
      count as they are; it shows that `RoundTrips` can be met. */
  function KeepingBackend(): (b: Backend<(QTensor, int)>)
  {
    Backend((w: QTensor, groups: int) => (w, groups), (p: (QTensor, int)) => p.0,
            (c: KernelCall<(QTensor, int)>) => Failure(BackendError("no kernel")))
  }

  lemma KeepingBackendRoundTrips()
    ensures RoundTrips(KeepingBackend())
  {
  }
}
